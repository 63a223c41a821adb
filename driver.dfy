/** The collaborators of the test runner seen as one driver object: the container runtime, the
    WebDriver endpoint, standard output, and the call into a test function. Their answers are
    inputs fixed at construction; what the runner asks of them is recorded in a trace. */
module ContainerDriver {
  import opened Base
  import opened Containers
  import Decimal

  /** An `http://{host}:{port}` URL, as the runner formats it. */
  datatype HttpUrl = HttpUrl(host: string, port: uint16)
  {
    /** The URL as text: the scheme, the host, a colon and the port in decimal. */
    function Text(): (s: string) {
      "http://" + host + ":" + Decimal.Format(port)
    }
  }

  /** The text of a URL names its host and its port: after `http://`, the host and a colon
      come the digits of the port, which read back as the port. */
  lemma TextNamesHostAndPort(u: HttpUrl)
    ensures var t := u.Text(); var k := 7 + |u.host| + 1;
      && |t| > k && t[..k] == "http://" + u.host + ":"
      && Decimal.IsDigits(t[k..]) && Decimal.Parse(t[k..]) == u.port
  {
    var k := 7 + |u.host| + 1;
    Decimal.ParseFormat(u.port);
    assert u.Text()[k..] == Decimal.Format(u.port);
  }

  /** The WebDriver client handed to a test: the application's base URL and the URL of the
      WebDriver session it drives. */
  datatype Client = Client(baseUrl: HttpUrl, webDriver: HttpUrl)

  /** One observable step of the runner. */
  datatype Event<W> =
    | Printed(line: string)
    | Started(request: ContainerRequest<W>)
    | SessionRequested(url: HttpUrl)
    | Invoked(client: Client)

  /** How many container start requests a sequence of events holds. */
  function StartCount<W>(events: seq<Event<W>>): (n: nat)
    ensures n <= |events|
    decreases |events|
  {
    if events == [] then 0
    else StartCount(events[..|events| - 1]) + (if events[|events| - 1].Started? then 1 else 0)
  }

  /** How many WebDriver session requests a sequence of events holds. */
  function SessionCount<W>(events: seq<Event<W>>): (n: nat)
    ensures n <= |events|
    decreases |events|
  {
    if events == [] then 0
    else SessionCount(events[..|events| - 1]) + (if events[|events| - 1].SessionRequested? then 1 else 0)
  }

  /** The requests of two stretches of a trace add up. */
  lemma {:induction false} CountsAppend<W>(a: seq<Event<W>>, b: seq<Event<W>>)
    ensures StartCount(a + b) == StartCount(a) + StartCount(b)
    ensures SessionCount(a + b) == SessionCount(a) + SessionCount(b)
    decreases |b|
  {
    if b != [] {
      var init := b[..|b| - 1];
      assert (a + b)[..|a + b| - 1] == a + init;
      CountsAppend(a, init);
    } else {
      assert a + b == a;
    }
  }

  /** The collaborators' answers are fixed at construction; their state is the trace of what was
      asked of them and how many start and session requests were made, so that the answer to a
      request is the one its number selects. */
  class Driver<W> {
    /** The runtime's answer to its n-th start request. */
    const answers: nat -> Answer
    /** Whether the WebDriver endpoint accepts its n-th session request. */
    const sessions: nat -> bool
    var trace: seq<Event<W>>
    /** How many containers were asked to start. */
    var starts: nat
    /** How many WebDriver sessions were asked for. */
    var sessionRequests: nat

    constructor (answers: nat -> Answer, sessions: nat -> bool)
      ensures this.answers == answers && this.sessions == sessions
      ensures trace == [] && starts == 0 && sessionRequests == 0
    {
      this.answers, this.sessions := answers, sessions;
      trace, starts, sessionRequests := [], 0, 0;
    }

    /** Start a container (`start().await`), including the wait for its readiness conditions. */
    method Start(request: ContainerRequest<W>) returns (r: Result<Container, Error>)
      modifies this
      ensures trace == old(trace) + [Started(request)]
      ensures starts == old(starts) + 1 && sessionRequests == old(sessionRequests)
      ensures match answers(old(starts))
        case Refused(e) => r == Err(e)
        case Running(ep) => r == Ok(Container(old(starts), ep))
    {
      match answers(starts) {
        case Refused(e) => r := Err(e);
        case Running(ep) => r := Ok(Container(starts, ep));
      }
      trace := trace + [Started(request)];
      starts := starts + 1;
    }

    /** Open a WebDriver session at `url`. */
    method Connect(url: HttpUrl) returns (accepted: bool)
      modifies this
      ensures trace == old(trace) + [SessionRequested(url)]
      ensures starts == old(starts) && sessionRequests == old(sessionRequests) + 1
      ensures accepted == sessions(old(sessionRequests))
    {
      accepted := sessions(sessionRequests);
      trace := trace + [SessionRequested(url)];
      sessionRequests := sessionRequests + 1;
    }

    /** `println!`. */
    method Println(line: string)
      modifies this
      ensures trace == old(trace) + [Printed(line)]
      ensures starts == old(starts) && sessionRequests == old(sessionRequests)
    {
      trace := trace + [Printed(line)];
    }

    /** Call a test function with its client. */
    method Invoke(test: Client -> Result<(), Error>, client: Client) returns (result: Result<(), Error>)
      modifies this
      ensures trace == old(trace) + [Invoked(client)]
      ensures starts == old(starts) && sessionRequests == old(sessionRequests)
      ensures result == test(client)
    {
      result := test(client);
      trace := trace + [Invoked(client)];
    }
  }
}
