/** What the test runner asks of the container runtime: a request to start one container, built
    step by step the way testcontainers' `GenericImage`/`ImageExt` calls build it, and how a
    container's network aliases resolve. */
module Containers {
  import opened Base
  import opened Environment

  /** A container's address on the bridge network, as the runtime reports it. */
  datatype IpAddr = IpAddr(text: string)

  /** Where a network alias points: the machine running the tests, or a container address. */
  datatype Host = HostGateway | Addr(ip: IpAddr)

  /** One `with_host(name, host)` call. */
  datatype Alias = Alias(name: string, host: Host)

  /** A readiness condition: the fixed "message on stdout" one the runner writes itself, or one
      configured by the user, whose type `W` is foreign. */
  datatype Readiness<W> = MessageOnStdout(message: string) | Configured(condition: W)

  /** The configuration of one container start: image and tag, the exposed ports, the readiness
      conditions, the network aliases and the environment variables, each list in call order. */
  datatype ContainerRequest<W> = ContainerRequest(
    image: string,
    tag: string,
    exposedPorts: seq<uint16>,
    waits: seq<Readiness<W>>,
    hosts: seq<Alias>,
    envs: seq<Variable>)
  {
    function WithExposedPort(port: uint16): (r: ContainerRequest<W>) {
      this.(exposedPorts := exposedPorts + [port])
    }

    function WithWaitFor(wait: Readiness<W>): (r: ContainerRequest<W>) {
      this.(waits := waits + [wait])
    }

    function WithHost(name: string, host: Host): (r: ContainerRequest<W>) {
      this.(hosts := hosts + [Alias(name, host)])
    }

    function WithEnvVar(name: string, value: string): (r: ContainerRequest<W>) {
      this.(envs := envs + [New(name, value)])
    }
  }

  /** `GenericImage::new(image, tag)`: nothing configured yet. */
  function NewImage<W>(image: string, tag: string): (r: ContainerRequest<W>) {
    ContainerRequest(image, tag, [], [], [], [])
  }

  /** The host an alias name resolves to when later registrations override earlier ones (the
      runtime keeps one entry per name; the last `with_host` call for a name wins). */
  function Resolve(hosts: seq<Alias>, name: string): (h: Option<Host>)
    decreases |hosts|
  {
    if hosts == [] then None
    else if hosts[|hosts| - 1].name == name then Some(hosts[|hosts| - 1].host)
    else Resolve(hosts[..|hosts| - 1], name)
  }

  /** A name resolves to the host of its last registration. */
  lemma {:induction false} ResolveFindsLast(hosts: seq<Alias>, name: string, j: nat)
    requires j < |hosts| && hosts[j].name == name
    requires forall k :: j < k < |hosts| ==> hosts[k].name != name
    ensures Resolve(hosts, name) == Some(hosts[j].host)
    decreases |hosts|
  {
    if j < |hosts| - 1 {
      ResolveFindsLast(hosts[..|hosts| - 1], name, j);
    }
  }

  /** A name resolves to nothing exactly when it was never registered. */
  lemma {:induction false} ResolveAbsent(hosts: seq<Alias>, name: string)
    ensures Resolve(hosts, name).None? <==> forall k :: 0 <= k < |hosts| ==> hosts[k].name != name
    decreases |hosts|
  {
    if hosts != [] {
      var init := hosts[..|hosts| - 1];
      ResolveAbsent(init, name);
      assert forall k :: 0 <= k < |init| ==> init[k] == hosts[k];
    }
  }

  /** What the runtime reports about a running container: its bridge address, the host port it
      maps each container port to, and the host name under which those ports are reached. Every
      lookup can fail. */
  datatype Endpoints = Endpoints(
    bridgeIp: Result<IpAddr, Error>,
    hostPort: uint16 -> Result<uint16, Error>,
    host: Result<string, Error>)

  /** The runtime's answer to a start request. */
  datatype Answer = Refused(error: Error) | Running(endpoints: Endpoints)

  /** A handle on a started container; `id` is the number of the start request that created it. */
  datatype Container = Container(id: nat, endpoints: Endpoints)
}
