# doco: a verified model of the per-test provisioning plan

Doco runs end-to-end tests of a web application in throw-away Docker containers. A suite is
configured by a `Doco` value: one `Server` (image, tag, port, optional wait condition) and an
ordered list of `Service`s (image, tag, environment `Variable`s, optional wait condition). A
`TestRunner` starts one Selenium container at initialisation. Then, for every test, it does the
following:

- It starts the services in declared order. Each service gets its variables, its wait condition
  and an alias `doco` for the host.
- Each service's bridge address is added to the server's configuration as an alias under the
  service's image name.
- It starts the server with `host.docker.internal` mapped to the host and exactly its port
  exposed.
- It connects a WebDriver client to Selenium, prints the test name and calls the test with a
  client whose base URL is parsed from the text `http://host.docker.internal:<mapped port>`.

Any failure ends the run with that error.

The model has these parts:

- The configuration records and their builders: `environment.dfy`, `server.dfy`,
  `service.dfy`, `doco.dfy`. The `env` and `service` mutators append to a list in place, so
  those builders are classes.
- The container requests the runner builds: `containers.dfy`.
- The collaborators as one driver object: `driver.dfy`. The answers of the container runtime
  and of the WebDriver endpoint are inputs fixed at construction. Every start request, session
  request, printed line and test call is appended to a trace.
- The runner itself: `test_runner.dfy`.
  - `Run` is an imperative method with the service loop of `run`.
  - It is proved against `Provision`, a declarative plan of what one run asks of the driver and
    how it ends.
  - The ordering, alias, early-exit and test-call properties are lemmas about that plan.
- The decimal rendering of ports in URLs: `decimal.dfy`.

`WaitFor` is a foreign type and appears as the type parameter `W`.

## Model

| member | source | states |
|---|---|---|
| Environment.New | crates/doco/src/environment.rs:33-38 | `name()` and `value()` of `Variable::new(n, v)` give back exactly `n` and `v` |
| Environment.EqualityIsFieldwise | crates/doco/src/environment.rs:16-27 | two variables are equal exactly when names and values are equal; rebuilding a variable from its own fields gives the same variable (so `&str` and `String` inputs with the same contents agree) |
| ServerConfig.Builder | crates/doco/src/server.rs:11-31 | a fresh server builder has nothing set and `wait` unset |
| ServerConfig.ServerBuilder.Image | crates/doco/src/server.rs:13-16 | `image(s)` sets the image and leaves tag, port and wait as they were |
| ServerConfig.ServerBuilder.Tag | crates/doco/src/server.rs:18-21 | `tag(s)` sets the tag and leaves image, port and wait as they were |
| ServerConfig.ServerBuilder.Port | crates/doco/src/server.rs:23-25 | `port(p)` sets the port to any `u16`, 0 included, and leaves image, tag and wait as they were |
| ServerConfig.ServerBuilder.Wait | crates/doco/src/server.rs:27-30 | `wait(w)` sets the readiness condition and leaves image, tag and port as they were |
| ServerConfig.ServerBuilder.Build | crates/doco/src/server.rs:11-31 | `image()`, `tag()`, `port()` and `wait()` of the built server return exactly what was given to the builder |
| ServerConfig.BuiltWithoutWait | crates/doco/src/server.rs:23-30 | without a `wait` call the server's wait is `None`; the port is a `u16` in 0..65535 and 0 is not rejected |
| ServiceConfig.Default | crates/doco/src/service.rs:32 | `Service::default()` has empty image and tag, no variables and no wait |
| ServiceConfig.ServiceBuilder.constructor | crates/doco/src/service.rs:45-56 | `envs` starts empty and `wait` defaults to `None` |
| ServiceConfig.ServiceBuilder.Image | crates/doco/src/service.rs:35-37 | sets the image and changes nothing else |
| ServiceConfig.ServiceBuilder.Tag | crates/doco/src/service.rs:40-42 | sets the tag and changes nothing else |
| ServiceConfig.ServiceBuilder.Env | crates/doco/src/service.rs:45-48 | appends exactly `Variable::new(name, value)` at the end and keeps every earlier variable, including one with the same name |
| ServiceConfig.ServiceBuilder.Wait | crates/doco/src/service.rs:53-56 | sets the wait condition and changes nothing else |
| ServiceConfig.ServiceBuilder.Build | crates/doco/src/service.rs:32-57 | the getters of the built service return exactly the builder's image, tag, variable list and wait |
| ServiceConfig.EnvCollectsVariables | crates/doco/src/service.rs:66-76 | three `env` calls, one name repeated, give three variables in call order, the duplicate kept |
| DocoConfig.DocoBuilder.constructor | crates/doco/src/lib.rs:98 | the service list starts empty |
| DocoConfig.DocoBuilder.Server | crates/doco/src/lib.rs:93-95 | stores the server and leaves the services unchanged |
| DocoConfig.DocoBuilder.Service | crates/doco/src/lib.rs:98-101 | appends exactly the given service at the end, so the length counts the calls; equal images are all kept |
| DocoConfig.DocoBuilder.Build | crates/doco/src/lib.rs:91-105 | `server()` returns the server passed in, unchanged, and `services()` returns the list built up |
| DocoConfig.ServiceCollectsServices | crates/doco/src/lib.rs:113-128 | the test's chain, with its services built by the service builder, plus a third call repeating `first`, gives three services in call order, none dropped, the repeated one kept twice |
| Containers.ResolveFindsLast | crates/doco/src/test_runner.rs:84-87 | an alias name resolves to the host of its last `with_host` registration |
| Containers.ResolveAbsent | crates/doco/src/test_runner.rs:84-87 | a name resolves to nothing exactly when no alias was registered under it |
| Decimal.Format | crates/doco/src/test_runner.rs:105 | a port renders as a non-empty string of digits, with a leading `0` only for zero |
| Decimal.ParseFormat | crates/doco/src/test_runner.rs:105 | reading a rendered port back gives the port |
| ContainerDriver.TextNamesHostAndPort | crates/doco/src/test_runner.rs:96-100 | the URL text is `http://`, the host, a colon and the port's digits, which read back as the port |
| ContainerDriver.Driver.Start | crates/doco/src/test_runner.rs:82 | a start request is recorded with its full configuration, and the answer numbered by the request count decides whether it fails or which endpoints the container has |
| ContainerDriver.Driver.Connect | crates/doco/src/test_runner.rs:95-102 | a session request is recorded with its URL and is accepted as the endpoint's answer for that request says |
| ContainerDriver.Driver.Println | crates/doco/src/test_runner.rs:109 | the line is recorded and the request counters are unchanged |
| ContainerDriver.Driver.Invoke | crates/doco/src/test_runner.rs:110 | the test is recorded as called with that client, and its result is returned |
| Runner.SeleniumRequest | crates/doco/src/test_runner.rs:121-128 | Selenium is `selenium/standalone-firefox:latest`, exposes 4444, waits for "Started Selenium Standalone", has the `host.docker.internal` alias and no variables |
| Runner.Init | crates/doco/src/test_runner.rs:40-46 | prints the initialising line, then starts Selenium (one start request, no session); a failed start is returned wrapped in "failed to start Selenium container", otherwise the runner keeps the configuration and the started container |
| Runner.ServiceImage | crates/doco/src/test_runner.rs:70-80 | the builder calls of the loop body produce exactly the service's configuration, one `with_env_var` per variable in order |
| Runner.ServiceConfiguration | crates/doco/src/test_runner.rs:70-80 | a service container has the service's image and tag, no exposed port, a wait condition exactly when the service has one, the `doco` alias for the host, and all its variables in declaration order, duplicates included |
| Runner.ServerImage | crates/doco/src/test_runner.rs:60-67 | the builder calls before the loop produce the server's configuration with no service alias yet |
| Runner.ServerConfiguration | crates/doco/src/test_runner.rs:60-67 | the server has its own image and tag, exposes exactly its configured port, has a wait condition exactly when it has one, and has no variables; its aliases are `host.docker.internal` to the host, then one per service from its image name to its container's bridge address, in service order, duplicates not filtered |
| Runner.ServerReachesService | crates/doco/src/test_runner.rs:84-87 | inside the server a service's image name reaches that service's container, unless a later service has the same image, which then wins |
| Runner.ServerReachesHost | crates/doco/src/test_runner.rs:67 | inside the server `host.docker.internal` reaches the host unless a service image has that name |
| Runner.BaseUrlNamesPort | crates/doco/src/test_runner.rs:104-105 | the text formatted for the base URL reads `http://host.docker.internal:` followed by the mapped port, which reads back as that port |
| Runner.FirstDown | crates/doco/src/test_runner.rs:82-89 | the number of services that come up before the first that fails to start or to report its address |
| Runner.ServiceFailureStopsRun | crates/doco/src/test_runner.rs:82-89 | when service `k` is the first to fail, the run has started services 0..k in order and nothing else, so the server is never started and the test never called, and it returns that failure |
| Runner.ServerStartsAfterServices | crates/doco/src/test_runner.rs:69-92 | whenever a run gets past its services, every service came up, they were started one at a time in declared order, and the next request starts the server with the alias for each service |
| Runner.ServerFailureStopsRun | crates/doco/src/test_runner.rs:92-99 | when every service came up but the server's start is refused, or its mapped port, Selenium's host or Selenium's mapped 4444 port cannot be read, the run ends with that error right after the server's start request: no session, no print, no test call |
| Runner.SessionRefusedPanics | crates/doco/src/test_runner.rs:95-102 | a refused WebDriver session ends the run with the panic "failed to connect to WebDriver" right after the session request at Selenium's host and mapped 4444 port, with nothing printed and the test not called |
| Runner.TestCalledLast | crates/doco/src/test_runner.rs:95-112 | the test is called once, as the last step, right after its name is printed and after the WebDriver session at Selenium's mapped 4444 port; its client's base URL carries the port mapped to the server's port; the run succeeds exactly when the test does and otherwise returns the test's error |
| Runner.OkOnlyWhenTestPasses | crates/doco/src/test_runner.rs:109-112 | `run` returns `Ok` only after calling the test and getting `Ok` from it |
| Runner.Run | crates/doco/src/test_runner.rs:57-113 | what `run` asks of the runtime and the endpoint, in order, and how it ends are exactly those of the plan; it keeps a handle on each service container whose address it read, one per configured service when all came up; afterwards it has made one start request per service up to the first that failed, plus the server's when none did, and one session request exactly when it got past the server's start |
| Runner.StartServices | crates/doco/src/test_runner.rs:58-90 | the service loop starts the services in order until the first that fails; it returns that failure, or the server configuration with one alias per service; it keeps exactly the started handles and makes one start request per service tried and no session request |
| Runner.StartService | crates/doco/src/test_runner.rs:70-89 | one loop iteration records the service's start; on success it keeps the new handle and adds the alias to the service's bridge address, and otherwise returns the start or lookup error |
| Runner.LaunchServer | crates/doco/src/test_runner.rs:92-112 | after the services, `run` starts the server, reads its mapped port, opens the session, prints the name and calls the test, each step's failure ending the run as the plan says; it makes exactly one start request, and one session request when it gets past the server's start |
| Runner.LaunchCounts | crates/doco/src/test_runner.rs:92-102 | the launch's events hold exactly one start request, and one session request exactly when the launch goes on past the server's start |
| Runner.RunRequests | crates/doco/src/test_runner.rs:69-102 | the events of a run hold one start request per service up to and including the first that fails, plus the server's when none fails, and at most one session request, made only when every service came up |
| ContainerDriver.CountsAppend | crates/doco/src/test_runner.rs:82 | start and session requests of consecutive stretches of a trace add up, so the driver's counters after two runs are the sums of the runs' requests |

## Left out

- The container runtime, the WebDriver endpoint, standard output and the test function are not
  modelled. They are one driver object whose answers are inputs and whose trace records what
  was asked of it; `await` and asynchrony are not modelled.
- Container teardown is not modelled. The containers are stopped when the handles are dropped at
  the end of `run`, which is library behaviour; the model only states which handles `run` keeps.
- The `with_host` and `with_env_var` calls are recorded as ordered lists of calls. The library's
  own storage of them is a map. Only the last-wins alias lookup is stated about it (`Resolve`).
- The `.parse()?` of the base URL cannot fail in the model, because the URL is kept as a host and
  a port. The URL crate's parser is not part of this model, so neither is its normalisation of
  the parsed URL (a trailing `/` added, a default port `:80` dropped). `BaseUrl` and
  `BaseUrlNamesPort` describe the text formatted before `.parse()`.
- `fantoccini`'s connection is modelled as accepted or refused. A refused connection is a panic
  from `expect("failed to connect to WebDriver")`, recorded as the `Panicked` outcome.
- Setting a builder field twice, and calling `build` without a required field, are rejected by
  the typed builder at compile time. The model's `Build` members therefore require the fields
  to be set.
- The procedural macros, the thread that isolates each test, the test registry and the suite
  loop are not part of this model. Nor are `client.rs` (`goto` delegates to foreign crates), the
  `selenium_can_access_host` test (networking), `test_case.rs`, `doco-types` and the examples.
- The marker-trait tests (`Send`, `Sync`, `Unpin`) are not modelled.
- Runner.LaunchServer: reads Selenium's host and its mapped 4444 port from the endpoints
  recorded when Selenium started, so both lookups give the same answer in every run. In the code
  each `run` queries them again (crates/doco/src/test_runner.rs:98-99), and a query could fail in
  one run and succeed in another; the model does not capture that.

## Notes

Facts about the code that the model keeps as they are:

- No field is validated. A missing required field is a compile error (see above), and an empty
  image or port 0 is accepted.
- `Server` has no environment variables, and the server container gets none.
- Service containers reach the machine running the tests under the alias `doco`. The server
  reaches it under `host.docker.internal`.
- Nothing checks whether a started container is still alive.
- A failed WebDriver connection panics; `run` does not return it as an error.
- A service container whose bridge-address lookup fails has been started, but its handle is not
  kept.
