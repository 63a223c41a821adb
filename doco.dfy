/** The top-level configuration: one server and an ordered list of services. */
module DocoConfig {
  import ServerConfig
  import ServiceConfig
  import opened Base

  datatype Doco<W> = Doco(server: ServerConfig.Server<W>, services: seq<ServiceConfig.Service<W>>)

  /** The builder. Its `service` mutator pushes onto the service list in place. */
  class DocoBuilder<W> {
    var server: Option<ServerConfig.Server<W>>
    var services: seq<ServiceConfig.Service<W>>

    /** `Doco::builder()`: no server yet, and the service list starts empty. */
    constructor ()
      ensures server == None && services == []
    {
      server, services := None, [];
    }

    method Server(s: ServerConfig.Server<W>)
      modifies this
      ensures server == Some(s) && services == old(services)
    {
      server := Some(s);
    }

    /** `service(s)`: appends exactly `s` at the end; services with equal images are all kept. */
    method Service(s: ServiceConfig.Service<W>)
      modifies this
      ensures services == old(services) + [s] && server == old(server)
    {
      services := services + [s];
    }

    /** `build`: `server()` gives back the server passed in, `services()` the list built up. */
    method Build() returns (d: Doco<W>)
      requires server.Some?
      ensures d.server == server.value && d.services == services
    {
      d := Doco(server.value, services);
    }
  }

  /** The builder chain of the `service_collects_services` test, followed by a third service that
      repeats an image: every call adds one service, in call order, and none is dropped. */
  method ServiceCollectsServices<W>() returns (d: Doco<W>)
    ensures d.server == ServerConfig.Server("crccheck/hello-world", "v1.0.0", 8000, None)
    ensures |d.services| == 3
    ensures d.services[0].image == "first" && d.services[1].image == "second"
    ensures d.services[2].image == "first" && d.services[0] == d.services[2]
  {
    var server := ServerConfig.Builder<W>().Image("crccheck/hello-world").Tag("v1.0.0").Port(8000).Build();
    var fb := new ServiceConfig.ServiceBuilder<W>();
    fb.Image("first");
    fb.Tag("latest");
    var first := fb.Build();
    var sb := new ServiceConfig.ServiceBuilder<W>();
    sb.Image("second");
    sb.Tag("latest");
    var second := sb.Build();
    var b := new DocoBuilder<W>();
    b.Server(server);
    b.Service(first);
    b.Service(second);
    b.Service(first);
    d := b.Build();
  }
}
