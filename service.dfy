/** Auxiliary services (databases, caches) that the server depends on. */
module ServiceConfig {
  import opened Base
  import opened Environment

  /** Image, tag, the environment variables in declaration order, and an optional readiness
      condition `W`. */
  datatype Service<W> = Service(image: string, tag: string, envs: seq<Variable>, wait: Option<W>)

  /** `Service::default()`: empty image and tag, no variables, no wait condition. */
  function Default<W>(): (s: Service<W>)
    ensures s.image == "" && s.tag == "" && s.envs == [] && s.wait == None
  {
    Service("", "", [], None)
  }

  /** The builder. Its `env` mutator pushes onto the variable list in place. */
  class ServiceBuilder<W> {
    var image: Option<string>
    var tag: Option<string>
    var envs: seq<Variable>
    var wait: Option<W>

    /** `Service::builder()`: nothing set, no variables, `wait` defaulting to `None`. */
    constructor ()
      ensures image == None && tag == None && envs == [] && wait == None
    {
      image, tag, envs, wait := None, None, [], None;
    }

    method Image(s: string)
      modifies this
      ensures image == Some(s)
      ensures tag == old(tag) && envs == old(envs) && wait == old(wait)
    {
      image := Some(s);
    }

    method Tag(s: string)
      modifies this
      ensures tag == Some(s)
      ensures image == old(image) && envs == old(envs) && wait == old(wait)
    {
      tag := Some(s);
    }

    /** `env(name, value)`: appends exactly one variable at the end; an earlier variable with the
        same name is kept, not overwritten. */
    method Env(name: string, value: string)
      modifies this
      ensures envs == old(envs) + [New(name, value)]
      ensures image == old(image) && tag == old(tag) && wait == old(wait)
    {
      envs := envs + [New(name, value)];
    }

    method Wait(w: W)
      modifies this
      ensures wait == Some(w)
      ensures image == old(image) && tag == old(tag) && envs == old(envs)
    {
      wait := Some(w);
    }

    /** `build`: the getters of the result give back exactly what the builder holds. */
    method Build() returns (s: Service<W>)
      requires image.Some? && tag.Some?
      ensures s.image == image.value && s.tag == tag.value
      ensures s.envs == envs && s.wait == wait
    {
      s := Service(image.value, tag.value, envs, wait);
    }
  }

  /** The builder chain of the `env_collects_variables` test: three `env` calls, one name
      repeated, give three variables in call order. */
  method EnvCollectsVariables<W>() returns (s: Service<W>)
    ensures s.image == "postgres" && s.tag == "latest" && s.wait == None
    ensures |s.envs| == 3
    ensures s.envs == [New("POSTGRES_PASSWORD", "password"), New("POSTGRES_USER", "postgres"),
                       New("POSTGRES_PASSWORD", "postgres")]
  {
    var b := new ServiceBuilder<W>();
    b.Image("postgres");
    b.Tag("latest");
    b.Env("POSTGRES_PASSWORD", "password");
    b.Env("POSTGRES_USER", "postgres");
    b.Env("POSTGRES_PASSWORD", "postgres");
    s := b.Build();
  }
}
