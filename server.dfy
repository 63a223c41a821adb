/** The server under test: a plain record built once by a builder. */
module ServerConfig {
  import opened Base

  /** Image, tag, the port the application listens on, and an optional readiness condition `W`
      (testcontainers' `WaitFor`, a foreign type). */
  datatype Server<W> = Server(image: string, tag: string, port: uint16, wait: Option<W>)

  /** The typed builder: the three required fields start unset, `wait` defaults to `None`. */
  datatype ServerBuilder<W> = ServerBuilder(image: Option<string>, tag: Option<string>,
                                            port: Option<uint16>, wait: Option<W>)
  {
    /** `image(s)`: sets the image and keeps the other fields. */
    function Image(s: string): (b: ServerBuilder<W>)
      ensures b.image == Some(s) && b.tag == tag && b.port == port && b.wait == wait
    {
      this.(image := Some(s))
    }

    /** `tag(s)`: sets the tag and keeps the other fields. */
    function Tag(s: string): (b: ServerBuilder<W>)
      ensures b.tag == Some(s) && b.image == image && b.port == port && b.wait == wait
    {
      this.(tag := Some(s))
    }

    /** `port(p)`: sets the port, any `u16` including 0, and keeps the other fields. */
    function Port(p: uint16): (b: ServerBuilder<W>)
      ensures b.port == Some(p) && b.image == image && b.tag == tag && b.wait == wait
    {
      this.(port := Some(p))
    }

    /** `wait(w)`: sets the readiness condition and keeps the other fields. */
    function Wait(w: W): (b: ServerBuilder<W>)
      ensures b.wait == Some(w) && b.image == image && b.tag == tag && b.port == port
    {
      this.(wait := Some(w))
    }

    /** The required fields are set; the builder's types make `build` uncallable otherwise. */
    predicate Complete() {
      image.Some? && tag.Some? && port.Some?
    }

    /** `build`: every getter of the result gives back what was set, unchanged; no check is made
        on the values (an empty image or port 0 are accepted). */
    function Build(): (s: Server<W>)
      requires Complete()
      ensures s.image == image.value && s.tag == tag.value
      ensures s.port == port.value && s.wait == wait
    {
      Server(image.value, tag.value, port.value, wait)
    }
  }

  /** `Server::builder()`. */
  function Builder<W>(): (b: ServerBuilder<W>)
    ensures b.image.None? && b.tag.None? && b.port.None? && b.wait.None?
  {
    ServerBuilder(None, None, None, None)
  }

  /** A server built without `wait` has none; the port is a `u16` copy, in 0..65535, and 0 is
      not rejected. */
  lemma BuiltWithoutWait<W>(image: string, tag: string, port: uint16)
    ensures Builder<W>().Image(image).Tag(tag).Port(port).Build() == Server(image, tag, port, None)
    ensures 0 <= Builder<W>().Image(image).Tag(tag).Port(port).Build().port < 0x1_0000
  {
  }
}
