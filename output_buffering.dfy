/**
 * The ambient output of a PHP request, as far as rendering uses it: `echo`
 * and the output-buffering stack (ob_start, ob_get_contents, ob_end_clean).
 * Text echoed while a buffer is active goes to the innermost buffer;
 * otherwise it goes to the response stream.
 */
module OutputBuffering {

  import opened Wrappers

  /** The response stream written so far and the stack of active buffers,
      innermost last. */
  datatype Sink = Sink(stream: string, buffers: seq<string>)

  /** The sink after `echo t`. */
  function Echo(o: Sink, t: string): (o': Sink)
    ensures |o'.buffers| == |o.buffers|
    ensures o.buffers == [] ==> o'.stream == o.stream + t
    ensures o.buffers != [] ==>
      && o'.stream == o.stream
      && o'.buffers[..|o.buffers| - 1] == o.buffers[..|o.buffers| - 1]
      && o'.buffers[|o.buffers| - 1] == o.buffers[|o.buffers| - 1] + t
  {
    if o.buffers == [] then
      o.(stream := o.stream + t)
    else
      var n := |o.buffers| - 1;
      o.(buffers := o.buffers[..n] + [o.buffers[n] + t])
  }

  /** Echoing two pieces in turn is echoing them joined. */
  lemma EchoTwice(o: Sink, a: string, b: string)
    ensures Echo(Echo(o, a), b) == Echo(o, a + b)
  {
    if o.buffers != [] {
      var n := |o.buffers| - 1;
      assert Echo(o, a).buffers[..n] == o.buffers[..n];
      assert o.buffers[n] + a + b == o.buffers[n] + (a + b);
    } else {
      assert o.stream + a + b == o.stream + (a + b);
    }
  }

  /** Echoing nothing changes nothing. */
  lemma EchoNothing(o: Sink)
    ensures Echo(o, "") == o
  {
    assert o.stream + "" == o.stream;
    if o.buffers != [] {
      var n := |o.buffers| - 1;
      assert o.buffers[n] + "" == o.buffers[n];
      assert o.buffers[..n] + [o.buffers[n]] == o.buffers;
    }
  }

  /** What is echoed into a buffer that was just started is that buffer's
      whole content. */
  lemma EchoIntoNewBuffer(stream: string, buffers: seq<string>, t: string)
    ensures Echo(Sink(stream, buffers + [""]), t) == Sink(stream, buffers + [t])
  {
    assert (buffers + [""])[..|buffers|] == buffers;
    assert "" + t == t;
  }

  class Output {
    var stream: string
    var buffers: seq<string>

    constructor ()
      ensures State() == Sink("", [])
    {
      stream := "";
      buffers := [];
    }

    function State(): Sink
      reads this
    {
      Sink(stream, buffers)
    }

    /** `echo t`. */
    method Write(t: string)
      modifies this
      ensures State() == Echo(old(State()), t)
    {
      if buffers == [] {
        stream := stream + t;
      } else {
        var n := |buffers| - 1;
        buffers := buffers[..n] + [buffers[n] + t];
      }
    }

    /** ob_start: a new, empty innermost buffer. */
    method Start()
      modifies this
      ensures State() == Sink(old(stream), old(buffers) + [""])
    {
      buffers := buffers + [""];
    }

    /** ob_get_contents: the innermost buffer, or false (None) when no
        buffer is active. */
    method Contents() returns (c: Option<string>)
      ensures buffers == [] <==> c.None?
      ensures c.Some? ==> c.value == buffers[|buffers| - 1]
    {
      if buffers == [] {
        c := None;
      } else {
        c := Some(buffers[|buffers| - 1]);
      }
    }

    /** ob_end_clean: discards the innermost buffer; false when there is
        none. */
    method EndClean() returns (ok: bool)
      modifies this
      ensures ok <==> old(buffers) != []
      ensures stream == old(stream)
      ensures buffers == if ok then old(buffers)[..|old(buffers)| - 1] else old(buffers)
    {
      ok := buffers != [];
      if ok {
        buffers := buffers[..|buffers| - 1];
      }
    }
  }
}
