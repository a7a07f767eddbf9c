/**
 * Whole-collection scenarios: a caller adds views, renders a region and
 * gets back exactly the text the contracts promise.
 */
module Scenarios {

  import opened Wrappers
  import opened AnaxView
  import opened StableSort
  import opened OutputBuffering
  import opened AnaxViewCollection

  /** Views with equal sort values keep the order they were added in. */
  lemma EqualSortRendersInOrder(a: View, b: View, d: View)
    requires a.State() == ViewState(Text("A"), map[], 0, StringKind)
    requires b.State() == ViewState(Text("B"), map[], 0, StringKind)
    requires d.State() == ViewState(Text("C"), map[], 0, StringKind)
    ensures RenderAll(Sort([a, b, d]), NoApp) == Rendered("ABC", None)
  {
    assert Sorted([a, b, d]);
    SortSortedIsIdentity([a, b, d]);
    assert RenderAll([d], NoApp) == Rendered("C", None);
    assert RenderAll([b, d], NoApp) == Rendered("BC", None) by {
      assert [b, d][1..] == [d];
    }
    assert [a, b, d][1..] == [b, d];
  }

  /** Three strings added to "main" with the same sort value render in the
      order they were added. */
  method EqualSortKeepsInsertionOrder() returns (text: Result<string>)
    ensures text == Ok("ABC")
  {
    var out := new Output();
    var c := new ViewCollection([], "", NoApp);
    ghost var a, b, d;
    a := c.AddString("A");
    b := c.AddString("B");
    d := c.AddString("C");
    assert c.Region("main") == [a, b, d] && c.di == NoApp;
    EqualSortRendersInOrder(a, b, d);
    ghost var rendered := RenderAll(Sort(c.Region("main")), c.di);
    text := c.RenderBuffered(out := out);
    assert text == Ok(rendered.text);
  }

  /** A file engine that wraps the path it is given in brackets. */
  function Bracketing(p: Payload, d: Data): FileOutcome {
    Written("<" + AsString(p) + ">")
  }

  const Header := "./templates/header.tpl"
  const Footer := "./templates/footer.tpl"

  /** Sort values 10, 5 and 20 come out in the order 5, 10, 20. */
  lemma LowestSortFirst(h: View, m: View, f: View)
    requires h.sortOrder == 10 && m.sortOrder == 5 && f.sortOrder == 20
    ensures Sort([h, m, f]) == [m, h, f]
  {
    assert Sort([h]) == [h] by {
      assert [h][..0] == [];
    }
    assert Sort([h, m]) == [m, h] by {
      assert [h, m][..1] == [h];
    }
    assert Insert([h], f) == [h, f] by {
      assert [h][1..] == [];
    }
    assert Insert([m, h], f) == [m, h, f] by {
      assert [m, h][1..] == [h];
    }
    assert [h, m, f][..2] == [h, m];
  }

  /** The header, the string and the footer render in that order. */
  lemma LowestSortRendersFirst(h: View, m: View, f: View)
    requires h.State() == ViewState(Text(Header), map[], 10, FileKind)
    requires m.State() == ViewState(Text("MID"), map[], 5, StringKind)
    requires f.State() == ViewState(Text(Footer), map[], 20, FileKind)
    ensures RenderAll(Sort([h, m, f]), App(Bracketing)) == Rendered("MID<" + Header + "><" + Footer + ">", None)
  {
    LowestSortFirst(h, m, f);
    var app := App(Bracketing);
    assert RenderAll([f], app) == Rendered("<" + Footer + ">", None);
    assert RenderAll([h, f], app) == Rendered("<" + Header + ">" + "<" + Footer + ">", None) by {
      assert [h, f][1..] == [f];
    }
    assert [m, h, f][1..] == [h, f];
  }

  /** Both template names resolve in the one search path, to file views. */
  lemma TemplatesResolve()
    ensures AddEffect(Name("header"), map[], "main", 10, ["./templates"], ".tpl", {Header, Footer})
      == Append("main", ViewState(Text(Header), map[], 10, FileKind))
    ensures AddEffect(Name("footer"), map[], "main", 20, ["./templates"], ".tpl", {Header, Footer})
      == Append("main", ViewState(Text(Footer), map[], 20, FileKind))
  {
    assert Candidate("./templates", "header", ".tpl") == Header;
    assert Candidate("./templates", "footer", ".tpl") == Footer;
    AddNameResolves("header", map[], "main", 10, ["./templates"], ".tpl", {Header, Footer}, 0);
    AddNameResolves("footer", map[], "main", 20, ["./templates"], ".tpl", {Header, Footer}, 0);
  }

  /** Two templates found on the search path and a string, added with sort
      values 10, 5 and 20: the lowest sort value renders first. */
  method AscendingSortOrder() returns (text: Result<string>)
    ensures text == Ok("MID<" + Header + "><" + Footer + ">")
  {
    var out := new Output();
    var files := {Header, Footer};
    var c := new ViewCollection(["./templates"], ".tpl", App(Bracketing));
    TemplatesResolve();
    var status;
    ghost var h, m, f;
    status, h := c.Add(Name("header"), map[], "main", 10, files := files);
    assert c.views["main"] == [h];
    assert h.State() == ViewState(Text(Header), map[], 10, FileKind);
    m := c.AddString("MID", "main", 5);
    assert c.views["main"] == [h, m];
    status, f := c.Add(Name("footer"), map[], "main", 20, files := files);
    assert c.views["main"] == [h, m, f];
    assert c.Region("main") == [h, m, f] && c.di == App(Bracketing);
    LowestSortRendersFirst(h, m, f);
    ghost var rendered := RenderAll(Sort(c.Region("main")), c.di);
    text := c.RenderBuffered(out := out);
    assert text == Ok(rendered.text);
  }

  /** Rendering a region twice, with nothing added in between, gives the
      same result both times. */
  method RenderTwice(c: ViewCollection, region: string, out: Output)
    returns (first: Result<string>, second: Result<string>)
    requires c.Valid()
    modifies c`views, out
    ensures first == second
  {
    RenderAgainSameOutput(c.Region(region), c.di);
    first := c.RenderBuffered(region, out := out);
    second := c.RenderBuffered(region, out := out);
  }

  /** With the buffer released on every exit path, rendering twice also
      leaves the output as it was. */
  method RenderTwiceRestoring(c: ViewCollection, region: string, out: Output)
    returns (first: Result<string>, second: Result<string>)
    requires c.Valid()
    modifies c`views, out
    ensures first == second
    ensures out.State() == old(out.State())
  {
    RenderAgainSameOutput(c.Region(region), c.di);
    first := c.RenderBufferedRestoring(region, out := out);
    second := c.RenderBufferedRestoring(region, out := out);
  }

  /** A region holding only a view added by `addCallback(null)` throws
      "missing callback" and writes nothing. */
  lemma MissingCallbackThrows(v: View)
    requires v.State() == SetState(Desc(CallbackArray(None)), map[], 0, CallbackKind)
    ensures RenderAll(Sort([v]), NoApp) == Rendered("", Some(MissingCallback))
  {
    assert [v][..0] == [];
    assert Sort([v]) == [v];
  }

  /** renderBuffered as written: a view that throws leaves the buffer it
      opened on the stack, so later output goes into it rather than to
      the response. */
  method FailureLeavesBufferOpen() returns (res: Result<string>, buffers: seq<string>)
    ensures res == Err(MissingCallback)
    ensures buffers == [""]
  {
    var out := new Output();
    var c := new ViewCollection([], "", NoApp);
    ghost var v := c.AddCallback(None);
    assert c.Region("main") == [v] && c.di == NoApp;
    MissingCallbackThrows(v);
    res := c.RenderBuffered(out := out);
    buffers := out.buffers;
  }

  /** The same render with the buffer released on failure: the exception
      still propagates and no buffer is left open. */
  method FailureReleasesBuffer() returns (res: Result<string>, buffers: seq<string>)
    ensures res == Err(MissingCallback)
    ensures buffers == []
  {
    var out := new Output();
    var c := new ViewCollection([], "", NoApp);
    ghost var v := c.AddCallback(None);
    assert c.Region("main") == [v] && c.di == NoApp;
    MissingCallbackThrows(v);
    res := c.RenderBufferedRestoring(out := out);
    buffers := out.buffers;
  }
}
