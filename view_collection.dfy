/**
 * The view collection of the Anax view layer
 * (src/View/ViewCollection.php): views stored per region, template names
 * resolved against the configured search paths, and regions rendered in
 * ascending sort order, directly or into an output buffer.
 *
 * Configuration loading, the filesystem and the dependency-injection
 * container are outside the model: the search paths and suffix are fields
 * set at construction, the files that exist are a set passed to the
 * operations that look for one, and the container is the App value the
 * views are rendered with.
 */
module AnaxViewCollection {

  import opened Wrappers
  import opened AnaxView
  import opened StableSort
  import opened OutputBuffering

  /** The first argument of `add`: a template name, a descriptor array,
      null, or some other scalar (an int, a float, a bool), of which only
      its truth value matters. */
  datatype Template = Name(name: string) | Array(desc: Descriptor) | Null | Scalar(truthy: bool)

  /** PHP's empty(): "", "0", an array without keys, null, and falsy
      scalars. */
  predicate IsEmpty(t: Template): (b: bool)
    ensures t.Name? && |t.name| > 1 ==> !b
    ensures t.Array? && (t.desc.callback.Some? || t.desc.template != NoTemplate) ==> !b
    ensures t.Null? ==> b
  {
    match t
    case Name(name) => name == "" || name == "0"
    case Array(d) =>
      && d.callback.None? && d.template == NoTemplate && d.data.None?
      && d.sort.None? && d.kind.None? && d.region.None? && !d.otherKeys
    case Null => true
    case Scalar(truthy) => !truthy
  }

  /** The path tried for `template` under one search path. */
  function Candidate(path: string, template: string, suffix: string): string {
    path + "/" + template + suffix
  }

  /** What getTemplateFile returns or throws: the first candidate, in the
      order of the search paths, that is an existing file. */
  function TemplateFile(paths: seq<string>, suffix: string, template: string, files: set<string>): (r: Result<string>)
    ensures r.Ok? ==> r.value in files && exists i | 0 <= i < |paths| :: r.value == Candidate(paths[i], template, suffix)
    ensures r.Err? <==> forall i | 0 <= i < |paths| :: Candidate(paths[i], template, suffix) !in files
    ensures r.Err? ==> r.error == TemplateNotFound(template)
  {
    if paths == [] then Err(TemplateNotFound(template))
    else if Candidate(paths[0], template, suffix) in files then Ok(Candidate(paths[0], template, suffix))
    else TemplateFile(paths[1..], suffix, template, files)
  }

  /** The first search path whose candidate exists wins, whatever the
      later paths hold. */
  lemma {:induction false} TemplateFileFirstMatch(paths: seq<string>, suffix: string, template: string, files: set<string>, i: int)
    requires 0 <= i < |paths|
    requires Candidate(paths[i], template, suffix) in files
    requires forall j | 0 <= j < i :: Candidate(paths[j], template, suffix) !in files
    ensures TemplateFile(paths, suffix, template, files) == Ok(Candidate(paths[i], template, suffix))
  {
    if i > 0 {
      TemplateFileFirstMatch(paths[1..], suffix, template, files, i - 1);
    }
  }

  /** When no search path holds the template, the lookup throws. */
  lemma {:induction false} TemplateFileNotFound(paths: seq<string>, suffix: string, template: string, files: set<string>)
    requires forall i | 0 <= i < |paths| :: Candidate(paths[i], template, suffix) !in files
    ensures TemplateFile(paths, suffix, template, files) == Err(TemplateNotFound(template))
    ensures Message(TemplateFile(paths, suffix, template, files).error) == "Could not find template file '" + template + "'."
  {
    if paths != [] {
      TemplateFileNotFound(paths[1..], suffix, template, files);
    }
  }

  /** What one `add` call does to the store: nothing, throw, or append a
      view with the given fields to the given region. */
  datatype AddOutcome = Skip | Reject(error: Error) | Append(region: string, entry: ViewState)

  /** The effect of `add` (ViewCollection.php:98-132), including the fields
      `set` then gives the new view. */
  function AddEffect(template: Template, data: Data, region: string, sort: int,
                     paths: seq<string>, suffix: string, files: set<string>): (a: AddOutcome)
    ensures a.Reject? ==> a.error.TemplateNotFound?
    ensures a.Append? && template.Name? ==>
      && a.entry.kind == FileKind && a.entry.template.Text? && a.entry.template.s in files
    ensures a.Append? && template.Array? && template.desc.callback.Some? ==> a.entry.kind == CallbackKind
  {
    if IsEmpty(template) then Skip
    else match template
      case Name(name) =>
        (match TemplateFile(paths, suffix, name, files)
         case Err(e) => Reject(e)
         case Ok(file) => Append(region, SetState(Text(file), data, sort, FileKind)))
      case Array(d) =>
        var target := if d.region.Some? then d.region.value else region;
        if d.callback.Some? then
          Append(target, SetState(Desc(d.(template := Desc(d), kind := CallbackKind)), data, sort, None))
        else if d.template != NoTemplate && (d.kind.None? || d.kind == FileKind) then
          (match TemplateFile(paths, suffix, AsString(d.template), files)
           case Err(e) => Reject(e)
           case Ok(file) => Append(target, SetState(Desc(d.(template := Text(file), kind := FileKind)), data, sort, None)))
        else
          Append(target, SetState(Desc(d), data, sort, None))
      case Null => Skip
      case Scalar(_) => Append(region, SetState(NoTemplate, data, sort, None))
  }

  /** `add` returns without throwing or storing anything exactly when its
      template is empty. */
  lemma AddEmptyIsNoOp(template: Template, data: Data, region: string, sort: int,
                       paths: seq<string>, suffix: string, files: set<string>)
    ensures AddEffect(template, data, region, sort, paths, suffix, files).Skip? <==> IsEmpty(template)
  {
  }

  /** A template that is neither a string nor an array but is not empty
      (`add(42)`, `add(true)`) is stored as a view with no template and no
      type, under the region argument, with the given data and sort. */
  lemma AddScalarStoresNothingToRender(truthy: bool, data: Data, region: string, sort: int,
                                      paths: seq<string>, suffix: string, files: set<string>, app: App)
    requires truthy
    ensures var a := AddEffect(Scalar(truthy), data, region, sort, paths, suffix, files);
      && a == Append(region, ViewState(NoTemplate, data, sort, None))
      && Dispatch(a.entry, app) == Err(InvalidType(None))
  {
  }

  /** A template name becomes a file view of the first existing
      candidate path. */
  lemma AddNameResolves(name: string, data: Data, region: string, sort: int,
                        paths: seq<string>, suffix: string, files: set<string>, i: int)
    requires name != "" && name != "0"
    requires 0 <= i < |paths| && Candidate(paths[i], name, suffix) in files
    requires forall j | 0 <= j < i :: Candidate(paths[j], name, suffix) !in files
    ensures AddEffect(Name(name), data, region, sort, paths, suffix, files)
      == Append(region, ViewState(Text(Candidate(paths[i], name, suffix)), data, sort, FileKind))
  {
    TemplateFileFirstMatch(paths, suffix, name, files, i);
  }

  /** A template name that no search path holds makes `add` throw, so
      the lookup happens when the view is added. */
  lemma AddNameNotFound(name: string, data: Data, region: string, sort: int,
                        paths: seq<string>, suffix: string, files: set<string>)
    requires name != "" && name != "0"
    requires forall i | 0 <= i < |paths| :: Candidate(paths[i], name, suffix) !in files
    ensures AddEffect(Name(name), data, region, sort, paths, suffix, files) == Reject(TemplateNotFound(name))
  {
    TemplateFileNotFound(paths, suffix, name, files);
  }

  /** The `region` key of a descriptor overrides the region argument. */
  lemma AddDescriptorRegion(d: Descriptor, data: Data, region: string, sort: int,
                            paths: seq<string>, suffix: string, files: set<string>)
    ensures var a := AddEffect(Array(d), data, region, sort, paths, suffix, files);
      a.Append? ==> a.region == if d.region.Some? then d.region.value else region
  {
  }

  /** A descriptor with a callback becomes a callback view whatever its
      `type` key says, never throws at add time, and renders exactly
      what the callback yields or fails for want of a callable one. */
  lemma AddCallbackDescriptor(d: Descriptor, data: Data, region: string, sort: int,
                              paths: seq<string>, suffix: string, files: set<string>, app: App)
    requires d.callback.Some?
    ensures var a := AddEffect(Array(d), data, region, sort, paths, suffix, files);
      && a.Append?
      && a.entry.kind == CallbackKind
      && CallbackOf(a.entry.template) == d.callback
      && a.entry.data == (if d.data.Some? then d.data.value else data)
      && a.entry.sort == (if d.sort.Some? then d.sort.value else sort)
      && Dispatch(a.entry, app) == if d.callback.value.Callable? then Ok(d.callback.value.output) else Err(MissingCallback)
  {
  }

  /** A descriptor with a template and no type, or type "file", has its
      template resolved like a name; the `data` and `sort` keys still win
      over the arguments. */
  lemma AddFileDescriptor(d: Descriptor, data: Data, region: string, sort: int,
                          paths: seq<string>, suffix: string, files: set<string>)
    requires d.callback.None? && d.template != NoTemplate
    requires d.kind.None? || d.kind == FileKind
    ensures var a := AddEffect(Array(d), data, region, sort, paths, suffix, files);
      && (a.Reject? <==> TemplateFile(paths, suffix, AsString(d.template), files).Err?)
      && (a.Reject? ==> a.error == TemplateNotFound(AsString(d.template)))
      && (a.Append? ==>
            && a.entry.kind == FileKind
            && a.entry.template == Text(TemplateFile(paths, suffix, AsString(d.template), files).value)
            && a.entry.data == (if d.data.Some? then d.data.value else data)
            && a.entry.sort == (if d.sort.Some? then d.sort.value else sort))
  {
  }

  /** A non-empty descriptor with no callback that does not name a file
      template (its type is not "file", or it has no `template` key) is
      stored as given: no lookup, no exception at add time. */
  lemma AddOtherDescriptor(d: Descriptor, data: Data, region: string, sort: int,
                           paths: seq<string>, suffix: string, files: set<string>)
    requires d.callback.None? && !IsEmpty(Array(d))
    requires !(d.template != NoTemplate && (d.kind.None? || d.kind == FileKind))
    ensures var a := AddEffect(Array(d), data, region, sort, paths, suffix, files);
      && a.Append? && a.entry.template == d.template && a.entry.kind == d.kind
      && a.entry.data == (if d.data.Some? then d.data.value else data)
      && a.entry.sort == (if d.sort.Some? then d.sort.value else sort)
  {
  }

  /** `["callback" => $callback]`, the array addCallback builds. */
  function CallbackArray(callback: Option<Callback>): Descriptor {
    Descriptor(callback, NoTemplate, None, None, None, None, callback.None?)
  }

  /** A view added by addCallback is never checked when added; at render
      time it yields the callback's text, or fails when there is no
      callable callback. */
  lemma AddCallbackDefersCheck(callback: Option<Callback>, data: Data, sort: int, app: App)
    ensures var e := SetState(Desc(CallbackArray(callback)), data, sort, CallbackKind);
      && e.kind == CallbackKind
      && e.sort == sort
      && Dispatch(e, app) == if callback.Some? && callback.value.Callable? then Ok(callback.value.output) else Err(MissingCallback)
  {
  }

  /** What rendering a sequence of views in turn writes, and the exception
      that stopped it, if any. */
  datatype Rendered = Rendered(text: string, error: Option<Error>)

  function RenderAll(s: seq<View>, app: App): (r: Rendered)
    reads set x | x in s
    ensures r.error.Some? ==> s != []
  {
    if s == [] then Rendered("", None)
    else match Dispatch(s[0].State(), app)
      case Err(e) => Rendered("", Some(e))
      case Ok(text) =>
        var rest := RenderAll(s[1..], app);
        Rendered(text + rest.text, rest.error)
  }

  /** Rendering a sequence in two parts: the second part runs only when
      the first raised nothing. */
  lemma {:induction false} RenderAllAppend(a: seq<View>, b: seq<View>, app: App)
    ensures RenderAll(a + b, app) ==
      if RenderAll(a, app).error.Some? then RenderAll(a, app)
      else Rendered(RenderAll(a, app).text + RenderAll(b, app).text, RenderAll(b, app).error)
  {
    if a == [] {
      assert a + b == b;
    } else {
      assert (a + b)[0] == a[0];
      assert (a + b)[1..] == a[1..] + b;
      RenderAllAppend(a[1..], b, app);
      match Dispatch(a[0].State(), app)
      case Err(e) =>
      case Ok(text) =>
        assert text + RenderAll(a[1..], app).text + RenderAll(b, app).text
            == text + (RenderAll(a[1..], app).text + RenderAll(b, app).text);
    }
  }

  /** The exception that stops a render is the one some view threw. */
  lemma {:induction false} RenderAllErrorFromView(s: seq<View>, app: App)
    requires RenderAll(s, app).error.Some?
    ensures exists i | 0 <= i < |s| :: Dispatch(s[i].State(), app) == Err(RenderAll(s, app).error.value)
  {
    if Dispatch(s[0].State(), app).Ok? {
      RenderAllErrorFromView(s[1..], app);
      var i :| 0 <= i < |s[1..]| && Dispatch(s[1..][i].State(), app) == Err(RenderAll(s[1..], app).error.value);
      assert s[1..][i] == s[i + 1];
    }
  }

  /** Rendering succeeds exactly when every view renders. */
  lemma {:induction false} RenderAllSucceeds(s: seq<View>, app: App)
    ensures RenderAll(s, app).error.None? <==> forall i | 0 <= i < |s| :: Dispatch(s[i].State(), app).Ok?
  {
    if s != [] {
      RenderAllSucceeds(s[1..], app);
      assert forall i | 1 <= i < |s| :: s[i] == s[1..][i - 1];
    }
  }

  /** Rendering stops at the first view that throws: what was written
      before it stays written, nothing after it runs. */
  lemma RenderAllStopsAtFirstFailure(s: seq<View>, app: App, k: int)
    requires 0 <= k < |s|
    requires forall i | 0 <= i < k :: Dispatch(s[i].State(), app).Ok?
    requires Dispatch(s[k].State(), app).Err?
    ensures RenderAll(s[..k], app).error.None?
    ensures RenderAll(s, app) == Rendered(RenderAll(s[..k], app).text, Some(Dispatch(s[k].State(), app).error))
  {
    RenderAllSucceeds(s[..k], app);
    assert s == s[..k] + s[k..];
    RenderAllAppend(s[..k], s[k..], app);
  }

  /** A region rendered a second time, with nothing added in between,
      writes the same text and fails the same way. */
  lemma RenderAgainSameOutput(s: seq<View>, app: App)
    ensures RenderAll(Sort(Sort(s)), app) == RenderAll(Sort(s), app)
  {
    SortIdempotent(s);
  }

  datatype Status = Done | Thrown(error: Error)

  class ViewCollection {
    /** The views of each region, in the order they were added until a
        render sorts them. */
    var views: map<string, seq<View>>
    /** The configured search paths and template suffix. */
    var paths: seq<string>
    var suffix: string
    /** The injected container, handed to each view's render. */
    var di: App

    /** Every region key holds at least one view. */
    ghost predicate Valid()
      reads this
    {
      forall r | r in views :: views[r] != []
    }

    /** The views of a region; none when the region has no key. */
    function Region(region: string): seq<View>
      reads this
    {
      if region in views then views[region] else []
    }

    constructor (paths: seq<string>, suffix: string, di: App)
      ensures Valid()
      ensures views == map[] && this.paths == paths && this.suffix == suffix && this.di == di
    {
      views := map[];
      this.paths := paths;
      this.suffix := suffix;
      this.di := di;
    }

    /** getTemplateFile (ViewCollection.php:63-76). */
    method GetTemplateFile(template: string, files: set<string>) returns (r: Result<string>)
      ensures r == TemplateFile(paths, suffix, template, files)
    {
      var i := 0;
      while i < |paths|
        invariant 0 <= i <= |paths|
        invariant TemplateFile(paths, suffix, template, files) == TemplateFile(paths[i..], suffix, template, files)
      {
        var file := paths[i] + "/" + template + suffix;
        if file in files {
          return Ok(file);
        }
        assert paths[i..][1..] == paths[i + 1..];
        i := i + 1;
      }
      return Err(TemplateNotFound(template));
    }

    method Add(template: Template, data: Data := map[], region: string := "main", sort: int := 0,
               nameonly files: set<string>)
      returns (status: Status, ghost view: View?)
      requires Valid()
      modifies this`views
      ensures Valid()
      ensures match AddEffect(template, data, region, sort, paths, suffix, files)
        case Skip => status == Done && views == old(views)
        case Reject(e) => status == Thrown(e) && views == old(views)
        case Append(r, e) =>
          && status == Done && view != null && fresh(view) && view.State() == e
          && views == old(views)[r := old(Region(r)) + [view]]
    {
      if IsEmpty(template) {
        return Done, null;
      }
      var v := new View();
      var tpl, kind, target := NoTemplate, None, region;
      match template {
        case Name(name) =>
          var file := GetTemplateFile(name, files);
          if file.Err? {
            return Thrown(file.error), null;
          }
          tpl, kind := Text(file.value), FileKind;
        case Array(d) =>
          var desc := d;
          target := if d.region.Some? then d.region.value else region;
          if d.callback.Some? {
            desc := desc.(template := Desc(d), kind := CallbackKind);
          } else if d.template != NoTemplate {
            if d.kind.None? || d.kind == FileKind {
              var file := GetTemplateFile(AsString(d.template), files);
              if file.Err? {
                return Thrown(file.error), null;
              }
              desc := desc.(kind := FileKind, template := Text(file.value));
            }
          }
          tpl := Desc(desc);
        case Null =>
        case Scalar(_) =>
      }
      v.Set(tpl, data, sort, kind);
      views := views[target := Region(target) + [v]];
      return Done, v;
    }

    method AddCallback(callback: Option<Callback>, data: Data := map[], region: string := "main", sort: int := 0)
      returns (ghost view: View)
      requires Valid()
      modifies this`views
      ensures Valid()
      ensures fresh(view) && view.State() == SetState(Desc(CallbackArray(callback)), data, sort, CallbackKind)
      ensures views == old(views)[region := old(Region(region)) + [view]]
    {
      var v := new View();
      v.Set(Desc(CallbackArray(callback)), data, sort, CallbackKind);
      views := views[region := Region(region) + [v]];
      return v;
    }

    method AddString(content: string, region: string := "main", sort: int := 0)
      returns (ghost view: View)
      requires Valid()
      modifies this`views
      ensures Valid()
      ensures fresh(view) && view.State() == ViewState(Text(content), map[], sort, StringKind)
      ensures views == old(views)[region := old(Region(region)) + [view]]
    {
      var v := new View();
      v.Set(Text(content), map[], sort, StringKind);
      views := views[region := Region(region) + [v]];
      return v;
    }

    function HasContent(region: string): (b: bool)
      requires Valid()
      reads this
      ensures b <==> Region(region) != []
    {
      region in views
    }

    /** The loop of render (ViewCollection.php:215-217): each view in turn,
        stopping at the first that throws. */
    method RenderViews(s: seq<View>, out: Output) returns (status: Status)
      modifies out
      ensures var r := old(RenderAll(s, di));
        && out.State() == Echo(old(out.State()), r.text)
        && status == if r.error.None? then Done else Thrown(r.error.value)
    {
      ghost var before := out.State();
      var i := 0;
      assert s[..0] == [];
      EchoNothing(before);
      while i < |s|
        invariant 0 <= i <= |s|
        invariant old(RenderAll(s[..i], di)).error.None?
        invariant out.State() == Echo(before, old(RenderAll(s[..i], di)).text)
      {
        var r := Dispatch(s[i].State(), di);
        ghost var done := old(RenderAll(s[..i], di)).text;
        if r.Err? {
          assert s == s[..i] + s[i..];
          RenderAllAppend(s[..i], s[i..], di);
          assert s[i..][0] == s[i];
          assert RenderAll(s[i..], di) == Rendered("", Some(r.error));
          assert done + "" == done;
          return Thrown(r.error);
        }
        RenderAllAppend(s[..i], [s[i]], di);
        assert s[..i + 1] == s[..i] + [s[i]];
        assert RenderAll([s[i]], di) == Rendered(r.value, None);
        EchoTwice(before, done, r.value);
        out.Write(r.value);
        i := i + 1;
      }
      assert s[..i] == s;
      return Done;
    }

    method Render(region: string := "main", nameonly out: Output) returns (status: Status)
      requires Valid()
      modifies this`views, out
      ensures Valid()
      ensures views == if region in old(views) then old(views)[region := old(Sort(views[region]))] else old(views)
      ensures var r := old(RenderAll(Sort(Region(region)), di));
        && out.State() == Echo(old(out.State()), r.text)
        && status == if r.error.None? then Done else Thrown(r.error.value)
    {
      if region !in views {
        EchoNothing(out.State());
        return Done;
      }
      ghost var rendered := RenderAll(Sort(views[region]), di);
      var sorted := SortViews(views[region]);
      assert sorted == old(Sort(views[region]));
      assert rendered == RenderAll(sorted, di);
      views := views[region := sorted];
      assert views == old(views)[region := old(Sort(views[region]))];
      status := RenderViews(sorted, out);
    }

    method RenderBuffered(region: string := "main", nameonly out: Output) returns (res: Result<string>)
      requires Valid()
      modifies this`views, out
      ensures Valid()
      ensures views == if region in old(views) then old(views)[region := old(Sort(views[region]))] else old(views)
      ensures var r := old(RenderAll(Sort(Region(region)), di));
        && (r.error.None? ==> res == Ok(r.text) && out.State() == old(out.State()))
        && (r.error.Some? ==> res == Err(r.error.value) && out.State() == Sink(old(out.stream), old(out.buffers) + [r.text]))
    {
      ghost var r := RenderAll(Sort(Region(region)), di);
      ghost var stream, buffers := out.stream, out.buffers;
      out.Start();
      assert r == RenderAll(Sort(Region(region)), di);
      var status := Render(region, out := out);
      EchoIntoNewBuffer(stream, buffers, r.text);
      assert out.State() == Sink(stream, buffers + [r.text]);
      if status.Thrown? {
        return Err(status.error);
      }
      var contents := out.Contents();
      var _ := out.EndClean();
      assert (buffers + [r.text])[..|buffers|] == buffers;
      return Ok(contents.value);
    }

    /** renderBuffered with the buffer released on every exit path: when a
        view throws, what it captured is discarded before the exception
        propagates. */
    method RenderBufferedRestoring(region: string := "main", nameonly out: Output) returns (res: Result<string>)
      requires Valid()
      modifies this`views, out
      ensures Valid()
      ensures views == if region in old(views) then old(views)[region := old(Sort(views[region]))] else old(views)
      ensures var r := old(RenderAll(Sort(Region(region)), di));
        res == if r.error.None? then Ok(r.text) else Err(r.error.value)
      ensures out.State() == old(out.State())
    {
      ghost var r := RenderAll(Sort(Region(region)), di);
      ghost var stream, buffers := out.stream, out.buffers;
      out.Start();
      assert r == RenderAll(Sort(Region(region)), di);
      var status := Render(region, out := out);
      EchoIntoNewBuffer(stream, buffers, r.text);
      assert out.State() == Sink(stream, buffers + [r.text]);
      var contents := out.Contents();
      var _ := out.EndClean();
      assert (buffers + [r.text])[..|buffers|] == buffers;
      if status.Thrown? {
        return Err(status.error);
      }
      return Ok(contents.value);
    }
  }
}
