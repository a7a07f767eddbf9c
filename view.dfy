/**
 * A single view of the Anax view layer (src/View/View.php): the four
 * fields a view holds, how `set` fills them from plain arguments or from a
 * descriptor array, and how `render` dispatches on the view's type.
 *
 * PHP's `type` field and array key are called `kind` here, since `type` is
 * a Dafny keyword.
 */
module AnaxView {

  import opened Wrappers

  /** The variables handed to a file template (`$templateData`). */
  type Data = map<string, string>

  /** A value stored under a `callback` key: either something PHP's
      is_callable accepts, which yields `output` when called with no
      arguments, or a value it rejects. */
  datatype Callback = Callable(output: string) | NotCallable

  /** What a `$template` value can be: a string, an array, or null. */
  datatype Payload = Text(s: string) | Desc(d: Descriptor) | NoTemplate

  /** A descriptor array, by the keys the code reads. A key that is absent
      or holds null (PHP's isset is false) is None, or NoTemplate for the
      `template` key. `otherKeys` records whether the array holds anything
      else (unknown keys, or one of these keys holding null); only PHP's
      empty() looks at it. */
  datatype Descriptor = Descriptor(
    callback: Option<Callback>,
    template: Payload,
    data: Option<Data>,
    sort: Option<int>,
    kind: Option<string>,
    region: Option<string>,
    otherKeys: bool)

  /** The exceptions the two classes throw, and a failure of the file
      engine, which passes through unchanged. */
  datatype Error =
    | TemplateNotFound(name: string)
    | MissingApp
    | MissingCallback
    | InvalidType(kind: Option<string>)
    | EngineFailure(reason: string)

  datatype Result<+T> = Ok(value: T) | Err(error: Error)

  /** What the template engine (ViewRenderFile, not part of this model)
      does with a template and its data: it writes text or raises. */
  datatype FileOutcome = Written(text: string) | Raised(reason: string)

  /** The `$app` argument of render: null (falsy), or the framework
      resources, which determine what the template engine produces. */
  datatype App = NoApp | App(renderFile: (Payload, Data) -> FileOutcome)

  /** The contents of a view's four fields. */
  datatype ViewState = ViewState(template: Payload, data: Data, sort: int, kind: Option<string>)

  const FileKind := Some("file")
  const CallbackKind := Some("callback")
  const StringKind := Some("string")

  /** PHP's conversion of a template value to a string, as `echo` and the
      `.` operator apply it (an array converts to "Array"). */
  function AsString(p: Payload): string {
    match p
    case Text(s) => s
    case Desc(_) => "Array"
    case NoTemplate => ""
  }

  /** `$template["callback"]` when isset: only an array carries one
      (a string offset "callback" is never set, null has no offsets). */
  function CallbackOf(p: Payload): Option<Callback> {
    if p.Desc? then p.d.callback else None
  }

  /** isset and is_callable on `$template["callback"]` both hold. */
  predicate IsCallable(p: Payload) {
    CallbackOf(p).Some? && CallbackOf(p).value.Callable?
  }

  /** The message each exception carries. The core's own exceptions
      always say something, and a failure of the template engine reaches
      the caller with its message unchanged. */
  function Message(e: Error): (m: string)
    ensures e.EngineFailure? ==> m == e.reason
    ensures !e.EngineFailure? ==> m != ""
  {
    match e
    case TemplateNotFound(name) => "Could not find template file '" + name + "'."
    case MissingApp => "View missing $app."
    case MissingCallback => "View missing callback."
    case InvalidType(kind) => "Not a valid template type: " + (if kind.Some? then kind.value else "")
    case EngineFailure(reason) => reason
  }

  /** The fields `set` leaves behind (View.php:38-69). */
  function SetState(template: Payload, data: Data, sort: int, kind: Option<string>): (e: ViewState)
    ensures CallbackOf(template).Some? ==>
      && CallbackOf(e.template) == CallbackOf(template)
      && e.kind == (if template.d.kind.Some? then template.d.kind else CallbackKind)
    ensures !template.Desc? ==> e == ViewState(template, data, sort, kind)
  {
    match template
    case Desc(d) =>
      var kind' := if d.callback.Some? then CallbackKind else kind;
      ViewState(
        if d.callback.Some? then template else d.template,
        if d.data.Some? then d.data.value else data,
        if d.sort.Some? then d.sort.value else sort,
        if d.kind.Some? then d.kind else kind')
    case _ => ViewState(template, data, sort, kind)
  }

  /** What `render` writes, or the exception it throws (View.php:80-109). */
  function Dispatch(e: ViewState, app: App): (r: Result<string>)
    ensures r.Err? && r.error.MissingApp? <==> e.kind == FileKind && app.NoApp?
    ensures r.Err? && r.error.EngineFailure? ==> e.kind == FileKind && app.App?
    ensures r.Err? && r.error.MissingCallback? <==> e.kind == CallbackKind && !IsCallable(e.template)
    ensures r.Err? && r.error.InvalidType? <==> e.kind !in {FileKind, CallbackKind, StringKind}
    ensures r.Err? ==> !r.error.TemplateNotFound?
  {
    if e.kind == FileKind then
      if app.NoApp? then Err(MissingApp)
      else match app.renderFile(e.template, e.data)
        case Written(text) => Ok(text)
        case Raised(reason) => Err(EngineFailure(reason))
    else if e.kind == CallbackKind then
      match CallbackOf(e.template)
      case Some(Callable(output)) => Ok(output)
      case _ => Err(MissingCallback)
    else if e.kind == StringKind then
      Ok(AsString(e.template))
    else
      Err(InvalidType(e.kind))
  }

  class View {
    var template: Payload
    var templateData: Data
    var sortOrder: int
    var kind: Option<string>

    /** `new View()`: no template, no data, no type. */
    constructor ()
      ensures State() == ViewState(NoTemplate, map[], 0, None)
    {
      template := NoTemplate;
      templateData := map[];
      sortOrder := 0;
      kind := None;
    }

    function State(): ViewState
      reads this
    {
      ViewState(template, templateData, sortOrder, kind)
    }

    method Set(template: Payload, data: Data, sort: int, kind: Option<string>)
      modifies this
      ensures State() == SetState(template, data, sort, kind)
    {
      if template.Desc? {
        var d := template.d;
        var kind' := kind;
        if d.callback.Some? {
          kind' := CallbackKind;
          this.template := template;
        } else {
          this.template := d.template;
        }
        templateData := if d.data.Some? then d.data.value else data;
        sortOrder := if d.sort.Some? then d.sort.value else sort;
        this.kind := if d.kind.Some? then d.kind else kind';
        return;
      }
      this.template := template;
      templateData := data;
      sortOrder := sort;
      this.kind := kind;
    }

    /** The getter the comparator uses. */
    function SortOrder(): (k: int)
      reads this
      ensures k == State().sort
    {
      sortOrder
    }
  }

  /** In a descriptor array, the `data`, `sort` and `type` keys override the
      arguments, which are kept for every key that is not set. */
  lemma SetKeysOverrideArguments(d: Descriptor, data: Data, sort: int, kind: Option<string>)
    ensures var e := SetState(Desc(d), data, sort, kind);
      && (d.data.Some? ==> e.data == d.data.value)
      && (d.data.None? ==> e.data == data)
      && (d.sort.Some? ==> e.sort == d.sort.value)
      && (d.sort.None? ==> e.sort == sort)
      && (d.kind.Some? ==> e.kind == d.kind)
      && (d.kind.None? && d.callback.None? ==> e.kind == kind)
  {
  }

  /** A descriptor with a callback is stored whole and defaults to the
      callback type, though an explicit `type` key still wins; without a
      callback only its `template` entry is stored. */
  lemma SetCallbackDescriptor(d: Descriptor, data: Data, sort: int, kind: Option<string>)
    ensures var e := SetState(Desc(d), data, sort, kind);
      && (d.callback.Some? ==> e.template == Desc(d) && e.kind == (if d.kind.Some? then d.kind else CallbackKind))
      && (d.callback.None? ==> e.template == d.template)
  {
  }

  /** The text of the exception `render` throws: the engine's own message
      for a file view, and the view layer's fixed messages otherwise. */
  lemma DispatchMessages(e: ViewState, app: App)
    requires Dispatch(e, app).Err?
    ensures var m := Message(Dispatch(e, app).error);
      && (e.kind == FileKind && app.NoApp? ==> m == "View missing $app.")
      && (e.kind == FileKind && app.App? ==> app.renderFile(e.template, e.data) == Raised(m))
      && (e.kind == CallbackKind ==> m == "View missing callback.")
      && (e.kind !in {FileKind, CallbackKind, StringKind} ==>
            m == "Not a valid template type: " + (if e.kind.Some? then e.kind.value else ""))
  {
  }

  /** A string view writes its template verbatim and never fails. */
  lemma StringViewNeverFails(e: ViewState, app: App)
    requires e.kind == StringKind
    ensures Dispatch(e, app) == Ok(AsString(e.template))
  {
  }

  /** A file view rendered with an application hands the engine its
      template and its data, and yields exactly what the engine writes or
      the engine's failure, unchanged. */
  lemma FileViewUsesEngine(e: ViewState, app: App)
    requires e.kind == FileKind && app.App?
    ensures Dispatch(e, app) == match app.renderFile(e.template, e.data)
      case Written(text) => Ok(text)
      case Raised(reason) => Err(EngineFailure(reason))
  {
  }

  /** A file view rendered without an application throws before the
      engine is consulted, whatever the engine would do. */
  lemma FileViewNeedsApp(e: ViewState)
    requires e.kind == FileKind
    ensures Dispatch(e, NoApp) == Err(MissingApp)
  {
  }

  /** A callback view writes exactly what its callback returns, fails when
      the callback is missing or not callable, and never sees the view's
      data. */
  lemma CallbackViewIgnoresData(e: ViewState, data: Data, app: App)
    requires e.kind == CallbackKind
    ensures Dispatch(e.(data := data), app) == Dispatch(e, app)
    ensures Dispatch(e, app) ==
      if IsCallable(e.template) then Ok(CallbackOf(e.template).value.output)
      else Err(MissingCallback)
  {
  }
}
