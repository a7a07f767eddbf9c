# Anax view layer, modelled in Dafny

This project models the view layer of the Anax PHP framework. The layer has
two classes. The collection's entries are `View2` objects (see
"## Left out"); the model gives them the semantics of `View`.

A **View** is one piece of a page. It holds four fields: a template, the
data for that template, a sort value and a type. `set` fills the fields,
either from plain arguments or from a descriptor array whose keys override
the arguments. `render` writes the view. A `file` view goes through the
template engine and needs an application object. A `callback` view echoes
what its callback returns. A `string` view echoes its template. Any other
type throws.

A **ViewCollection** keeps views per named region, in insertion order.
- `add` stores a template name, resolved to the first existing file on the
  configured search paths, or a descriptor array.
- `addCallback` and `addString` store callback and string views.
- `hasContent` says whether a region holds any view.
- `render` sorts a region's views in place by ascending sort value, keeping
  insertion order among equal values, then renders them in turn. It stops
  at the first exception.
- `renderBuffered` does the same inside an output buffer and returns what
  was written.

The model has these modules:
- `AnaxView` (`view.dfy`): the `View` class, the semantics of `set`
  (`SetState`) and of `render` (`Dispatch`).
- `StableSort` (`stable_sort.dfy`): the comparator, and the stable sort as a
  function `Sort` and as the methods `InsertView` and `SortViews` proved
  against it.
- `OutputBuffering` (`output_buffering.dfy`): `echo` and the output-buffer
  stack (`ob_start`, `ob_get_contents`, `ob_end_clean`) as a class over a
  response stream and a stack of buffers.
- `AnaxViewCollection` (`view_collection.dfy`): template lookup, the effect
  of `add` (`AddEffect`), rendering a sequence of views (`RenderAll`), and
  the `ViewCollection` class.
- `Scenarios` (`scenarios.dfy`): whole-collection examples proved end to
  end.
- `Wrappers` (`wrappers.dfy`): an `Option` type.

PHP's `type` field and array key are called `kind` in the model, because
`type` is a Dafny keyword.

PHP's default arguments are kept as Dafny default parameter values:
`data` defaults to an empty map, `region` to "main" and `sort` to 0 on
`add`, `addCallback` and `addString`, and `region` to "main" on `render`
and `renderBuffered`. Two parameters have no PHP counterpart: the set of
existing files (`files`) and the output (`out`). They come last and are
passed by name.

Two points worth knowing:
- The doc comment of `add` (ViewCollection.php:80-83) says the highest sort
  value is rendered first. The comparator in `render`
  (ViewCollection.php:204-213) orders ascending, so the lowest sort value
  comes first. The model follows the comparator.
  `Scenarios.AscendingSortOrder` adds a header with sort 10, a string "MID"
  with sort 5 and a footer with sort 20, and proves they render as MID,
  header, footer.
- `renderBuffered` has no `try`/`finally`. An exception from `render`
  therefore skips `ob_end_clean`, and the buffer stays open holding what
  was written so far. `ViewCollection.RenderBuffered` models the code as
  written. This project takes releasing the buffer on every exit path as
  the correction: `ViewCollection.RenderBufferedRestoring` models it (see
  Findings).

## Model

| member | source | states |
|---|---|---|
| AnaxView.View.constructor | src/View/View.php:19-22 | a new view has no template, empty data and no type |
| AnaxView.SetState | src/View/View.php:38-69 | the fields `set` leaves: a descriptor with a callback keeps that callback and has the callback type unless a `type` key overrides it; a template that is not an array is stored with the arguments unchanged |
| AnaxView.Message | src/View/View.php:85-107 | the view layer's own exceptions carry a non-empty message; a failure of the template engine keeps the engine's message unchanged |
| AnaxView.View.Set | src/View/View.php:38-69 | after `set`, the view's four fields are exactly `SetState` of the arguments |
| AnaxView.View.SortOrder | src/View/View.php:118-121 | the getter returns the view's stored sort value |
| AnaxView.SetKeysOverrideArguments | src/View/View.php:48-58 | in a descriptor, each of the `data`, `sort` and `type` keys that is set wins; each key that is unset leaves the argument in place |
| AnaxView.SetCallbackDescriptor | src/View/View.php:41-46 | a descriptor with a callback is stored whole, and its type defaults to "callback" unless a `type` key is set; a descriptor without one stores only its `template` entry |
| AnaxView.Dispatch | src/View/View.php:80-109 | `render` throws "missing $app" exactly for a file view without an app, and "missing callback" exactly for a callback view without a callable callback; it throws "not a valid template type" exactly when the type is none of file, callback or string; engine failures come only from file views with an app |
| AnaxView.FileViewUsesEngine | src/View/View.php:83-90 | a file view with an app hands the engine its own template and data, and yields exactly the engine's text, or the engine's failure with its reason unchanged |
| AnaxView.DispatchMessages | src/View/View.php:80-109 | the message of each exception `render` throws: "View missing $app.", "View missing callback.", "Not a valid template type: " followed by the type, or the engine's own message |
| AnaxView.StringViewNeverFails | src/View/View.php:101-104 | a string view writes its template verbatim, whatever the app |
| AnaxView.FileViewNeedsApp | src/View/View.php:83-86 | a file view rendered without an app throws before the engine is consulted |
| AnaxView.CallbackViewIgnoresData | src/View/View.php:92-99 | a callback view writes exactly its callback's output, or throws when that callback is missing or not callable; its data never affects the result |
| OutputBuffering.Echo | src/View/View.php:97-102 | `echo` appends to the innermost open buffer, or to the response stream when no buffer is open; nothing else changes |
| OutputBuffering.EchoTwice | src/View/ViewCollection.php:215-217 | echoing two texts in turn equals echoing them joined |
| OutputBuffering.EchoNothing | src/View/ViewCollection.php:200-202 | echoing nothing leaves the output unchanged |
| OutputBuffering.EchoIntoNewBuffer | src/View/ViewCollection.php:230-232 | what is echoed into a freshly started buffer is that buffer's whole content |
| OutputBuffering.Output.constructor | src/View/ViewCollection.php:228-235 | output starts with an empty response and no open buffer |
| OutputBuffering.Output.Write | src/View/View.php:97-102 | the output after `echo t` is `Echo` of the output before |
| OutputBuffering.Output.Start | src/View/ViewCollection.php:230 | `ob_start` pushes one empty buffer and leaves the stream alone |
| OutputBuffering.Output.Contents | src/View/ViewCollection.php:232 | `ob_get_contents` returns the innermost buffer, or false exactly when no buffer is open |
| OutputBuffering.Output.EndClean | src/View/ViewCollection.php:233 | `ob_end_clean` drops the innermost buffer and succeeds exactly when one was open |
| StableSort.Compare | src/View/ViewCollection.php:204-213 | the comparator returns 0 exactly for equal sort values and a negative value exactly when the first view's value is lower |
| StableSort.Insert | src/View/ViewCollection.php:204-213 | inserting a view adds exactly one element and takes no views from outside the input |
| StableSort.Sort | src/View/ViewCollection.php:204-213 | the sort keeps the length and takes no views from outside the input |
| StableSort.InsertPermutes | src/View/ViewCollection.php:204-213 | insertion adds exactly the inserted view to the multiset of views |
| StableSort.SortPermutes | src/View/ViewCollection.php:204-213 | the sorted region is a permutation of the region |
| StableSort.InsertSorted | src/View/ViewCollection.php:204-213 | inserting into a sorted sequence keeps it sorted |
| StableSort.SortSorted | src/View/ViewCollection.php:204-213 | the sorted region is in ascending sort order |
| StableSort.InsertWithKey | src/View/ViewCollection.php:204-213 | insertion puts the new view behind every view with the same sort value |
| StableSort.SortStable | src/View/ViewCollection.php:204-213 | for every sort value, the views with that value keep their insertion order |
| StableSort.InsertLast | src/View/ViewCollection.php:204-213 | a view that sorts at or after every view is appended at the end |
| StableSort.SortIdempotent | src/View/ViewCollection.php:204-213 | sorting a sorted region changes nothing, and sorting twice equals sorting once |
| StableSort.SortSortedIsIdentity | src/View/ViewCollection.php:204-213 | a region already in ascending order is left as it is |
| StableSort.SameKeyOrderEqual | src/View/ViewCollection.php:204-213 | two sorted sequences that agree on the order of each sort value's views are equal |
| StableSort.SortUnique | src/View/ViewCollection.php:204-213 | any sorted arrangement that keeps each sort value's views in insertion order is the sort's result |
| StableSort.InsertView | src/View/ViewCollection.php:204-213 | the scanning insertion method returns exactly `Insert` |
| StableSort.SortViews | src/View/ViewCollection.php:204-213 | the in-order insertion sort method returns exactly `Sort`: sorted, a permutation, stable |
| AnaxViewCollection.IsEmpty | src/View/ViewCollection.php:100 | PHP's empty() on the template: null is empty; a name longer than one character is not; a descriptor with a callback or a template is not |
| AnaxViewCollection.TemplateFile | src/View/ViewCollection.php:63-76 | the lookup result is an existing file that is the candidate of one of the search paths; it fails exactly when no search path's candidate exists, and then with "could not find template file" |
| AnaxViewCollection.TemplateFileFirstMatch | src/View/ViewCollection.php:68-73 | lookup returns the candidate of the first search path whose file exists, whatever later paths hold |
| AnaxViewCollection.TemplateFileNotFound | src/View/ViewCollection.php:75 | lookup throws when no search path holds the file, with the message "Could not find template file '<name>'." |
| AnaxViewCollection.ViewCollection.GetTemplateFile | src/View/ViewCollection.php:63-76 | the loop over the search paths returns the first existing candidate or the not-found error, as `TemplateFile` defines |
| AnaxViewCollection.AddEffect | src/View/ViewCollection.php:98-132 | `add` throws only "template not found"; a stored name is a file view of an existing file; a stored descriptor with a callback is a callback view |
| AnaxViewCollection.AddEmptyIsNoOp | src/View/ViewCollection.php:100-102 | `add` returns without throwing or storing anything exactly when its template is empty in PHP's sense |
| AnaxViewCollection.AddNameResolves | src/View/ViewCollection.php:106-108 | a template name becomes a file view of the first existing candidate path, with the given data and sort |
| AnaxViewCollection.AddNameNotFound | src/View/ViewCollection.php:106-108 | a name no search path holds makes `add` throw, and nothing is stored |
| AnaxViewCollection.AddScalarStoresNothingToRender | src/View/ViewCollection.php:100-128 | a non-empty template that is neither a string nor an array is stored, with no exception, as a view with no template and no type under the region argument; rendering it throws "not a valid template type" |
| AnaxViewCollection.AddDescriptorRegion | src/View/ViewCollection.php:113-115 | a descriptor's `region` key overrides the region argument |
| AnaxViewCollection.AddCallbackDescriptor | src/View/ViewCollection.php:117-119 | a descriptor with a callback is always stored as a callback view, whatever its `type` key; its `data` and `sort` keys win over the arguments; it renders the callback's output or throws "missing callback" |
| AnaxViewCollection.AddFileDescriptor | src/View/ViewCollection.php:120-124 | a descriptor with a template and type file or no type is resolved like a name; `add` throws exactly when the lookup fails; `data` and `sort` keys still win |
| AnaxViewCollection.AddOtherDescriptor | src/View/ViewCollection.php:109-128 | a non-empty descriptor with no callback that does not name a file template (its type is set to something other than file, or it has no `template` key, like `["type" => "file"]` or `["data" => …]`) is stored with its template (null when absent) and type, with no lookup and no exception; its `data` and `sort` keys win over the arguments |
| AnaxViewCollection.AddCallbackDefersCheck | src/View/ViewCollection.php:146-153 | `addCallback` never throws; the view renders the callback's output, or throws "missing callback" at render time |
| AnaxViewCollection.RenderAll | src/View/ViewCollection.php:215-217 | rendering an empty sequence of views never throws |
| AnaxViewCollection.RenderAllErrorFromView | src/View/ViewCollection.php:215-217 | the exception that stops rendering is the one some view of the sequence throws |
| AnaxViewCollection.RenderAllAppend | src/View/ViewCollection.php:215-217 | rendering two runs of views in turn: the second runs only if the first threw nothing, and the texts concatenate |
| AnaxViewCollection.RenderAllSucceeds | src/View/ViewCollection.php:215-217 | rendering a region succeeds exactly when every one of its views renders |
| AnaxViewCollection.RenderAllStopsAtFirstFailure | src/View/ViewCollection.php:215-217 | the first view that throws stops the loop: the text before it stays written, its exception is the result, and no later view runs |
| AnaxViewCollection.RenderAgainSameOutput | src/View/ViewCollection.php:198-218 | rendering an already rendered (sorted) region again gives the same text and the same exception |
| AnaxViewCollection.ViewCollection.constructor | src/View/ViewCollection.php:27 | a new collection has no regions |
| AnaxViewCollection.ViewCollection.Add | src/View/ViewCollection.php:98-132 | `add` either does nothing, throws with the store unchanged, or appends one new view with the fields `AddEffect` gives to the end of the target region |
| AnaxViewCollection.ViewCollection.AddCallback | src/View/ViewCollection.php:146-153 | `addCallback` appends to the region one new view with type callback and the fields `set` leaves from `["callback" => $callback]` (a null template when the callback is null) |
| AnaxViewCollection.ViewCollection.AddString | src/View/ViewCollection.php:166-173 | `addString` appends one new string view of the content, with empty data and the given sort, to the region |
| AnaxViewCollection.ViewCollection.HasContent | src/View/ViewCollection.php:184-187 | a region has content exactly when it holds at least one view |
| AnaxViewCollection.ViewCollection.RenderViews | src/View/ViewCollection.php:215-217 | the render loop echoes what `RenderAll` gives and reports its exception, if any |
| AnaxViewCollection.ViewCollection.Render | src/View/ViewCollection.php:198-218 | an unknown region writes nothing; otherwise the region is replaced by its stable ascending sort, and the sorted views' output is echoed up to the first exception |
| AnaxViewCollection.ViewCollection.RenderBuffered | src/View/ViewCollection.php:228-235 | on success it returns the region's rendered text and the output is as before; when a view throws, the exception propagates and the buffer stays open, holding the text written before it |
| AnaxViewCollection.ViewCollection.RenderBufferedRestoring | src/View/ViewCollection.php:228-235 | corrected `renderBuffered`: it returns the region's rendered text or propagates its exception, and in both cases the output is exactly as before |
| Scenarios.EqualSortRendersInOrder | src/View/ViewCollection.php:204-217 | three string views with equal sort values render in insertion order |
| Scenarios.EqualSortKeepsInsertionOrder | src/View/ViewCollection.php:228-235 | adding the strings "A", "B", "C" with equal sort values and rendering buffered returns "ABC" |
| Scenarios.LowestSortFirst | src/View/ViewCollection.php:204-213 | views with sort values 10, 5, 20 sort into the order 5, 10, 20 |
| Scenarios.LowestSortRendersFirst | src/View/ViewCollection.php:204-217 | views with sort values 10, 5, 20 render the 5 first, then 10, then 20 |
| Scenarios.TemplatesResolve | src/View/ViewCollection.php:63-76 | "header" and "footer" resolve to their files under the single search path |
| Scenarios.AscendingSortOrder | src/View/ViewCollection.php:228-235 | header (10), "MID" (5), footer (20) render as MID, header, footer |
| Scenarios.RenderTwice | src/View/ViewCollection.php:228-235 | rendering a region buffered twice in a row, as written, returns the same result both times |
| Scenarios.RenderTwiceRestoring | src/View/ViewCollection.php:228-235 | with the corrected buffering, rendering twice returns the same result both times and leaves the output unchanged |
| Scenarios.MissingCallbackThrows | src/View/View.php:92-95 | a region holding only a view added by `addCallback(null)` throws "missing callback" and writes nothing |
| Scenarios.FailureLeavesBufferOpen | src/View/ViewCollection.php:228-235 | as written, rendering a region whose callback view has no callback throws "missing callback" and leaves one open buffer behind |
| Scenarios.FailureReleasesBuffer | src/View/ViewCollection.php:228-235 | with the corrected buffering, the same render throws the same exception and leaves no buffer open |

## Left out

- View2: ViewCollection.php:5 imports `View2` under the name `View`, so `add`, `addCallback` and `addString` really create `View2` objects, and `render` calls `View2`'s `sortOrder` and `render`. View2 is not part of this model. The model gives the collection's entries the semantics of View.php's `set`, `render` and `sortOrder`.
- `configure` and its `include` files (ViewCollection.php:42-50): loading configuration is file I/O. The search paths and suffix are constructor arguments instead.
- `is_file`: the filesystem is a set of existing paths, passed to the operations that consult it.
- ViewRenderFile is not part of this model. The template engine is a function in the `App` value that writes text or raises. Text it writes before raising is not modelled.
- The dependency-injection container is only the `App` value passed to `render`. Falsy values other than null, and what setting the app does to the engine, are not modelled.
- Callables: only "callable, yields this text" and "not callable" are modelled. Function names, `[object, method]` arrays and closures with side effects are not, and neither are the callback's own echo output and exceptions.
- The `mergesort` helper is not part of this model. It is modelled as a stable sort by its comparator.
- The comparator's loose `==` and `<` are modelled on integers only. Non-integer sort values (floats, numeric strings, null) are not modelled.
- Descriptor keys are typed: `sort` an integer, `type` and `region` strings, `data` a map of strings. Other value types are not modelled.
- `switch` on the view type uses loose comparison. Only string types and a missing type are modelled.
- PHP notices (an undefined `$tpl` for scalar templates, array-to-string conversion) are not modelled. Only the values the code then goes on with are.
- The return values used for chaining (`$this`, and the `null` that `set` returns for arrays) are not modelled.
- AnaxView.View.constructor: the sort value before `set` is 0, not PHP's null. The collection calls `set` on every view right after creating it, so no rendered view ever has it.
- The class invariant `Valid` keeps every region key non-empty. This holds because the collection only ever appends to a region.
- Concurrency and output written outside `echo` (headers, direct stream writes) are not modelled.

## Findings

| source | as written | input that shows it | evidently intended | confidence | as-written member | corrected member |
|---|---|---|---|---|---|---|
| src/View/ViewCollection.php:228-235 | `ob_start`, `render`, `ob_get_contents`, `ob_end_clean` in sequence, with no `try`/`finally`: an exception from `render` skips `ob_end_clean` | a collection holding one view added by `addCallback(null)`, rendered with `renderBuffered("main")`: "View missing callback." propagates and one output buffer stays open | release the buffer on every exit path, then let the exception propagate | not executed; medium (a caller that catches the exception keeps writing into the leaked buffer) | AnaxViewCollection.ViewCollection.RenderBuffered, Scenarios.FailureLeavesBufferOpen | AnaxViewCollection.ViewCollection.RenderBufferedRestoring, Scenarios.FailureReleasesBuffer |
