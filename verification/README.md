# ckeditor4-angular: the `CKEditorComponent` bridge, modelled in Dafny

`CKEditorComponent` is the Angular component that embeds a CKEditor 4
instance. It keeps the `data` and `readOnly` inputs in step with the
editor. It re-emits the editor's events through its outputs (`ready`,
`dataReady`, `change`, `dataChange`, `focus`, `blur`). It also serves
Angular forms as a `ControlValueAccessor`. For the `divarea` interface
type it normalises the editor configuration so that the `divarea` plugin
is loaded and not removed. The `esm5` and `esm2015` builds hold the same
code; rows below cite either.

Files:

- `optional.dfy`: `Option`, standing for JavaScript's `null`.
- `plugin_lists.dfy` (module `PluginLists`): the two forms of a plugin list
  (comma-separated string, list of strings), `split(',')`, `join(',')`,
  `filter`, `includes`, and `removePlugin`, with lemmas about them.
- `editor_config.dfy` (module `EditorConfig`): the configuration object,
  `ensureDivareaPlugin`, and the `type === 'divarea'` guard of `createEditor`.
- `editor_engine.dfy` (module `EditorEngine`): the CKEditor instance as the
  component sees it. It has a data buffer whose content filtering is the
  function `canon` (`getData()` after `setData(v)` is `canon(v)`), a
  read-only flag, an optional undo manager with a lock, the registered
  handlers, and a record of the calls the component made.
- `ckeditor_component.dfy` (module `CKEditorBinding`): the component as a
  class with the source's fields (`_data`, `_readOnly`, `instance`,
  `onChange`, `onTouched`, `config`). Everything it emits is appended to
  `log`. Engine events reach it through `Fire`, the asynchronous `setData`
  callback through `SetDataDone`.
- `scenarios.dfy` (module `Scenarios`): whole runs, from construction on,
  stating what each run makes observable.

## Model

| member | source | states |
|---|---|---|
| PluginLists.Split | esm5/ckeditor.component.js:260 | `split(',')` always gives at least one piece, and no piece contains a comma |
| PluginLists.Filter | esm5/ckeditor.component.js:262 | the filtered list has no entry equal to the removed name, is no longer than the input, and holds only input entries |
| PluginLists.FilterAppend | esm5/ckeditor.component.js:262 | filtering keeps relative order: it distributes over concatenation |
| PluginLists.FilterCounts | esm5/ckeditor.component.js:262 | every other entry keeps its number of occurrences; the removed name has none |
| PluginLists.FilterAbsent | esm5/ckeditor.component.js:262 | a list without the name comes back unchanged |
| PluginLists.JoinSplit | esm5/ckeditor.component.js:259-265 | joining the pieces of a string gives the string back |
| PluginLists.SplitJoin | esm5/ckeditor.component.js:259-265 | splitting a join of comma-free pieces gives the pieces back (the empty list comes back as `[""]`) |
| PluginLists.SplitAppend | esm5/ckeditor.component.js:247 | appending `",name"` to a string appends `name` as a new last piece |
| PluginLists.SplitNoComma | esm5/ckeditor.component.js:260 | a string without commas splits into itself alone |
| PluginLists.RemovePlugin | esm5/ckeditor.component.js:254-267 | `null` exactly for a falsy input (`null`, `""`); otherwise the same form as the input; on the list form exactly the filtered list; on the string form no entry equal to a non-empty removed name (`","` filtered by `""` joins back to `""`, whose one entry is empty), and the other entries in their original order whenever any are left, and `""` (falsy) when none are |
| PluginLists.Join | esm5/ckeditor.component.js:264 | `[].join(',')` is `""`, and every element occurs in the joined string |
| PluginLists.Truthy | esm5/ckeditor.component.js:255 | `null` is falsy; a string is truthy exactly when non-empty; a list always is |
| PluginLists.Contains | esm5/ckeditor.component.js:248 | `s.includes(t)` holds exactly when `t` occurs in `s` at some position |
| PluginLists.Includes | esm5/ckeditor.component.js:248 | `includes` is a substring test on the string form and exact membership on the list form |
| PluginLists.IncludesLeadingEntry | esm5/ckeditor.component.js:248 | a string that starts with the name includes it |
| PluginLists.IncludesEveryEntry | esm5/ckeditor.component.js:248 | the `includes` guard holds whenever some entry equals the name (substring test on strings, membership on lists) |
| EditorConfig.EnsureDivareaPlugin | esm5/ckeditor.component.js:244-253 | other keys copied; `extraPlugins` always present and a list exactly when it was one; warns exactly when `removePlugins` is truthy and includes `divarea`, and only then is `removePlugins` filtered, otherwise left as it was |
| EditorConfig.ExtraPluginsEndInDivarea | esm5/ckeditor.component.js:245-247 | `extraPlugins` ends with its one and only `divarea` entry, preceded by the old entries other than `divarea` in order (or one empty entry when none are left) |
| EditorConfig.ExtraPluginsListForm | esm2015/ckeditor.component.js:233-234 | a list `extraPlugins` becomes the filtered list plus a last element `divarea` |
| EditorConfig.ExtraPluginsStringForm | esm2015/ckeditor.component.js:233-234 | a string or missing `extraPlugins` becomes its filtered string plus `",divarea"` |
| EditorConfig.KeptPlugins | esm5/ckeditor.component.js:246 | `removePlugin(extraPlugins, 'divarea') \|\| ''` keeps the form of `extraPlugins`; a list becomes the filtered list; a string or missing list becomes the join of the other entries, or `""` when none are left |
| EditorConfig.KeptPluginsEntries | esm5/ckeditor.component.js:246 | `removePlugin(extraPlugins) \|\| ''` on a string or missing list keeps the other entries in order, or one empty entry when none are left |
| EditorConfig.RemovePluginsLoseDivarea | esm5/ckeditor.component.js:248-252 | afterwards `removePlugins` has no `divarea` entry, whether or not the warning fired |
| EditorConfig.RemovePluginsKeepOthers | esm5/ckeditor.component.js:248-249 | when the warning fired and any other `removePlugins` entries are left, they stay, in order |
| EditorConfig.ExtraPluginsWhenMissing | esm5/ckeditor.component.js:246-247 | a missing `extraPlugins` becomes `",divarea"` |
| EditorConfig.WarnsWithoutDivareaEntry | esm5/ckeditor.component.js:248-250 | the substring guard fires on a single entry that merely ends in `divarea` (`"mydivarea"`): a warning, and `removePlugins` is unchanged |
| EditorConfig.KeepsOtherEntry | esm5/ckeditor.component.js:259-265 | a single comma-free entry other than `divarea` survives `removePlugin(..., 'divarea')` unchanged |
| EditorConfig.DropsLeadingDivarea | esm5/ckeditor.component.js:259-265 | `removePlugin("divarea,x", 'divarea')` is `"x"` |
| EditorConfig.NormalizesExample | esm5/ckeditor.component.js:244-253 | `removePlugins: "divarea,x"` with no `extraPlugins` gives `extraPlugins: ",divarea"`, `removePlugins: "x"` and a warning |
| EditorConfig.PrepareConfig | esm5/ckeditor.component.js:162-164 | only the `divarea` type normalises, starting from `{}` when there is no configuration |
| CKEditorBinding.Subscriptions | esm2015/ckeditor.component.js:189-211 | focus, blur and `dataReady` are always handled; `change` exactly with an undo manager, `selectionCheck` exactly without |
| CKEditorBinding.Named | esm5/ckeditor.component.js:228-233 | `change` re-emits `change`, `dataReady` re-emits `dataReady`, other events nothing |
| CKEditorBinding.ChangeEmissions | esm5/ckeditor.component.js:224-243 | the whole sequence: the named event (if any) first, then, exactly when the engine's data differs from the cache, `dataChange` once followed by one `onChange` call with the new data if a callback is registered; nothing else, in particular never `ready`, `focus` or `blur` |
| CKEditorBinding.BlurEmissions | esm2015/ckeditor.component.js:195-202 | `onTouched` (if registered) and then `blur`, which is always last |
| CKEditorBinding.ReconciledReadOnly | esm5/ckeditor.component.js:176 | the buffered read-only value if one was set, else the engine's own flag |
| CKEditorBinding.CKEditorComponent.constructor | esm5/ckeditor.component.js:10-83 | no data, no buffered read-only state, no engine, no callbacks, type `classic`, nothing emitted |
| CKEditorBinding.CKEditorComponent.Data | esm5/ckeditor.component.js:86-88 | the `data` getter returns the cached `_data` |
| CKEditorBinding.CKEditorComponent.ReadOnly | esm5/ckeditor.component.js:112-117 | with an engine, the engine's own read-only flag; without one, the buffered value |
| CKEditorBinding.CKEditorComponent.SetData | esm5/ckeditor.component.js:86-107 | the cached value is a no-op (no engine call); a new value goes to the engine once and the cache becomes the engine's `getData()`, which is `canon(v)`; with no engine the cache becomes `v` verbatim |
| CKEditorBinding.CKEditorComponent.WriteValue | esm5/ckeditor.component.js:149-151 | exactly the `data` setter's effect |
| CKEditorBinding.CKEditorComponent.SetReadOnly | esm5/ckeditor.component.js:112-130 | the getter then shows the value; with an engine it goes to `setReadOnly` once and the buffer is untouched; without one it is only buffered |
| CKEditorBinding.CKEditorComponent.OnDestroy | esm2015/ckeditor.component.js:131-138 | the engine, if any, is destroyed once; afterwards there is no engine |
| CKEditorBinding.CKEditorComponent.RegisterOnChange | esm2015/ckeditor.component.js:142-144 | the slot holds the new callback, overwriting any earlier one |
| CKEditorBinding.CKEditorComponent.RegisterOnTouched | esm2015/ckeditor.component.js:145-147 | the slot holds the new callback, overwriting any earlier one |
| CKEditorBinding.CKEditorComponent.PrepareEditorConfig | esm2015/ckeditor.component.js:151-153 | with type `divarea` the configuration (or `{}`) is replaced by its normalised copy; otherwise nothing changes |
| CKEditorBinding.CKEditorComponent.Subscribe | esm2015/ckeditor.component.js:189-211 | the engine gains exactly the handlers of `Subscriptions` for the adopted engine's undo manager |
| CKEditorBinding.CKEditorComponent.InstanceReady | esm5/ckeditor.component.js:173-198 | the engine is adopted; `setReadOnly` is called once with the reconciled value; handlers are registered; with cached data it is pushed once with the undo manager locked and `ready` waits for the callback; with none, `ready` is emitted at once and nothing is pushed |
| CKEditorBinding.CKEditorComponent.PropagateChange | esm2015/ckeditor.component.js:212-230 | emits `ChangeEmissions` for the engine's data and leaves the cache equal to it; with no engine it throws before any effect |
| CKEditorBinding.CKEditorComponent.OnFocus | esm5/ckeditor.component.js:202-206 | emits `focus` |
| CKEditorBinding.CKEditorComponent.OnBlur | esm2015/ckeditor.component.js:195-202 | emits `BlurEmissions` for the registered `onTouched` |
| CKEditorBinding.CKEditorComponent.Fire | esm5/ckeditor.component.js:200-223 | an event without a handler changes nothing; focus and blur run their handlers; data events run `propagateChange` |
| CKEditorBinding.CKEditorComponent.SetDataDone | esm5/ckeditor.component.js:181-191 | when the cache differs from the engine, `change` (undo manager) or `dataReady` (none) is fired first; then the undo manager is unlocked and `ready` is emitted last; a throwing handler stops it before unlock and `ready` |
| Scenarios.RepeatedWriteIsQuiet | esm5/ckeditor.component.js:96-99 | rewriting the cached value, through `data` or `writeValue`, makes no further `setData` call and emits nothing |
| Scenarios.PushRoundTrip | esm5/ckeditor.component.js:100-106 | before ready the cache is `v`; after ready it reads back `canon(v)` |
| Scenarios.ReadOnlyBuffering | esm5/ckeditor.component.js:112-130 | a value buffered before ready reaches the engine exactly once, at ready; later values go straight through |
| Scenarios.ReadOnlyAdoptedFromEngine | esm5/ckeditor.component.js:176 | with nothing buffered, the engine's own flag is adopted and written back once |
| Scenarios.ChangeGate | esm5/ckeditor.component.js:224-243 | `dataReady` on unchanged data emits only `dataReady`; on changed data also `dataChange` and `onChange` |
| Scenarios.EventRouting | esm2015/ckeditor.component.js:203-210 | with an undo manager only `change` drives the data path; without one only `selectionCheck` does |
| Scenarios.InitialPushCorrection | esm5/ckeditor.component.js:178-191 | filtered initial data: nothing at ready; in the callback `change`/`dataReady`, `dataChange`, `onChange`, then `ready`; the cache holds the filtered data and the undo manager is unlocked |
| Scenarios.InitialPushUnchanged | esm5/ckeditor.component.js:179-191 | initial data the engine keeps: only `ready`, after the callback |
| Scenarios.DestroyTwice | esm2015/ckeditor.component.js:131-138 | two `ngOnDestroy` calls destroy the engine once |
| Scenarios.BlurOrder | esm2015/ckeditor.component.js:195-202 | `onTouched` before `blur`; only `blur` when no callback is registered |
| Scenarios.CallbackAfterDestroy | esm5/ckeditor.component.js:181-191 | destroyed before the callback runs, with data to correct: the handler throws, `ready` is never emitted and the undo manager stays locked |

Behaviour of the code worth noting:

- The default `type` is `classic` (esm5/ckeditor.component.js:29), not
  `divarea` as the doc comment above it says
  (esm5/ckeditor.component.js:22). So normalisation runs only for an
  explicit `type = 'divarea'`.
- The `setData` callback (esm5/ckeditor.component.js:181-191) has no null
  check, and `propagateChange` dereferences `this.instance`
  (esm5/ckeditor.component.js:227). If the component is destroyed before
  the callback runs and the data needs correcting, the callback's manual
  `fire` reaches `propagateChange` and throws, provided a destroyed engine
  still runs the pending `setData` completion callback and still
  dispatches `change` or `dataReady` to the handlers registered on it. The
  model assumes both: `SetDataDone` may run after `OnDestroy`, and the
  engine's `Destroy` keeps the handlers. What a CKEditor 4 instance does
  after `destroy()` is not part of this model.
  `Scenarios.CallbackAfterDestroy` shows this run.
- The `includes('divarea')` guard on the string form of `removePlugins` is
  a substring test. A name such as `mydivarea` triggers the warning but
  removes nothing (`EditorConfig.WarnsWithoutDivareaEntry`).

## Left out

- Loading the CKEditor script (`ngAfterViewInit`, `getEditorNamespace`, its `.catch(console.error)`): network I/O through a helper that is not part of this model.
- `ngZone.run` and `runOutsideAngular`: Angular scheduling; each wrapped body is one direct step.
- The DOM work of `createEditor` (creating and appending the element, choosing `CKEDITOR.inline` or `CKEDITOR.replace`): foreign calls. The engine is handed to `InstanceReady` ready-made.
- The global `instanceCreated` listener and the `created` output.
- `EventEmitter` internals, the decorator metadata and providers; the event payloads, which are passed through untouched.
- The text of the console warning: only the fact that it was written (`warned`).
- The engine's own content filtering (`canon` is any function), its undo history, and what `destroy()` tears down inside it (registered handlers stay registered in the model).
- `undefined` as distinct from `null`: both are `None`. In the code, `writeValue(undefined)` before the engine is ready stores `undefined` in `_data` (esm5/ckeditor.component.js:97, 106), and the ready handler's `data !== null` test then pushes it to the engine and waits for the callback (esm5/ckeditor.component.js:179-181). The model treats it as `null`: nothing is pushed and `ready` is emitted at once.
- Plugin-list values that are neither strings nor lists of strings are not modelled.
- Object key presence: `Object.assign` leaves a `removePlugins: undefined` key where there was none; the model does not tell that from a missing key.
- Only one outstanding `setData` callback is tracked (`pending`). The ready event fires once per engine, so the source never has more than one.
- Setting `readOnly` to `null` is not modelled: the setter takes a boolean.
