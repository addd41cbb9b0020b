/**
 * `CKEditorComponent`: the Angular component that hosts a CKEditor 4
 * instance, keeps its `data` and `readOnly` inputs in step with the
 * engine, and serves as a `ControlValueAccessor` for Angular forms.
 *
 * What the component sends out (its `@Output` emitters and the two form
 * callbacks) is appended to `log`; the engine events it handles are the
 * methods `Fire` and `SetDataDone`, called in whatever order the engine
 * produces them.
 */
module CKEditorBinding {
  import opened Optional
  import opened PluginLists
  import opened EditorConfig
  import opened EditorEngine

  /** A callback registered by the forms API, known by its identity. */
  type Callback = nat

  /** What the component makes observable, in order. */
  datatype Emission =
    | Ready                                        // `ready.emit`
    | DataReadyOut                                 // `dataReady.emit`
    | ChangeOut                                    // `change.emit`
    | DataChange(data: string)                     // `dataChange.emit(newData)`
    | FocusOut                                     // `focus.emit`
    | BlurOut                                      // `blur.emit`
    | OnChangeCalled(callback: Callback, data: string)   // `onChange(newData)`
    | OnTouchedCalled(callback: Callback)          // `onTouched()`

  // -----------------------------------------------------------------------
  // What the event handlers send out

  /** The events `subscribe` routes to `propagateChange`, besides focus and blur. */
  function Subscriptions(hasUndoManager: bool): (r: set<EngineEvent>)
    ensures FocusEvent in r && BlurEvent in r && DataReadyEvent in r
    ensures ChangeEvent in r <==> hasUndoManager
    ensures SelectionCheckEvent in r <==> !hasUndoManager
  {
    {FocusEvent, BlurEvent, DataReadyEvent} + (if hasUndoManager then {ChangeEvent} else {SelectionCheckEvent})
  }

  /** The emitter `propagateChange` re-fires for an event: `change`, `dataReady`, or none. */
  function Named(event: EngineEvent): (r: seq<Emission>)
    ensures |r| <= 1
    ensures ChangeOut in r <==> event == ChangeEvent
    ensures DataReadyOut in r <==> event == DataReadyEvent
    ensures forall i :: 0 <= i < |r| ==> r[i] == ChangeOut || r[i] == DataReadyOut
  {
    if event == ChangeEvent then [ChangeOut]
    else if event == DataReadyEvent then [DataReadyOut]
    else []
  }

  /**
   * What `propagateChange` emits when the engine holds `newData` and the
   * component caches `cached`: the named event, then `dataChange` and the
   * `onChange` callback only on a real change.
   */
  function ChangeEmissions(event: EngineEvent, newData: string, cached: Option<string>, onChange: Option<Callback>): (r: seq<Emission>)
    ensures event == ChangeEvent ==> |r| >= 1 && r[0] == ChangeOut
    ensures event == DataReadyEvent ==> |r| >= 1 && r[0] == DataReadyOut
    ensures ChangeOut in r <==> event == ChangeEvent
    ensures DataReadyOut in r <==> event == DataReadyEvent
    ensures DataChange(newData) in r <==> cached != Some(newData)
    ensures onChange.Some? ==> (OnChangeCalled(onChange.value, newData) in r <==> cached != Some(newData))
    ensures onChange.None? ==> forall i :: 0 <= i < |r| ==> !r[i].OnChangeCalled?
    ensures Ready !in r && FocusOut !in r && BlurOut !in r
    ensures |r| == |Named(event)| + (if cached == Some(newData) then 0 else if onChange.Some? then 2 else 1)
    ensures cached != Some(newData) ==> r[|Named(event)|] == DataChange(newData)
    ensures cached != Some(newData) && onChange.Some? ==> r[|Named(event)| + 1] == OnChangeCalled(onChange.value, newData)
  {
    var named := Named(event);
    var changed := if onChange.Some? then [DataChange(newData), OnChangeCalled(onChange.value, newData)] else [DataChange(newData)];
    named + if cached == Some(newData) then [] else changed
  }

  /** What the blur handler emits: the `onTouched` callback, if registered, and then `blur`. */
  function BlurEmissions(onTouched: Option<Callback>): (r: seq<Emission>)
    ensures |r| >= 1 && r[|r| - 1] == BlurOut
    ensures onTouched.Some? ==> r == [OnTouchedCalled(onTouched.value), BlurOut]
    ensures onTouched.None? ==> r == [BlurOut]
  {
    (if onTouched.Some? then [OnTouchedCalled(onTouched.value)] else []) + [BlurOut]
  }

  /** The read-only state adopted at `instanceReady`: the buffered value if one was set, else the engine's own. */
  function ReconciledReadOnly(buffered: Option<bool>, engineReadOnly: bool): (r: bool)
    ensures buffered.Some? ==> r == buffered.value
    ensures buffered.None? ==> r == engineReadOnly
  {
    buffered.GetOr(engineReadOnly)
  }

  class CKEditorComponent<V> {
    /** `_data`: the cached data, `None` until some is set. */
    var cache: Option<string>
    /** `_readOnly`: the read-only state set before the engine exists. */
    var readOnlyBuffer: Option<bool>
    /** `instance`: the engine, from `instanceReady` until `ngOnDestroy`. */
    var instance: Engine?
    var onChange: Option<Callback>
    var onTouched: Option<Callback>
    var editorType: EditorType
    var config: Option<Config<V>>
    /** Whether `ensureDivareaPlugin` warned on the console. */
    var warned: bool
    /** The engine whose `setData` completion callback, issued at `instanceReady`, has not run yet. */
    var pending: Engine?
    /** Everything emitted so far. */
    var log: seq<Emission>

    constructor ()
      ensures cache == None && readOnlyBuffer == None && instance == null
      ensures onChange == None && onTouched == None
      ensures editorType == DefaultType && config == None && !warned
      ensures pending == null && log == []
    {
      cache := None;
      readOnlyBuffer := None;
      instance := null;
      onChange := None;
      onTouched := None;
      editorType := DefaultType;
      config := None;
      warned := false;
      pending := null;
      log := [];
    }

    /** The engine, as a set: empty before `instanceReady` and after `ngOnDestroy`. */
    function InstanceSet(): set<Engine>
      reads this
    {
      if instance == null then {} else {instance}
    }

    /** The `data` getter: always the cache, never the engine. */
    function Data(): (r: Option<string>)
      reads this
      ensures r == cache
    {
      cache
    }

    /** The `readOnly` getter: the engine's flag once it exists, the buffer before. */
    function ReadOnly(): (r: Option<bool>)
      reads this, instance
      ensures instance != null ==> r == Some(instance.readOnly)
      ensures instance == null ==> r == readOnlyBuffer
    {
      if instance != null then Some(instance.readOnly) else readOnlyBuffer
    }

    /**
     * The `data` setter. The cached value is left alone; a new value goes to
     * the engine, and the cache takes what the engine then holds; with no
     * engine the cache takes the value as given.
     */
    method SetData(data: Option<string>)
      modifies this`cache, InstanceSet()`buffer, InstanceSet()`setDataCalls
      ensures data == old(cache) ==> cache == old(cache)
      ensures data == old(cache) && instance != null ==> instance.setDataCalls == old(instance.setDataCalls) && instance.buffer == old(instance.buffer)
      ensures data != old(cache) && instance != null ==>
                && instance.setDataCalls == old(instance.setDataCalls) + [data]
                && instance.GetData() == instance.canon(data)
                && Data() == Some(instance.GetData())
      ensures data != old(cache) && instance == null ==> Data() == data
    {
      if data == cache {
        return;
      }
      if instance != null {
        instance.SetData(data);
        cache := Some(instance.GetData());
        return;
      }
      cache := data;
    }

    /** `writeValue(value)`: exactly the `data` setter. */
    method WriteValue(value: Option<string>)
      modifies this`cache, InstanceSet()`buffer, InstanceSet()`setDataCalls
      ensures value == old(cache) ==> cache == old(cache)
      ensures value == old(cache) && instance != null ==> instance.setDataCalls == old(instance.setDataCalls) && instance.buffer == old(instance.buffer)
      ensures value != old(cache) && instance != null ==>
                && instance.setDataCalls == old(instance.setDataCalls) + [value]
                && instance.GetData() == instance.canon(value)
                && Data() == Some(instance.GetData())
      ensures value != old(cache) && instance == null ==> Data() == value
    {
      SetData(value);
    }

    /** The `readOnly` setter: straight to the engine once it exists, buffered before. */
    method SetReadOnly(isReadOnly: bool)
      modifies this`readOnlyBuffer, InstanceSet()`readOnly, InstanceSet()`setReadOnlyCalls
      ensures ReadOnly() == Some(isReadOnly)
      ensures instance != null ==> readOnlyBuffer == old(readOnlyBuffer) && instance.setReadOnlyCalls == old(instance.setReadOnlyCalls) + [isReadOnly]
      ensures instance == null ==> readOnlyBuffer == Some(isReadOnly)
    {
      if instance != null {
        instance.SetReadOnly(isReadOnly);
        return;
      }
      readOnlyBuffer := Some(isReadOnly);
    }

    /** `ngOnDestroy`: destroys the engine if there is one and forgets it; a second call does nothing. */
    method OnDestroy()
      modifies this`instance, InstanceSet()`destroyCalls
      ensures instance == null
      ensures old(instance) != null ==> old(instance).destroyCalls == old(instance.destroyCalls) + 1
    {
      if instance != null {
        instance.Destroy();
        instance := null;
      }
    }

    /** `registerOnChange(callback)`: overwrites the slot. */
    method RegisterOnChange(callback: Option<Callback>)
      modifies this`onChange
      ensures onChange == callback
    {
      onChange := callback;
    }

    /** `registerOnTouched(callback)`: overwrites the slot. */
    method RegisterOnTouched(callback: Option<Callback>)
      modifies this`onTouched
      ensures onTouched == callback
    {
      onTouched := callback;
    }

    /** The configuration step of `createEditor`: only the `divarea` type normalises the configuration. */
    method PrepareEditorConfig()
      modifies this`config, this`warned
      ensures editorType == DivareaType ==>
                var n := EnsureDivareaPlugin(old(config).GetOr(EmptyConfig()));
                config == Some(n.config) && warned == n.warned
      ensures editorType != DivareaType ==> config == old(config) && warned == old(warned)
    {
      if editorType == DivareaType {
        var n := EnsureDivareaPlugin(config.GetOr(EmptyConfig()));
        config := Some(n.config);
        warned := n.warned;
      }
    }

    /** `subscribe(editor)`: handlers for focus, blur, `dataReady`, and `change` or `selectionCheck`. */
    method Subscribe(editor: Engine)
      requires instance != null
      modifies editor`listeners
      ensures editor.listeners == old(editor.listeners) + Subscriptions(instance.hasUndoManager)
    {
      editor.On(FocusEvent);
      editor.On(BlurEvent);
      editor.On(DataReadyEvent);
      if instance.hasUndoManager {
        editor.On(ChangeEvent);
      } else {
        editor.On(SelectionCheckEvent);
      }
    }

    /**
     * The `instanceReady` handler: adopt the engine, reconcile the read-only
     * state, subscribe, then either push the cached data with the undo
     * manager locked (and wait for `SetDataDone`) or emit `ready` at once.
     */
    method InstanceReady(editor: Engine)
      modifies this`instance, this`readOnlyBuffer, this`pending, this`log
      modifies editor`readOnly, editor`setReadOnlyCalls, editor`listeners
      modifies editor`buffer, editor`setDataCalls, editor`undoLocked
      ensures instance == editor
      ensures readOnlyBuffer == old(readOnlyBuffer)
      ensures editor.setReadOnlyCalls == old(editor.setReadOnlyCalls) + [ReconciledReadOnly(old(readOnlyBuffer), old(editor.readOnly))]
      ensures ReadOnly() == Some(ReconciledReadOnly(old(readOnlyBuffer), old(editor.readOnly)))
      ensures editor.listeners == old(editor.listeners) + Subscriptions(editor.hasUndoManager)
      ensures old(cache).Some? ==>
                && editor.setDataCalls == old(editor.setDataCalls) + [old(cache)]
                && editor.GetData() == editor.canon(old(cache))
                && editor.undoLocked == (old(editor.undoLocked) || editor.hasUndoManager)
                && pending == editor
                && log == old(log)
      ensures old(cache).None? ==>
                && editor.setDataCalls == old(editor.setDataCalls)
                && editor.buffer == old(editor.buffer)
                && editor.undoLocked == old(editor.undoLocked)
                && pending == old(pending)
                && log == old(log) + [Ready]
    {
      instance := editor;
      SetReadOnly(if readOnlyBuffer != None then readOnlyBuffer.value else instance.readOnly);
      Subscribe(instance);
      if Data() != None {
        if editor.hasUndoManager {
          editor.LockUndo();
        }
        editor.SetData(Data());
        pending := editor;
      } else {
        log := log + [Ready];
      }
    }

    /**
     * `propagateChange(event)`: reads the engine's data, re-fires the named
     * event, and on a real change updates the cache, emits `dataChange` and
     * calls `onChange`. With no engine the read throws (`ok` is false) before
     * anything happens.
     */
    method PropagateChange(event: EngineEvent) returns (ok: bool)
      modifies this`cache, this`log
      ensures ok <==> instance != null
      ensures !ok ==> cache == old(cache) && log == old(log)
      ensures ok ==> log == old(log) + ChangeEmissions(event, instance.GetData(), old(cache), onChange)
      ensures ok ==> Data() == Some(instance.GetData())
    {
      if instance == null {
        return false;
      }
      ok := true;
      var newData := instance.GetData();
      log := log + Named(event);
      if Some(newData) == Data() {
        return;
      }
      cache := Some(newData);
      log := log + [DataChange(newData)];
      if onChange != None {
        log := log + [OnChangeCalled(onChange.value, newData)];
      }
    }

    /** The focus handler. */
    method OnFocus()
      modifies this`log
      ensures log == old(log) + [FocusOut]
    {
      log := log + [FocusOut];
    }

    /** The blur handler: `onTouched` first, if registered, then `blur`. */
    method OnBlur()
      modifies this`log
      ensures log == old(log) + BlurEmissions(onTouched)
    {
      if onTouched != None {
        log := log + [OnTouchedCalled(onTouched.value)];
      }
      log := log + [BlurOut];
    }

    /**
     * `editor` fires `event`: the handler registered for it by `subscribe`
     * runs, if there is one. `ok` is false when the handler threw.
     */
    method Fire(editor: Engine, event: EngineEvent) returns (ok: bool)
      modifies this`cache, this`log
      ensures event !in editor.listeners ==> ok && cache == old(cache) && log == old(log)
      ensures event in editor.listeners && event == FocusEvent ==> ok && cache == old(cache) && log == old(log) + [FocusOut]
      ensures event in editor.listeners && event == BlurEvent ==> ok && cache == old(cache) && log == old(log) + BlurEmissions(onTouched)
      ensures event in editor.listeners && event != FocusEvent && event != BlurEvent ==>
                && (ok <==> instance != null)
                && (!ok ==> cache == old(cache) && log == old(log))
                && (ok ==> log == old(log) + ChangeEmissions(event, instance.GetData(), old(cache), onChange))
                && (ok ==> Data() == Some(instance.GetData()))
    {
      ok := true;
      if event !in editor.listeners {
        return;
      }
      match event
      case FocusEvent => OnFocus();
      case BlurEvent => OnBlur();
      case _ => ok := PropagateChange(event);
    }

    /**
     * The completion callback of the `setData` issued at `instanceReady`:
     * when the cache and the engine disagree, fire `change` (with an undo
     * manager) or `dataReady` (without) on the engine; unlock the undo
     * manager; emit `ready`. A handler that throws ends the callback there.
     */
    method SetDataDone() returns (ok: bool)
      requires pending != null
      modifies this`pending, this`cache, this`log, pending`undoLocked
      ensures pending == null
      ensures var e := old(pending);
        var event := if e.hasUndoManager then ChangeEvent else DataReadyEvent;
        var fired := old(cache) != Some(e.GetData()) && event in e.listeners;
        && (ok <==> !fired || instance != null)
        && (!ok ==> cache == old(cache) && log == old(log) && e.undoLocked == old(e.undoLocked))
        && (ok && fired ==> log == old(log) + ChangeEmissions(event, instance.GetData(), old(cache), onChange) + [Ready])
        && (ok && fired ==> Data() == Some(instance.GetData()))
        && (ok && !fired ==> log == old(log) + [Ready] && cache == old(cache))
        && (ok ==> e.undoLocked == (old(e.undoLocked) && !e.hasUndoManager))
    {
      var editor := pending;
      pending := null;
      if Data() != Some(editor.GetData()) {
        ok := Fire(editor, if editor.hasUndoManager then ChangeEvent else DataReadyEvent);
        if !ok {
          return;
        }
      }
      ok := true;
      if editor.hasUndoManager {
        editor.UnlockUndo();
      }
      log := log + [Ready];
    }
  }
}
