/**
 * Runs of the component against an engine, from construction on, each
 * stating what the run makes observable. Only the contracts of the
 * component and the engine are used to prove them.
 */
module Scenarios {
  import opened Optional
  import opened EditorEngine
  import opened CKEditorBinding

  /** Writing the value the component already caches calls the engine no more and emits nothing. */
  method RepeatedWriteIsQuiet(canon: Option<string> -> string, hasUndoManager: bool, value: Option<string>)
    returns (calls: seq<Option<string>>, emitted: seq<Emission>, data: Option<string>)
    ensures calls == (if value.None? then [] else [value])
    ensures emitted == [Ready]
    ensures data == (if value.None? then None else Some(canon(value)))
  {
    var engine := new Engine(canon, hasUndoManager, "", false);
    var component := new CKEditorComponent<int>();
    component.InstanceReady(engine);
    component.SetData(value);
    component.WriteValue(component.Data());
    component.SetData(component.Data());
    calls, emitted, data := engine.setDataCalls, component.log, component.Data();
  }

  /** Before the engine exists a value is cached verbatim; afterwards the cache reads back the engine's form of it. */
  method PushRoundTrip(canon: Option<string> -> string, value: string)
    returns (cachedBefore: Option<string>, cachedAfter: Option<string>)
    ensures cachedBefore == Some(value)
    ensures cachedAfter == Some(canon(Some(value)))
  {
    var early := new CKEditorComponent<int>();
    early.SetData(Some(value));
    cachedBefore := early.Data();
    var engine := new Engine(canon, true, "", false);
    var component := new CKEditorComponent<int>();
    component.InstanceReady(engine);
    component.SetData(Some(value));
    cachedAfter := component.Data();
  }

  /**
   * A read-only state set before the engine is ready reaches the engine
   * exactly once, at `instanceReady`; one set afterwards goes straight through.
   */
  method ReadOnlyBuffering(engineDefault: bool, wanted: bool)
    returns (callsBeforeReady: seq<bool>, callsAtReady: seq<bool>, callsAfter: seq<bool>, shown: Option<bool>)
    ensures callsBeforeReady == []
    ensures callsAtReady == [wanted]
    ensures callsAfter == [wanted, !wanted]
    ensures shown == Some(!wanted)
  {
    var engine := new Engine(x => "", false, "", engineDefault);
    var component := new CKEditorComponent<int>();
    component.SetReadOnly(wanted);
    callsBeforeReady := engine.setReadOnlyCalls;
    component.InstanceReady(engine);
    callsAtReady := engine.setReadOnlyCalls;
    component.SetReadOnly(!wanted);
    callsAfter, shown := engine.setReadOnlyCalls, component.ReadOnly();
  }

  /** With nothing buffered, the engine's own read-only state is adopted and pushed back once. */
  method ReadOnlyAdoptedFromEngine(engineDefault: bool) returns (calls: seq<bool>, shown: Option<bool>)
    ensures calls == [engineDefault]
    ensures shown == Some(engineDefault)
  {
    var engine := new Engine(x => "", false, "", engineDefault);
    var component := new CKEditorComponent<int>();
    component.InstanceReady(engine);
    calls, shown := engine.setReadOnlyCalls, component.ReadOnly();
  }

  /**
   * `dataReady` on unchanged data re-fires `dataReady` only; once the engine's
   * data differs it also emits `dataChange` and calls `onChange`.
   */
  method ChangeGate(canon: Option<string> -> string, initial: string, edit: string, callback: Callback)
    returns (quiet: seq<Emission>, loud: seq<Emission>)
    requires canon(Some(edit)) != canon(Some(initial))
    ensures quiet == [DataReadyOut]
    ensures loud == [DataReadyOut, DataChange(canon(Some(edit))), OnChangeCalled(callback, canon(Some(edit)))]
  {
    var engine, component := SettledWithCallback(canon, initial, callback);
    var _ := component.Fire(engine, DataReadyEvent);
    quiet := component.log;
    assert quiet == ChangeEmissions(DataReadyEvent, canon(Some(initial)), Some(canon(Some(initial))), Some(callback));
    component.log := [];
    engine.SetData(Some(edit));  // an edit inside the engine
    assert DataReadyEvent in engine.listeners && component.Data() == Some(canon(Some(initial)));
    var _ := component.Fire(engine, DataReadyEvent);
    loud := component.log;
  }

  /**
   * The first half of `ChangeGate`: an engine with an undo manager, ready,
   * holding `initial` as both the engine and the component see it, with
   * `onChange` registered and the log observed from here on.
   */
  method SettledWithCallback(canon: Option<string> -> string, initial: string, callback: Callback)
    returns (engine: Engine, component: CKEditorComponent<int>)
    ensures fresh(engine) && fresh(component)
    ensures engine.canon == canon && engine.hasUndoManager && DataReadyEvent in engine.listeners
    ensures engine.GetData() == canon(Some(initial)) && component.instance == engine
    ensures component.Data() == Some(canon(Some(initial))) && component.onChange == Some(callback) && component.log == []
  {
    engine := new Engine(canon, true, "", false);
    component := new CKEditorComponent<int>();
    component.InstanceReady(engine);
    component.SetData(Some(initial));
    component.RegisterOnChange(Some(callback));
    component.log := [];
  }

  /**
   * With an undo manager `change` drives the data path and `selectionCheck`
   * does nothing; without one it is the other way round.
   */
  method EventRouting(canon: Option<string> -> string, hasUndoManager: bool, edit: string)
    returns (onChangeEvent: seq<Emission>, onSelectionCheck: seq<Emission>)
    ensures hasUndoManager ==> onChangeEvent == [ChangeOut, DataChange(canon(Some(edit)))] && onSelectionCheck == []
    ensures !hasUndoManager ==> onChangeEvent == [] && onSelectionCheck == [DataChange(canon(Some(edit)))]
  {
    var engine, component := ReadyAfterEdit(canon, hasUndoManager, edit);
    var _ := component.Fire(engine, if hasUndoManager then SelectionCheckEvent else ChangeEvent);
    var ignored := component.log;
    component.log := [];
    var _ := component.Fire(engine, if hasUndoManager then ChangeEvent else SelectionCheckEvent);
    var handled := component.log;
    if hasUndoManager {
      onChangeEvent, onSelectionCheck := handled, ignored;
    } else {
      onChangeEvent, onSelectionCheck := ignored, handled;
    }
  }

  /**
   * The first half of `EventRouting`: a ready component with no data and no
   * callbacks, after an edit inside the engine, observed from here on.
   */
  method ReadyAfterEdit(canon: Option<string> -> string, hasUndoManager: bool, edit: string)
    returns (engine: Engine, component: CKEditorComponent<int>)
    ensures fresh(engine) && fresh(component)
    ensures engine.hasUndoManager == hasUndoManager && engine.listeners == Subscriptions(hasUndoManager)
    ensures engine.GetData() == canon(Some(edit)) && component.instance == engine
    ensures component.Data() == None && component.onChange == None && component.log == []
  {
    engine := new Engine(canon, hasUndoManager, "", false);
    component := new CKEditorComponent<int>();
    component.InstanceReady(engine);
    engine.SetData(Some(edit));  // an edit inside the engine
    component.log := [];
  }

  /**
   * Data set before `instanceReady` that the engine filters: the callback of
   * the initial push fires `change` (undo manager) or `dataReady` (none) by
   * hand, so the filtered data reaches `dataChange` and `onChange`, the undo
   * manager is unlocked, and `ready` comes last.
   */
  method InitialPushCorrection(canon: Option<string> -> string, hasUndoManager: bool, initial: string, callback: Callback)
    returns (atReady: seq<Emission>, afterCallback: seq<Emission>, data: Option<string>, locked: bool)
    requires canon(Some(initial)) != initial
    ensures atReady == []
    ensures afterCallback ==
      [if hasUndoManager then ChangeOut else DataReadyOut,
       DataChange(canon(Some(initial))), OnChangeCalled(callback, canon(Some(initial))), Ready]
    ensures data == Some(canon(Some(initial)))
    ensures !locked
  {
    var engine, component := ReadyWithPendingPush(canon, hasUndoManager, initial, callback);
    atReady := component.log;
    var _ := component.SetDataDone();
    var event := if hasUndoManager then ChangeEvent else DataReadyEvent;
    assert component.log == ChangeEmissions(event, canon(Some(initial)), Some(initial), Some(callback)) + [Ready];
    afterCallback, data, locked := component.log, component.Data(), engine.undoLocked;
  }

  /**
   * The first half of the runs above: a value written and `onChange`
   * registered before `instanceReady`, which pushes the value and leaves the
   * engine's callback pending.
   */
  method ReadyWithPendingPush(canon: Option<string> -> string, hasUndoManager: bool, initial: string, callback: Callback)
    returns (engine: Engine, component: CKEditorComponent<int>)
    ensures fresh(engine) && fresh(component)
    ensures engine.canon == canon && engine.hasUndoManager == hasUndoManager
    ensures engine.GetData() == canon(Some(initial)) && engine.undoLocked == hasUndoManager
    ensures (if hasUndoManager then ChangeEvent else DataReadyEvent) in engine.listeners
    ensures component.pending == engine && component.instance == engine
    ensures component.Data() == Some(initial) && component.onChange == Some(callback) && component.log == []
  {
    engine := new Engine(canon, hasUndoManager, "", false);
    component := new CKEditorComponent<int>();
    component.WriteValue(Some(initial));
    component.RegisterOnChange(Some(callback));
    component.InstanceReady(engine);
  }

  /** Data the engine keeps as it is: no correction, `ready` alone after the callback. */
  method InitialPushUnchanged(canon: Option<string> -> string, initial: string)
    returns (emitted: seq<Emission>, data: Option<string>)
    requires canon(Some(initial)) == initial
    ensures emitted == [Ready]
    ensures data == Some(initial)
  {
    var engine := new Engine(canon, true, "", false);
    var component := new CKEditorComponent<int>();
    component.SetData(Some(initial));
    component.InstanceReady(engine);
    var _ := component.SetDataDone();
    emitted, data := component.log, component.Data();
  }

  /** `ngOnDestroy` twice destroys the engine once. */
  method DestroyTwice() returns (destroyed: nat, hasInstance: bool)
    ensures destroyed == 1 && !hasInstance
  {
    var engine := new Engine(x => "", false, "", false);
    var component := new CKEditorComponent<int>();
    component.InstanceReady(engine);
    component.OnDestroy();
    component.OnDestroy();
    destroyed, hasInstance := engine.destroyCalls, component.instance != null;
  }

  /** On blur, `onTouched` is called before `blur` is emitted; with no callback only `blur` is. */
  method BlurOrder(touched: Option<Callback>) returns (emitted: seq<Emission>)
    ensures touched.Some? ==> emitted == [OnTouchedCalled(touched.value), BlurOut]
    ensures touched.None? ==> emitted == [BlurOut]
  {
    var engine := new Engine(x => "", false, "", false);
    var component := new CKEditorComponent<int>();
    component.RegisterOnTouched(touched);
    component.InstanceReady(engine);
    component.log := [];  // observe from here on
    var _ := component.Fire(engine, BlurEvent);
    emitted := component.log;
  }

  /**
   * The component destroyed while the initial push is still pending: when the
   * callback needs to correct the data, the handler it fires reads the engine
   * through the cleared reference and throws, so `ready` is never emitted and
   * the undo manager stays locked.
   */
  method CallbackAfterDestroy(canon: Option<string> -> string, initial: string)
    returns (ok: bool, emitted: seq<Emission>, locked: bool)
    requires canon(Some(initial)) != initial
    ensures !ok && emitted == [] && locked
  {
    var engine := new Engine(canon, true, "", false);
    var component := new CKEditorComponent<int>();
    component.SetData(Some(initial));
    component.InstanceReady(engine);
    component.OnDestroy();
    ok := component.SetDataDone();
    emitted, locked := component.log, engine.undoLocked;
  }
}
