/**
 * The CKEditor 4 instance the component wraps, reduced to what the
 * component uses: its data buffer, its read-only flag, its optional undo
 * manager, the events it fires and the handlers registered on them.
 * Every call the component makes is recorded so that contracts can say
 * how often, and with what, the engine was called.
 */
module EditorEngine {
  import opened Optional

  /** The engine events the component listens to. */
  datatype EngineEvent = FocusEvent | BlurEvent | DataReadyEvent | ChangeEvent | SelectionCheckEvent

  class Engine {
    /** The engine's own content filtering: what `getData()` returns after `setData(v)`. */
    const canon: Option<string> -> string
    /** Whether the `undo` plugin is loaded, so that `undoManager` is an object. */
    const hasUndoManager: bool

    var buffer: string
    var readOnly: bool
    var undoLocked: bool
    /** The events a handler was registered for with `on`. */
    var listeners: set<EngineEvent>
    var setDataCalls: seq<Option<string>>
    var setReadOnlyCalls: seq<bool>
    var destroyCalls: nat

    /** An engine as `CKEDITOR.replace` or `CKEDITOR.inline` hands it over, before `instanceReady`. */
    constructor (canon: Option<string> -> string, hasUndoManager: bool, initialData: string, readOnly: bool)
      ensures this.canon == canon && this.hasUndoManager == hasUndoManager
      ensures buffer == initialData && this.readOnly == readOnly && !undoLocked
      ensures listeners == {} && setDataCalls == [] && setReadOnlyCalls == [] && destroyCalls == 0
    {
      this.canon := canon;
      this.hasUndoManager := hasUndoManager;
      buffer := initialData;
      this.readOnly := readOnly;
      undoLocked := false;
      listeners := {};
      setDataCalls := [];
      setReadOnlyCalls := [];
      destroyCalls := 0;
    }

    /** `getData()`. */
    function GetData(): string
      reads this
    {
      buffer
    }

    /** `setData(data)`: the buffer takes the filtered form of `data`. */
    method SetData(data: Option<string>)
      modifies this`buffer, this`setDataCalls
      ensures GetData() == canon(data)
      ensures setDataCalls == old(setDataCalls) + [data]
    {
      buffer := canon(data);
      setDataCalls := setDataCalls + [data];
    }

    /** `setReadOnly(isReadOnly)`. */
    method SetReadOnly(isReadOnly: bool)
      modifies this`readOnly, this`setReadOnlyCalls
      ensures readOnly == isReadOnly
      ensures setReadOnlyCalls == old(setReadOnlyCalls) + [isReadOnly]
    {
      readOnly := isReadOnly;
      setReadOnlyCalls := setReadOnlyCalls + [isReadOnly];
    }

    /** `undoManager.lock()`. */
    method LockUndo()
      requires hasUndoManager
      modifies this`undoLocked
      ensures undoLocked
    {
      undoLocked := true;
    }

    /** `undoManager.unlock()`. */
    method UnlockUndo()
      requires hasUndoManager
      modifies this`undoLocked
      ensures !undoLocked
    {
      undoLocked := false;
    }

    /** `on(event, handler)`. */
    method On(event: EngineEvent)
      modifies this`listeners
      ensures listeners == old(listeners) + {event}
    {
      listeners := listeners + {event};
    }

    /** `destroy()`; what the engine tears down inside is not modelled. */
    method Destroy()
      modifies this`destroyCalls
      ensures destroyCalls == old(destroyCalls) + 1
    {
      destroyCalls := destroyCalls + 1;
    }
  }
}
