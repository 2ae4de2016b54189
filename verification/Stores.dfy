/** The small persistent stores.  A write or removal either takes full effect or
    leaves the old file and reports an error; its outcome is a parameter. */
module Stores {
  import opened Wire

  /** In-memory cursor and cursor file (None: no file). */
  datatype CursorState = CursorState(buf: string, file: Option<string>)

  function SetCursor(c: CursorState, buf: string, writeOk: bool): CursorState {
    if writeOk then CursorState(buf, Some(buf)) else c
  }

  function LoadCursor(c: CursorState): CursorState {
    c.(buf := if c.file.None? then "" else c.file.value)
  }

  /** Memory agrees with the file, as after a load. */
  predicate Synced(c: CursorState) {
    c == LoadCursor(c)
  }

  class CursorStore {
    var buf: string
    var file: Option<string>

    function State(): CursorState
      reads this
    {
      CursorState(buf, file)
    }

    constructor (existing: Option<string>)
      ensures State() == CursorState("", existing)
    {
      buf, file := "", existing;
    }

    method Load(readable: bool) returns (ok: bool)
      modifies this
      ensures ok == (file.None? || readable)
      ensures State() == if ok then LoadCursor(old(State())) else old(State())
    {
      if file.None? {
        buf := "";
        return true;
      }
      if !readable {
        return false;
      }
      buf := file.value;
      return true;
    }

    /** Persists before publishing. */
    method Set(value: string, writeOk: bool) returns (ok: bool)
      modifies this
      ensures ok == writeOk && State() == SetCursor(old(State()), value, writeOk)
    {
      if !writeOk {
        return false;
      }
      file := Some(value);
      buf := value;
      return true;
    }
  }
}
