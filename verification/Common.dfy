/** Result types shared by every component. */
module Common {
  datatype Option<+T> = None | Some(value: T)

  datatype Result<+T, +E> = Ok(value: T) | Err(error: E)

  /** The error cases of the sync engine that a caller can tell apart. */
  datatype SyncError =
    | Io
    | Api
    | NotAuthenticated
    | ReauthenticationRequired
    | Timeout
    | OAuth

  /** Calls into the outside world that have failed. Each may fail at any time; an
      operation has to succeed when none does and nothing stands in its way. */
  class Faults {
    var count: nat

    constructor ()
      ensures count == 0
    {
      count := 0;
    }

    method Attempt() returns (ok: bool)
      modifies this
      ensures count == if ok then old(count) else old(count) + 1
    {
      ok := *;
      if !ok {
        count := count + 1;
      }
    }
  }
}
