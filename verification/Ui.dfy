/** The bookkeeping behind the window: which daemon requests are outstanding and
    which completions still count. */
module Ui {
  import opened Common

  type Rows = seq<string>

  datatype Kind = Snapshot | Mutation | Browse

  datatype Response =
    | SnapshotRows(rows: Rows, authenticated: Result<bool, string>)
    | Done
    | DriveFolders(folders: Rows)

  type Outcome = Result<Response, string>

  /** What a completion has captured from the time of its request. `bornAt` only
      serves to state properties: it counts what had overtaken snapshots then. */
  datatype Ticket = Ticket(
    kind: Kind,
    generation: nat,
    authRevision: nat,
    signingIn: bool,
    success: Option<string>,
    bornAt: nat)

  // ---------------------------------------------------- one pending request

  datatype Pending = Pending(generation: nat, attached: bool)

  function Cancelled(p: Pending): Pending {
    Pending(p.generation + 1, false)
  }

  class PendingRequest {
    var generation: nat
    var attached: bool

    constructor ()
      ensures View() == Pending(0, false)
    {
      generation := 0;
      attached := false;
    }

    function View(): Pending
      reads this
    {
      Pending(generation, attached)
    }

    /** Aborts the attached task, if any, and disowns its completion. */
    method Cancel()
      modifies this
      ensures View() == Cancelled(old(View()))
    {
      generation := generation + 1;
      attached := false;
    }

    method Begin() returns (current: nat)
      modifies this
      ensures View() == Cancelled(old(View())) && current == generation
    {
      Cancel();
      current := generation;
    }

    method Attach()
      modifies this`attached
      ensures View() == old(View()).(attached := true)
    {
      attached := true;
    }

    method Finish(finished: nat) returns (accepted: bool)
      modifies this`attached
      ensures accepted <==> finished == old(generation)
      ensures View() == if accepted then old(View()).(attached := false) else old(View())
    {
      if finished != generation {
        return false;
      }
      attached := false;
      return true;
    }
  }

  // ------------------------------------------------------------ the manager

  datatype StatusText = Plain(text: string) | FolderCount(count: nat) | AndAuthError(base: StatusText, error: string)

  /** What the window shows besides its indicators. */
  datatype Window = Window(
    folders: Rows,
    status: StatusText,
    connected: bool,
    authenticated: bool,
    driveFolders: Rows,
    driveError: string)

  datatype Manager = Manager(
    shown: Window,
    busy: bool,
    refreshing: bool,
    loading: bool,
    message: Option<string>,
    waiting: bool,
    snapshot: Pending,
    mutation: Pending,
    browse: Pending,
    authRevision: nat)

  const BUSY_TEXT := "another daemon operation is still in progress"
  const WORKING_TEXT := "Working..."
  const UNEXPECTED_ROWS := "unexpected response to sync-folder request"
  const UNEXPECTED_FOLDERS := "unexpected response to Drive-folder request"
  const UNEXPECTED_TEXT := "unexpected response to daemon operation"

  const START := Manager(Window([], Plain(""), false, false, [], ""), false, false, false, None, false,
                         Pending(0, false), Pending(0, false), Pending(0, false), 0)

  function WithStatus(m: Manager, status: StatusText): Manager {
    m.(shown := m.shown.(status := status))
  }

  function SnapshotTicket(m: Manager, bornAt: nat): Ticket {
    Ticket(Snapshot, m.snapshot.generation, m.authRevision, false, None, bornAt)
  }

  /** `spawnError` is why a request could not be dispatched. */
  function Refreshed(m: Manager, spawnError: Option<string>): Manager {
    if m.busy || m.refreshing then m
    else
      var begun := Cancelled(m.snapshot);
      if spawnError.None? then m.(snapshot := begun.(attached := true), refreshing := true)
      else WithStatus(m, Plain(spawnError.value)).(snapshot := begun, refreshing := false)
  }

  predicate RefreshSends(m: Manager, spawnError: Option<string>) {
    !m.busy && !m.refreshing && spawnError.None?
  }

  function Mutated(m: Manager, spawnError: Option<string>): Manager {
    if m.busy then WithStatus(m, Plain(BUSY_TEXT))
    else
      WithStatus(m, Plain(if spawnError.None? then WORKING_TEXT else spawnError.value)).(
        snapshot := Cancelled(m.snapshot), refreshing := false, message := None, waiting := false,
        busy := spawnError.None?,
        mutation := Cancelled(m.mutation).(attached := spawnError.None?))
  }

  function FoldersListed(m: Manager, spawnError: Option<string>): Manager {
    m.(shown := m.shown.(driveFolders := [], driveError := if spawnError.None? then "" else spawnError.value),
       browse := Cancelled(m.browse).(attached := spawnError.None?), loading := spawnError.None?)
  }

  function FoldersCancelled(m: Manager): Manager {
    m.(browse := Cancelled(m.browse), loading := false)
  }

  /** An authentication event, before the refresh that follows it; `changed` is
      None when the subscription has merely become ready. */
  function AuthenticationSeen(m: Manager, changed: Option<bool>): Manager {
    var idle := m.(snapshot := Cancelled(m.snapshot), refreshing := false);
    if changed.None? then idle
    else
      idle.(shown := m.shown.(authenticated := changed.value),
            authRevision := m.authRevision + 1,
            message := if m.waiting then None else m.message,
            waiting := false)
  }

  function WithSnapshot(m: Manager, rows: Rows, authenticated: Result<bool, string>, authRevision: nat): Manager {
    var sameRevision := m.authRevision == authRevision;
    var signedIn := sameRevision && authenticated == Ok(true) && m.waiting;
    var message := if signedIn then None else m.message;
    var text := if message.Some? then Plain(message.value) else FolderCount(|rows|);
    m.(shown := m.shown.(
         folders := rows,
         authenticated := if sameRevision && authenticated.Ok? then authenticated.value else m.shown.authenticated,
         connected := true,
         status := if sameRevision && authenticated.Err? then AndAuthError(text, authenticated.error) else text),
       message := message,
       waiting := m.waiting && !signedIn)
  }

  function SnapshotDone(m: Manager, t: Ticket, r: Outcome): Manager {
    if t.generation != m.snapshot.generation then m
    else
      var idle := m.(snapshot := m.snapshot.(attached := false), refreshing := false);
      match r
      case Ok(SnapshotRows(rows, authenticated)) => WithSnapshot(idle, rows, authenticated, t.authRevision)
      case Ok(_) => Disconnected(idle, UNEXPECTED_ROWS)
      case Err(error) => Disconnected(idle, error)
  }

  function Disconnected(m: Manager, text: string): Manager {
    m.(shown := m.shown.(connected := false, status := Plain(text)))
  }

  /** The message of a finished operation; a sign-in overtaken by an
      authentication event leaves none. */
  function MutationMessage(m: Manager, t: Ticket, r: Outcome): Option<string> {
    match r
    case Ok(Done) => if t.signingIn && m.authRevision != t.authRevision then None else t.success
    case Ok(_) => Some(UNEXPECTED_TEXT)
    case Err(error) => Some(error)
  }

  /** A finished operation, before the refresh that follows it. */
  function MutationDone(m: Manager, t: Ticket, r: Outcome): Manager {
    if t.generation != m.mutation.generation then m
    else
      var message := MutationMessage(m, t, r);
      (if message.Some? then WithStatus(m, Plain(message.value)) else m).(
        mutation := m.mutation.(attached := false), busy := false, message := message,
        waiting := t.signingIn && r == Ok(Done) && message.Some?)
  }

  function BrowseDone(m: Manager, t: Ticket, r: Outcome): Manager {
    if t.generation != m.browse.generation then m
    else
      var idle := m.(browse := m.browse.(attached := false), loading := false);
      match r
      case Ok(DriveFolders(folders)) => idle.(shown := m.shown.(driveFolders := folders))
      case Ok(_) => idle.(shown := m.shown.(driveError := UNEXPECTED_FOLDERS))
      case Err(error) => idle.(shown := m.shown.(driveError := error))
  }

  class SyncManager {
    var folders: Rows
    var status: StatusText
    var connected: bool
    var authenticated: bool
    var busy: bool
    var refreshing: bool
    var driveFolders: Rows
    var driveError: string
    var loading: bool
    var message: Option<string>
    var waiting: bool
    const snapshot: PendingRequest
    const mutation: PendingRequest
    const browse: PendingRequest
    var authRevision: nat

    constructor ()
      ensures Valid() && View() == START
      ensures fresh(snapshot) && fresh(mutation) && fresh(browse)
    {
      folders, status, connected, authenticated := [], Plain(""), false, false;
      busy, refreshing, loading := false, false, false;
      driveFolders, driveError := [], "";
      message, waiting, authRevision := None, false, 0;
      snapshot := new PendingRequest();
      mutation := new PendingRequest();
      browse := new PendingRequest();
    }

    predicate Valid() {
      snapshot != mutation && snapshot != browse && mutation != browse
    }

    function View(): Manager
      reads this, snapshot, mutation, browse
    {
      Manager(Window(folders, status, connected, authenticated, driveFolders, driveError),
              busy, refreshing, loading, message, waiting,
              snapshot.View(), mutation.View(), browse.View(), authRevision)
    }

    method Refresh(spawnError: Option<string>)
      requires Valid()
      modifies this, snapshot
      ensures View() == Refreshed(old(View()), spawnError)
    {
      if busy || refreshing {
        return;
      }
      var generation := snapshot.Begin();
      refreshing := true;
      if spawnError.None? {
        snapshot.Attach();
      } else {
        refreshing := false;
        status := Plain(spawnError.value);
      }
    }

    method Mutate(spawnError: Option<string>)
      requires Valid()
      modifies this, snapshot, mutation
      ensures View() == Mutated(old(View()), spawnError)
    {
      if busy {
        status := Plain(BUSY_TEXT);
        return;
      }
      snapshot.Cancel();
      refreshing := false;
      message := None;
      waiting := false;
      busy := true;
      status := Plain(WORKING_TEXT);
      var generation := mutation.Begin();
      assert View() == Mutated(old(View()), None).(mutation := Cancelled(old(mutation.View())));
      if spawnError.None? {
        mutation.Attach();
      } else {
        busy := false;
        status := Plain(spawnError.value);
      }
    }

    method ListDriveFolders(spawnError: Option<string>)
      requires Valid()
      modifies this, browse
      ensures View() == FoldersListed(old(View()), spawnError)
    {
      var generation := browse.Begin();
      driveFolders := [];
      driveError := "";
      loading := true;
      if spawnError.None? {
        browse.Attach();
      } else {
        driveError := spawnError.value;
        loading := false;
      }
    }

    method CancelDriveFolders()
      requires Valid()
      modifies this, browse
      ensures View() == FoldersCancelled(old(View()))
    {
      browse.Cancel();
      loading := false;
    }

    method OnAuthentication(changed: Option<bool>, spawnError: Option<string>)
      requires Valid()
      modifies this, snapshot
      ensures View() == Refreshed(AuthenticationSeen(old(View()), changed), spawnError)
    {
      if changed.Some? {
        authRevision := authRevision + 1;
        authenticated := changed.value;
        if waiting {
          message := None;
          waiting := false;
        }
      }
      snapshot.Cancel();
      refreshing := false;
      assert View() == AuthenticationSeen(old(View()), changed);
      Refresh(spawnError);
    }

    method OnSnapshot(t: Ticket, r: Outcome)
      requires Valid()
      modifies this, snapshot
      ensures View() == SnapshotDone(old(View()), t, r)
    {
      var accepted := snapshot.Finish(t.generation);
      if !accepted {
        return;
      }
      refreshing := false;
      match r
      case Ok(SnapshotRows(rows, seen)) =>
        ShowSnapshot(rows, seen, t.authRevision);
      case Ok(_) =>
        connected := false;
        status := Plain(UNEXPECTED_ROWS);
      case Err(error) =>
        connected := false;
        status := Plain(error);
    }

    method ShowSnapshot(rows: Rows, seen: Result<bool, string>, requestedAt: nat)
      modifies this
      ensures View() == WithSnapshot(old(View()), rows, seen, requestedAt)
    {
      folders := rows;
      var authError: Option<string> := None;
      if authRevision == requestedAt {
        match seen
        case Ok(signedIn) =>
          authenticated := signedIn;
          if signedIn && waiting {
            message := None;
            waiting := false;
          }
        case Err(error) => authError := Some(error);
      }
      connected := true;
      var text := if message.Some? then Plain(message.value) else FolderCount(|rows|);
      status := if authError.Some? then AndAuthError(text, authError.value) else text;
    }

    method OnMutation(t: Ticket, r: Outcome, spawnError: Option<string>)
      requires Valid()
      modifies this, snapshot, mutation
      ensures View() ==
        if t.generation != old(mutation.generation) then old(View())
        else Refreshed(MutationDone(old(View()), t, r), spawnError)
    {
      var accepted := mutation.Finish(t.generation);
      if !accepted {
        return;
      }
      busy := false;
      var signInStarted := t.signingIn && r == Ok(Done);
      var text: Option<string>;
      match r {
        case Ok(Done) => text := if t.signingIn && authRevision != t.authRevision then None else t.success;
        case Err(error) => text := Some(error);
        case Ok(_) => text := Some(UNEXPECTED_TEXT);
      }
      if text.Some? {
        status := Plain(text.value);
      }
      waiting := signInStarted && text.Some?;
      message := text;
      assert View() == MutationDone(old(View()), t, r);
      Refresh(spawnError);
    }

    method OnBrowse(t: Ticket, r: Outcome)
      requires Valid()
      modifies this, browse
      ensures View() == BrowseDone(old(View()), t, r)
    {
      var accepted := browse.Finish(t.generation);
      if !accepted {
        return;
      }
      match r
      case Ok(DriveFolders(rows)) =>
        driveFolders := rows;
        loading := false;
      case Ok(_) =>
        driveError := UNEXPECTED_FOLDERS;
        loading := false;
      case Err(error) =>
        driveError := error;
        loading := false;
    }
  }
}
