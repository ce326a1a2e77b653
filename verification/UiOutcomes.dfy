/** What the window shows once a request has come back, and that requests are sent. */
module UiOutcomes {
  import opened Common
  import opened Ui
  import opened UiProtocol

  /** An accepted snapshot shows its folders as connected. It sets the signed-in state
      and drops the message of a waiting sign-in only if no authentication event came
      between; a held message is shown instead of the number of folders. */
  lemma AcceptedSnapshotShows(m: Manager, t: Ticket, rows: Rows, authenticated: Result<bool, string>)
    requires t.generation == m.snapshot.generation
    ensures var m' := SnapshotDone(m, t, Ok(SnapshotRows(rows, authenticated)));
      var timely := t.authRevision == m.authRevision;
      var signedIn := timely && authenticated == Ok(true) && m.waiting;
      var text := if m.message.None? || signedIn then FolderCount(|rows|) else Plain(m.message.value);
      && m'.shown.folders == rows && m'.shown.connected && !m'.refreshing
      && m'.shown.authenticated ==
         (if timely && authenticated.Ok? then authenticated.value else m.shown.authenticated)
      && m'.message == (if signedIn then None else m.message) && m'.waiting == (m.waiting && !signedIn)
      && m'.shown.status ==
         (if timely && authenticated.Err? then AndAuthError(text, authenticated.error) else text)
      && m'.busy == m.busy && m'.loading == m.loading
      && m'.shown.driveFolders == m.shown.driveFolders && m'.shown.driveError == m.shown.driveError
  {
  }

  /** A snapshot that failed shows the error as disconnected and keeps the rest. */
  lemma FailedSnapshotShows(m: Manager, t: Ticket, error: string)
    requires t.generation == m.snapshot.generation
    ensures var m' := SnapshotDone(m, t, Err(error));
      && !m'.shown.connected && m'.shown.status == Plain(error) && !m'.refreshing
      && m'.shown.folders == m.shown.folders && m'.shown.authenticated == m.shown.authenticated
      && m'.message == m.message && m'.waiting == m.waiting
  {
  }

  /** An operation that has come back leaves its error, or its success message unless
      it is a sign-in that an authentication event has overtaken; only a sign-in
      goes on waiting. */
  lemma AcceptedMutationShows(m: Manager, t: Ticket, r: Outcome)
    requires t.generation == m.mutation.generation
    ensures var m' := MutationDone(m, t, r);
      && !m'.busy
      && m'.message ==
         (if r.Err? then Some(r.error)
          else if !r.value.Done? then Some(UNEXPECTED_TEXT)
          else if t.signingIn && t.authRevision != m.authRevision then None
          else t.success)
      && m'.waiting == (t.signingIn && r == Ok(Done) && m'.message.Some?)
      && m'.shown == m.shown.(status := if m'.message.Some? then Plain(m'.message.value) else m.shown.status)
  {
  }

  lemma AcceptedBrowseShows(m: Manager, t: Ticket, folders: Rows, error: string)
    requires t.generation == m.browse.generation
    ensures var m' := BrowseDone(m, t, Ok(DriveFolders(folders)));
      !m'.loading && m'.shown == m.shown.(driveFolders := folders)
    ensures var m' := BrowseDone(m, t, Err(error));
      !m'.loading && m'.shown == m.shown.(driveError := error)
  {
  }

  /** A response of another kind is shown as an error as well. */
  lemma UnexpectedResponseShows(m: Manager, t: Ticket, r: Response)
    requires t.generation == m.snapshot.generation && t.generation == m.browse.generation
    ensures !r.SnapshotRows? ==>
      !SnapshotDone(m, t, Ok(r)).shown.connected && SnapshotDone(m, t, Ok(r)).shown.status == Plain(UNEXPECTED_ROWS)
    ensures !r.DriveFolders? ==> BrowseDone(m, t, Ok(r)).shown == m.shown.(driveError := UNEXPECTED_FOLDERS)
  {
  }

  /** A snapshot requested just now is under way. */
  predicate SnapshotUnderWay(s: State) {
    var t := Ticket(Snapshot, s.m.snapshot.generation, s.m.authRevision, false, None, s.barrier);
    t in s.queue && s.m.refreshing
  }

  /** An idle window that refreshes sends a request. */
  lemma IdleRefreshSends(s: State)
    requires !s.m.busy && !s.m.refreshing
    ensures SnapshotUnderWay(Next(s, UserRefresh(None)))
  {
  }

  /** An authentication event shows the new state at once and, when no operation is
      running, asks for another snapshot; the message of a waiting sign-in goes. */
  lemma AuthenticationEventShows(s: State, changed: Option<bool>)
    ensures var end := Next(s, Authentication(changed, None));
      && (s.m.busy ==> !end.m.refreshing) && (!s.m.busy ==> SnapshotUnderWay(end))
      && end.barrier > s.barrier
      && (changed.Some? ==>
            && end.m.shown.authenticated == changed.value && end.m.authRevision > s.m.authRevision
            && !end.m.waiting && end.m.message == (if s.m.waiting then None else s.m.message))
      && (changed.None? ==>
            && end.m.shown == s.m.shown && end.m.authRevision == s.m.authRevision
            && end.m.waiting == s.m.waiting && end.m.message == s.m.message)
  {
  }

  /** An idle window that starts an operation sends it; a busy one says so. */
  lemma IdleMutateSends(s: State, signingIn: bool, success: Option<string>)
    ensures var end := Next(s, UserMutate(signingIn, success, None));
      if s.m.busy then
        end.queue == s.queue && end.m == s.m.(shown := s.m.shown.(status := Plain(BUSY_TEXT)))
      else
        var t := Ticket(Mutation, end.m.mutation.generation, s.m.authRevision, signingIn, success, s.barrier);
        && t in end.queue && end.m.busy && !end.m.refreshing && end.m.message.None? && !end.m.waiting
        && end.m.shown == s.m.shown.(status := Plain(WORKING_TEXT))
  {
  }

  /** A finished operation is followed by a snapshot. */
  lemma FinishedMutationRefreshes(s: State, t: Ticket, r: Outcome)
    requires Inv(s) && t in s.queue && t.kind == Mutation && t.generation == s.m.mutation.generation
    ensures SnapshotUnderWay(Next(s, Deliver(t, r, None)))
  {
    assert IsCurrent(s, t, Mutation);
    assert s.m.busy;
  }

  lemma BrowseSends(s: State)
    ensures var end := Next(s, UserBrowse(None));
      && Ticket(Browse, end.m.browse.generation, s.m.authRevision, false, None, s.barrier) in end.queue
      && end.m.loading && end.m.shown == s.m.shown.(driveFolders := [], driveError := "")
  {
  }

  /** A task is held for a request exactly while its indicator is up. */
  predicate Held(m: Manager) {
    m.snapshot.attached == m.refreshing && m.mutation.attached == m.busy && m.browse.attached == m.loading
  }

  lemma HeldOnRequest(m: Manager, changed: Option<bool>, spawnError: Option<string>)
    requires Held(m)
    ensures Held(Refreshed(m, spawnError)) && Held(Mutated(m, spawnError)) && Held(FoldersListed(m, spawnError))
    ensures Held(FoldersCancelled(m)) && Held(AuthenticationSeen(m, changed))
  {
  }

  lemma HeldOnSnapshot(m: Manager, t: Ticket, r: Outcome)
    requires Held(m)
    ensures Held(SnapshotDone(m, t, r))
  {
    SnapshotDoneFrame(m, t, r);
    if t.generation == m.snapshot.generation && r.Ok? && r.value.SnapshotRows? {
      var idle := m.(snapshot := m.snapshot.(attached := false), refreshing := false);
      WithSnapshotFrame(idle, r.value.rows, r.value.authenticated, t.authRevision);
    }
  }

  lemma HeldOnCompletion(m: Manager, t: Ticket, r: Outcome)
    requires Held(m)
    ensures Held(MutationDone(m, t, r)) && Held(BrowseDone(m, t, r))
  {
    BrowseDoneFrame(m, t, r);
  }

  lemma HeldNext(s: State, e: Event)
    requires Enabled(s, e) && Held(s.m)
    ensures Held(Next(s, e).m)
  {
    match e
    case UserRefresh(spawnError) => HeldOnRequest(s.m, None, spawnError);
    case UserMutate(_, _, spawnError) => HeldOnRequest(s.m, None, spawnError);
    case UserBrowse(spawnError) => HeldOnRequest(s.m, None, spawnError);
    case UserCancelBrowse => HeldOnRequest(s.m, None, None);
    case Authentication(changed, spawnError) =>
      HeldOnRequest(s.m, changed, spawnError);
      HeldOnRequest(AuthenticationSeen(s.m, changed), None, spawnError);
    case Deliver(t, r, spawnError) =>
      HeldOnSnapshot(s.m, t, r);
      HeldOnCompletion(s.m, t, r);
      HeldOnRequest(MutationDone(s.m, t, r), None, spawnError);
    case Vanish(_) =>
  }

  lemma {:induction false} HeldRun(s: State, run: seq<Event>)
    requires ValidRun(s, run) && Held(s.m)
    ensures Held(Last(s, run).m)
    decreases |run|
  {
    if run != [] {
      HeldNext(s, run[0]);
      HeldRun(Next(s, run[0]), run[1..]);
    }
  }

  /** So it is in every reachable state. */
  lemma HeldWhileShown(run: seq<Event>)
    requires ValidRun(INITIAL, run)
    ensures Held(Last(INITIAL, run).m)
  {
    HeldRun(INITIAL, run);
  }

  /** A request that cannot be dispatched shows why and leaves no indicator up. */
  lemma UnsentRequestShowsWhy(s: State, error: string)
    requires !s.m.busy && !s.m.refreshing
    ensures var end := Next(s, UserRefresh(Some(error)));
      end.queue == s.queue && !end.m.refreshing && end.m.shown.status == Plain(error)
    ensures var end := Next(s, UserMutate(false, None, Some(error)));
      end.queue == s.queue && !end.m.busy && end.m.shown.status == Plain(error)
    ensures var end := Next(s, UserBrowse(Some(error)));
      end.queue == s.queue && !end.m.loading && end.m.shown.driveError == error
  {
  }
}
