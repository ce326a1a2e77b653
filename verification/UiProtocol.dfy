/** The window's requests over whole runs, with completions arriving late, in any
    order, or after they were cancelled. */
module UiProtocol {
  import opened Common
  import opened Ui

  /** `queue` holds requests under way and completions already queued; `barrier`
      counts accepted operations and authentication events. */
  datatype State = State(m: Manager, queue: multiset<Ticket>, barrier: nat)

  datatype Event =
    | UserRefresh(spawnError: Option<string>)
    | UserMutate(signingIn: bool, success: Option<string>, spawnError: Option<string>)
    | UserBrowse(spawnError: Option<string>)
    | UserCancelBrowse
    | Authentication(changed: Option<bool>, spawnError: Option<string>)
    | Deliver(t: Ticket, r: Outcome, spawnError: Option<string>)
    | Vanish(t: Ticket)

  function GenerationOf(m: Manager, k: Kind): nat {
    match k
    case Snapshot => m.snapshot.generation
    case Mutation => m.mutation.generation
    case Browse => m.browse.generation
  }

  function FlagOf(m: Manager, k: Kind): bool {
    match k
    case Snapshot => m.refreshing
    case Mutation => m.busy
    case Browse => m.loading
  }

  predicate Enabled(s: State, e: Event) {
    match e
    case Deliver(t, _, _) => t in s.queue
    // Only a request that was cancelled can be aborted before it completes.
    case Vanish(t) => t in s.queue && t.generation != GenerationOf(s.m, t.kind)
    case _ => true
  }

  /** A refresh, and the ticket it puts in the queue if it sends one. */
  function AndRefresh(s: State, spawnError: Option<string>): State {
    var m := Refreshed(s.m, spawnError);
    s.(m := m,
       queue := if RefreshSends(s.m, spawnError) then s.queue + multiset{SnapshotTicket(m, s.barrier)} else s.queue)
  }

  /** After an authentication event, before the refresh that follows it. */
  function Seen(s: State, changed: Option<bool>): State {
    State(AuthenticationSeen(s.m, changed), s.queue, s.barrier + 1)
  }

  function Next(s: State, e: Event): State
    requires Enabled(s, e)
  {
    match e
    case UserRefresh(spawnError) => AndRefresh(s, spawnError)
    case UserMutate(signingIn, success, spawnError) =>
      var m := Mutated(s.m, spawnError);
      if s.m.busy then s.(m := m)
      else
        var ticket := Ticket(Mutation, m.mutation.generation, m.authRevision, signingIn, success, s.barrier);
        State(m, if spawnError.None? then s.queue + multiset{ticket} else s.queue, s.barrier + 1)
    case UserBrowse(spawnError) =>
      var m := FoldersListed(s.m, spawnError);
      var ticket := Ticket(Browse, m.browse.generation, m.authRevision, false, None, s.barrier);
      State(m, if spawnError.None? then s.queue + multiset{ticket} else s.queue, s.barrier)
    case UserCancelBrowse => s.(m := FoldersCancelled(s.m))
    case Authentication(changed, spawnError) =>
      AndRefresh(Seen(s, changed), spawnError)
    case Deliver(t, r, spawnError) =>
      var left := s.(queue := s.queue - multiset{t});
      match t.kind {
        case Snapshot => left.(m := SnapshotDone(s.m, t, r))
        case Browse => left.(m := BrowseDone(s.m, t, r))
        case Mutation =>
          if t.generation != s.m.mutation.generation then left
          else AndRefresh(left.(m := MutationDone(s.m, t, r)), spawnError)
      }
    case Vanish(t) => s.(queue := s.queue - multiset{t})
  }

  const INITIAL := State(Ui.START, multiset{}, 0)

  predicate ValidRun(s: State, run: seq<Event>)
    decreases |run|
  {
    run == [] || (Enabled(s, run[0]) && ValidRun(Next(s, run[0]), run[1..]))
  }

  function Last(s: State, run: seq<Event>): State
    requires ValidRun(s, run)
    decreases |run|
  {
    if run == [] then s else Last(Next(s, run[0]), run[1..])
  }

  // ---------------------------------------------------------- invariants

  predicate IsCurrent(s: State, t: Ticket, k: Kind) {
    t in s.queue && t.kind == k && t.generation == GenerationOf(s.m, k)
  }

  /** The flag of a kind of request is up exactly when a request of its current
      generation is outstanding, and then just one is. */
  ghost predicate FlagOk(s: State, k: Kind) {
    && (FlagOf(s.m, k) <==> exists t :: IsCurrent(s, t, k))
    && (forall t, u :: IsCurrent(s, t, k) && IsCurrent(s, u, k) ==> t == u)
    && (forall t :: IsCurrent(s, t, k) ==> s.queue[t] == 1)
    && (forall t :: t in s.queue && t.kind == k ==> t.generation <= GenerationOf(s.m, k))
  }

  /** Nothing has overtaken the snapshot under way. */
  predicate SnapshotFresh(s: State) {
    forall t :: t in s.queue && IsCurrent(s, t, Snapshot) ==>
      t.bornAt == s.barrier && t.authRevision == s.m.authRevision
  }

  ghost predicate Inv(s: State) {
    && FlagOk(s, Snapshot) && FlagOk(s, Mutation) && FlagOk(s, Browse)
    && SnapshotFresh(s)
    && !(s.m.busy && s.m.refreshing)
    && (s.m.waiting ==> s.m.message.Some?)
  }

  /** The number of outstanding requests of a generation. */
  lemma FlagOkAdd(s: State, s': State, t: Ticket)
    requires FlagOk(s, t.kind) && s'.queue == s.queue + multiset{t}
    requires t.generation == GenerationOf(s'.m, t.kind) && GenerationOf(s.m, t.kind) < t.generation
    requires FlagOf(s'.m, t.kind)
    ensures FlagOk(s', t.kind)
  {
    assert IsCurrent(s', t, t.kind);
  }

  lemma FlagOkCancel(s: State, s': State, k: Kind)
    requires FlagOk(s, k) && s'.queue == s.queue
    requires GenerationOf(s.m, k) < GenerationOf(s'.m, k) && !FlagOf(s'.m, k)
    ensures FlagOk(s', k)
  {
  }

  lemma FlagOkOther(s: State, s': State, k: Kind)
    requires FlagOk(s, k)
    requires forall t: Ticket :: t.kind == k ==> s'.queue[t] == s.queue[t]
    requires GenerationOf(s.m, k) == GenerationOf(s'.m, k) && FlagOf(s.m, k) == FlagOf(s'.m, k)
    ensures FlagOk(s', k)
  {
    forall t ensures IsCurrent(s', t, k) == IsCurrent(s, t, k) {
    }
  }

  lemma FlagOkTake(s: State, s': State, t: Ticket)
    requires FlagOk(s, t.kind) && t in s.queue && s'.queue == s.queue - multiset{t}
    requires GenerationOf(s'.m, t.kind) == GenerationOf(s.m, t.kind)
    requires FlagOf(s'.m, t.kind) == (FlagOf(s.m, t.kind) && t.generation != GenerationOf(s.m, t.kind))
    ensures FlagOk(s', t.kind)
  {
    var k := t.kind;
    forall u ensures IsCurrent(s', u, k) == (IsCurrent(s, u, k) && !(u == t && s.queue[t] == 1)) {
    }
    forall u | IsCurrent(s', u, k) ensures FlagOf(s'.m, k) {
      assert IsCurrent(s, u, k);
      assert t.generation == GenerationOf(s.m, k) ==> IsCurrent(s, t, k);
    }
    if FlagOf(s'.m, k) {
      var u :| IsCurrent(s, u, k);
      assert IsCurrent(s', u, k);
    }
  }

  lemma AndRefreshInv(s: State, spawnError: Option<string>)
    requires Inv(s)
    ensures Inv(AndRefresh(s, spawnError))
  {
    var s' := AndRefresh(s, spawnError);
    if s.m.busy || s.m.refreshing {
      return;
    }
    FlagOkOther(s, s', Mutation);
    FlagOkOther(s, s', Browse);
    if spawnError.None? {
      FlagOkAdd(s, s', SnapshotTicket(s'.m, s.barrier));
    } else {
      FlagOkCancel(s, s', Snapshot);
    }
  }

  lemma MutateInv(s: State, signingIn: bool, success: Option<string>, spawnError: Option<string>)
    requires Inv(s)
    ensures Inv(Next(s, UserMutate(signingIn, success, spawnError)))
  {
    var s' := Next(s, UserMutate(signingIn, success, spawnError));
    if s.m.busy {
      FlagOkOther(s, s', Snapshot);
      FlagOkOther(s, s', Mutation);
    } else {
      FlagOkCancel(s, s'.(queue := s.queue), Snapshot);
      FlagOkOther(s'.(queue := s.queue), s', Snapshot);
      if spawnError.None? {
        FlagOkAdd(s, s', Ticket(Mutation, s'.m.mutation.generation, s'.m.authRevision, signingIn, success, s.barrier));
      } else {
        FlagOkCancel(s, s', Mutation);
      }
      assert forall t :: IsCurrent(s', t, Snapshot) ==> false;
    }
    FlagOkOther(s, s', Browse);
  }

  lemma BrowseInv(s: State, spawnError: Option<string>)
    requires Inv(s)
    ensures Inv(Next(s, UserBrowse(spawnError))) && Inv(Next(s, UserCancelBrowse))
  {
    var s' := Next(s, UserBrowse(spawnError));
    FlagOkOther(s, s', Snapshot);
    FlagOkOther(s, s', Mutation);
    if spawnError.None? {
      FlagOkAdd(s, s', Ticket(Browse, s'.m.browse.generation, s'.m.authRevision, false, None, s.barrier));
    } else {
      FlagOkCancel(s, s', Browse);
    }
    var s'' := Next(s, UserCancelBrowse);
    FlagOkOther(s, s'', Snapshot);
    FlagOkOther(s, s'', Mutation);
    FlagOkCancel(s, s'', Browse);
  }

  lemma CancelSnapshotInv(s: State, m: Manager, barrier: nat)
    requires Inv(s) && GenerationOf(s.m, Snapshot) < GenerationOf(m, Snapshot) && !m.refreshing
    requires forall k :: k != Snapshot ==> GenerationOf(m, k) == GenerationOf(s.m, k) && FlagOf(m, k) == FlagOf(s.m, k)
    requires m.waiting ==> m.message.Some?
    ensures Inv(State(m, s.queue, barrier))
  {
    var s' := State(m, s.queue, barrier);
    FlagOkCancel(s, s', Snapshot);
    FlagOkOther(s, s', Mutation);
    FlagOkOther(s, s', Browse);
  }

  lemma AuthenticationFrame(m: Manager, changed: Option<bool>)
    ensures var m' := AuthenticationSeen(m, changed);
      && m'.snapshot.generation == m.snapshot.generation + 1 && m'.mutation == m.mutation && m'.browse == m.browse
      && !m'.refreshing && m'.busy == m.busy && m'.loading == m.loading
      && (m'.waiting ==> m.waiting && m'.message == m.message)
      && (!m.waiting ==> !m'.waiting && m'.message == m.message)
  {
  }

  lemma AuthenticationSeenInv(s: State, changed: Option<bool>)
    requires Inv(s)
    ensures Inv(Seen(s, changed))
  {
    AuthenticationFrame(s.m, changed);
    CancelSnapshotInv(s, AuthenticationSeen(s.m, changed), s.barrier + 1);
  }

  lemma AuthenticationInv(s: State, changed: Option<bool>, spawnError: Option<string>)
    requires Inv(s)
    ensures Inv(Next(s, Authentication(changed, spawnError)))
  {
    AuthenticationSeenInv(s, changed);
    AndRefreshInv(Seen(s, changed), spawnError);
  }

  /** The completion of `t` lowers the flag of its kind if `t` is current, and
      no other. */
  predicate Lowers(m: Manager, t: Ticket, m': Manager) {
    && (forall k :: GenerationOf(m', k) == GenerationOf(m, k))
    && (forall k :: FlagOf(m', k) == (FlagOf(m, k) && !(t.kind == k && t.generation == GenerationOf(m, k))))
    && m'.authRevision == m.authRevision
  }

  lemma TakeInv(s: State, t: Ticket, m: Manager)
    requires Inv(s) && t in s.queue && Lowers(s.m, t, m) && (m.waiting ==> m.message.Some?)
    ensures Inv(State(m, s.queue - multiset{t}, s.barrier))
  {
    var s' := State(m, s.queue - multiset{t}, s.barrier);
    forall k ensures FlagOk(s', k) {
      if k == t.kind {
        FlagOkTake(s, s', t);
      } else {
        FlagOkOther(s, s', k);
      }
    }
    assert FlagOk(s', Snapshot) && FlagOk(s', Mutation) && FlagOk(s', Browse);
    assert forall u :: IsCurrent(s', u, Snapshot) ==> IsCurrent(s, u, Snapshot);
  }

  lemma SnapshotLowers(s: State, t: Ticket, r: Outcome)
    requires FlagOk(s, Snapshot) && t in s.queue && t.kind == Snapshot
    ensures Lowers(s.m, t, SnapshotDone(s.m, t, r))
  {
    assert t.generation == s.m.snapshot.generation ==> IsCurrent(s, t, Snapshot);
    SnapshotDoneFrame(s.m, t, r);
  }

  lemma BrowseLowers(s: State, t: Ticket, r: Outcome)
    requires FlagOk(s, Browse) && t in s.queue && t.kind == Browse
    ensures Lowers(s.m, t, BrowseDone(s.m, t, r))
  {
    assert t.generation == s.m.browse.generation ==> IsCurrent(s, t, Browse);
    BrowseDoneFrame(s.m, t, r);
  }

  lemma BrowseDoneFrame(m: Manager, t: Ticket, r: Outcome)
    ensures var m' := BrowseDone(m, t, r);
      && m'.snapshot == m.snapshot && m'.mutation == m.mutation && m'.browse.generation == m.browse.generation
      && m'.refreshing == m.refreshing && m'.busy == m.busy
      && m'.loading == (m.loading && t.generation != m.browse.generation)
      && m'.authRevision == m.authRevision && m'.waiting == m.waiting && m'.message == m.message
  {
  }

  lemma MutationLowers(s: State, t: Ticket, r: Outcome)
    requires FlagOk(s, Mutation) && t in s.queue && t.kind == Mutation
    ensures Lowers(s.m, t, MutationDone(s.m, t, r))
  {
    assert t.generation == s.m.mutation.generation ==> IsCurrent(s, t, Mutation);
  }

  /** Everything a snapshot leaves alone, and what it makes of a message. */
  predicate SnapshotFrame(m: Manager, m': Manager) {
    && m'.mutation == m.mutation && m'.browse == m.browse && m'.busy == m.busy && m'.loading == m.loading
    && m'.authRevision == m.authRevision
    && ((m.waiting ==> m.message.Some?) ==> m'.waiting ==> m'.message.Some?)
    && (!m.waiting ==> m'.message == m.message && !m'.waiting)
  }

  lemma WithSnapshotFrame(m: Manager, rows: Rows, authenticated: Result<bool, string>, authRevision: nat)
    ensures var m' := WithSnapshot(m, rows, authenticated, authRevision);
      SnapshotFrame(m, m') && m'.snapshot == m.snapshot && m'.refreshing == m.refreshing
  {
  }

  lemma SnapshotDoneFrame(m: Manager, t: Ticket, r: Outcome)
    ensures var m' := SnapshotDone(m, t, r);
      && SnapshotFrame(m, m') && m'.snapshot.generation == m.snapshot.generation
      && m'.refreshing == (m.refreshing && t.generation != m.snapshot.generation)
  {
    if t.generation == m.snapshot.generation && r.Ok? && r.value.SnapshotRows? {
      var idle := m.(snapshot := m.snapshot.(attached := false), refreshing := false);
      WithSnapshotFrame(idle, r.value.rows, r.value.authenticated, t.authRevision);
      assert SnapshotFrame(m, idle);
    }
  }

  lemma DeliverInv(s: State, t: Ticket, r: Outcome, spawnError: Option<string>)
    requires Inv(s) && t in s.queue
    ensures Inv(Next(s, Deliver(t, r, spawnError)))
  {
    match t.kind
    case Snapshot =>
      SnapshotLowers(s, t, r);
      SnapshotDoneFrame(s.m, t, r);
      TakeInv(s, t, SnapshotDone(s.m, t, r));
    case Browse =>
      BrowseLowers(s, t, r);
      BrowseDoneFrame(s.m, t, r);
      TakeInv(s, t, BrowseDone(s.m, t, r));
    case Mutation =>
      MutationLowers(s, t, r);
      TakeInv(s, t, MutationDone(s.m, t, r));
      if t.generation == s.m.mutation.generation {
        AndRefreshInv(State(MutationDone(s.m, t, r), s.queue - multiset{t}, s.barrier), spawnError);
      }
  }

  lemma VanishInv(s: State, t: Ticket)
    requires Inv(s) && Enabled(s, Vanish(t))
    ensures Inv(Next(s, Vanish(t)))
  {
    assert Lowers(s.m, t, s.m);
    TakeInv(s, t, s.m);
  }

  lemma InvNext(s: State, e: Event)
    requires Inv(s) && Enabled(s, e)
    ensures Inv(Next(s, e))
  {
    match e
    case UserRefresh(spawnError) => AndRefreshInv(s, spawnError);
    case UserMutate(signingIn, success, spawnError) => MutateInv(s, signingIn, success, spawnError);
    case UserBrowse(spawnError) => BrowseInv(s, spawnError);
    case UserCancelBrowse => BrowseInv(s, None);
    case Authentication(changed, spawnError) => AuthenticationInv(s, changed, spawnError);
    case Deliver(t, r, spawnError) => DeliverInv(s, t, r, spawnError);
    case Vanish(t) => VanishInv(s, t);
  }

  lemma {:induction false} InvRun(s: State, run: seq<Event>)
    requires Inv(s) && ValidRun(s, run)
    ensures Inv(Last(s, run))
    decreases |run|
  {
    if run != [] {
      InvNext(s, run[0]);
      InvRun(Next(s, run[0]), run[1..]);
    }
  }

  // ------------------------------------------------------------ theorems

  /** Each indicator is up exactly while one request of its current generation is
      outstanding, so none can get stuck and none can go out early. */
  lemma FlagsTellOutstanding(run: seq<Event>, k: Kind)
    requires ValidRun(INITIAL, run)
    ensures var s := Last(INITIAL, run);
      FlagOf(s.m, k) <==> exists t :: IsCurrent(s, t, k) && s.queue[t] == 1
  {
    InvRun(INITIAL, run);
    var s := Last(INITIAL, run);
    assert FlagOk(s, k);
    if FlagOf(s.m, k) {
      var t :| IsCurrent(s, t, k);
      assert s.queue[t] == 1;
    }
  }

  /** An operation and a refresh are never shown together, and a window waiting
      for sign-in still holds the message that says so. */
  lemma FlagsExclude(run: seq<Event>)
    requires ValidRun(INITIAL, run)
    ensures var m := Last(INITIAL, run).m; !(m.busy && m.refreshing) && (m.waiting ==> m.message.Some?)
  {
    InvRun(INITIAL, run);
  }

  /** A snapshot that is applied was requested after the last accepted operation
      and the last authentication event; its revision check never fails. */
  lemma AppliedSnapshotsAreFresh(run: seq<Event>, t: Ticket, r: Outcome)
    requires ValidRun(INITIAL, run) && t in Last(INITIAL, run).queue && t.kind == Snapshot
    ensures var s := Last(INITIAL, run);
      SnapshotDone(s.m, t, r) != s.m ==> t.bornAt == s.barrier && t.authRevision == s.m.authRevision
  {
    InvRun(INITIAL, run);
    var s := Last(INITIAL, run);
    assert t.generation == s.m.snapshot.generation ==> IsCurrent(s, t, Snapshot);
  }

  /** No operation is accepted or completed by the event. */
  predicate KeepsMessage(s: State, e: Event)
    requires Enabled(s, e)
  {
    && (e.UserMutate? ==> s.m.busy)
    && (e.Deliver? && e.t.kind == Mutation ==> e.t.generation != s.m.mutation.generation)
  }

  predicate KeepsMessageRun(s: State, run: seq<Event>)
    requires ValidRun(s, run)
    decreases |run|
  {
    run == [] || (KeepsMessage(s, run[0]) && KeepsMessageRun(Next(s, run[0]), run[1..]))
  }

  lemma ActionErrorStaysNext(s: State, e: Event)
    requires Enabled(s, e) && KeepsMessage(s, e) && !s.m.waiting
    ensures Next(s, e).m.message == s.m.message && !Next(s, e).m.waiting
  {
    if e.Deliver? {
      SnapshotDoneFrame(s.m, e.t, e.r);
    } else if e.Authentication? {
      AuthenticationFrame(s.m, e.changed);
    }
  }

  /** The error of an operation outlives every poll and every authentication event
      until the next operation. */
  lemma {:induction false} ActionErrorStays(s: State, run: seq<Event>)
    requires ValidRun(s, run) && KeepsMessageRun(s, run) && s.m.message.Some? && !s.m.waiting
    ensures Last(s, run).m.message == s.m.message && !Last(s, run).m.waiting
    decreases |run|
  {
    if run != [] {
      ActionErrorStaysNext(s, run[0]);
      ActionErrorStays(Next(s, run[0]), run[1..]);
    }
  }

  /** And each poll that succeeds meanwhile shows it again. */
  lemma PollShowsActionError(m: Manager, t: Ticket, rows: Rows, authenticated: Result<bool, string>)
    requires m.message.Some? && !m.waiting && t.generation == m.snapshot.generation
    ensures var status := SnapshotDone(m, t, Ok(SnapshotRows(rows, authenticated))).shown.status;
      status == Plain(m.message.value) || (status.AndAuthError? && status.base == Plain(m.message.value))
  {
  }
}
