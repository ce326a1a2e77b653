/** Any number of Drive requests share one session, one cache and one refresh
    mutex, while sessions are replaced underneath them. A state machine over
    the points where a request can be interleaved with others. */
module RefreshProtocol {
  import opened Common
  import opened Auth
  import opened DriveClient

  type TaskId = nat

  /** Where a request stands. The mutex is held from SecondRead to Answered. */
  datatype Phase =
    | FirstRead
    | LockWait
    | SecondRead
    | Exchanging(snapshot: Session)
    | Answered(snapshot: Session, reply: TokenReply, issued: StoredToken)
    | Sending(carried: Session)
    | Done

  /** One call of `send`. `sent` and `exchanges` record what it has done so far;
      `exchanged` says that its current token came out of its own exchange. */
  datatype Request = Request(
    rejected: Option<Session>,
    phase: Phase,
    sent: seq<Session>,
    exchanges: nat,
    exchanged: bool)

  /** How the session came by its tokens: it began with one, an exchange renewed
      it, or the reply to an exchange was dropped, because its token was empty or
      could not be written. `token` is what the session has afterwards. */
  datatype Entry =
    | Began(token: StoredToken)
    | Renewed(used: StoredToken, reply: TokenReply, token: StoredToken)
    | Dropped(reply: TokenReply, token: StoredToken)

  datatype State = State(
    client: Client,
    lock: Option<TaskId>,
    tasks: map<TaskId, Request>,
    history: seq<Entry>)

  datatype Answer = Accepted | Unauthorized(replayable: bool) | Broken

  datatype Event =
    | Spawn(t: TaskId)
    | ReadFirst(t: TaskId, now: int)
    | Acquire(t: TaskId)
    | ReadSecond(t: TaskId, now: int, configured: bool)
    | Reply(t: TaskId, reply: TokenReply, now: int)
    | ExchangeFails(t: TaskId)
    | EndRefresh(t: TaskId, written: bool)
    | Respond(t: TaskId, answer: Answer)
    | Cancel(t: TaskId)
    | SetToken(access: string)
    | RestoreSession(token: StoredToken, path: Path)
    | SaveSession(token: StoredToken, path: Path, written: bool)
    | RemoveCache(path: Path)

  predicate HoldsLock(p: Phase) {
    p.SecondRead? || p.Exchanging? || p.Answered?
  }

  predicate SessionEvent(e: Event) {
    e.SetToken? || e.RestoreSession? || e.SaveSession? || e.RemoveCache?
  }

  predicate Enabled(s: State, e: Event) {
    match e
    case Spawn(t) => t !in s.tasks
    case ReadFirst(t, _) => t in s.tasks && s.tasks[t].phase.FirstRead?
    case Acquire(t) => t in s.tasks && s.tasks[t].phase.LockWait? && s.lock.None?
    case ReadSecond(t, _, _) => t in s.tasks && s.tasks[t].phase.SecondRead?
    case Reply(t, _, _) => t in s.tasks && s.tasks[t].phase.Exchanging?
    case ExchangeFails(t) => t in s.tasks && s.tasks[t].phase.Exchanging?
    case EndRefresh(t, _) =>
      t in s.tasks && s.tasks[t].phase.Answered? && s.tasks[t].phase.snapshot.path.Some?
    case Respond(t, _) => t in s.tasks && s.tasks[t].phase.Sending?
    // A deadline or an abort takes effect where the request awaits something.
    case Cancel(t) =>
      t in s.tasks && (s.tasks[t].phase.LockWait? || s.tasks[t].phase.Exchanging? || s.tasks[t].phase.Sending?)
    case SetToken(_) => true
    // A session is restored from the contents of its cache, and the cache of a
    // live session is not removed behind its back.
    case RestoreSession(token, path) => path in s.client.files && s.client.files[path] == Readable(token)
    case SaveSession(_, _, _) => true
    case RemoveCache(path) => s.client.session.path != Some(path)
  }

  function Transmit(r: Request, token: Session): Request {
    r.(phase := Sending(token), sent := r.sent + [token])
  }

  function AfterFirstRead(r: Request, session: Session, now: int): Request {
    match Decide(session, r.rejected, now)
    case Err(_) => r.(phase := Done)
    case Ok(refresh) => if refresh then r.(phase := LockWait) else Transmit(r, session)
  }

  function AfterSecondRead(r: Request, session: Session, now: int, configured: bool): Request {
    match Decide(session, r.rejected, now)
    case Err(_) => r.(phase := Done)
    case Ok(refresh) =>
      if !refresh then Transmit(r, session)
      else if !Renewable(session.token) || !configured || session.path.None? then r.(phase := Done)
      else r.(phase := Exchanging(session), exchanges := r.exchanges + 1)
  }

  function AfterReply(r: Request, reply: TokenReply, now: int): Request
    requires r.phase.Exchanging?
  {
    match RefreshedToken(r.phase.snapshot.token, reply, now)
    case Err(_) => r.(phase := Done)
    case Ok(issued) => r.(phase := Answered(r.phase.snapshot, reply, issued))
  }

  function AfterAnswer(r: Request, answer: Answer): Request
    requires r.phase.Sending?
  {
    if answer.Unauthorized? && answer.replayable && r.rejected.None? then
      r.(rejected := Some(r.phase.carried), phase := FirstRead, exchanged := false)
    else r.(phase := Done)
  }

  /** Whether a refresh that ends this way installs its token. */
  predicate Installs(r: Request, c: Client, written: bool)
    requires r.phase.Answered?
  {
    Current(c, r.phase.snapshot) && written
  }

  function AfterEndRefresh(r: Request, c: Client, written: bool): Request
    requires r.phase.Answered? && r.phase.snapshot.path.Some?
  {
    if Installs(r, c, written) then
      Transmit(r, Install(c, r.phase.snapshot, r.phase.issued, written).session).(exchanged := true)
    else r.(phase := Done)
  }

  /** The step of the request itself. */
  function Advance(s: State, e: Event): Request
    requires Enabled(s, e) && !SessionEvent(e)
  {
    match e
    case Spawn(t) => Request(None, FirstRead, [], 0, false)
    case ReadFirst(t, now) => AfterFirstRead(s.tasks[t], s.client.session, now)
    case Acquire(t) => s.tasks[t].(phase := SecondRead)
    case ReadSecond(t, now, configured) => AfterSecondRead(s.tasks[t], s.client.session, now, configured)
    case Reply(t, reply, now) => AfterReply(s.tasks[t], reply, now)
    case ExchangeFails(t) => s.tasks[t].(phase := Done)
    case EndRefresh(t, written) => AfterEndRefresh(s.tasks[t], s.client, written)
    case Respond(t, answer) => AfterAnswer(s.tasks[t], answer)
    case Cancel(t) => s.tasks[t].(phase := Done)
  }

  /** The mutex is taken by Acquire and freed once its holder no longer needs it. */
  function LockAfter(s: State, e: Event, r: Request): Option<TaskId>
    requires !SessionEvent(e)
  {
    if e.Acquire? then Some(e.t)
    else if s.lock == Some(e.t) && !HoldsLock(r.phase) then None
    else s.lock
  }

  function Next(s: State, e: Event): State
    requires Enabled(s, e)
  {
    match e
    case SetToken(access) =>
      s.(client := SetAccess(s.client, access), history := s.history + [Began(BareToken(access))])
    case RestoreSession(token, path) =>
      s.(client := Restore(s.client, token, path), history := s.history + [Began(token)])
    case SaveSession(token, path, written) =>
      s.(client := SaveNew(s.client, token, path, written),
         history := if written then s.history + [Began(token)] else s.history)
    case RemoveCache(path) => s.(client := s.client.(files := s.client.files - {path}))
    case _ =>
      var r := Advance(s, e);
      State(ClientAfter(s, e), LockAfter(s, e, r), s.tasks[e.t := r], HistoryAfter(s, e))
  }

  function ClientAfter(s: State, e: Event): Client
    requires Enabled(s, e) && !SessionEvent(e)
  {
    if e.EndRefresh? then Install(s.client, s.tasks[e.t].phase.snapshot, s.tasks[e.t].phase.issued, e.written)
    else s.client
  }

  function HistoryAfter(s: State, e: Event): seq<Entry>
    requires Enabled(s, e) && !SessionEvent(e)
  {
    match e
    case EndRefresh(t, written) =>
      var p := s.tasks[t].phase;
      if !Current(s.client, p.snapshot) then s.history
      else if written then s.history + [Renewed(p.snapshot.token, p.reply, p.issued)]
      else s.history + [Dropped(p.reply, s.client.session.token)]
    case Reply(t, reply, now) =>
      var snapshot := s.tasks[t].phase.snapshot;
      if Current(s.client, snapshot) && RefreshedToken(snapshot.token, reply, now).Err? then
        s.history + [Dropped(reply, s.client.session.token)]
      else s.history
    case _ => s.history
  }

  // ---------------------------------------------------------------- runs

  predicate ValidRun(s: State, run: seq<Event>)
    decreases |run|
  {
    run == [] || (Enabled(s, run[0]) && ValidRun(Next(s, run[0]), run[1..]))
  }

  function Last(s: State, run: seq<Event>): State
    requires ValidRun(s, run)
    decreases |run|
  {
    if run == [] then s else Last(Next(s, run[0]), run[1..])
  }

  /** A client at start-up, before any request. */
  predicate Initial(s: State) {
    s.client.session.path.None? && s.lock.None? && s.tasks == map[] && s.history == [Began(s.client.session.token)]
  }

  // ---------------------------------------------------------- invariants

  /** The mutex is held by exactly the request that is inside it. */
  ghost predicate Exclusive(s: State) {
    && (s.lock.Some? ==> s.lock.value in s.tasks && HoldsLock(s.tasks[s.lock.value].phase))
    && (forall t :: t in s.tasks && HoldsLock(s.tasks[t].phase) ==> s.lock == Some(t))
  }

  /** While no new session has begun, the session is what the holder of the
      mutex read before its exchange. */
  predicate SnapshotStable(session: Session, snapshot: Session) {
    && snapshot.generation <= session.generation
    && (snapshot.generation == session.generation ==> session == snapshot)
    && snapshot.path.Some? && Renewable(snapshot.token)
  }

  predicate HolderStable(session: Session, p: Phase) {
    && (p.Exchanging? ==> SnapshotStable(session, p.snapshot))
    && (p.Answered? ==>
          && SnapshotStable(session, p.snapshot)
          && p.issued.accessToken == p.reply.accessToken && p.reply.accessToken != ""
          && p.reply.refreshToken != Some("")
          && p.issued.refreshToken ==
             (if p.reply.refreshToken.Some? then p.reply.refreshToken else p.snapshot.token.refreshToken))
  }

  /** Two transmissions of one request: same session, and the second token is
      another one or was obtained by an exchange made for this replay. */
  predicate ReplayOk(first: Session, second: Session, exchanged: bool) {
    && second.generation == first.generation
    && (second.token.accessToken != first.token.accessToken || exchanged)
  }

  predicate SendOk(r: Request) {
    && (forall i :: 0 <= i < |r.sent| ==> r.sent[i].token.accessToken != "")
    && match r.phase
       case Done =>
         |r.sent| <= 2 && r.exchanges <= 2 && (|r.sent| == 2 ==> ReplayOk(r.sent[0], r.sent[1], r.exchanged))
       case Sending(carried) =>
         if r.rejected.None? then r.sent == [carried] && r.exchanges <= 1
         else r.sent == [r.rejected.value, carried] && r.exchanges <= 2
              && ReplayOk(r.rejected.value, carried, r.exchanged)
       case _ =>
         var before := if r.rejected.None? then 0 else 1;
         && r.sent == (if r.rejected.None? then [] else [r.rejected.value])
         && r.exchanges <= before + (if r.phase.Exchanging? || r.phase.Answered? then 1 else 0)
         && (r.phase.Exchanging? || r.phase.Answered? ==>
               r.rejected.Some? ==> r.phase.snapshot.generation == r.rejected.value.generation)
  }

  /** The cache of a session with a path holds exactly the in-memory token. */
  predicate MemoryIsOnDisk(c: Client) {
    c.session.path.Some? ==>
      c.session.path.value in c.files && c.files[c.session.path.value] == Readable(c.session.token)
  }

  /** Every renewal used the token its predecessor left, and a dropped reply left
      that token in place. */
  predicate Chained(h: seq<Entry>) {
    && h != [] && h[0].Began?
    && forall i :: 1 <= i < |h| ==> Follows(h[i - 1], h[i])
  }

  predicate Follows(before: Entry, e: Entry) {
    match e
    case Began(_) => true
    case Renewed(used, reply, token) =>
      && used == before.token && reply.refreshToken != Some("")
      && token.accessToken == reply.accessToken && reply.accessToken != ""
      && token.refreshToken == (if reply.refreshToken.Some? then reply.refreshToken else used.refreshToken)
    case Dropped(_, token) => token == before.token
  }

  predicate HistoryOk(s: State) {
    Chained(s.history) && s.history[|s.history| - 1].token == s.client.session.token
  }

  ghost predicate Inv(s: State) {
    && Exclusive(s)
    && (forall t :: t in s.tasks ==> HolderStable(s.client.session, s.tasks[t].phase))
    && (forall t :: t in s.tasks ==> SendOk(s.tasks[t]))
    && MemoryIsOnDisk(s.client)
    && HistoryOk(s)
  }

  lemma InitialInv(s: State)
    requires Initial(s)
    ensures Inv(s)
  {
  }

  lemma ExclusiveNext(s: State, e: Event)
    requires Exclusive(s) && Enabled(s, e)
    ensures Exclusive(Next(s, e))
  {
  }

  /** Only the holder of the mutex changes the token within a session. */
  lemma HolderStableNext(s: State, e: Event, t: TaskId)
    requires Exclusive(s) && Enabled(s, e) && t in Next(s, e).tasks
    requires forall u :: u in s.tasks ==> HolderStable(s.client.session, s.tasks[u].phase)
    ensures HolderStable(Next(s, e).client.session, Next(s, e).tasks[t].phase)
  {
    if t in s.tasks {
      assert HolderStable(s.client.session, s.tasks[t].phase);
      if !SessionEvent(e) && e.t != t {
        assert Next(s, e).tasks[t] == s.tasks[t];
      }
    }
  }

  lemma SendOkAfterRead(r: Request, session: Session, now: int, configured: bool)
    requires SendOk(r) && (r.phase.FirstRead? || r.phase.SecondRead?)
    ensures SendOk(AfterFirstRead(r, session, now))
    ensures SendOk(AfterSecondRead(r, session, now, configured))
  {
    var r1 := AfterFirstRead(r, session, now);
    var r2 := AfterSecondRead(r, session, now, configured);
    assert r1.sent == r.sent || r1 == Transmit(r, session);
    assert r2.sent == r.sent || r2 == Transmit(r, session);
  }

  lemma SendOkAfterEndRefresh(r: Request, c: Client, written: bool)
    requires SendOk(r) && r.phase.Answered? && HolderStable(c.session, r.phase)
    ensures SendOk(AfterEndRefresh(r, c, written))
  {
  }

  lemma SendOkAdvance(s: State, e: Event)
    requires Enabled(s, e) && !SessionEvent(e)
    requires e.t in s.tasks ==> HolderStable(s.client.session, s.tasks[e.t].phase) && SendOk(s.tasks[e.t])
    ensures SendOk(Advance(s, e))
  {
    match e
    case ReadFirst(t, now) => SendOkAfterRead(s.tasks[t], s.client.session, now, true);
    case ReadSecond(t, now, configured) => SendOkAfterRead(s.tasks[t], s.client.session, now, configured);
    case EndRefresh(t, written) => SendOkAfterEndRefresh(s.tasks[t], s.client, written);
    case _ =>
  }

  lemma SendOkNext(s: State, e: Event, t: TaskId)
    requires Enabled(s, e) && t in Next(s, e).tasks
    requires forall u :: u in s.tasks ==> HolderStable(s.client.session, s.tasks[u].phase) && SendOk(s.tasks[u])
    ensures SendOk(Next(s, e).tasks[t])
  {
    if !SessionEvent(e) && e.t == t {
      SendOkAdvance(s, e);
    }
  }

  lemma MemoryIsOnDiskNext(s: State, e: Event)
    requires Enabled(s, e) && MemoryIsOnDisk(s.client)
    requires forall u :: u in s.tasks ==> HolderStable(s.client.session, s.tasks[u].phase)
    ensures MemoryIsOnDisk(Next(s, e).client)
  {
    if e.EndRefresh? {
      assert HolderStable(s.client.session, s.tasks[e.t].phase);
    }
  }

  lemma HistoryOkNext(s: State, e: Event)
    requires Enabled(s, e) && HistoryOk(s)
    requires forall u :: u in s.tasks ==> HolderStable(s.client.session, s.tasks[u].phase)
    ensures HistoryOk(Next(s, e))
  {
    if e.EndRefresh? {
      assert HolderStable(s.client.session, s.tasks[e.t].phase);
    }
  }

  lemma InvNext(s: State, e: Event)
    requires Inv(s) && Enabled(s, e)
    ensures Inv(Next(s, e))
  {
    ExclusiveNext(s, e);
    forall t | t in Next(s, e).tasks
      ensures HolderStable(Next(s, e).client.session, Next(s, e).tasks[t].phase)
    {
      HolderStableNext(s, e, t);
    }
    forall t | t in Next(s, e).tasks ensures SendOk(Next(s, e).tasks[t]) {
      SendOkNext(s, e, t);
    }
    MemoryIsOnDiskNext(s, e);
    HistoryOkNext(s, e);
  }

  lemma {:induction false} InvRun(s: State, run: seq<Event>)
    requires Inv(s) && ValidRun(s, run)
    ensures Inv(Last(s, run))
    decreases |run|
  {
    if run != [] {
      InvNext(s, run[0]);
      InvRun(Next(s, run[0]), run[1..]);
    }
  }

  // ------------------------------------------------------------ theorems

  /** A request transmits at most twice and exchanges at most twice, whatever
      happens around it; a second transmission stays in the session of the
      first and does not merely repeat the token that was rejected. */
  lemma BoundedReplay(s: State, run: seq<Event>, t: TaskId)
    requires Initial(s) && ValidRun(s, run) && t in Last(s, run).tasks
    ensures var r := Last(s, run).tasks[t];
      && |r.sent| <= 2 && r.exchanges <= 2
      && (|r.sent| == 2 ==> ReplayOk(r.sent[0], r.sent[1], r.exchanged))
      && (forall i :: 0 <= i < |r.sent| ==> r.sent[i].token.accessToken != "")
  {
    InitialInv(s);
    InvRun(s, run);
    assert SendOk(Last(s, run).tasks[t]);
  }

  /** In every reachable state the token in memory is the token in the cache. */
  lemma MemoryAndDiskAgree(s: State, run: seq<Event>)
    requires Initial(s) && ValidRun(s, run)
    ensures MemoryIsOnDisk(Last(s, run).client)
  {
    InitialInv(s);
    InvRun(s, run);
  }

  /** While a request exchanges or waits to install its token, the session is
      just what it read under the mutex, unless a new session has begun. */
  lemma SnapshotIsStable(s: State, run: seq<Event>, t: TaskId)
    requires Initial(s) && ValidRun(s, run) && t in Last(s, run).tasks
    requires Last(s, run).tasks[t].phase.Exchanging? || Last(s, run).tasks[t].phase.Answered?
    requires Current(Last(s, run).client, Last(s, run).tasks[t].phase.snapshot)
    ensures Last(s, run).client.session == Last(s, run).tasks[t].phase.snapshot
  {
    InitialInv(s);
    InvRun(s, run);
    assert HolderStable(Last(s, run).client.session, Last(s, run).tasks[t].phase);
  }

  /** A request changes the session or a cache only by ending an exchange whose
      snapshot still is the session, token and path included; a failed write, a
      cancellation or a newer session leaves everything as it was. */
  lemma OnlyACurrentRenewalChanges(s: State, e: Event)
    requires Inv(s) && Enabled(s, e) && !SessionEvent(e)
    ensures Next(s, e).client != s.client ==>
      && e.EndRefresh? && e.written && s.lock == Some(e.t)
      && s.tasks[e.t].phase.snapshot == s.client.session
      && Next(s, e).client.session == s.client.session.(token := s.tasks[e.t].phase.issued)
      && Next(s, e).client.files ==
         s.client.files[s.client.session.path.value := Readable(s.tasks[e.t].phase.issued)]
  {
    if e.EndRefresh? {
      assert HolderStable(s.client.session, s.tasks[e.t].phase);
    }
  }

  /** The entry brought a refresh token. */
  predicate Grants(e: Entry) {
    e.Began? || (e.reply.refreshToken.Some? && e.reply.refreshToken != Some(""))
  }

  function Granted(e: Entry): Option<string>
    requires Grants(e)
  {
    if e.Began? then e.token.refreshToken else e.reply.refreshToken
  }

  predicate LastGrant(h: seq<Entry>, i: nat) {
    i < |h| && Grants(h[i]) && forall j :: i < j < |h| ==> !Grants(h[j])
  }

  /** The grant was not in a dropped reply, or only repeated the refresh token
      that the session has anyway. */
  predicate Kept(e: Entry)
    requires Grants(e)
  {
    e.Dropped? ==> e.reply.refreshToken == e.token.refreshToken
  }

  lemma {:induction false} ChainKeepsLastGrant(h: seq<Entry>, i: nat)
    requires Chained(h) && LastGrant(h, i)
    ensures h[|h| - 1].token.refreshToken == h[i].token.refreshToken
    ensures h[|h| - 1].token.refreshToken == Granted(h[i]) <==> Kept(h[i])
    decreases |h|
  {
    if i < |h| - 1 {
      var shorter := h[..|h| - 1];
      assert Chained(shorter) && LastGrant(shorter, i);
      ChainKeepsLastGrant(shorter, i);
      assert Follows(h[|h| - 2], h[|h| - 1]);
    } else if i > 0 {
      assert Follows(h[i - 1], h[i]);
    }
  }

  /** Within a session, an exchange in flight presents the refresh token granted
      last exactly if that grant was installed or repeated the one before it:
      only a dropped reply makes an exchange fall back on an older one. */
  lemma ExchangeUsesLastGrant(s: State, run: seq<Event>, t: TaskId, i: nat)
    requires Initial(s) && ValidRun(s, run)
    requires t in Last(s, run).tasks && Last(s, run).tasks[t].phase.Exchanging?
    requires Current(Last(s, run).client, Last(s, run).tasks[t].phase.snapshot)
    requires LastGrant(Last(s, run).history, i)
    ensures Last(s, run).tasks[t].phase.snapshot.token.refreshToken == Granted(Last(s, run).history[i])
       <==> Kept(Last(s, run).history[i])
  {
    InitialInv(s);
    InvRun(s, run);
    var end := Last(s, run);
    assert HolderStable(end.client.session, end.tasks[t].phase);
    ChainKeepsLastGrant(end.history, i);
  }

  lemma {:induction false} RunSnoc(s: State, run: seq<Event>, e: Event)
    requires ValidRun(s, run) && Enabled(Last(s, run), e)
    ensures ValidRun(s, run + [e]) && Last(s, run + [e]) == Next(Last(s, run), e)
    decreases |run|
  {
    if run == [] {
      assert (run + [e])[1..] == [];
    } else {
      assert (run + [e])[1..] == run[1..] + [e];
      RunSnoc(Next(s, run[0]), run[1..], e);
    }
  }

  const STALE := StoredToken("a", Some("old"), Some(0))
  const ROTATION := TokenReply("b", Some("new"), None)

  lemma ThenStep(s: State, run: seq<Event>, e: Event) returns (longer: seq<Event>)
    requires ValidRun(s, run) && Enabled(Last(s, run), e)
    ensures ValidRun(s, longer) && Last(s, longer) == Next(Last(s, run), e)
  {
    longer := run + [e];
    RunSnoc(s, run, e);
  }

  lemma StaleIsFound(s: State, run: seq<Event>, t: TaskId) returns (longer: seq<Event>)
    requires ValidRun(s, run)
    requires var mid := Last(s, run); mid.client.session.token == STALE && mid.lock.None? && t !in mid.tasks
    ensures ValidRun(s, longer)
    ensures Last(s, longer) ==
      Last(s, run).(tasks := Last(s, run).tasks[t := Request(None, LockWait, [], 0, false)])
  {
    longer := ThenStep(s, run, Spawn(t));
    longer := ThenStep(s, longer, ReadFirst(t, 0));
  }

  /** A new request finds the stale token and starts an exchange. */
  lemma StaleIsExchanged(s: State, run: seq<Event>, t: TaskId) returns (longer: seq<Event>)
    requires ValidRun(s, run)
    requires var mid := Last(s, run);
      mid.client.session.token == STALE && mid.client.session.path.Some? && mid.lock.None? && t !in mid.tasks
    ensures ValidRun(s, longer)
    ensures var mid, end := Last(s, run), Last(s, longer);
      && end.client == mid.client && end.lock == Some(t) && end.history == mid.history
      && end.tasks.Keys == mid.tasks.Keys + {t} && end.tasks[t].phase == Exchanging(mid.client.session)
  {
    longer := StaleIsFound(s, run, t);
    longer := ThenStep(s, longer, Acquire(t));
    longer := ThenStep(s, longer, ReadSecond(t, 0, true));
  }

  /** A rotation lost to a failed write: the next exchange presents the refresh
      token that the server has replaced. */
  lemma DroppedRotationIsLost(s: State) returns (run: seq<Event>)
    requires Initial(s)
    ensures ValidRun(s, run)
    ensures var end := Last(s, run);
      && 1 in end.tasks && end.tasks[1].phase.Exchanging? && Current(end.client, end.tasks[1].phase.snapshot)
      && end.tasks[1].phase.snapshot.token.refreshToken == Some("old")
      && end.history != [] && LastGrant(end.history, |end.history| - 1)
      && Granted(end.history[|end.history| - 1]) == Some("new")
  {
    run := RotationIsDropped(s);
    run := StaleIsExchanged(s, run, 1);
  }

  lemma RotationIsDropped(s: State) returns (run: seq<Event>)
    requires Initial(s)
    ensures ValidRun(s, run)
    ensures var end := Last(s, run);
      && end.client.session.token == STALE && end.client.session.path.Some? && end.lock.None?
      && end.tasks.Keys == {0} && end.history != [] && end.history[|end.history| - 1] == Dropped(ROTATION, STALE)
  {
    run := ThenStep(s, [], SaveSession(STALE, "cache", true));
    run := StaleIsExchanged(s, run, 0);
    run := ThenStep(s, run, Reply(0, ROTATION, 0));
    run := ThenStep(s, run, EndRefresh(0, false));
  }

  /** At most one exchange is in flight. */
  lemma OneExchangeAtATime(s: State, run: seq<Event>, t: TaskId, u: TaskId)
    requires Initial(s) && ValidRun(s, run)
    requires t in Last(s, run).tasks && Last(s, run).tasks[t].phase.Exchanging?
    requires u in Last(s, run).tasks && Last(s, run).tasks[u].phase.Exchanging?
    ensures t == u
  {
    InitialInv(s);
    InvRun(s, run);
    assert Last(s, run).lock == Some(t) && Last(s, run).lock == Some(u);
  }

  /** An exchange begins only from a token that is near expiry or was rejected. */
  lemma ExchangeHasCause(s: State, e: Event, t: TaskId)
    requires Enabled(s, e) && t in s.tasks && t in Next(s, e).tasks
    requires !s.tasks[t].phase.Exchanging? && Next(s, e).tasks[t].phase.Exchanging?
    ensures e.ReadSecond? && e.t == t && e.configured && Renewable(s.client.session.token)
    ensures NeedsRefresh(s.client.session.token, e.now)
         || (s.tasks[t].rejected.Some?
             && s.tasks[t].rejected.value.token.accessToken == s.client.session.token.accessToken)
  {
  }

  /** The event neither ends the session nor gives cause to renew `token`. */
  predicate Quiet(s: State, e: Event, token: StoredToken)
    requires Enabled(s, e)
  {
    && !e.SetToken? && !e.RestoreSession? && !e.SaveSession?
    && (e.ReadFirst? ==> !NeedsRefresh(token, e.now))
    && (e.ReadSecond? ==> !NeedsRefresh(token, e.now))
    && (e.Respond? && e.answer.Unauthorized? ==>
          s.tasks[e.t].phase.carried.token.accessToken != token.accessToken)
  }

  predicate QuietRun(s: State, run: seq<Event>, token: StoredToken)
    requires ValidRun(s, run)
    decreases |run|
  {
    run == [] || (Quiet(s, run[0], token) && QuietRun(Next(s, run[0]), run[1..], token))
  }

  /** `token` is the session's, nobody is renewing it and nobody had it rejected. */
  ghost predicate Settled(s: State, token: StoredToken) {
    && s.client.session.token == token && token.accessToken != ""
    && (forall t :: t in s.tasks ==>
          && !s.tasks[t].phase.Exchanging? && !s.tasks[t].phase.Answered?
          && (s.tasks[t].rejected.Some? ==> s.tasks[t].rejected.value.token.accessToken != token.accessToken))
  }

  /** From `s` to `s'` no exchange was made and whatever was transmitted carried
      the session of `s`. */
  ghost predicate OnlyReuse(s: State, s': State) {
    && s'.client.session == s.client.session && s'.history == s.history
    && s.tasks.Keys <= s'.tasks.Keys
    && (forall t :: t in s'.tasks ==>
          var r := s'.tasks[t];
          var sent := if t in s.tasks then s.tasks[t].sent else [];
          && r.exchanges == (if t in s.tasks then s.tasks[t].exchanges else 0)
          && sent <= r.sent
          && forall i :: |sent| <= i < |r.sent| ==> r.sent[i] == s.client.session)
  }

  lemma QuietAdvance(s: State, e: Event, token: StoredToken)
    requires Enabled(s, e) && !SessionEvent(e) && Settled(s, token) && Quiet(s, e, token)
    ensures var r := Advance(s, e);
      && !r.phase.Exchanging? && !r.phase.Answered?
      && (r.rejected.Some? ==> r.rejected.value.token.accessToken != token.accessToken)
      && r.exchanges == (if e.t in s.tasks then s.tasks[e.t].exchanges else 0)
      && (r.sent == (if e.t in s.tasks then s.tasks[e.t].sent else [])
          || (e.t in s.tasks && r.sent == s.tasks[e.t].sent + [s.client.session]))
  {
  }

  lemma QuietNext(s: State, e: Event, token: StoredToken)
    requires Enabled(s, e) && Settled(s, token) && Quiet(s, e, token)
    ensures Settled(Next(s, e), token) && OnlyReuse(s, Next(s, e))
  {
    if !SessionEvent(e) {
      QuietAdvance(s, e, token);
    }
  }

  lemma {:induction false} QuietReuse(s: State, run: seq<Event>, token: StoredToken)
    requires ValidRun(s, run) && Settled(s, token) && QuietRun(s, run, token)
    ensures Settled(Last(s, run), token) && OnlyReuse(s, Last(s, run))
    decreases |run|
  {
    if run != [] {
      QuietNext(s, run[0], token);
      QuietReuse(Next(s, run[0]), run[1..], token);
    }
  }

  /** One renewal serves everybody: once request `t` has installed a token that
      differs from every rejected one, then for as long as it stays fresh and
      accepted, no request that saw the stale token, however many there are,
      makes an exchange; all of them transmit the new token. */
  lemma OneRenewalServesAll(s: State, t: TaskId, run: seq<Event>)
    requires Inv(s) && Enabled(s, EndRefresh(t, true)) && Current(s.client, s.tasks[t].phase.snapshot)
    requires forall u :: u in s.tasks && s.tasks[u].rejected.Some? ==>
      s.tasks[u].rejected.value.token.accessToken != s.tasks[t].phase.issued.accessToken
    requires var s1 := Next(s, EndRefresh(t, true));
      ValidRun(s1, run) && QuietRun(s1, run, s.tasks[t].phase.issued)
    ensures var s1 := Next(s, EndRefresh(t, true));
      && OnlyReuse(s1, Last(s1, run))
      && Last(s1, run).client.session.token == s.tasks[t].phase.issued
      && |Last(s1, run).history| == |s.history| + 1
  {
    assert HolderStable(s.client.session, s.tasks[t].phase);
    var s1 := Next(s, EndRefresh(t, true));
    assert Settled(s1, s.tasks[t].phase.issued);
    QuietReuse(s1, run, s.tasks[t].phase.issued);
  }
}
