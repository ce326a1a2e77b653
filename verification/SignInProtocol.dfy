/** Sign-in attempts, sign-outs and Drive requests running against each other.
    Extends the refresh protocol by the daemon's service steps. */
module SignInProtocol {
  import opened Common
  import opened Auth
  import opened SignInGate
  import Refresh = RefreshProtocol

  type CallId = nat

  /** Authorizing: in the browser flow. Ready: outcome known, waiting for the
      service lock. */
  datatype AttemptPhase = Authorizing | Ready(token: Option<StoredToken>) | Finished

  datatype Attempt = Attempt(generation: nat, phase: AttemptPhase, aborted: bool)

  /** Where a sign-out call stands; in the first two phases it holds the lock. */
  datatype SignOutCall =
    | Cleared(task: Option<AttemptId>)
    | Removed(task: Option<AttemptId>, removed: bool)
    | Waiting(attempt: AttemptId)
    | Joined(attempt: AttemptId)
    | Expired(attempt: AttemptId)

  datatype State = State(
    drive: Refresh.State,
    tokenPath: Path,
    gate: Gate,
    attempts: map<AttemptId, Attempt>,
    calls: map<CallId, SignOutCall>,
    lock: Option<CallId>)

  datatype Event =
    | SignIn(a: AttemptId)
    | Authorized(a: AttemptId, token: Option<StoredToken>)
    | AttemptAborted(a: AttemptId)
    | Complete(a: AttemptId, written: bool)
    | SignOut(c: CallId)
    | RemoveToken(c: CallId, removed: bool)
    | Release(c: CallId)
    | Join(c: CallId)
    | Expire(c: CallId)
    | EndSignOut(c: CallId)
    | Drive(e: Refresh.Event)

  predicate Live(s: State, a: AttemptId) {
    a in s.attempts && !s.attempts[a].phase.Finished?
  }

  function Done(s: State): set<AttemptId> {
    set a | a in s.attempts && s.attempts[a].phase.Finished?
  }

  /** The attempt a sign-out call has taken from the gate. */
  function Taken(call: SignOutCall): Option<AttemptId> {
    match call
    case Cleared(task) => task
    case Removed(task, _) => task
    case Waiting(a) => Some(a)
    case Joined(a) => Some(a)
    case Expired(a) => Some(a)
  }

  predicate Takes(s: State, c: CallId) {
    c in s.calls && Taken(s.calls[c]).Some?
  }

  predicate InCriticalSection(call: SignOutCall) {
    call.Cleared? || call.Removed?
  }

  predicate Enabled(s: State, e: Event) {
    match e
    case SignIn(a) => s.lock.None? && a !in s.attempts && !Busy(s.gate, Done(s))
    case Authorized(a, _) => a in s.attempts && s.attempts[a].phase.Authorizing?
    // An abort takes effect at the next point where the attempt awaits something.
    case AttemptAborted(a) => Live(s, a) && s.attempts[a].aborted
    case Complete(a, _) => s.lock.None? && a in s.attempts && s.attempts[a].phase.Ready?
    case SignOut(c) => s.lock.None? && c !in s.calls
    case RemoveToken(c, _) =>
      c in s.calls && s.calls[c].Cleared? && s.drive.client.session.path != Some(s.tokenPath)
    case Release(c) => c in s.calls && s.calls[c].Removed?
    case Join(c) => c in s.calls && s.calls[c].Waiting? && !Live(s, s.calls[c].attempt)
    case Expire(c) => c in s.calls && s.calls[c].Waiting?
    case EndSignOut(c) => s.lock.None? && c in s.calls && (s.calls[c].Joined? || s.calls[c].Expired?)
    case Drive(e) => !Refresh.SessionEvent(e) && Refresh.Enabled(s.drive, e)
  }

  /** The attempt is the current one and its token has been saved. */
  predicate Succeeds(s: State, e: Event)
    requires Enabled(s, e)
  {
    e.Complete? && s.attempts[e.a].generation == s.gate.generation && s.attempts[e.a].phase.token.Some? && e.written
  }

  function Next(s: State, e: Event): State
    requires Enabled(s, e)
  {
    match e
    case SignIn(a) =>
      var gate := Begin(s.gate, a);
      s.(gate := gate, attempts := s.attempts[a := Attempt(gate.generation, Authorizing, false)])
    case Authorized(a, token) => s.(attempts := s.attempts[a := s.attempts[a].(phase := Ready(token))])
    case AttemptAborted(a) => s.(attempts := s.attempts[a := s.attempts[a].(phase := Finished)])
    case Complete(a, written) =>
      var attempt := s.attempts[a];
      s.(gate := Claim(s.gate, attempt.generation),
         attempts := s.attempts[a := attempt.(phase := Finished)],
         drive :=
           if attempt.generation == s.gate.generation && attempt.phase.token.Some? then
             Refresh.Next(s.drive, Refresh.SaveSession(attempt.phase.token.value, s.tokenPath, written))
           else s.drive)
    case SignOut(c) =>
      var (gate, task) := Cancel(s.gate);
      s.(gate := gate,
         attempts :=
           if task.Some? && task.value in s.attempts then
             s.attempts[task.value := s.attempts[task.value].(aborted := true)]
           else s.attempts,
         drive := Refresh.Next(s.drive, Refresh.SetToken("")),
         calls := s.calls[c := Cleared(task)],
         lock := Some(c))
    case RemoveToken(c, removed) =>
      s.(calls := s.calls[c := Removed(s.calls[c].task, removed)],
         drive := if removed then Refresh.Next(s.drive, Refresh.RemoveCache(s.tokenPath)) else s.drive)
    case Release(c) =>
      s.(lock := None,
         calls := if s.calls[c].task.None? then s.calls - {c} else s.calls[c := Waiting(s.calls[c].task.value)])
    case Join(c) => s.(calls := s.calls[c := Joined(s.calls[c].attempt)])
    case Expire(c) => s.(calls := s.calls[c := Expired(s.calls[c].attempt)])
    case EndSignOut(c) =>
      s.(calls := s.calls - {c},
         gate := FinishCancel(s.gate, if s.calls[c].Expired? then Some(s.calls[c].attempt) else None))
    case Drive(e) => s.(drive := Refresh.Next(s.drive, e))
  }

  predicate ValidRun(s: State, run: seq<Event>)
    decreases |run|
  {
    run == [] || (Enabled(s, run[0]) && ValidRun(Next(s, run[0]), run[1..]))
  }

  function Last(s: State, run: seq<Event>): State
    requires ValidRun(s, run)
    decreases |run|
  {
    if run == [] then s else Last(Next(s, run[0]), run[1..])
  }

  /** Start-up: no session yet, or the one restored from the token cache. */
  ghost predicate Initial(s: State) {
    && s.gate == Gate(0, None, false) && s.attempts == map[] && s.calls == map[] && s.lock.None?
    && (Refresh.Initial(s.drive)
        || exists blank: Refresh.State, token ::
             && Refresh.Initial(blank)
             && Refresh.Enabled(blank, Refresh.RestoreSession(token, s.tokenPath))
             && s.drive == Refresh.Next(blank, Refresh.RestoreSession(token, s.tokenPath)))
  }

  // ---------------------------------------------------------- invariants

  ghost predicate LockOk(s: State) {
    && (s.lock.Some? ==> s.lock.value in s.calls && InCriticalSection(s.calls[s.lock.value]))
    && (forall c :: c in s.calls && InCriticalSection(s.calls[c]) ==> s.lock == Some(c))
  }

  /** One sign-out at a time waits for an attempt, and the gate knows of it. */
  ghost predicate CancelOk(s: State) {
    && (forall c: CallId :: Takes(s, c) ==> s.gate.cancelling)
    && (s.gate.cancelling ==> s.gate.signIn.None? && exists c: CallId :: Takes(s, c))
    && (forall c: CallId, d: CallId :: Takes(s, c) && Takes(s, d) ==> c == d)
    && (forall c :: c in s.calls && s.calls[c].Joined? ==> !Live(s, s.calls[c].attempt))
  }

  /** Every attempt that is still running is the gate's or taken by a sign-out. */
  ghost predicate Covered(s: State) {
    forall a: AttemptId :: Live(s, a) ==>
      s.gate.signIn == Some(a) || exists c: CallId :: Takes(s, c) && Taken(s.calls[c]) == Some(a)
  }

  /** Only an attempt nobody has aborted can carry the current generation. */
  ghost predicate GenerationsOk(s: State) {
    && (forall a :: a in s.attempts ==> s.attempts[a].generation <= s.gate.generation)
    && (forall a :: a in s.attempts && s.attempts[a].aborted ==> s.attempts[a].generation < s.gate.generation)
  }

  ghost predicate HeldOk(s: State) {
    && (s.gate.signIn.Some? ==> s.gate.signIn.value in s.attempts)
    && (forall c: CallId :: Takes(s, c) ==>
          Taken(s.calls[c]).value in s.attempts && s.attempts[Taken(s.calls[c]).value].aborted)
  }

  ghost predicate AttemptsOk(s: State) {
    HeldOk(s) && Covered(s) && GenerationsOk(s)
  }

  predicate NoSession(s: State) {
    s.drive.client.session.token.accessToken == "" && s.drive.client.session.path.None?
  }

  /** No attempt that is still running can complete. */
  ghost predicate NoneCurrent(s: State) {
    forall a: AttemptId :: Live(s, a) ==> s.attempts[a].generation < s.gate.generation
  }

  ghost predicate SectionOk(s: State) {
    s.lock.Some? ==>
      && NoSession(s) && NoneCurrent(s)
      && (s.lock.value in s.calls && s.calls[s.lock.value].Removed? && s.calls[s.lock.value].removed ==>
            s.tokenPath !in s.drive.client.files)
  }

  ghost predicate Inv(s: State) {
    Refresh.Inv(s.drive) && LockOk(s) && CancelOk(s) && AttemptsOk(s) && SectionOk(s)
  }

  lemma InitialInv(s: State)
    requires Initial(s)
    ensures Inv(s)
  {
    if Refresh.Initial(s.drive) {
      Refresh.InitialInv(s.drive);
    } else {
      var blank: Refresh.State, token :|
        && Refresh.Initial(blank)
        && Refresh.Enabled(blank, Refresh.RestoreSession(token, s.tokenPath))
        && s.drive == Refresh.Next(blank, Refresh.RestoreSession(token, s.tokenPath));
      Refresh.InitialInv(blank);
      Refresh.InvNext(blank, Refresh.RestoreSession(token, s.tokenPath));
    }
  }

  lemma RefreshInvNext(s: State, e: Event)
    requires Inv(s) && Enabled(s, e)
    ensures Refresh.Inv(Next(s, e).drive)
  {
    match e
    case Complete(a, written) =>
      var attempt := s.attempts[a];
      if attempt.phase.token.Some? {
        Refresh.InvNext(s.drive, Refresh.SaveSession(attempt.phase.token.value, s.tokenPath, written));
      }
    case SignOut(c) => Refresh.InvNext(s.drive, Refresh.SetToken(""));
    case RemoveToken(c, removed) => Refresh.InvNext(s.drive, Refresh.RemoveCache(s.tokenPath));
    case Drive(d) => Refresh.InvNext(s.drive, d);
    case _ =>
  }

  lemma LockOkNext(s: State, e: Event)
    requires LockOk(s) && Enabled(s, e)
    ensures LockOk(Next(s, e))
  {
  }

  /** Calls keep what they have taken until they end. */
  lemma TakesNext(s: State, e: Event, c: CallId)
    requires Enabled(s, e)
    ensures Takes(s, c) && !(e.EndSignOut? && e.c == c) && !(e.SignOut? && e.c == c) ==>
      Takes(Next(s, e), c) && Taken(Next(s, e).calls[c]) == Taken(s.calls[c])
    ensures Takes(Next(s, e), c) ==>
      (Takes(s, c) && Taken(Next(s, e).calls[c]) == Taken(s.calls[c]))
      || (e == SignOut(c) && !s.gate.cancelling && Taken(Next(s, e).calls[c]) == s.gate.signIn)
  {
  }

  lemma CancelOkNext(s: State, e: Event)
    requires LockOk(s) && CancelOk(s) && AttemptsOk(s) && Enabled(s, e)
    ensures CancelOk(Next(s, e))
  {
    TakersNext(s, e);
    forall c | c in Next(s, e).calls && Next(s, e).calls[c].Joined?
      ensures !Live(Next(s, e), Next(s, e).calls[c].attempt)
    {
      JoinedNext(s, e, c);
    }
  }

  lemma JoinedNext(s: State, e: Event, c: CallId)
    requires CancelOk(s) && AttemptsOk(s) && Enabled(s, e)
    requires c in Next(s, e).calls && Next(s, e).calls[c].Joined?
    ensures !Live(Next(s, e), Next(s, e).calls[c].attempt)
  {
    assert c in s.calls && Takes(s, c);
  }

  lemma TakersNext(s: State, e: Event)
    requires LockOk(s) && CancelOk(s) && AttemptsOk(s) && Enabled(s, e)
    ensures var s' := Next(s, e);
      && (forall c: CallId :: Takes(s', c) ==> s'.gate.cancelling)
      && (s'.gate.cancelling ==> s'.gate.signIn.None? && exists c: CallId :: Takes(s', c))
      && (forall c: CallId, d: CallId :: Takes(s', c) && Takes(s', d) ==> c == d)
  {
    var s' := Next(s, e);
    assert e.EndSignOut? ==> Takes(s, e.c);
    forall c: CallId | Takes(s', c)
      ensures s'.gate.cancelling
      ensures Takes(s, c) || (e == SignOut(c) && !s.gate.cancelling)
    {
      TakesNext(s, e, c);
    }
    if s'.gate.cancelling {
      if e.SignOut? && !s.gate.cancelling {
        assert Takes(s', e.c);
      } else {
        var c: CallId :| Takes(s, c);
        TakesNext(s, e, c);
      }
    }
  }

  lemma AttemptsOkNext(s: State, e: Event)
    requires CancelOk(s) && AttemptsOk(s) && Enabled(s, e)
    ensures AttemptsOk(Next(s, e))
  {
    HeldOkNext(s, e);
    CoveredNext(s, e);
    GenerationsOkNext(s, e);
  }

  lemma HeldOkNext(s: State, e: Event)
    requires CancelOk(s) && HeldOk(s) && Enabled(s, e)
    ensures HeldOk(Next(s, e))
  {
    var s' := Next(s, e);
    forall c: CallId | Takes(s', c)
      ensures Taken(s'.calls[c]).value in s'.attempts && s'.attempts[Taken(s'.calls[c]).value].aborted
    {
      TakesNext(s, e, c);
    }
    assert e.EndSignOut? ==> Takes(s, e.c);
  }

  lemma GenerationsOkNext(s: State, e: Event)
    requires GenerationsOk(s) && Enabled(s, e)
    ensures GenerationsOk(Next(s, e))
  {
  }

  lemma CoveredNext(s: State, e: Event)
    requires CancelOk(s) && AttemptsOk(s) && Enabled(s, e)
    ensures Covered(Next(s, e))
  {
    var s' := Next(s, e);
    assert e.Complete? ==> Live(s, e.a);
    forall a: AttemptId | Live(s', a)
      ensures s'.gate.signIn == Some(a) || exists c: CallId :: Takes(s', c) && Taken(s'.calls[c]) == Some(a)
    {
      if Live(s, a) && s.gate.signIn != Some(a) {
        var c: CallId :| Takes(s, c) && Taken(s.calls[c]) == Some(a);
        TakesNext(s, e, c);
      } else if e.SignOut? {
        assert Taken(s'.calls[e.c]) == Some(a);
        assert Takes(s', e.c);
      }
    }
  }

  /** Without a session path, Drive requests cannot touch session or caches. */
  lemma DriveKeepsSignedOut(s: State, e: Refresh.Event)
    requires Inv(s) && Enabled(s, Drive(e)) && s.drive.client.session.path.None?
    ensures Next(s, Drive(e)).drive.client == s.drive.client
  {
    Refresh.OnlyACurrentRenewalChanges(s.drive, e);
    if e.EndRefresh? {
      assert Refresh.HolderStable(s.drive.client.session, s.drive.tasks[e.t].phase);
    }
  }

  lemma SectionOkNext(s: State, e: Event)
    requires Inv(s) && Enabled(s, e)
    ensures SectionOk(Next(s, e))
  {
    if Next(s, e).lock.Some? {
      SectionKeepsNoSession(s, e);
      SectionKeepsNoneCurrent(s, e);
    }
  }

  lemma SectionKeepsNoSession(s: State, e: Event)
    requires Inv(s) && Enabled(s, e) && Next(s, e).lock.Some?
    ensures NoSession(Next(s, e))
    ensures s.lock.Some? && s.tokenPath !in s.drive.client.files ==> s.tokenPath !in Next(s, e).drive.client.files
  {
    if e.Drive? {
      DriveKeepsSignedOut(s, e.e);
    }
  }

  lemma SectionKeepsNoneCurrent(s: State, e: Event)
    requires Inv(s) && Enabled(s, e) && Next(s, e).lock.Some?
    ensures NoneCurrent(Next(s, e))
  {
    if e.SignOut? {
      AttemptsOkNext(s, e);
      CancelOkNext(s, e);
    }
  }

  lemma InvNext(s: State, e: Event)
    requires Inv(s) && Enabled(s, e)
    ensures Inv(Next(s, e))
  {
    RefreshInvNext(s, e);
    LockOkNext(s, e);
    CancelOkNext(s, e);
    AttemptsOkNext(s, e);
    SectionOkNext(s, e);
  }

  lemma {:induction false} InvRun(s: State, run: seq<Event>)
    requires Inv(s) && ValidRun(s, run)
    ensures Inv(Last(s, run))
    decreases |run|
  {
    if run != [] {
      InvNext(s, run[0]);
      InvRun(Next(s, run[0]), run[1..]);
    }
  }

  // ------------------------------------------------------------ theorems

  /** At most one attempt runs, also while sign-outs overlap or time out. */
  lemma OneAttemptAtATime(s: State, run: seq<Event>, a: AttemptId, b: AttemptId)
    requires Initial(s) && ValidRun(s, run)
    requires Live(Last(s, run), a) && Live(Last(s, run), b)
    ensures a == b
  {
    InitialInv(s);
    InvRun(s, run);
  }

  /** Sign-in is refused exactly while an attempt runs or a sign-out waits for
      one, so a late attempt keeps the gate shut and nothing else does. */
  lemma BusyIffRunning(s: State, run: seq<Event>)
    requires Initial(s) && ValidRun(s, run)
    ensures var end := Last(s, run);
      Busy(end.gate, Done(end)) <==>
      ((exists a: AttemptId :: Live(end, a)) || exists c: CallId :: Takes(end, c))
  {
    InitialInv(s);
    InvRun(s, run);
    var end := Last(s, run);
    if Busy(end.gate, Done(end)) && !end.gate.cancelling {
      assert Live(end, end.gate.signIn.value);
    }
    forall a: AttemptId | Live(end, a) ensures Busy(end.gate, Done(end)) {
      if end.gate.signIn != Some(a) {
        var c: CallId :| Takes(end, c) && Taken(end.calls[c]) == Some(a);
      }
    }
  }

  /** The attempt has ended or its generation has been overtaken. */
  predicate Stale(s: State, a: AttemptId) {
    a in s.attempts && (s.attempts[a].phase.Finished? || s.attempts[a].generation < s.gate.generation)
  }

  lemma {:induction false} StaleForever(s: State, run: seq<Event>, a: AttemptId)
    requires ValidRun(s, run) && Stale(s, a)
    ensures Stale(Last(s, run), a)
    decreases |run|
  {
    if run != [] {
      StaleForever(Next(s, run[0]), run[1..], a);
    }
  }

  /** Both a sign-out and another sign-in overtake every earlier attempt, even a
      sign-out that finds an older one still waiting. */
  lemma SignOutMakesStale(s: State, e: Event, a: AttemptId)
    requires Inv(s) && Enabled(s, e) && a in s.attempts && (e.SignOut? || e.SignIn?)
    ensures Stale(Next(s, e), a)
  {
    if Live(s, a) && s.gate.cancelling {
      var c: CallId :| Takes(s, c) && Taken(s.calls[c]) == Some(a);
    }
  }

  function TakeRun(s: State, run: seq<Event>, n: nat): State
    requires ValidRun(s, run) && n <= |run|
    ensures ValidRun(TakeRun(s, run, n), run[n..])
    ensures Last(TakeRun(s, run, n), run[n..]) == Last(s, run)
    decreases |run|
  {
    if n == 0 then assert run[0..] == run; s
    else
      assert run[1..][n - 1..] == run[n..];
      TakeRun(Next(s, run[0]), run[1..], n - 1)
  }

  lemma {:induction false} TakeRunInv(s: State, run: seq<Event>, n: nat)
    requires Inv(s) && ValidRun(s, run) && n <= |run|
    ensures Inv(TakeRun(s, run, n))
    decreases |run|
  {
    if n > 0 {
      InvNext(s, run[0]);
      TakeRunInv(Next(s, run[0]), run[1..], n - 1);
    }
  }

  lemma {:induction false} AttemptsGrow(s: State, run: seq<Event>, n: nat, a: AttemptId)
    requires ValidRun(s, run) && n <= |run| && a in s.attempts
    ensures a in TakeRun(s, run, n).attempts
    decreases |run|
  {
    if n > 0 {
      AttemptsGrow(Next(s, run[0]), run[1..], n - 1, a);
    }
  }

  /** An attempt that succeeds in saving its token saw no sign-out and no other
      sign-in since it was started. */
  lemma SuccessMeansUndisturbed(s: State, a: AttemptId, run: seq<Event>, written: bool, i: nat)
    requires Inv(s) && ValidRun(s, run) && a in s.attempts && i < |run|
    requires Enabled(Last(s, run), Complete(a, written)) && Succeeds(Last(s, run), Complete(a, written))
    ensures !run[i].SignOut? && !run[i].SignIn?
  {
    if run[i].SignOut? || run[i].SignIn? {
      var mid := TakeRun(s, run, i);
      TakeRunInv(s, run, i);
      AttemptsGrow(s, run, i, a);
      assert run[i..][1..] == run[i + 1..];
      SignOutMakesStale(mid, run[i], a);
      StaleForever(Next(mid, run[i]), run[i + 1..], a);
      assert false;
    }
  }

  /** Some attempt started during the run, or listed in `begun`, succeeds. */
  predicate NewSignInSucceeds(s: State, run: seq<Event>, begun: set<AttemptId>)
    requires ValidRun(s, run)
    decreases |run|
  {
    run != [] &&
    ((Succeeds(s, run[0]) && run[0].a in begun)
     || NewSignInSucceeds(Next(s, run[0]), run[1..], WithBegun(run[0], begun)))
  }

  ghost predicate OnlyBegunCurrent(s: State, begun: set<AttemptId>) {
    forall a: AttemptId :: Live(s, a) && a !in begun ==> s.attempts[a].generation < s.gate.generation
  }

  function WithBegun(e: Event, begun: set<AttemptId>): set<AttemptId> {
    if e.SignIn? then begun + {e.a} else begun
  }

  lemma OnlyBegunCurrentNext(s: State, e: Event, begun: set<AttemptId>)
    requires Enabled(s, e) && AttemptsOk(s) && OnlyBegunCurrent(s, begun)
    ensures OnlyBegunCurrent(Next(s, e), WithBegun(e, begun))
  {
  }

  lemma SignedOutNext(s: State, e: Event, begun: set<AttemptId>)
    requires Inv(s) && Enabled(s, e) && OnlyBegunCurrent(s, begun) && !(Succeeds(s, e) && e.a in begun)
    requires NoSession(s) && s.tokenPath !in s.drive.client.files
    ensures NoSession(Next(s, e)) && s.tokenPath !in Next(s, e).drive.client.files
  {
    if e.Drive? {
      DriveKeepsSignedOut(s, e.e);
    } else if e.Complete? {
      assert Live(s, e.a);
    }
  }

  lemma {:induction false} StaysSignedOut(s: State, run: seq<Event>, begun: set<AttemptId>)
    requires Inv(s) && ValidRun(s, run) && !NewSignInSucceeds(s, run, begun)
    requires NoSession(s) && s.tokenPath !in s.drive.client.files && OnlyBegunCurrent(s, begun)
    ensures NoSession(Last(s, run)) && s.tokenPath !in Last(s, run).drive.client.files
    decreases |run|
  {
    if run != [] {
      InvNext(s, run[0]);
      SignedOutNext(s, run[0], begun);
      OnlyBegunCurrentNext(s, run[0], begun);
      StaysSignedOut(Next(s, run[0]), run[1..], WithBegun(run[0], begun));
    }
  }

  /** Sign-out wins over everything: once its critical section has removed the
      token file, no refresh in flight, no older attempt and no other sign-out
      brings back the file or an access token; only an attempt started
      afterwards can. */
  lemma SignOutWins(start: State, before: seq<Event>, c: CallId, run: seq<Event>)
    requires Initial(start) && ValidRun(start, before)
    requires Enabled(Last(start, before), RemoveToken(c, true))
    requires ValidRun(Next(Last(start, before), RemoveToken(c, true)), run)
    requires !NewSignInSucceeds(Next(Last(start, before), RemoveToken(c, true)), run, {})
    ensures var end := Last(Next(Last(start, before), RemoveToken(c, true)), run);
      NoSession(end) && Last(start, before).tokenPath !in end.drive.client.files
  {
    InitialInv(start);
    InvRun(start, before);
    var s := Last(start, before);
    InvNext(s, RemoveToken(c, true));
    StaysSignedOut(Next(s, RemoveToken(c, true)), run, {});
  }

  /** The session and its cache agree across sign-ins and sign-outs too. */
  lemma SessionIsCached(start: State, run: seq<Event>)
    requires Initial(start) && ValidRun(start, run)
    ensures Refresh.MemoryIsOnDisk(Last(start, run).drive.client)
  {
    InitialInv(start);
    InvRun(start, run);
  }

  /** Removing the token file is always possible once the section has cleared
      the session: nothing can install a session path while the lock is held. */
  lemma ClearedCallCanRemove(start: State, run: seq<Event>, c: CallId, removed: bool)
    requires Initial(start) && ValidRun(start, run)
    requires c in Last(start, run).calls && Last(start, run).calls[c].Cleared?
    ensures NoSession(Last(start, run)) && Enabled(Last(start, run), RemoveToken(c, removed))
  {
    InitialInv(start);
    InvRun(start, run);
  }
}
