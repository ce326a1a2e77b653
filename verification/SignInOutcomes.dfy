/** That sign-in and sign-out get through, and what they leave. */
module SignInOutcomes {
  import opened Common
  import opened Auth
  import opened SignInGate
  import opened SignInProtocol
  import Refresh = RefreshProtocol

  /** Some attempt or sign-out came between. */
  predicate Disturbed(run: seq<Event>) {
    exists i :: 0 <= i < |run| && (run[i].SignIn? || run[i].SignOut?)
  }

  lemma {:induction false} UndisturbedKeepsGeneration(s: State, run: seq<Event>)
    requires ValidRun(s, run) && !Disturbed(run)
    ensures Last(s, run).gate.generation == s.gate.generation
    decreases |run|
  {
    if run != [] {
      assert !run[0].SignIn? && !run[0].SignOut?;
      assert forall i :: 0 <= i < |run[1..]| ==> run[1..][i] == run[i + 1];
      UndisturbedKeepsGeneration(Next(s, run[0]), run[1..]);
    }
  }

  lemma {:induction false} AttemptKeepsGeneration(s: State, run: seq<Event>, a: AttemptId)
    requires ValidRun(s, run) && a in s.attempts
    ensures a in Last(s, run).attempts && Last(s, run).attempts[a].generation == s.attempts[a].generation
    decreases |run|
  {
    if run != [] {
      AttemptKeepsGeneration(Next(s, run[0]), run[1..], a);
    }
  }

  /** What a completion does: an attempt that is current and has a token replaces the
      session and its cache if the cache can be written; any other changes neither. */
  lemma CompletionOutcome(s: State, a: AttemptId, written: bool)
    requires Enabled(s, Complete(a, written))
    ensures var end, token := Next(s, Complete(a, written)), s.attempts[a].phase.token;
      && !Live(end, a) && (s.attempts[a].generation == s.gate.generation ==> end.gate.signIn.None?)
      && if s.attempts[a].generation == s.gate.generation && token.Some? && written then
           && end.drive.client.session.token == token.value && end.drive.client.session.path == Some(s.tokenPath)
           && end.drive.client.files == s.drive.client.files[s.tokenPath := Readable(token.value)]
         else end.drive.client == s.drive.client
  {
  }

  /** A sign-in that has its token and can write the cache succeeds if and only if no
      sign-out and no other sign-in came between. */
  lemma SucceedsIffUndisturbed(s: State, a: AttemptId, run: seq<Event>)
    requires Inv(s) && Enabled(s, SignIn(a)) && ValidRun(Next(s, SignIn(a)), run)
    requires var end := Last(Next(s, SignIn(a)), run);
      Enabled(end, Complete(a, true)) && end.attempts[a].phase.token.Some?
    ensures Succeeds(Last(Next(s, SignIn(a)), run), Complete(a, true)) <==> !Disturbed(run)
  {
    var begun := Next(s, SignIn(a));
    InvNext(s, SignIn(a));
    AttemptKeepsGeneration(begun, run, a);
    if Disturbed(run) {
      var i :| 0 <= i < |run| && (run[i].SignIn? || run[i].SignOut?);
      if Succeeds(Last(begun, run), Complete(a, true)) {
        SuccessMeansUndisturbed(begun, a, run, true, i);
      }
    } else {
      UndisturbedKeepsGeneration(begun, run);
    }
  }

  lemma {:induction false} RunSnoc(s: State, run: seq<Event>, e: Event)
    requires ValidRun(s, run) && Enabled(Last(s, run), e)
    ensures ValidRun(s, run + [e]) && Last(s, run + [e]) == Next(Last(s, run), e)
    decreases |run|
  {
    if run == [] {
      assert (run + [e])[1..] == [];
    } else {
      assert (run + [e])[1..] == run[1..] + [e];
      RunSnoc(Next(s, run[0]), run[1..], e);
    }
  }

  lemma ThenStep(s: State, run: seq<Event>, e: Event) returns (longer: seq<Event>)
    requires ValidRun(s, run) && Enabled(Last(s, run), e)
    ensures ValidRun(s, longer) && Last(s, longer) == Next(Last(s, run), e)
  {
    longer := run + [e];
    RunSnoc(s, run, e);
  }

  /** When the gate is not busy a sign-in can be started and can succeed. */
  lemma SignInWorks(s: State, a: AttemptId, token: StoredToken) returns (run: seq<Event>)
    requires s.lock.None? && a !in s.attempts && !Busy(s.gate, Done(s))
    ensures ValidRun(s, run)
    ensures var end := Last(s, run);
      && end.drive.client.session.token == token && end.drive.client.session.path == Some(s.tokenPath)
      && end.drive.client.files == s.drive.client.files[s.tokenPath := Readable(token)]
      && !Live(end, a) && end.gate.signIn.None?
  {
    run := ThenStep(s, [], SignIn(a));
    run := ThenStep(s, run, Authorized(a, Some(token)));
    CompletionOutcome(Last(s, run), a, true);
    run := ThenStep(s, run, Complete(a, true));
  }

  /** A sign-out can always go through its critical section; then session and cache
      are gone and the attempt it has taken is told to stop. */
  lemma SignOutSectionWorks(s: State, c: CallId) returns (run: seq<Event>)
    requires Inv(s) && s.lock.None? && c !in s.calls
    ensures ValidRun(s, run)
    ensures var end := Last(s, run);
      && NoSession(end) && s.tokenPath !in end.drive.client.files && end.lock.None?
      && (forall a: AttemptId :: Live(end, a) ==> end.attempts[a].aborted)
      && (if s.gate.cancelling || s.gate.signIn.None? then c !in end.calls
          else c in end.calls && end.calls[c] == Waiting(s.gate.signIn.value))
  {
    run := ThenStep(s, [], SignOut(c));
    InvNext(s, SignOut(c));
    StoppedBySignOut(s, c);
    run := SectionFinishes(s, run, c);
  }

  /** The rest of the critical section, once it has cleared the session. */
  lemma SectionFinishes(s: State, run: seq<Event>, c: CallId) returns (longer: seq<Event>)
    requires ValidRun(s, run)
    requires var mid := Last(s, run);
      c in mid.calls && mid.calls[c].Cleared? && mid.lock == Some(c) && NoSession(mid)
    ensures ValidRun(s, longer)
    ensures var mid, end := Last(s, run), Last(s, longer);
      && NoSession(end) && end.tokenPath == mid.tokenPath && mid.tokenPath !in end.drive.client.files
      && end.lock.None? && end.attempts == mid.attempts
      && (if mid.calls[c].task.None? then c !in end.calls
          else c in end.calls && end.calls[c] == Waiting(mid.calls[c].task.value))
  {
    longer := ThenStep(s, run, RemoveToken(c, true));
    longer := ThenStep(s, longer, Release(c));
  }

  /** After a sign-out has taken the lock, every attempt still running is aborted. */
  lemma StoppedBySignOut(s: State, c: CallId)
    requires Inv(s) && Enabled(s, SignOut(c))
    ensures forall a: AttemptId :: Live(Next(s, SignOut(c)), a) ==> Next(s, SignOut(c)).attempts[a].aborted
  {
    var end := Next(s, SignOut(c));
    InvNext(s, SignOut(c));
    forall a: AttemptId | Live(end, a) ensures end.attempts[a].aborted {
      assert end.gate.signIn != Some(a);
      var d: CallId :| Takes(end, d) && Taken(end.calls[d]) == Some(a);
    }
  }

  /** A sign-out that waits for an attempt can come to its end, and leaves the gate
      open for the next sign-in. */
  lemma WaitingSignOutEnds(s: State, c: CallId) returns (run: seq<Event>)
    requires Inv(s) && s.lock.None? && c in s.calls && s.calls[c].Waiting?
    ensures ValidRun(s, run)
    ensures var end := Last(s, run); c !in end.calls && !Busy(end.gate, Done(end)) && end.lock.None?
  {
    var a := s.calls[c].attempt;
    assert Takes(s, c);
    run := [];
    if Live(s, a) {
      run := ThenStep(s, run, AttemptAborted(a));
    }
    run := ThenStep(s, run, Join(c));
    run := ThenStep(s, run, EndSignOut(c));
  }

  /** The wait of a sign-out may run out at any time; the attempt is then put back
      and keeps the gate shut until it is over. */
  lemma LateAttemptKeepsGateShut(s: State, c: CallId)
    requires s.lock.None? && c in s.calls && s.calls[c].Waiting?
    ensures Enabled(s, Expire(c)) && Enabled(Next(s, Expire(c)), EndSignOut(c))
    ensures var end := Next(Next(s, Expire(c)), EndSignOut(c));
      && end.gate.signIn == Some(s.calls[c].attempt) && c !in end.calls
      && (Busy(end.gate, Done(end)) <==> s.calls[c].attempt !in Done(s))
  {
  }

  /** Every sign-in has a generation above those of all others so far. */
  lemma SignInIsNewest(s: State, a: AttemptId, b: AttemptId)
    requires Inv(s) && Enabled(s, SignIn(a)) && b in s.attempts
    ensures s.attempts[b].generation < Next(s, SignIn(a)).attempts[a].generation
  {
  }

  /** Drive requests take their steps beside all this, and only session changes are
      reserved to sign-in and sign-out. */
  lemma RequestsRunBeside(s: State, e: Refresh.Event)
    requires Refresh.Enabled(s.drive, e) && !Refresh.SessionEvent(e)
    ensures Enabled(s, Drive(e)) && Next(s, Drive(e)) == s.(drive := Refresh.Next(s.drive, e))
  {
  }
}
