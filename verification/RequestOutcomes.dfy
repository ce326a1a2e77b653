/** What becomes of a Drive request: where its tokens come from, when it transmits,
    exchanges or gives up, and that it gets through when nothing fails. */
module RequestOutcomes {
  import opened Common
  import opened Auth
  import opened DriveClient
  import opened RefreshProtocol

  // --------------------------------------------------- where tokens come from

  predicate LastInstalled(h: seq<Entry>, i: nat) {
    i < |h| && !h[i].Dropped? && forall j :: i < j < |h| ==> h[j].Dropped?
  }

  lemma {:induction false} ChainKeepsLastInstalled(h: seq<Entry>, i: nat)
    requires Chained(h) && LastInstalled(h, i)
    ensures h[|h| - 1].token == h[i].token
    decreases |h|
  {
    if i < |h| - 1 {
      var shorter := h[..|h| - 1];
      assert Chained(shorter) && LastInstalled(shorter, i);
      ChainKeepsLastInstalled(shorter, i);
      assert Follows(h[|h| - 2], h[|h| - 1]);
    }
  }

  /** In every reachable state the session has the token it began with or, once
      renewed, the access token of the reply installed last. */
  lemma SessionCarriesLastReply(s: State, run: seq<Event>, i: nat)
    requires Initial(s) && ValidRun(s, run) && LastInstalled(Last(s, run).history, i)
    ensures var end := Last(s, run);
      && end.client.session.token == end.history[i].token
      && (end.history[i].Renewed? ==> end.client.session.token.accessToken == end.history[i].reply.accessToken)
  {
    InitialInv(s);
    InvRun(s, run);
    var h := Last(s, run).history;
    ChainKeepsLastInstalled(h, i);
    if i > 0 {
      assert Follows(h[i - 1], h[i]);
    }
  }

  /** The session had this token at some time. */
  predicate Seen(h: seq<Entry>, token: StoredToken) {
    exists j :: 0 <= j < |h| && h[j].token == token
  }

  /** A renewal brought this token: its access token is the reply's. */
  predicate Brought(h: seq<Entry>, token: StoredToken) {
    exists j :: 0 <= j < |h| && h[j].Renewed? && h[j].token == token && h[j].reply.accessToken == token.accessToken
  }

  predicate Sourced(r: Request, h: seq<Entry>) {
    && (forall i :: 0 <= i < |r.sent| ==> Seen(h, r.sent[i].token))
    && (r.exchanged ==> r.sent != [] && Brought(h, r.sent[|r.sent| - 1].token))
  }

  lemma SeenLater(h: seq<Entry>, h': seq<Entry>, token: StoredToken)
    requires h <= h'
    ensures Seen(h, token) ==> Seen(h', token)
    ensures Brought(h, token) ==> Brought(h', token)
  {
    if j :| 0 <= j < |h| && h[j].token == token {
      assert h'[j] == h[j];
    }
    if j :| 0 <= j < |h| && h[j].Renewed? && h[j].token == token && h[j].reply.accessToken == token.accessToken {
      assert h'[j] == h[j];
    }
  }

  lemma SourcedLater(r: Request, h: seq<Entry>, h': seq<Entry>)
    requires Sourced(r, h) && h <= h'
    ensures Sourced(r, h')
  {
    forall i | 0 <= i < |r.sent| ensures Seen(h', r.sent[i].token) {
      SeenLater(h, h', r.sent[i].token);
    }
    if r.exchanged {
      SeenLater(h, h', r.sent[|r.sent| - 1].token);
    }
  }

  lemma HistoryGrows(s: State, e: Event)
    requires Enabled(s, e)
    ensures s.history <= Next(s, e).history
  {
  }

  /** A step of a request transmits nothing or the session as it then is. */
  lemma AdvanceTransmits(s: State, e: Event)
    requires Enabled(s, e) && !SessionEvent(e)
    ensures var before := if e.t in s.tasks then s.tasks[e.t].sent else [];
      && (Advance(s, e).sent == before || Advance(s, e).sent == before + [ClientAfter(s, e).session])
      && (Advance(s, e).exchanged ==>
            (e.t in s.tasks && s.tasks[e.t].exchanged && Advance(s, e).sent == before)
            || (e.EndRefresh? && Installs(s.tasks[e.t], s.client, e.written)
                && Advance(s, e).sent == before + [ClientAfter(s, e).session])
            || (e.t in s.tasks && s.tasks[e.t].exchanged && Advance(s, e).sent != before))
  {
  }

  lemma SourcedAdvance(s: State, e: Event)
    requires Inv(s) && Enabled(s, e) && !SessionEvent(e)
    requires e.t in s.tasks ==> Sourced(s.tasks[e.t], s.history) && FlagOk(s.tasks[e.t])
    ensures Sourced(Advance(s, e), Next(s, e).history)
  {
    var r := Advance(s, e);
    var h := Next(s, e).history;
    InvNext(s, e);
    HistoryGrows(s, e);
    AdvanceTransmits(s, e);
    assert h[|h| - 1].token == ClientAfter(s, e).session.token;
    if e.t in s.tasks {
      SourcedLater(s.tasks[e.t], s.history, h);
    }
    if e.EndRefresh? && Installs(s.tasks[e.t], s.client, e.written) {
      assert Follows(h[|h| - 2], h[|h| - 1]);
    }
  }

  /** Only a request that is transmitting or done has a token of its own exchange. */
  predicate FlagOk(r: Request) {
    r.exchanged ==> r.phase.Sending? || r.phase.Done?
  }

  lemma FlagOkAdvance(s: State, e: Event)
    requires Enabled(s, e) && !SessionEvent(e) && (e.t in s.tasks ==> FlagOk(s.tasks[e.t]))
    ensures FlagOk(Advance(s, e))
  {
  }

  ghost predicate AllSourced(s: State) {
    forall t :: t in s.tasks ==> Sourced(s.tasks[t], s.history) && FlagOk(s.tasks[t])
  }

  lemma AllSourcedNext(s: State, e: Event)
    requires Inv(s) && AllSourced(s) && Enabled(s, e)
    ensures AllSourced(Next(s, e))
  {
    forall t | t in Next(s, e).tasks
      ensures Sourced(Next(s, e).tasks[t], Next(s, e).history) && FlagOk(Next(s, e).tasks[t])
    {
      SourcedNext(s, e, t);
    }
  }

  lemma SourcedNext(s: State, e: Event, t: TaskId)
    requires Inv(s) && AllSourced(s) && Enabled(s, e) && t in Next(s, e).tasks
    ensures Sourced(Next(s, e).tasks[t], Next(s, e).history) && FlagOk(Next(s, e).tasks[t])
  {
    if !SessionEvent(e) && e.t == t {
      SourcedAdvance(s, e);
      FlagOkAdvance(s, e);
      assert Next(s, e).tasks[t] == Advance(s, e);
    } else {
      HistoryGrows(s, e);
      assert Next(s, e).tasks[t] == s.tasks[t];
      SourcedLater(s.tasks[t], s.history, Next(s, e).history);
    }
  }

  lemma {:induction false} AllSourcedRun(s: State, run: seq<Event>)
    requires Inv(s) && AllSourced(s) && ValidRun(s, run)
    ensures AllSourced(Last(s, run))
    decreases |run|
  {
    if run != [] {
      AllSourcedNext(s, run[0]);
      InvNext(s, run[0]);
      AllSourcedRun(Next(s, run[0]), run[1..]);
    }
  }

  /** Whatever was transmitted was a token of some session at the time, and what a
      request transmits after its own exchange carries the access token of a reply
      that was installed. */
  lemma TransmissionsAreSourced(s: State, run: seq<Event>, t: TaskId)
    requires Initial(s) && ValidRun(s, run) && t in Last(s, run).tasks
    ensures var r, h := Last(s, run).tasks[t], Last(s, run).history;
      && (forall i :: 0 <= i < |r.sent| ==> Seen(h, r.sent[i].token))
      && (r.exchanged ==> r.sent != [] && Brought(h, r.sent[|r.sent| - 1].token))
  {
    InitialInv(s);
    AllSourcedRun(s, run);
    assert Sourced(Last(s, run).tasks[t], Last(s, run).history);
  }

  // ------------------------------------------------------------ what reads do

  /** More than half a minute before expiry. */
  predicate FreshAt(token: StoredToken, now: int) {
    token.expiresAt.Some? ==> token.expiresAt.value > now + 30
  }

  /** Signed in, and in the session of the transmission that was rejected, if any. */
  predicate InSession(session: Session, rejected: Option<Session>) {
    && session.token.accessToken != ""
    && (rejected.Some? ==> rejected.value.generation == session.generation)
  }

  /** The session's token can be transmitted as it is. */
  predicate Usable(session: Session, rejected: Option<Session>, now: int) {
    && InSession(session, rejected) && FreshAt(session.token, now)
    && (rejected.Some? ==> rejected.value.token.accessToken != session.token.accessToken)
  }

  predicate CanExchange(session: Session) {
    && session.token.refreshToken.Some? && session.token.refreshToken.value != ""
    && session.path.Some?
  }

  /** The first read transmits a usable token, gives up outside the session, and
      waits for the mutex otherwise. */
  lemma FirstReadOutcome(s: State, t: TaskId, now: int)
    requires Enabled(s, ReadFirst(t, now))
    ensures var r, session := s.tasks[t], s.client.session;
      Next(s, ReadFirst(t, now)).tasks[t] ==
      if Usable(session, r.rejected, now) then r.(phase := Sending(session), sent := r.sent + [session])
      else if InSession(session, r.rejected) then r.(phase := LockWait)
      else r.(phase := Done)
  {
  }

  /** The second read does the same under the mutex, where it starts an exchange if
      there is a refresh token, a cache and a configured client. */
  lemma SecondReadOutcome(s: State, t: TaskId, now: int, configured: bool)
    requires Enabled(s, ReadSecond(t, now, configured))
    ensures var r, session := s.tasks[t], s.client.session;
      Next(s, ReadSecond(t, now, configured)).tasks[t] ==
      if Usable(session, r.rejected, now) then r.(phase := Sending(session), sent := r.sent + [session])
      else if InSession(session, r.rejected) && CanExchange(session) && configured then
        r.(phase := Exchanging(session), exchanges := r.exchanges + 1)
      else r.(phase := Done)
  {
  }

  // ------------------------------------------------------- getting through

  /** What an exchange of `session` makes of it. */
  function Renewal(session: Session, reply: TokenReply, now: int): Session {
    session.(token := StoredToken(
               reply.accessToken,
               if reply.refreshToken.Some? then reply.refreshToken else session.token.refreshToken,
               if reply.expiresIn.Some? then Some(now + reply.expiresIn.value) else None))
  }

  predicate GoodReply(reply: TokenReply) {
    reply.accessToken != "" && reply.refreshToken != Some("")
  }

  /** Request `t` waits for the free mutex and finds a token it cannot use. */
  predicate MustRenew(s: State, t: TaskId, now: int) {
    && t in s.tasks && s.tasks[t].phase.LockWait? && s.lock.None?
    && InSession(s.client.session, s.tasks[t].rejected) && !Usable(s.client.session, s.tasks[t].rejected, now)
    && CanExchange(s.client.session)
  }

  lemma ReachesExchange(s: State, run: seq<Event>, t: TaskId, now: int) returns (longer: seq<Event>)
    requires ValidRun(s, run) && MustRenew(Last(s, run), t, now)
    ensures ValidRun(s, longer)
    ensures var mid, end := Last(s, run), Last(s, longer);
      && end.client == mid.client && end.lock == Some(t) && end.history == mid.history
      && end.tasks == mid.tasks[t := mid.tasks[t].(phase := Exchanging(mid.client.session),
                                                   exchanges := mid.tasks[t].exchanges + 1)]
  {
    longer := ThenStep(s, run, Acquire(t));
    SecondReadOutcome(Last(s, longer), t, now, true);
    longer := ThenStep(s, longer, ReadSecond(t, now, true));
  }

  lemma FinishesExchange(s: State, run: seq<Event>, t: TaskId, reply: TokenReply, now: int)
    returns (longer: seq<Event>)
    requires ValidRun(s, run) && GoodReply(reply)
    requires var mid := Last(s, run);
      t in mid.tasks && mid.tasks[t].phase == Exchanging(mid.client.session) && mid.lock == Some(t)
      && mid.client.session.path.Some?
    ensures ValidRun(s, longer)
    ensures var mid, end, renewed := Last(s, run), Last(s, longer), Renewal(Last(s, run).client.session, reply, now);
      && end.client.session == renewed && end.lock.None?
      && end.client.files == mid.client.files[renewed.path.value := Readable(renewed.token)]
      && t in end.tasks && end.tasks[t].phase == Sending(renewed) && end.tasks[t].sent == mid.tasks[t].sent + [renewed]
  {
    longer := ThenStep(s, run, Reply(t, reply, now));
    longer := ThenStep(s, longer, EndRefresh(t, true));
  }

  /** A request that must renew the token can: the exchange's tokens are installed
      in memory and cache, and the request transmits them. */
  lemma GetsRenewed(s: State, run: seq<Event>, t: TaskId, reply: TokenReply, now: int) returns (longer: seq<Event>)
    requires ValidRun(s, run) && MustRenew(Last(s, run), t, now) && GoodReply(reply)
    ensures ValidRun(s, longer)
    ensures var mid, end, renewed := Last(s, run), Last(s, longer), Renewal(Last(s, run).client.session, reply, now);
      && end.client.session == renewed && end.lock.None?
      && end.client.files == mid.client.files[renewed.path.value := Readable(renewed.token)]
      && t in end.tasks && end.tasks[t].phase == Sending(renewed) && end.tasks[t].sent == mid.tasks[t].sent + [renewed]
  {
    longer := ReachesExchange(s, run, t, now);
    longer := FinishesExchange(s, longer, t, reply, now);
  }

  /** A new request in an expired session renews it and gets through. */
  lemma ExpiredSessionIsRenewed(s: State, t: TaskId, reply: TokenReply, now: int) returns (run: seq<Event>)
    requires t !in s.tasks && s.lock.None? && GoodReply(reply)
    requires InSession(s.client.session, None) && CanExchange(s.client.session) && !FreshAt(s.client.session.token, now)
    ensures ValidRun(s, run)
    ensures var end, renewed := Last(s, run), Renewal(s.client.session, reply, now);
      && end.client.session == renewed
      && renewed.path.value in end.client.files && end.client.files[renewed.path.value] == Readable(renewed.token)
      && t in end.tasks && end.tasks[t].phase == Sending(renewed) && end.tasks[t].sent == [renewed]
  {
    run := ThenStep(s, [], Spawn(t));
    FirstReadOutcome(Last(s, run), t, now);
    run := ThenStep(s, run, ReadFirst(t, now));
    run := GetsRenewed(s, run, t, reply, now);
  }

  /** After a rejection: when the session has meanwhile been given a fresh token,
      the request transmits that one at its next read. */
  lemma ReplayTakesRenewedToken(s: State, t: TaskId, now: int)
    requires t in s.tasks && s.tasks[t].phase.Sending? && s.tasks[t].rejected.None?
    requires Usable(s.client.session, Some(s.tasks[t].phase.carried), now)
    ensures Enabled(s, Respond(t, Unauthorized(true)))
    ensures var rejected := Next(s, Respond(t, Unauthorized(true)));
      && Enabled(rejected, ReadFirst(t, now))
      && var r := Next(rejected, ReadFirst(t, now)).tasks[t];
         r.sent == s.tasks[t].sent + [s.client.session] && r.phase == Sending(s.client.session)
  {
    FirstReadOutcome(Next(s, Respond(t, Unauthorized(true))), t, now);
  }

  /** When the session still holds the rejected token, the request renews it and
      transmits again: what it has sent is the rejected token and then the new one. */
  lemma ReplayRenews(s: State, t: TaskId, reply: TokenReply, now: int) returns (run: seq<Event>)
    requires Inv(s) && t in s.tasks && s.tasks[t].phase.Sending? && s.tasks[t].rejected.None? && s.lock.None?
    requires InSession(s.client.session, Some(s.tasks[t].phase.carried)) && CanExchange(s.client.session)
    requires s.tasks[t].phase.carried.token.accessToken == s.client.session.token.accessToken && GoodReply(reply)
    ensures ValidRun(s, run) && run != [] && run[0] == Respond(t, Unauthorized(true))
    ensures var end, renewed := Last(s, run), Renewal(s.client.session, reply, now);
      && end.client.session == renewed
      && renewed.path.value in end.client.files && end.client.files[renewed.path.value] == Readable(renewed.token)
      && t in end.tasks && end.tasks[t].phase == Sending(renewed)
      && end.tasks[t].sent == [s.tasks[t].phase.carried, renewed]
  {
    assert SendOk(s.tasks[t]);
    var answer := Respond(t, Unauthorized(true));
    var rejected := Next(s, answer);
    FirstReadOutcome(rejected, t, now);
    var rest := ThenStep(rejected, [], ReadFirst(t, now));
    rest := GetsRenewed(rejected, rest, t, reply, now);
    run := [answer] + rest;
    assert run[1..] == rest;
  }

  /** In all other cases the answer ends the request: it is not a rejection, or the
      request cannot be sent again, or it has been. */
  lemma AnswerEnds(s: State, t: TaskId, answer: Answer)
    requires Enabled(s, Respond(t, answer))
    ensures var r := Next(s, Respond(t, answer)).tasks[t];
      && r.sent == s.tasks[t].sent
      && (r.phase.Done? <==> answer != Unauthorized(true) || s.tasks[t].rejected.Some?)
      && (!r.phase.Done? ==> r.phase.FirstRead? && r.rejected == Some(s.tasks[t].phase.carried))
  {
  }

  /** A deadline or an abort ends a request wherever it waits: it transmits nothing
      more, changes nothing, and frees the mutex if it held it. */
  lemma CancelEnds(s: State, t: TaskId)
    requires Inv(s) && t in s.tasks
    requires s.tasks[t].phase.LockWait? || s.tasks[t].phase.Exchanging? || s.tasks[t].phase.Sending?
    ensures Enabled(s, Cancel(t))
    ensures var end := Next(s, Cancel(t));
      && end.client == s.client && end.history == s.history
      && end.tasks == s.tasks[t := s.tasks[t].(phase := Done)]
      && end.lock == (if s.tasks[t].phase.Exchanging? then None else s.lock)
  {
  }

  predicate CannotInstall(s: State, t: TaskId, written: bool)
    requires t in s.tasks
  {
    var p := s.tasks[t].phase;
    p.Answered? && (!written || p.snapshot.generation != s.client.session.generation)
  }

  /** So does an exchange that fails, and one whose outcome cannot be stored or comes
      too late for the session. */
  lemma FailedExchangeEnds(s: State, t: TaskId, written: bool)
    requires Inv(s) && t in s.tasks
    ensures s.tasks[t].phase.Exchanging? ==>
      && Enabled(s, ExchangeFails(t))
      && var end := Next(s, ExchangeFails(t));
         end.client == s.client && end.lock.None? && end.tasks == s.tasks[t := s.tasks[t].(phase := Done)]
    ensures CannotInstall(s, t, written) ==>
      && Enabled(s, EndRefresh(t, written))
      && var end := Next(s, EndRefresh(t, written));
         end.client == s.client && end.lock.None? && end.tasks == s.tasks[t := s.tasks[t].(phase := Done)]
  {
    assert HolderStable(s.client.session, s.tasks[t].phase);
  }

  /** How sessions begin. */
  lemma SessionsBeginAsGiven(s: State, token: StoredToken, path: Path, access: string)
    ensures var saved, failed := Next(s, SaveSession(token, path, true)), Next(s, SaveSession(token, path, false));
      && saved.client.session.token == token && saved.client.session.path == Some(path)
      && saved.client.files == s.client.files[path := Readable(token)] && failed.client == s.client
    ensures var bare := Next(s, SetToken(access));
      && bare.client.session.token == StoredToken(access, None, None) && bare.client.session.path.None?
      && bare.client.files == s.client.files
    ensures Enabled(s, RestoreSession(token, path)) ==>
      var restored := Next(s, RestoreSession(token, path));
      && restored.client.session.token == token && restored.client.session.path == Some(path)
      && restored.client.files == s.client.files
  {
  }
}
