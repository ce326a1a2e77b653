/** Status snapshots on their way from the daemon to the display. */
module StatusDelivery {
  import opened Common
  import Status
  import StatusLog

  /** What the display shows; a new session starts without a revision. */
  datatype Shown = Starting | Unavailable | Showing(snapshot: Status.Tracker)

  /** Whether a received snapshot is passed on. */
  predicate Accepts(last: Option<nat>, snapshot: Status.Tracker) {
    last.None? || snapshot.revision > last.value
  }

  /** The loop of one session keeps the revision it passed on last. */
  class StatusSession {
    var revision: Option<nat>

    constructor ()
      ensures revision == None
    {
      revision := None;
    }

    method Receive(snapshot: Status.Tracker) returns (notify: bool)
      modifies this
      ensures notify <==> Accepts(old(revision), snapshot)
      ensures revision == if notify then Some(snapshot.revision) else old(revision)
    {
      notify := revision.None? || snapshot.revision > revision.value;
      if notify {
        revision := Some(snapshot.revision);
      }
    }
  }

  /** `instance` numbers the daemon's lifetimes; a session is bound to one. A
      read is answered first and received later. */
  datatype State = State(
    instance: nat,
    tracker: Status.Tracker,
    session: Option<nat>,
    revision: Option<nat>,
    answer: Option<Status.Tracker>,
    shown: Shown)

  datatype Event =
    | Report(e: StatusLog.Event)
    | Restart
    | Connect
    | Answer
    | Receive
    | Lose

  predicate Enabled(s: State, e: Event) {
    match e
    case Connect => s.session.None?
    case Answer => s.session == Some(s.instance) && s.answer.None?
    case Receive => s.session.Some? && s.answer.Some?
    case Lose => true
    case _ => true
  }

  function Next(s: State, e: Event): State
    requires Enabled(s, e)
  {
    match e
    case Report(r) => s.(tracker := StatusLog.Step(s.tracker, r))
    case Restart => s.(instance := s.instance + 1, tracker := Status.EMPTY)
    case Connect => s.(session := Some(s.instance), revision := None, answer := None)
    case Answer => s.(answer := Some(s.tracker))
    case Receive =>
      var snapshot := s.answer.value;
      if Accepts(s.revision, snapshot) then
        s.(answer := None, revision := Some(snapshot.revision), shown := Showing(snapshot))
      else s.(answer := None)
    case Lose => s.(session := None, revision := None, answer := None, shown := Unavailable)
  }

  const START := State(0, Status.EMPTY, None, None, None, Starting)

  predicate ValidRun(s: State, run: seq<Event>)
    decreases |run|
  {
    run == [] || (Enabled(s, run[0]) && ValidRun(Next(s, run[0]), run[1..]))
  }

  function Last(s: State, run: seq<Event>): State
    requires ValidRun(s, run)
    decreases |run|
  {
    if run == [] then s else Last(Next(s, run[0]), run[1..])
  }

  /** `older` was the table at or before the time it was `newer`. */
  predicate NotAfter(older: Status.Tracker, newer: Status.Tracker) {
    older.revision <= newer.revision && (older.revision == newer.revision ==> older == newer)
  }

  predicate Inv(s: State) {
    && (s.session.None? ==> s.revision.None? && s.answer.None?)
    && (s.session.Some? ==> s.session.value <= s.instance)
    && (s.revision.Some? ==> s.shown.Showing? && s.shown.snapshot.revision == s.revision.value)
    && (s.revision.Some? && s.answer.Some? ==> NotAfter(s.shown.snapshot, s.answer.value))
    && (s.session == Some(s.instance) && s.revision.Some? ==> NotAfter(s.shown.snapshot, s.tracker))
    && (s.session == Some(s.instance) && s.answer.Some? ==> NotAfter(s.answer.value, s.tracker))
  }

  lemma InvNext(s: State, e: Event)
    requires Inv(s) && Enabled(s, e)
    ensures Inv(Next(s, e))
  {
    if e.Report? {
      StatusLog.RevisionIdentifies(s.tracker, e.e);
    }
  }

  lemma {:induction false} InvRun(s: State, run: seq<Event>)
    requires Inv(s) && ValidRun(s, run)
    ensures Inv(Last(s, run))
    decreases |run|
  {
    if run != [] {
      InvNext(s, run[0]);
      InvRun(Next(s, run[0]), run[1..]);
    }
  }

  /** Delivery is exact: after every answer received the display shows just that
      answer, whether it was passed on or skipped, across lost signals, polls,
      reconnects and daemon restarts. */
  lemma ShownIsLastAnswer(run: seq<Event>)
    requires ValidRun(START, run) && Enabled(Last(START, run), Receive)
    ensures Next(Last(START, run), Receive).shown == Showing(Last(START, run).answer.value)
  {
    InvRun(START, run);
  }

  /** While nothing new happens, another round trip leaves the display showing
      the daemon's present state. */
  lemma RoundTripShowsPresent(run: seq<Event>)
    requires ValidRun(START, run) && Enabled(Last(START, run), Answer)
    ensures var asked := Next(Last(START, run), Answer);
      Next(asked, Receive).shown == Showing(Last(START, run).tracker)
  {
    InvRun(START, run);
    InvNext(Last(START, run), Answer);
  }

  /** Everything reported since the daemon started last. */
  function ReportsSinceStart(run: seq<Event>): seq<StatusLog.Event> {
    if run == [] then []
    else
      var before := ReportsSinceStart(run[..|run| - 1]);
      match run[|run| - 1]
      case Report(e) => before + [e]
      case Restart => []
      case _ => before
  }

  lemma {:induction false} LastSnoc(s: State, run: seq<Event>)
    requires run != [] && ValidRun(s, run)
    ensures ValidRun(s, run[..|run| - 1]) && Enabled(Last(s, run[..|run| - 1]), run[|run| - 1])
    ensures Last(s, run) == Next(Last(s, run[..|run| - 1]), run[|run| - 1])
    decreases |run|
  {
    if |run| > 1 {
      assert run[1..][..|run| - 2] == run[..|run| - 1][1..];
      LastSnoc(Next(s, run[0]), run[1..]);
    }
  }

  /** The table that is read is what the reports since the last start make of it. */
  lemma {:induction false} TableIsReplay(run: seq<Event>)
    requires ValidRun(START, run)
    ensures Last(START, run).tracker == StatusLog.Replay(ReportsSinceStart(run))
    decreases |run|
  {
    if run != [] {
      LastSnoc(START, run);
      TableIsReplay(run[..|run| - 1]);
      var before := ReportsSinceStart(run[..|run| - 1]);
      if run[|run| - 1].Report? {
        StatusLog.ReplaySnoc(before, run[|run| - 1].e);
      }
    }
  }

  /** A lost session is shown as unavailable, until an answer arrives again. */
  lemma LossIsShown(s: State)
    ensures Enabled(s, Lose) && Next(s, Lose).shown == Unavailable && Next(s, Lose).session.None?
    ensures Next(s, Lose).tracker == s.tracker
  {
  }

  /** A display without a session can connect and then shows the present state,
      whatever it showed before. */
  lemma ConnectingShowsPresent(run: seq<Event>)
    requires ValidRun(START, run) && Last(START, run).session.None?
    ensures var s := Last(START, run);
      && Enabled(s, Connect) && Enabled(Next(s, Connect), Answer)
      && Enabled(Next(Next(s, Connect), Answer), Receive)
      && Next(Next(Next(s, Connect), Answer), Receive).shown == Showing(s.tracker)
  {
  }

  /** And while it has one with the living daemon, it can always read or receive. */
  lemma ConnectedCanRead(s: State)
    requires s.session == Some(s.instance)
    ensures Enabled(s, Answer) || Enabled(s, Receive)
  {
  }

  /** Within a session delivered revisions only grow. */
  lemma {:induction false} RevisionsGrow(s: State, run: seq<Event>)
    requires ValidRun(s, run) && s.revision.Some?
    requires forall i :: 0 <= i < |run| ==> !run[i].Connect? && !run[i].Lose?
    ensures Last(s, run).revision.Some? && Last(s, run).revision.value >= s.revision.value
    ensures Last(s, run).revision == s.revision ==> Last(s, run).shown == s.shown
    decreases |run|
  {
    if run != [] {
      RevisionsGrow(Next(s, run[0]), run[1..]);
    }
  }
}
