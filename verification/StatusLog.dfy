/** The status table against the log of everything reported to it. */
module StatusLog {
  import opened Common
  import Status

  type FolderId = Status.FolderId

  datatype Event =
    | Start(id: FolderId, generation: nat)
    | Stop(id: FolderId)
    | Active(id: FolderId, generation: nat)
    | Clear(id: FolderId, generation: nat, work: string)
    | Finish(id: FolderId, generation: nat, work: string, error: Option<string>)
    | Drop(id: FolderId, generation: nat, panicking: bool)

  function Step(t: Status.Tracker, e: Event): Status.Tracker {
    match e
    case Start(id, g) => Status.Started(t, id, g)
    case Stop(id) => Status.Stopped(t, id)
    case Active(id, g) => Status.Activated(t, id, g)
    case Clear(id, g, work) => Status.Cleared(t, id, g, work)
    case Finish(id, g, work, error) => Status.Finished(t, id, g, work, error)
    case Drop(id, g, panicking) => Status.Dropped(t, id, g, panicking)
  }

  function Replay(log: seq<Event>): Status.Tracker {
    if log == [] then Status.EMPTY else Step(Replay(log[..|log| - 1]), log[|log| - 1])
  }

  lemma ReplaySnoc(log: seq<Event>, e: Event)
    ensures Replay(log + [e]) == Step(Replay(log), e)
  {
    assert (log + [e])[..|log|] == log;
  }

  /** A call made by the run of `id` with this generation. */
  predicate ByRun(e: Event, id: FolderId, g: nat) {
    !e.Start? && !e.Stop? && e.id == id && e.generation == g
  }

  predicate Lifecycle(e: Event, id: FolderId) {
    (e.Start? || e.Stop?) && e.id == id
  }

  /** Generations are not reused. */
  predicate UniqueStarts(log: seq<Event>) {
    forall i, j :: 0 <= i < j < |log| && log[i].Start? && log[j].Start? ==> log[i].generation != log[j].generation
  }

  predicate StartedBefore(log: seq<Event>, j: nat, id: FolderId, g: nat)
    requires j <= |log|
  {
    exists i :: 0 <= i < j && log[i] == Start(id, g)
  }

  /** A run reports only after it was started. */
  predicate ReportsAfterStart(log: seq<Event>) {
    forall j :: 0 <= j < |log| && !log[j].Start? && !log[j].Stop? ==>
      StartedBefore(log, j, log[j].id, log[j].generation)
  }

  /** A run never reports after it was dropped. */
  predicate SilentAfterDrop(log: seq<Event>) {
    forall i, j :: 0 <= i < j < |log| && log[i].Drop? ==> !ByRun(log[j], log[i].id, log[i].generation)
  }

  predicate WellFormed(log: seq<Event>) {
    UniqueStarts(log) && ReportsAfterStart(log) && SilentAfterDrop(log)
  }

  /** The run started at `s` is the folder's current one. */
  predicate CurrentRun(log: seq<Event>, id: FolderId, s: nat) {
    s < |log| && log[s].Start? && log[s].id == id && forall j :: s < j < |log| ==> !Lifecycle(log[j], id)
  }

  predicate Absent(log: seq<Event>, id: FolderId) {
    (forall j :: 0 <= j < |log| ==> !Lifecycle(log[j], id))
    || exists s :: 0 <= s < |log| && log[s] == Stop(id) && forall j :: s < j < |log| ==> !Lifecycle(log[j], id)
  }

  /** The event says how work item `work` of the run stands. */
  predicate Reports(e: Event, id: FolderId, g: nat, work: string) {
    ByRun(e, id, g)
    && ((e.Clear? && e.work == work) || (e.Finish? && e.work == work)
        || (e.Drop? && e.panicking && work == Status.PANIC_WORK))
  }

  function ReportedError(e: Event): Option<string> {
    if e.Finish? then e.error else if e.Drop? then Some(Status.PANIC_MESSAGE) else None
  }

  predicate LastReport(log: seq<Event>, id: FolderId, g: nat, work: string, i: nat) {
    i < |log| && Reports(log[i], id, g, work) && forall j :: i < j < |log| ==> !Reports(log[j], id, g, work)
  }

  predicate Begins(e: Event, id: FolderId, g: nat) {
    e == Start(id, g) || e == Active(id, g)
  }

  predicate Ends(e: Event, id: FolderId, g: nat) {
    ByRun(e, id, g) && (e.Finish? || e.Drop?)
  }

  function Outstanding(errors: map<string, string>, work: string): Option<string> {
    if work in errors then Some(errors[work]) else None
  }

  lemma WellFormedPrefix(log: seq<Event>, n: nat)
    requires WellFormed(log) && n <= |log|
    ensures WellFormed(log[..n])
  {
    forall j | 0 <= j < n && !log[..n][j].Start? && !log[..n][j].Stop?
      ensures StartedBefore(log[..n], j, log[..n][j].id, log[..n][j].generation)
    {
      assert StartedBefore(log, j, log[j].id, log[j].generation);
      var i :| 0 <= i < j && log[i] == Start(log[j].id, log[j].generation);
      assert log[..n][i] == log[i];
    }
  }

  /** Two starts with one generation are the same start. */
  lemma StartIsUnique(log: seq<Event>, i: nat, j: nat)
    requires WellFormed(log) && i < |log| && j < |log| && log[i].Start? && log[j].Start?
    requires log[i].generation == log[j].generation
    ensures i == j
  {
  }

  /** What one event makes of the entry of a run that it does not end. */
  lemma StepOnRun(t: Status.Tracker, e: Event, id: FolderId, g: nat, work: string)
    requires Status.Owns(t, id, g) && !Lifecycle(e, id)
    ensures var t' := Step(t, e);
      && Status.Owns(t', id, g)
      && Outstanding(t'.folders[id].errors, work) ==
         (if Reports(e, id, g, work) then ReportedError(e) else Outstanding(t.folders[id].errors, work))
      && t'.folders[id].syncing ==
         (if Begins(e, id, g) then true else if Ends(e, id, g) then false else t.folders[id].syncing)
  {
  }

  lemma CurrentRunPrefix(log: seq<Event>, id: FolderId, s: nat)
    requires CurrentRun(log, id, s) && s < |log| - 1
    ensures CurrentRun(log[..|log| - 1], id, s) && log[..|log| - 1][s] == log[s]
  {
  }

  /** The entry of a folder belongs to the run of its last start. */
  lemma {:induction false} EntryIsCurrentRun(log: seq<Event>, id: FolderId, s: nat)
    requires CurrentRun(log, id, s)
    ensures Status.Owns(Replay(log), id, log[s].generation)
  {
    var n := |log| - 1;
    if s < n {
      CurrentRunPrefix(log, id, s);
      EntryIsCurrentRun(log[..n], id, s);
      StepOnRun(Replay(log[..n]), log[n], id, log[s].generation, "");
    }
  }

  /** A folder never started, or stopped since, has no entry. */
  lemma {:induction false} AbsentHasNoEntry(log: seq<Event>, id: FolderId)
    requires Absent(log, id)
    ensures id !in Replay(log).folders
  {
    if log != [] {
      var n := |log| - 1;
      if log[n] != Stop(id) {
        if s :| 0 <= s < |log| && log[s] == Stop(id) && forall j :: s < j < |log| ==> !Lifecycle(log[j], id) {
          assert s < n && log[..n][s] == Stop(id);
        }
        assert Absent(log[..n], id);
        AbsentHasNoEntry(log[..n], id);
      }
    }
  }

  /** Nothing is reported for a run before its start. */
  lemma NoReportBeforeStart(log: seq<Event>, id: FolderId, s: nat, i: nat)
    requires WellFormed(log) && s < |log| && log[s].Start? && i <= s
    ensures !ByRun(log[i], id, log[s].generation)
  {
    assert ByRun(log[i], id, log[s].generation) ==> StartedBefore(log, i, id, log[s].generation);
  }

  /** Status refines the log: the outstanding error of a work item is what the
      current run reported about it last, whatever else was reported, and there
      is none if it reported nothing. */
  lemma {:induction false} ErrorsAreLastReports(log: seq<Event>, id: FolderId, s: nat, work: string)
    requires WellFormed(log) && CurrentRun(log, id, s)
    ensures Status.Owns(Replay(log), id, log[s].generation)
    ensures forall i: nat :: LastReport(log, id, log[s].generation, work, i) ==>
      Outstanding(Replay(log).folders[id].errors, work) == ReportedError(log[i])
    ensures (forall i: nat :: !LastReport(log, id, log[s].generation, work, i)) ==>
      work !in Replay(log).folders[id].errors
  {
    EntryIsCurrentRun(log, id, s);
    var n := |log| - 1;
    var g := log[s].generation;
    if s == n {
      forall i: nat | i < |log| ensures !Reports(log[i], id, g, work) {
        NoReportBeforeStart(log, id, s, i);
      }
    } else {
      var shorter := log[..n];
      WellFormedPrefix(log, n);
      CurrentRunPrefix(log, id, s);
      ErrorsAreLastReports(shorter, id, s, work);
      StepOnRun(Replay(shorter), log[n], id, g, work);
      if Reports(log[n], id, g, work) {
        assert LastReport(log, id, g, work, n);
        forall i: nat | LastReport(log, id, g, work, i) ensures i == n {
        }
      } else {
        forall i: nat ensures LastReport(log, id, g, work, i) == LastReport(shorter, id, g, work, i) {
          LastReportPrefix(log, id, g, work, i);
        }
      }
    }
  }

  lemma LastReportPrefix(log: seq<Event>, id: FolderId, g: nat, work: string, i: nat)
    requires log != [] && !Reports(log[|log| - 1], id, g, work)
    ensures LastReport(log, id, g, work, i) == LastReport(log[..|log| - 1], id, g, work, i)
  {
    var shorter := log[..|log| - 1];
    assert forall j :: 0 <= j < |shorter| ==> shorter[j] == log[j];
  }

  /** A call or drop of a run that was stopped or superseded changes nothing, not
      even the revision. */
  lemma {:induction false} ObsoleteRunsAreIgnored(
      log: seq<Event>, e: Event, id: FolderId, g: nat, later: nat, start: nat)
    requires WellFormed(log) && ByRun(e, id, g)
    requires start < later < |log| && log[start] == Start(id, g) && Lifecycle(log[later], id)
    ensures Replay(log + [e]) == Replay(log)
  {
    ReplaySnoc(log, e);
    var last := LastLifecycle(log, id, later);
    if log[last].Start? {
      EntryIsCurrentRun(log, id, last);
      StartIsUniqueUnless(log, start, last);
    } else {
      AbsentHasNoEntry(log, id);
    }
  }

  lemma StartIsUniqueUnless(log: seq<Event>, i: nat, j: nat)
    requires WellFormed(log) && i < j < |log| && log[i].Start? && log[j].Start?
    ensures log[i].generation != log[j].generation
  {
  }

  lemma {:induction false} LastLifecycle(log: seq<Event>, id: FolderId, from: nat) returns (last: nat)
    requires from < |log| && Lifecycle(log[from], id)
    ensures from <= last < |log| && Lifecycle(log[last], id)
    ensures forall j :: last < j < |log| ==> !Lifecycle(log[j], id)
    decreases |log| - from
  {
    last := from;
    if exists j :: from < j < |log| && Lifecycle(log[j], id) {
      var j :| from < j < |log| && Lifecycle(log[j], id);
      last := LastLifecycle(log, id, j);
    }
  }

  /** The run began something at `i` and has neither finished nor been dropped since. */
  predicate Busy(log: seq<Event>, id: FolderId, g: nat, i: nat) {
    i < |log| && Begins(log[i], id, g) && forall j :: i < j < |log| ==> !Ends(log[j], id, g)
  }

  /** A folder shows activity exactly when its current run is busy. */
  lemma {:induction false} SyncingIffBusy(log: seq<Event>, id: FolderId, s: nat)
    requires CurrentRun(log, id, s)
    ensures Status.Owns(Replay(log), id, log[s].generation)
    ensures Replay(log).folders[id].syncing <==> exists i: nat :: s <= i && Busy(log, id, log[s].generation, i)
  {
    EntryIsCurrentRun(log, id, s);
    var n := |log| - 1;
    var g := log[s].generation;
    if s == n {
      assert Busy(log, id, g, s);
    } else {
      var shorter := log[..n];
      CurrentRunPrefix(log, id, s);
      SyncingIffBusy(shorter, id, s);
      StepOnRun(Replay(shorter), log[n], id, g, "");
      assert forall j :: 0 <= j < n ==> shorter[j] == log[j];
      if Begins(log[n], id, g) {
        assert Busy(log, id, g, n);
      } else if !Ends(log[n], id, g) {
        forall i: nat ensures Busy(log, id, g, i) == Busy(shorter, id, g, i) {
        }
      }
    }
  }

  predicate NotDropped(log: seq<Event>, id: FolderId, g: nat) {
    forall j: nat :: j < |log| && log[j].Drop? ==> !ByRun(log[j], id, g)
  }

  /** No stuck activity: a folder shown as syncing has a worker of its current
      run that has not been dropped. */
  lemma SyncingHasLiveRun(log: seq<Event>, id: FolderId)
    requires WellFormed(log) && id in Replay(log).folders && Replay(log).folders[id].syncing
    ensures exists s: nat :: CurrentRun(log, id, s) && NotDropped(log, id, log[s].generation)
  {
    var s := CurrentStart(log, id);
    var g := log[s].generation;
    SyncingIffBusy(log, id, s);
    var i: nat :| s <= i && Busy(log, id, g, i);
    forall j: nat | j < |log| && log[j].Drop? ensures !ByRun(log[j], id, g) {
      if j <= s {
        NoReportBeforeStart(log, id, s, j);
      } else if j < i {
        assert log[i] == Active(id, g);
        assert !ByRun(log[i], log[j].id, log[j].generation);
      } else {
        assert j == i || !Ends(log[j], id, g);
      }
    }
  }

  lemma CurrentStart(log: seq<Event>, id: FolderId) returns (s: nat)
    requires id in Replay(log).folders
    ensures CurrentRun(log, id, s)
  {
    if Absent(log, id) {
      AbsentHasNoEntry(log, id);
    }
    var from :| 0 <= from < |log| && Lifecycle(log[from], id);
    s := LastLifecycle(log, id, from);
  }

  /** Revisions never decrease, and an unchanged revision means an unchanged table;
      except for a start, an unchanged table is no new revision either. */
  lemma RevisionIdentifies(t: Status.Tracker, e: Event)
    ensures Step(t, e).revision >= t.revision
    ensures Step(t, e).revision == t.revision ==> Step(t, e) == t
    ensures Step(t, e).folders == t.folders && !e.Start? ==> Step(t, e).revision == t.revision
  {
  }
}
