/** Configuration, task table and status table over whole runs of the daemon. */
module Alignment {
  import opened SignInGate
  import opened Engine
  import opened Service
  import Status
  import StatusLog

  type Log = seq<StatusLog.Event>

  /** The daemon together with everything ever reported to its status table. */
  datatype System = System(service: ServiceView, log: Log)

  datatype Event =
    | Boot
    | Add(folder: SyncFolder, saved: bool)
    | Remove(id: FolderId, saved: bool)
    | Enable(id: FolderId, enabled: bool, saved: bool)
    | Complete(generation: nat, saved: bool)
    | SignOut
    | MoveGate(gate: Gate)
    | Report(e: StatusLog.Event)

  /** A worker that was started and not dropped makes the call. */
  predicate FromLiveRun(log: Log, e: StatusLog.Event) {
    && !e.Start? && !e.Stop?
    && StatusLog.StartedBefore(log, |log|, e.id, e.generation)
    && (forall i :: 0 <= i < |log| && log[i].Drop? ==> !StatusLog.ByRun(e, log[i].id, log[i].generation))
  }

  predicate Enabled(s: System, e: Event) {
    match e
    case Boot => s.log == []
    case Report(r) => FromLiveRun(s.log, r)
    case Add(folder, _) => !Configured(s.service.config, folder.id)
    case _ => true
  }

  function StartLog(e: EngineState, folders: seq<SyncFolder>): Log {
    if folders == [] then []
    else
      var init := folders[..|folders| - 1];
      var folder := folders[|folders| - 1];
      StartLog(e, init) + if folder.enabled then [StatusLog.Start(folder.id, AllStarted(e, init).generation)] else []
  }

  function StopLog(folders: seq<SyncFolder>): Log {
    if folders == [] then [] else StopLog(folders[..|folders| - 1]) + [StatusLog.Stop(folders[|folders| - 1].id)]
  }

  function Next(s: System, e: Event): System
    requires Enabled(s, e)
  {
    var v := s.service;
    match e
    case Boot => System(v.(engine := AllStarted(v.engine, v.config)), s.log + StartLog(v.engine, v.config))
    case Add(folder, saved) =>
      System(AddFolder(v, folder, saved),
             if saved && folder.enabled then s.log + [StatusLog.Start(folder.id, v.engine.generation)] else s.log)
    case Remove(id, saved) =>
      System(RemoveFolder(v, id, saved), if saved then s.log + [StatusLog.Stop(id)] else s.log)
    case Enable(id, enabled, saved) =>
      System(SetEnabled(v, id, enabled, saved),
             if !saved || !Configured(v.config, id) then s.log
             else s.log + [if enabled then StatusLog.Start(id, v.engine.generation) else StatusLog.Stop(id)])
    case Complete(generation, saved) =>
      System(SignInCompleted(v, generation, saved),
             if v.gate.generation == generation && saved then s.log + StartLog(v.engine, v.config) else s.log)
    case SignOut => System(SignedOut(v), s.log + StopLog(v.config))
    case MoveGate(gate) => s.(service := v.(gate := gate))
    case Report(r) =>
      System(v.(engine := v.engine.(tracker := StatusLog.Step(v.engine.tracker, r))), s.log + [r])
  }

  predicate ValidRun(s: System, run: seq<Event>)
    decreases |run|
  {
    run == [] || (Enabled(s, run[0]) && ValidRun(Next(s, run[0]), run[1..]))
  }

  function Last(s: System, run: seq<Event>): System
    requires ValidRun(s, run)
    decreases |run|
  {
    if run == [] then s else Last(Next(s, run[0]), run[1..])
  }

  predicate Initial(s: System) {
    s.log == [] && s.service.stored == s.service.config && s.service.engine == EngineState(map[], {}, 0, Status.EMPTY)
    && UniqueIds(s.service.config)
  }

  // ---------------------------------------------------------- invariants

  predicate UniqueIds(config: seq<SyncFolder>) {
    forall i, j :: 0 <= i < j < |config| ==> config[i].id != config[j].id
  }

  function EnabledIds(config: seq<SyncFolder>): set<FolderId> {
    set i | 0 <= i < |config| && config[i].enabled :: config[i].id
  }

  /** The status table is what the log makes of it, and the engine never reuses
      a generation. */
  ghost predicate Logged(e: EngineState, log: Log) {
    && e.tracker == StatusLog.Replay(log) && StatusLog.WellFormed(log)
    && forall i :: 0 <= i < |log| && log[i].Start? ==> log[i].generation < e.generation
  }

  /** Every folder with a task has a status entry of just that task. */
  predicate InStep(e: EngineState) {
    && e.tasks.Keys == e.tracker.folders.Keys
    && forall id :: id in e.tasks ==> e.tracker.folders[id].generation == e.tasks[id]
  }

  predicate InTable(tasks: map<FolderId, nat>, g: nat) {
    exists id :: id in tasks && tasks[id] == g
  }

  /** Of all tasks ever started, those in the table are the ones not aborted. */
  ghost predicate OnlyTableRuns(e: EngineState) {
    && (forall id :: id in e.tasks ==> e.tasks[id] < e.generation && e.tasks[id] !in e.aborted)
    && (forall id, other :: id in e.tasks && other in e.tasks && e.tasks[id] == e.tasks[other] ==> id == other)
    && (forall g: nat :: g < e.generation ==> g in e.aborted || InTable(e.tasks, g))
    && (forall g :: g in e.aborted ==> g < e.generation)
  }

  ghost predicate EngineOk(e: EngineState, log: Log) {
    Logged(e, log) && InStep(e) && OnlyTableRuns(e)
  }

  ghost predicate Inv(s: System) {
    && EngineOk(s.service.engine, s.log)
    && s.service.engine.tasks.Keys <= EnabledIds(s.service.config)
    && s.service.stored == s.service.config
    && UniqueIds(s.service.config)
  }

  lemma {:induction false} ReportsAfterStartSnoc(log: Log, e: StatusLog.Event)
    requires StatusLog.ReportsAfterStart(log) && (!e.Start? && !e.Stop? ==> FromLiveRun(log, e))
    ensures StatusLog.ReportsAfterStart(log + [e])
  {
    var longer := log + [e];
    forall j | 0 <= j < |longer| && !longer[j].Start? && !longer[j].Stop?
      ensures StatusLog.StartedBefore(longer, j, longer[j].id, longer[j].generation)
    {
      if j < |log| {
        assert StatusLog.StartedBefore(log, j, log[j].id, log[j].generation);
      }
      var i :| 0 <= i < j && log[i] == StatusLog.Start(longer[j].id, longer[j].generation);
      assert longer[i] == log[i];
    }
  }

  lemma {:induction false} LoggedSnoc(log: Log, e: StatusLog.Event)
    requires StatusLog.WellFormed(log)
    requires e.Start? ==> forall i :: 0 <= i < |log| && log[i].Start? ==> log[i].generation != e.generation
    requires !e.Start? && !e.Stop? ==> FromLiveRun(log, e)
    ensures StatusLog.WellFormed(log + [e])
    ensures StatusLog.Replay(log + [e]) == StatusLog.Step(StatusLog.Replay(log), e)
  {
    ReportsAfterStartSnoc(log, e);
    UniqueStartsSnoc(log, e);
    SilentAfterDropSnoc(log, e);
    StatusLog.ReplaySnoc(log, e);
  }

  lemma {:induction false} UniqueStartsSnoc(log: Log, e: StatusLog.Event)
    requires StatusLog.UniqueStarts(log)
    requires e.Start? ==> forall i :: 0 <= i < |log| && log[i].Start? ==> log[i].generation != e.generation
    ensures StatusLog.UniqueStarts(log + [e])
  {
  }

  lemma {:induction false} SilentAfterDropSnoc(log: Log, e: StatusLog.Event)
    requires StatusLog.SilentAfterDrop(log) && (!e.Start? && !e.Stop? ==> FromLiveRun(log, e))
    ensures StatusLog.SilentAfterDrop(log + [e])
  {
  }

  lemma StartKeepsTableRuns(e: EngineState, id: FolderId)
    requires OnlyTableRuns(e)
    ensures OnlyTableRuns(FolderStarted(e, id))
  {
    var e' := FolderStarted(e, id);
    forall x | x in e'.tasks ensures e'.tasks[x] < e'.generation && e'.tasks[x] !in e'.aborted {
      assert x in e.tasks || x == id;
    }
    forall g: nat | g < e'.generation && g !in e'.aborted ensures InTable(e'.tasks, g) {
      if g == e.generation {
        assert e'.tasks[id] == g;
      } else {
        assert InTable(e.tasks, g);
        var x :| x in e.tasks && e.tasks[x] == g;
        assert e'.tasks[x] == g;
      }
    }
  }

  lemma StopKeepsTableRuns(e: EngineState, id: FolderId)
    requires OnlyTableRuns(e)
    ensures OnlyTableRuns(FolderStopped(e, id))
  {
    var e' := FolderStopped(e, id);
    forall g: nat | g < e'.generation && g !in e'.aborted ensures InTable(e'.tasks, g) {
      assert InTable(e.tasks, g);
      var x :| x in e.tasks && e.tasks[x] == g;
      assert x in e'.tasks;
    }
  }

  lemma StartOk(e: EngineState, log: Log, id: FolderId)
    requires EngineOk(e, log)
    ensures EngineOk(FolderStarted(e, id), log + [StatusLog.Start(id, e.generation)])
  {
    StartLogged(e, log, id);
    StartInStep(e, id);
    StartKeepsTableRuns(e, id);
  }

  lemma StartInStep(e: EngineState, id: FolderId)
    requires InStep(e)
    ensures InStep(FolderStarted(e, id))
  {
  }

  lemma StartLogged(e: EngineState, log: Log, id: FolderId)
    requires Logged(e, log)
    ensures Logged(FolderStarted(e, id), log + [StatusLog.Start(id, e.generation)])
  {
    LoggedSnoc(log, StatusLog.Start(id, e.generation));
  }

  lemma StopOk(e: EngineState, log: Log, id: FolderId)
    requires EngineOk(e, log)
    ensures EngineOk(FolderStopped(e, id), log + [StatusLog.Stop(id)])
    ensures FolderStopped(e, id).tasks.Keys == e.tasks.Keys - {id}
  {
    LoggedSnoc(log, StatusLog.Stop(id));
    StopKeepsTableRuns(e, id);
  }

  lemma ReportOk(e: EngineState, log: Log, r: StatusLog.Event)
    requires EngineOk(e, log) && FromLiveRun(log, r)
    ensures EngineOk(e.(tracker := StatusLog.Step(e.tracker, r)), log + [r])
  {
    var e' := e.(tracker := StatusLog.Step(e.tracker, r));
    LoggedSnoc(log, r);
    ReportKeepsEntries(e.tracker, r);
    assert InStep(e');
    assert OnlyTableRuns(e');
  }

  lemma ReportKeepsEntries(t: Status.Tracker, r: StatusLog.Event)
    requires !r.Start? && !r.Stop?
    ensures var t' := StatusLog.Step(t, r);
      && t'.folders.Keys == t.folders.Keys
      && forall id :: id in t.folders ==> t'.folders[id].generation == t.folders[id].generation
  {
  }

  lemma {:induction false} StartAllOk(e: EngineState, log: Log, folders: seq<SyncFolder>)
    requires EngineOk(e, log)
    ensures EngineOk(AllStarted(e, folders), log + StartLog(e, folders))
  {
    if folders == [] {
      assert log + StartLog(e, folders) == log;
    } else {
      var init := folders[..|folders| - 1];
      var folder := folders[|folders| - 1];
      var before := AllStarted(e, init);
      var logged := log + StartLog(e, init);
      StartAllOk(e, log, init);
      if folder.enabled {
        StartOk(before, logged, folder.id);
        assert log + StartLog(e, folders) == logged + [StatusLog.Start(folder.id, before.generation)];
      } else {
        assert StartLog(e, folders) == StartLog(e, init);
      }
    }
  }

  lemma {:induction false} StartAllKeys(e: EngineState, folders: seq<SyncFolder>)
    ensures AllStarted(e, folders).tasks.Keys == e.tasks.Keys + EnabledIds(folders)
  {
    if folders != [] {
      var init := folders[..|folders| - 1];
      StartAllKeys(e, init);
      assert folders == init + [folders[|folders| - 1]];
      EnabledIdsSnoc(init, folders[|folders| - 1]);
    }
  }

  lemma EnabledIdsSnoc(init: seq<SyncFolder>, folder: SyncFolder)
    ensures EnabledIds(init + [folder]) == EnabledIds(init) + if folder.enabled then {folder.id} else {}
  {
    var all := init + [folder];
    forall id | id in EnabledIds(init) ensures id in EnabledIds(all) {
      var i :| 0 <= i < |init| && init[i].enabled && init[i].id == id;
      assert all[i] == init[i];
    }
    assert all[|init|] == folder;
  }

  lemma {:induction false} StopAllOk(e: EngineState, log: Log, folders: seq<SyncFolder>)
    requires EngineOk(e, log)
    ensures EngineOk(AllStopped(e, folders), log + StopLog(folders))
  {
    if folders == [] {
      assert log + StopLog(folders) == log;
    } else {
      var init := folders[..|folders| - 1];
      var id := folders[|folders| - 1].id;
      StopAllOk(e, log, init);
      StopOk(AllStopped(e, init), log + StopLog(init), id);
      assert log + StopLog(folders) == log + StopLog(init) + [StatusLog.Stop(id)];
    }
  }

  lemma {:induction false} StopAllKeys(e: EngineState, folders: seq<SyncFolder>)
    ensures AllStopped(e, folders).tasks.Keys == e.tasks.Keys - (set f | f in folders :: f.id)
  {
    if folders != [] {
      var init := folders[..|folders| - 1];
      StopAllKeys(e, init);
      assert folders == init + [folders[|folders| - 1]];
    }
  }

  lemma {:induction false} WithoutMembers(config: seq<SyncFolder>, id: FolderId)
    ensures forall f :: f in Without(config, id) <==> f in config && f.id != id
  {
    if config != [] {
      WithoutMembers(config[1..], id);
      assert config == [config[0]] + config[1..];
    }
  }

  lemma {:induction false} WithoutIsUnique(config: seq<SyncFolder>, id: FolderId)
    requires UniqueIds(config)
    ensures UniqueIds(Without(config, id))
  {
    if config != [] {
      var rest := Without(config[1..], id);
      WithoutIsUnique(config[1..], id);
      WithoutMembers(config[1..], id);
      forall j | 0 <= j < |rest| ensures rest[j].id != config[0].id {
        assert rest[j] in config[1..];
      }
    }
  }

  lemma EnabledIdsMember(config: seq<SyncFolder>, id: FolderId)
    ensures id in EnabledIds(config) <==> SyncFolder(id, true) in config
  {
    if id in EnabledIds(config) {
      var i :| 0 <= i < |config| && config[i].enabled && config[i].id == id;
      assert config[i] == SyncFolder(id, true);
    }
  }

  lemma WithoutIds(config: seq<SyncFolder>, id: FolderId)
    requires UniqueIds(config)
    ensures UniqueIds(Without(config, id)) && EnabledIds(Without(config, id)) == EnabledIds(config) - {id}
  {
    WithoutIsUnique(config, id);
    WithoutMembers(config, id);
    forall x ensures x in EnabledIds(Without(config, id)) <==> x in EnabledIds(config) - {id} {
      EnabledIdsMember(config, x);
      EnabledIdsMember(Without(config, id), x);
    }
  }

  lemma {:induction false} WithEnabledKeepsIds(config: seq<SyncFolder>, id: FolderId, enabled: bool)
    ensures |WithEnabled(config, id, enabled)| == |config|
    ensures forall i :: 0 <= i < |config| ==> WithEnabled(config, id, enabled)[i].id == config[i].id
  {
    if config != [] && config[0].id != id {
      WithEnabledKeepsIds(config[1..], id, enabled);
    }
  }

  lemma {:induction false} WithEnabledMembers(config: seq<SyncFolder>, id: FolderId, enabled: bool, i: nat)
    requires UniqueIds(config) && i < |config|
    ensures |WithEnabled(config, id, enabled)| == |config|
    ensures WithEnabled(config, id, enabled)[i] == if config[i].id == id then SyncFolder(id, enabled) else config[i]
  {
    WithEnabledKeepsIds(config, id, enabled);
    if config[0].id != id && i > 0 {
      WithEnabledMembers(config[1..], id, enabled, i - 1);
    }
  }

  lemma WithEnabledIds(config: seq<SyncFolder>, id: FolderId, enabled: bool)
    requires UniqueIds(config) && Configured(config, id)
    ensures UniqueIds(WithEnabled(config, id, enabled))
    ensures EnabledIds(WithEnabled(config, id, enabled)) == EnabledIds(config) - {id} + if enabled then {id} else {}
  {
    var changed := WithEnabled(config, id, enabled);
    WithEnabledKeepsIds(config, id, enabled);
    forall i: nat | i < |config|
      ensures changed[i] == if config[i].id == id then SyncFolder(id, enabled) else config[i]
    {
      WithEnabledMembers(config, id, enabled, i);
    }
    forall x | x in EnabledIds(config) - {id} + (if enabled then {id} else {}) ensures x in EnabledIds(changed) {
      var i :| 0 <= i < |config| && config[i].id == x && (config[i].enabled || x == id);
      assert changed[i].id == x && changed[i].enabled;
    }
  }

  lemma InvNext(s: System, e: Event)
    requires Inv(s) && Enabled(s, e)
    ensures Inv(Next(s, e))
  {
    var v := s.service;
    match e
    case Boot =>
      StartAllOk(v.engine, s.log, v.config);
      StartAllKeys(v.engine, v.config);
    case Add(folder, saved) =>
      EnabledIdsSnoc(v.config, folder);
      StartOk(v.engine, s.log, folder.id);
    case Remove(id, saved) =>
      WithoutIds(v.config, id);
      StopOk(v.engine, s.log, id);
    case Enable(id, enabled, saved) =>
      if Configured(v.config, id) {
        WithEnabledIds(v.config, id, enabled);
        StartOk(v.engine, s.log, id);
        StopOk(v.engine, s.log, id);
      }
    case Complete(_, _) =>
      StartAllOk(v.engine, s.log, v.config);
      StartAllKeys(v.engine, v.config);
    case SignOut =>
      StopAllOk(v.engine, s.log, v.config);
      StopAllKeys(v.engine, v.config);
    case MoveGate(_) =>
    case Report(r) => ReportOk(v.engine, s.log, r);
  }

  lemma {:induction false} InvRun(s: System, run: seq<Event>)
    requires Inv(s) && ValidRun(s, run)
    ensures Inv(Last(s, run))
    decreases |run|
  {
    if run != [] {
      InvNext(s, run[0]);
      InvRun(Next(s, run[0]), run[1..]);
    }
  }

  lemma InitialInv(s: System)
    requires Initial(s)
    ensures Inv(s)
  {
  }

  // ------------------------------------------------------------ theorems

  /** Whatever the daemon is asked to do, tasks and status have the same folders,
      each enabled in the live configuration, and the stored one is the live one. */
  lemma TablesStayAligned(s: System, run: seq<Event>)
    requires Initial(s) && ValidRun(s, run)
    ensures var end := Last(s, run).service;
      && end.engine.tasks.Keys == end.engine.tracker.folders.Keys
      && end.engine.tasks.Keys <= EnabledIds(end.config)
      && end.stored == end.config
  {
    InitialInv(s);
    InvRun(s, run);
  }

  /** Sign-out empties both tables. */
  lemma SignOutStopsEverything(s: System, run: seq<Event>)
    requires Initial(s) && ValidRun(s, run)
    ensures var end := Next(Last(s, run), SignOut).service.engine;
      end.tasks == map[] && end.tracker.folders == map[]
  {
    InitialInv(s);
    InvRun(s, run);
    var before := Last(s, run);
    InvNext(before, SignOut);
    StopAllKeys(before.service.engine, before.service.config);
    var config := before.service.config;
    forall id | id in before.service.engine.tasks ensures id in (set f | f in config :: f.id) {
      assert id in EnabledIds(config);
      var i :| 0 <= i < |config| && config[i].enabled && config[i].id == id;
      assert config[i] in config;
    }
  }

  /** Every enabled folder has a task. */
  predicate AllRunning(v: ServiceView) {
    v.engine.tasks.Keys == EnabledIds(v.config)
  }

  /** A sign-in that completes starts every folder enabled by then, and all later
      changes to the configuration keep it so until a sign-out: a folder that
      was disabled or removed in between is not started from an older copy. */
  lemma {:induction false} CompletionRunsLiveConfig(s: System, run: seq<Event>, generation: nat, later: seq<Event>)
    requires Initial(s) && ValidRun(s, run)
    requires Last(s, run).service.gate.generation == generation
    requires ValidRun(Next(Last(s, run), Complete(generation, true)), later)
    requires forall i :: 0 <= i < |later| ==> !later[i].SignOut?
    ensures AllRunning(Last(Next(Last(s, run), Complete(generation, true)), later).service)
  {
    InitialInv(s);
    InvRun(s, run);
    var before := Last(s, run);
    InvNext(before, Complete(generation, true));
    CompletionRunsAll(before, generation);
    AllRunningStays(Next(before, Complete(generation, true)), later);
  }

  lemma CompletionRunsAll(s: System, generation: nat)
    requires Inv(s) && s.service.gate.generation == generation
    ensures AllRunning(Next(s, Complete(generation, true)).service)
  {
    StartAllKeys(s.service.engine, s.service.config);
  }

  lemma {:induction false} AllRunningStays(s: System, run: seq<Event>)
    requires Inv(s) && AllRunning(s.service) && ValidRun(s, run)
    requires forall i :: 0 <= i < |run| ==> !run[i].SignOut?
    ensures AllRunning(Last(s, run).service)
    decreases |run|
  {
    if run != [] {
      AllRunningNext(s, run[0]);
      InvNext(s, run[0]);
      AllRunningStays(Next(s, run[0]), run[1..]);
    }
  }

  lemma AllRunningNext(s: System, e: Event)
    requires Inv(s) && AllRunning(s.service) && Enabled(s, e) && !e.SignOut?
    ensures AllRunning(Next(s, e).service)
  {
    var v := s.service;
    match e
    case Boot =>
      StartAllOk(v.engine, s.log, v.config);
      StartAllKeys(v.engine, v.config);
    case Add(folder, saved) =>
      EnabledIdsSnoc(v.config, folder);
      StartOk(v.engine, s.log, folder.id);
    case Remove(id, saved) =>
      WithoutIds(v.config, id);
      StopOk(v.engine, s.log, id);
    case Enable(id, enabled, saved) =>
      if Configured(v.config, id) {
        WithEnabledIds(v.config, id, enabled);
        StartOk(v.engine, s.log, id);
        StopOk(v.engine, s.log, id);
      }
    case Complete(_, _) =>
      StartAllOk(v.engine, s.log, v.config);
      StartAllKeys(v.engine, v.config);
    case _ =>
  }

  /** A start-up with a cached token runs the enabled folders. */
  lemma BootRunsEnabled(s: System)
    requires Initial(s)
    ensures AllRunning(Next(s, Boot).service)
  {
    StartAllKeys(s.service.engine, s.service.config);
  }

  // ------------------------------------------------- the changes themselves

  /** An added folder is configured next to all others and runs if it is enabled. */
  lemma AddingAddsOne(v: ServiceView, folder: SyncFolder, x: SyncFolder)
    ensures var v' := AddFolder(v, folder, true);
      && (x in v'.config <==> x in v.config || x == folder)
      && v'.engine.tasks.Keys == v.engine.tasks.Keys + (if folder.enabled then {folder.id} else {})
    ensures AddFolder(v, folder, false) == v
  {
  }

  /** A removed folder is neither configured nor running; all others stay. */
  lemma RemovingRemovesOne(v: ServiceView, id: FolderId, x: SyncFolder)
    ensures var v' := RemoveFolder(v, id, true);
      && (x in v'.config <==> x in v.config && x.id != id)
      && v'.engine.tasks.Keys == v.engine.tasks.Keys - {id}
    ensures RemoveFolder(v, id, false) == v
  {
    WithoutMembers(v.config, id);
  }

  /** Switching a folder sets its flag and starts or stops it; all others stay. */
  lemma SwitchingSwitchesOne(v: ServiceView, id: FolderId, enabled: bool, x: SyncFolder)
    requires UniqueIds(v.config) && Configured(v.config, id)
    ensures var v' := SetEnabled(v, id, enabled, true);
      && (x in v'.config <==> (x in v.config && x.id != id) || x == SyncFolder(id, enabled))
      && v'.engine.tasks.Keys == v.engine.tasks.Keys - {id} + (if enabled then {id} else {})
    ensures SetEnabled(v, id, enabled, false) == v
  {
    var changed := WithEnabled(v.config, id, enabled);
    WithEnabledKeepsIds(v.config, id, enabled);
    forall i: nat | i < |v.config|
      ensures changed[i] == if v.config[i].id == id then SyncFolder(id, enabled) else v.config[i]
    {
      WithEnabledMembers(v.config, id, enabled, i);
    }
    if x in v.config && x.id != id {
      var i :| 0 <= i < |v.config| && v.config[i] == x;
      assert changed[i] == x;
    }
    var k :| 0 <= k < |v.config| && v.config[k].id == id;
    assert changed[k] == SyncFolder(id, enabled);
  }

  /** A run that was started and not told to stop is the one in the engine's table. */
  lemma RunningIsInTable(s: System, i: nat)
    requires Inv(s) && i < |s.log| && s.log[i].Start? && s.log[i].generation !in s.service.engine.aborted
    ensures s.log[i].id in s.service.engine.tasks && s.service.engine.tasks[s.log[i].id] == s.log[i].generation
  {
    var e := s.service.engine;
    var g := s.log[i].generation;
    assert InTable(e.tasks, g);
    var id :| id in e.tasks && e.tasks[id] == g;
    var start := StatusLog.CurrentStart(s.log, id);
    StatusLog.EntryIsCurrentRun(s.log, id, start);
    StatusLog.StartIsUnique(s.log, start, i);
  }

  /** Restarting a folder never leaves two of its workers running. */
  lemma OneWorkerPerFolder(s: System, run: seq<Event>, i: nat, j: nat)
    requires Initial(s) && ValidRun(s, run)
    requires i < |Last(s, run).log| && j < |Last(s, run).log|
    requires Last(s, run).log[i].Start? && Last(s, run).log[j].Start?
    requires Last(s, run).log[i].id == Last(s, run).log[j].id
    requires Last(s, run).log[i].generation !in Last(s, run).service.engine.aborted
    requires Last(s, run).log[j].generation !in Last(s, run).service.engine.aborted
    ensures i == j
  {
    InitialInv(s);
    InvRun(s, run);
    RunningIsInTable(Last(s, run), i);
    RunningIsInTable(Last(s, run), j);
    StatusLog.StartIsUnique(Last(s, run).log, i, j);
  }

  /** A folder shown as syncing has a task, and that task's run has not been
      dropped; the log of a daemon always satisfies what the status theorems
      assume. */
  lemma SyncingFolderHasTask(s: System, run: seq<Event>, id: FolderId)
    requires Initial(s) && ValidRun(s, run)
    requires id in Last(s, run).service.engine.tracker.folders
    requires Last(s, run).service.engine.tracker.folders[id].syncing
    ensures var end := Last(s, run);
      id in end.service.engine.tasks && StatusLog.NotDropped(end.log, id, end.service.engine.tasks[id])
  {
    InitialInv(s);
    InvRun(s, run);
    var log := Last(s, run).log;
    StatusLog.SyncingHasLiveRun(log, id);
    var start: nat :| StatusLog.CurrentRun(log, id, start) && StatusLog.NotDropped(log, id, log[start].generation);
    StatusLog.EntryIsCurrentRun(log, id, start);
  }
}
