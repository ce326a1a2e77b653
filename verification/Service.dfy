/** The daemon's service object: configuration, sign-in gate and engine, changed
    only under the service lock. */
module Service {
  import opened Common
  import opened Auth
  import opened SignInGate
  import opened Engine
  import DriveClient

  datatype ServiceView = ServiceView(config: seq<SyncFolder>, stored: seq<SyncFolder>, gate: Gate, engine: EngineState)

  function Without(config: seq<SyncFolder>, id: FolderId): seq<SyncFolder> {
    if config == [] then []
    else (if config[0].id == id then [] else [config[0]]) + Without(config[1..], id)
  }

  predicate Configured(config: seq<SyncFolder>, id: FolderId) {
    exists i :: 0 <= i < |config| && config[i].id == id
  }

  /** Sets the flag of the first folder with this id. */
  function WithEnabled(config: seq<SyncFolder>, id: FolderId, enabled: bool): seq<SyncFolder> {
    if config == [] then []
    else if config[0].id == id then [SyncFolder(id, enabled)] + config[1..]
    else [config[0]] + WithEnabled(config[1..], id, enabled)
  }

  /** The three changes to the configuration. Without a saved file nothing
      happens; the engine follows what was saved. */
  function AddFolder(s: ServiceView, folder: SyncFolder, saved: bool): ServiceView {
    if !saved then s
    else
      var config := s.config + [folder];
      s.(config := config, stored := config,
         engine := if folder.enabled then FolderStarted(s.engine, folder.id) else s.engine)
  }

  function RemoveFolder(s: ServiceView, id: FolderId, saved: bool): ServiceView {
    if !saved then s
    else
      var config := Without(s.config, id);
      s.(config := config, stored := config, engine := FolderStopped(s.engine, id))
  }

  function SetEnabled(s: ServiceView, id: FolderId, enabled: bool, saved: bool): ServiceView {
    if !saved || !Configured(s.config, id) then s
    else
      var config := WithEnabled(s.config, id, enabled);
      s.(config := config, stored := config,
         engine := if enabled then FolderStarted(s.engine, id) else FolderStopped(s.engine, id))
  }

  /** An attempt asks to complete; it starts folders only if it is the current
      one and its token was saved. */
  function SignInCompleted(s: ServiceView, generation: nat, saved: bool): ServiceView {
    s.(gate := Claim(s.gate, generation),
       engine := if s.gate.generation == generation && saved then AllStarted(s.engine, s.config) else s.engine)
  }

  function SignedOut(s: ServiceView): ServiceView {
    s.(gate := Cancel(s.gate).0, engine := AllStopped(s.engine, s.config))
  }

  /** How an aborted attempt is found when the wait for it is over. */
  datatype Ending = Stopped | Panicked | StillRunning

  class JoinHandle {
    const id: AttemptId
    var finished: bool
    var aborted: bool

    constructor (id: AttemptId)
      ensures this.id == id && !finished && !aborted
    {
      this.id := id;
      finished := false;
      aborted := false;
    }
  }

  class ServiceState {
    const engine: SyncEngine
    const tokenPath: Path
    var config: seq<SyncFolder>
    var stored: seq<SyncFolder>
    var signInGeneration: nat
    var signIn: Option<JoinHandle>
    var cancelling: bool

    constructor (config: seq<SyncFolder>, tokenPath: Path, engine: SyncEngine)
      ensures this.engine == engine && this.tokenPath == tokenPath
      ensures View() == ServiceView(config, config, Gate(0, None, false), engine.View())
    {
      this.engine := engine;
      this.tokenPath := tokenPath;
      this.config := config;
      stored := config;
      signInGeneration := 0;
      signIn := None;
      cancelling := false;
    }

    function GateView(): Gate
      reads this
    {
      Gate(signInGeneration, if signIn.Some? then Some(signIn.value.id) else None, cancelling)
    }

    function View(): ServiceView
      reads this, engine, engine.status
    {
      ServiceView(config, stored, GateView(), engine.View())
    }

    /** Writes the configuration file; a failed write leaves it as it was. */
    method Persist(config: seq<SyncFolder>, faults: Faults) returns (ok: bool)
      modifies this`stored, faults
      ensures faults.count == if ok then old(faults.count) else old(faults.count) + 1
      ensures stored == if ok then config else old(stored)
    {
      ok := faults.Attempt();
      if ok {
        stored := config;
      }
    }

    method AddSyncFolder(folder: SyncFolder, faults: Faults) returns (ok: bool)
      requires engine.status.Valid()
      modifies this, engine, engine.status, faults
      ensures faults.count == if ok then old(faults.count) else old(faults.count) + 1
      ensures engine.status.Valid() && View() == AddFolder(old(View()), folder, ok)
    {
      ok := Persist(config + [folder], faults);
      if !ok {
        return;
      }
      config := config + [folder];
      if folder.enabled {
        var run := engine.StartFolder(folder.id);
      }
    }

    method RemoveSyncFolder(id: FolderId, faults: Faults) returns (ok: bool)
      requires engine.status.Valid()
      modifies this, engine, engine.status, faults
      ensures faults.count == if ok then old(faults.count) else old(faults.count) + 1
      ensures engine.status.Valid() && View() == RemoveFolder(old(View()), id, ok)
    {
      var kept := Retain(config, id);
      ok := Persist(kept, faults);
      if !ok {
        return;
      }
      config := kept;
      engine.StopFolder(id);
    }

    method Retain(config: seq<SyncFolder>, id: FolderId) returns (kept: seq<SyncFolder>)
      ensures kept == Without(config, id)
    {
      kept := [];
      for i := 0 to |config|
        invariant kept + Without(config[i..], id) == Without(config, id)
      {
        WithoutFrom(config, id, i, kept);
        if config[i].id != id {
          kept := kept + [config[i]];
        }
      }
    }

    method SetFolderEnabled(id: FolderId, enabled: bool, faults: Faults) returns (ok: bool)
      requires engine.status.Valid()
      modifies this, engine, engine.status, faults
      ensures if ok then faults.count == old(faults.count)
              else faults.count > old(faults.count) || !Configured(old(config), id)
      ensures engine.status.Valid() && View() == SetEnabled(old(View()), id, enabled, ok)
      ensures ok ==> Configured(old(config), id)
    {
      var i := 0;
      while i < |config| && config[i].id != id
        invariant i <= |config| && forall j :: 0 <= j < i ==> config[j].id != id
      {
        i := i + 1;
      }
      if i == |config| {
        return false;
      }
      var changed := config[i := SyncFolder(id, enabled)];
      FirstMatch(config, id, enabled, i);
      ok := Persist(changed, faults);
      if !ok {
        return;
      }
      config := changed;
      if enabled {
        var run := engine.StartFolder(id);
      } else {
        engine.StopFolder(id);
      }
    }

    /** Called by an attempt with its token; false means it was overtaken. */
    method CompleteSignIn(generation: nat, token: StoredToken, temporary: nat, faults: Faults)
      returns (r: Result<bool, SyncError>)
      requires engine.status.Valid()
      modifies this, engine, engine.status, engine.drive.tokens, engine.drive.disk, faults
      ensures engine.status.Valid()
      ensures old(signInGeneration) == generation ==> signIn.None?
      ensures r.Err? ==> faults.count > old(faults.count) || temporary in old(engine.drive.disk.drafts)
      ensures r == Ok(false) <==> old(signInGeneration) != generation
      ensures View() == SignInCompleted(old(View()), generation, r.Ok?)
      ensures engine.drive.View() ==
        if old(signInGeneration) == generation then
          DriveClient.SaveNew(old(engine.drive.View()), token, tokenPath, r.Ok?)
        else old(engine.drive.View())
    {
      if signInGeneration != generation {
        return Ok(false);
      }
      signIn := None;
      var saved := engine.drive.SaveToken(token, tokenPath, temporary, faults);
      if saved.Err? {
        return Err(saved.error);
      }
      engine.StartAll(config);
      return Ok(true);
    }

    method SignInBusy() returns (busy: bool)
      ensures busy <==>
        Busy(GateView(), if signIn.Some? && signIn.value.finished then {signIn.value.id} else {})
    {
      busy := cancelling || (signIn.Some? && !signIn.value.finished);
    }

    method CancelSignIn() returns (task: Option<JoinHandle>)
      modifies this`signInGeneration, this`signIn, this`cancelling
      modifies if signIn.Some? then {signIn.value} else {}
      ensures GateView() == Cancel(old(GateView())).0
      ensures (if task.Some? then Some(task.value.id) else None) == Cancel(old(GateView())).1
      ensures task.Some? ==> task.value.aborted
    {
      if cancelling {
        return None;
      }
      signInGeneration := signInGeneration + 1;
      task := signIn;
      signIn := None;
      if task.Some? {
        task.value.aborted := true;
        cancelling := true;
      }
    }

    /** The end of a sign-out's wait for the attempt it has taken, if any; one
        that is still running is put back. */
    method FinishSignInCancellation(task: Option<JoinHandle>, ending: Ending) returns (r: Result<(), SyncError>)
      modifies this`cancelling, this`signIn
      ensures task.None? ==> r.Ok? && GateView() == old(GateView())
      ensures task.Some? ==>
        && GateView() == FinishCancel(old(GateView()), if ending.StillRunning? then Some(task.value.id) else None)
        && r == match ending { case Stopped => Ok(()) case Panicked => Err(Io) case StillRunning => Err(Timeout) }
    {
      if task.None? {
        return Ok(());
      }
      cancelling := false;
      match ending
      case Stopped => return Ok(());
      case Panicked => return Err(Io);
      case StillRunning =>
        signIn := task;
        return Err(Timeout);
    }

    /** The part of a sign-out that holds the service lock. */
    method SignOutSection(faults: Faults) returns (task: Option<JoinHandle>, removed: bool)
      requires engine.status.Valid()
      modifies this`signInGeneration, this`signIn, this`cancelling
      modifies engine, engine.status, engine.drive.tokens, engine.drive.disk, faults
      modifies if signIn.Some? then {signIn.value} else {}
      ensures engine.status.Valid() && View() == SignedOut(old(View()))
      ensures faults.count == if removed then old(faults.count) else old(faults.count) + 1
      ensures (if task.Some? then Some(task.value.id) else None) == Cancel(old(GateView())).1
      ensures engine.drive.View() ==
        var cleared := DriveClient.SetAccess(old(engine.drive.View()), "");
        if removed then cleared.(files := cleared.files - {tokenPath}) else cleared
    {
      task := CancelSignIn();
      engine.drive.SetAccessToken("");
      removed := engine.drive.disk.RemoveFile(tokenPath, faults);
      engine.StopAll(config);
    }
  }

  lemma WithoutFrom(config: seq<SyncFolder>, id: FolderId, i: nat, kept: seq<SyncFolder>)
    requires i < |config|
    ensures kept + Without(config[i..], id) ==
      (if config[i].id == id then kept else kept + [config[i]]) + Without(config[i + 1..], id)
  {
    assert config[i..][1..] == config[i + 1..];
  }

  lemma {:induction false} FirstMatch(config: seq<SyncFolder>, id: FolderId, enabled: bool, i: nat)
    requires i < |config| && config[i].id == id && forall j :: 0 <= j < i ==> config[j].id != id
    ensures config[i := SyncFolder(id, enabled)] == WithEnabled(config, id, enabled)
  {
    if i > 0 {
      FirstMatch(config[1..], id, enabled, i - 1);
      assert config[i := SyncFolder(id, enabled)] == [config[0]] + config[1..][i - 1 := SyncFolder(id, enabled)];
    }
  }
}
