/** The engine's table of folder tasks, next to the status table. */
module Engine {
  import Status
  import DriveClient

  type FolderId = Status.FolderId

  datatype SyncFolder = SyncFolder(id: FolderId, enabled: bool)

  /** `tasks` maps a folder to the generation of its task; `aborted` holds the
      generations of tasks that were told to stop. */
  datatype EngineState = EngineState(
    tasks: map<FolderId, nat>,
    aborted: set<nat>,
    generation: nat,
    tracker: Status.Tracker)

  function AbortedWith(e: EngineState, id: FolderId): set<nat> {
    if id in e.tasks then e.aborted + {e.tasks[id]} else e.aborted
  }

  function FolderStarted(e: EngineState, id: FolderId): EngineState {
    EngineState(e.tasks[id := e.generation], AbortedWith(e, id), e.generation + 1,
                Status.Started(e.tracker, id, e.generation))
  }

  function FolderStopped(e: EngineState, id: FolderId): EngineState {
    EngineState(e.tasks - {id}, AbortedWith(e, id), e.generation, Status.Stopped(e.tracker, id))
  }

  function AllStarted(e: EngineState, folders: seq<SyncFolder>): EngineState {
    if folders == [] then e
    else
      var before := AllStarted(e, folders[..|folders| - 1]);
      var folder := folders[|folders| - 1];
      if folder.enabled then FolderStarted(before, folder.id) else before
  }

  function AllStopped(e: EngineState, folders: seq<SyncFolder>): EngineState {
    if folders == [] then e else FolderStopped(AllStopped(e, folders[..|folders| - 1]), folders[|folders| - 1].id)
  }

  class SyncEngine {
    const drive: DriveClient.DriveClient
    const status: Status.StatusTracker
    var tasks: map<FolderId, nat>
    var aborted: set<nat>
    var generation: nat

    constructor (drive: DriveClient.DriveClient)
      ensures this.drive == drive && fresh(status) && status.Valid()
      ensures View() == EngineState(map[], {}, 0, Status.EMPTY)
    {
      this.drive := drive;
      status := new Status.StatusTracker();
      tasks := map[];
      aborted := {};
      generation := 0;
    }

    function View(): EngineState
      reads this, status
    {
      EngineState(tasks, aborted, generation, status.View())
    }

    /** Restarting a folder first aborts its previous task. */
    method StartFolder(id: FolderId) returns (run: Status.FolderRun)
      requires status.Valid()
      modifies this, status
      ensures status.Valid() && View() == FolderStarted(old(View()), id)
      ensures fresh(run) && run.tracker == status && run.id == id && run.generation == old(generation)
    {
      if id in tasks {
        aborted := aborted + {tasks[id]};
        tasks := tasks - {id};
      }
      var current := generation;
      generation := generation + 1;
      run := status.Start(id, current);
      tasks := tasks[id := current];
      assert tasks == old(tasks)[id := current];
    }

    method StopFolder(id: FolderId)
      requires status.Valid()
      modifies this, status
      ensures status.Valid() && View() == FolderStopped(old(View()), id)
    {
      if id in tasks {
        aborted := aborted + {tasks[id]};
      }
      tasks := tasks - {id};
      status.Stop(id);
    }

    method StartAll(folders: seq<SyncFolder>)
      requires status.Valid()
      modifies this, status
      ensures status.Valid() && View() == AllStarted(old(View()), folders)
    {
      for i := 0 to |folders|
        invariant status.Valid() && View() == AllStarted(old(View()), folders[..i])
      {
        assert folders[..i + 1][..i] == folders[..i];
        if folders[i].enabled {
          var run := StartFolder(folders[i].id);
        }
      }
      assert folders[..|folders|] == folders;
    }

    method StopAll(folders: seq<SyncFolder>)
      requires status.Valid()
      modifies this, status
      ensures status.Valid() && View() == AllStopped(old(View()), folders)
    {
      for i := 0 to |folders|
        invariant status.Valid() && View() == AllStopped(old(View()), folders[..i])
      {
        assert folders[..i + 1][..i] == folders[..i];
        StopFolder(folders[i].id);
      }
      assert folders[..|folders|] == folders;
    }
  }
}
