/** The daemon's status table and the workers that report to it. */
module Status {
  import opened Common

  type FolderId = nat

  datatype FolderStatus = FolderStatus(generation: nat, syncing: bool, errors: map<string, string>)

  datatype Tracker = Tracker(revision: nat, folders: map<FolderId, FolderStatus>)

  const EMPTY := Tracker(0, map[])

  const PANIC_WORK := "worker"
  const PANIC_MESSAGE := "sync task panicked; restart the folder"

  /** A changed folder makes a new revision, an unchanged one leaves everything. */
  function WithFolder(t: Tracker, id: FolderId, folder: FolderStatus): Tracker {
    if id in t.folders && t.folders[id] == folder then t else Tracker(t.revision + 1, t.folders[id := folder])
  }

  function Started(t: Tracker, id: FolderId, generation: nat): Tracker {
    Tracker(t.revision + 1, t.folders[id := FolderStatus(generation, true, map[])])
  }

  function Stopped(t: Tracker, id: FolderId): Tracker {
    if id in t.folders then Tracker(t.revision + 1, t.folders - {id}) else t
  }

  predicate Owns(t: Tracker, id: FolderId, generation: nat) {
    id in t.folders && t.folders[id].generation == generation
  }

  /** Work that begins, the reconciliation of one work item, and its outcome;
      `error` is None for a success. Only the folder's current run counts. */
  function Activated(t: Tracker, id: FolderId, generation: nat): Tracker {
    if Owns(t, id, generation) then WithFolder(t, id, t.folders[id].(syncing := true)) else t
  }

  function Cleared(t: Tracker, id: FolderId, generation: nat, work: string): Tracker {
    if Owns(t, id, generation) then WithFolder(t, id, t.folders[id].(errors := t.folders[id].errors - {work})) else t
  }

  function Finished(t: Tracker, id: FolderId, generation: nat, work: string, error: Option<string>): Tracker {
    if !Owns(t, id, generation) then t
    else
      var errors := t.folders[id].errors;
      WithFolder(t, id, FolderStatus(generation, false,
                                     if error.None? then errors - {work} else errors[work := error.value]))
  }

  function Dropped(t: Tracker, id: FolderId, generation: nat, panicking: bool): Tracker {
    if panicking then Finished(t, id, generation, PANIC_WORK, Some(PANIC_MESSAGE))
    else if Owns(t, id, generation) then WithFolder(t, id, t.folders[id].(syncing := false))
    else t
  }

  /** `watched` is the last revision sent to subscribers. */
  class StatusTracker {
    var revision: nat
    var folders: map<FolderId, FolderStatus>
    var watched: nat

    constructor ()
      ensures View() == EMPTY && Valid()
    {
      revision := 0;
      folders := map[];
      watched := 0;
    }

    function View(): Tracker
      reads this
    {
      Tracker(revision, folders)
    }

    predicate Valid()
      reads this
    {
      watched == revision
    }

    method Publish()
      modifies this`revision, this`watched
      ensures revision == old(revision) + 1 && Valid()
    {
      revision := revision + 1;
      watched := revision;
    }

    method Start(id: FolderId, generation: nat) returns (run: FolderRun)
      requires Valid()
      modifies this
      ensures Valid() && View() == Started(old(View()), id, generation)
      ensures fresh(run) && run.tracker == this && run.id == id && run.generation == generation
    {
      folders := folders[id := FolderStatus(generation, true, map[])];
      Publish();
      run := new FolderRun(this, id, generation);
    }

    method Stop(id: FolderId)
      requires Valid()
      modifies this
      ensures Valid() && View() == Stopped(old(View()), id)
    {
      if id in folders {
        folders := folders - {id};
        Publish();
      }
    }
  }

  class FolderRun {
    const tracker: StatusTracker
    const id: FolderId
    const generation: nat

    constructor (tracker: StatusTracker, id: FolderId, generation: nat)
      ensures this.tracker == tracker && this.id == id && this.generation == generation
    {
      this.tracker := tracker;
      this.id := id;
      this.generation := generation;
    }

    predicate Current()
      reads tracker
    {
      id in tracker.folders && tracker.folders[id].generation == generation
    }

    method Active()
      requires tracker.Valid()
      modifies tracker
      ensures tracker.Valid() && tracker.View() == Activated(old(tracker.View()), id, generation)
    {
      if Current() {
        var folder := tracker.folders[id];
        if !folder.syncing {
          tracker.folders := tracker.folders[id := folder.(syncing := true)];
          tracker.Publish();
        }
      }
    }

    method ClearError(work: string)
      requires tracker.Valid()
      modifies tracker
      ensures tracker.Valid() && tracker.View() == Cleared(old(tracker.View()), id, generation, work)
    {
      if Current() {
        var folder := tracker.folders[id];
        if work in folder.errors {
          tracker.folders := tracker.folders[id := folder.(errors := folder.errors - {work})];
          tracker.Publish();
        } else {
          assert folder.errors - {work} == folder.errors;
        }
      }
    }

    method Finish(work: string, error: Option<string>)
      requires tracker.Valid()
      modifies tracker
      ensures tracker.Valid() && tracker.View() == Finished(old(tracker.View()), id, generation, work, error)
    {
      if Current() {
        var folder := tracker.folders[id];
        var errors := folder.errors;
        var errorChanged;
        if error.None? {
          errorChanged := work in errors;
          errors := errors - {work};
        } else {
          errorChanged := work !in errors || errors[work] != error.value;
          errors := errors[work := error.value];
        }
        if folder.syncing || errorChanged {
          tracker.folders := tracker.folders[id := FolderStatus(generation, false, errors)];
          tracker.Publish();
        } else {
          assert errors == folder.errors;
        }
      }
    }

    method Drop(panicking: bool)
      requires tracker.Valid()
      modifies tracker
      ensures tracker.Valid() && tracker.View() == Dropped(old(tracker.View()), id, generation, panicking)
    {
      if panicking {
        Finish(PANIC_WORK, Some(PANIC_MESSAGE));
      } else if Current() {
        var folder := tracker.folders[id];
        if folder.syncing {
          tracker.folders := tracker.folders[id := folder.(syncing := false)];
          tracker.Publish();
        }
      }
    }
  }
}
