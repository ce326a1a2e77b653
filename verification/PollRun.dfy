/** The poll as the engine runs it, from listing to saving the page token. */
module PollRun {
  import opened Common
  import opened SyncState
  import opened Poll
  import opened Listing

  // -------------------------------------------------------------- polling

  lemma AnswerIsFind(table: Table, id: string, answer: Option<(string, Row)>)
    requires DistinctRows(table) && AnswersFor(table, id, answer)
    ensures answer.None? <==> Find(table, id).None?
    ensures answer.Some? ==> Find(table, id) == Some(answer.value.0)
  {
    if answer.Some? {
      FindIs(table, id, answer.value.0);
    }
  }

  /** One turn of the loop over the changes. */
  method ApplyChange(
      folder: FolderId, db: StateDb, local: LocalFiles, c: Change, remote: Remote, faults: Faults)
    returns (ok: bool)
    requires DistinctRows(db.TableOf(folder))
    modifies db`rows, local, faults
    ensures if ok then faults.count == old(faults.count)
            else faults.count > old(faults.count) || !CanApply(c, old(Snapshot(db, local, folder)))
    ensures ok ==>
      CanApply(c, old(Snapshot(db, local, folder)))
      && Snapshot(db, local, folder) == Apply(c, old(Snapshot(db, local, folder)), remote)
    ensures !ok ==> Broken(c, old(Snapshot(db, local, folder)), Snapshot(db, local, folder))
    ensures forall g :: g != folder ==> db.TableOf(g) == old(db.TableOf(g))
  {
    var found := db.FindByDriveId(folder, c.fileId, faults);
    if found.Err? {
      return false;
    }
    AnswerIsFind(db.TableOf(folder), c.fileId, found.value);
    if found.value.None? {
      return true;
    }
    var (path, row) := found.value.value;
    if Gone(c) {
      if path in local.nodes {
        if row.isFolder {
          ok := local.RemoveTree(path, faults);
        } else {
          ok := local.RemoveFile(path, faults);
        }
        if !ok {
          return;
        }
      }
      ok := db.Remove(folder, path, faults);
    } else if Unchanged(c, row) {
      ok := true;
    } else {
      ok := Download(folder, db, local, c.file.value, path, row, remote, faults);
    }
  }

  method Download(
      folder: FolderId, db: StateDb, local: LocalFiles, m: Meta, path: string, row: Row, remote: Remote,
      faults: Faults)
    returns (ok: bool)
    modifies db`rows, local, faults
    ensures if ok then faults.count == old(faults.count)
            else faults.count > old(faults.count) || !CanWrite(old(local.nodes), path)
    ensures ok ==>
      CanWrite(old(local.nodes), path)
      && Snapshot(db, local, folder) ==
         Local(old(db.TableOf(folder))[path := UpdatedRow(m, row)], old(local.nodes)[path := Data(remote(m.id))])
    ensures !ok ==>
      db.TableOf(folder) == old(db.TableOf(folder)) && PartlyWritten(old(local.nodes), path, local.nodes)
    ensures forall g :: g != folder ==> db.TableOf(g) == old(db.TableOf(g))
  {
    ok := faults.Attempt();
    if !ok {
      return;
    }
    ok := local.Write(path, remote(m.id), faults);
    if !ok {
      return;
    }
    assert local.nodes - {path} == old(local.nodes) - {path};
    ok := faults.Attempt();
    if !ok {
      return;
    }
    var now: int := *;
    ok := db.Upsert(folder, path, Entry(Some(m.id), row.isFolder, Some(now), m.modified, m.md5), faults);
  }

  /** A whole poll. The page token moves only after every change is applied; an
      error leaves the token alone and the state of some failed attempt. A poll
      that finds no page token, or cannot read it, does nothing. */
  method PollRemoteChanges(
      folder: FolderId, db: StateDb, local: LocalFiles, server: Server<Change>, ghost n: nat, remote: Remote,
      faults: Faults)
    returns (r: Result<(), SyncError>, ghost started: bool)
    requires folder in db.pageTokens ==>
      EndsAfter(server, Some(db.pageTokens[folder]), n) && ListOk(Listed(server, Some(db.pageTokens[folder]), n))
    requires DistinctRows(db.TableOf(folder))
    modifies db, local, faults
    ensures started ==> folder in old(db.pageTokens)
    // A poll starts and succeeds unless a call fails or a change cannot be applied.
    ensures folder in old(db.pageTokens) && faults.count == old(faults.count) ==> started
    ensures faults.count == old(faults.count) ==>
      r.Ok? || (started && !CanApplyAll(Listed(server, Some(old(db.pageTokens)[folder]), n),
                                        old(Snapshot(db, local, folder)), remote))
    ensures !started ==>
      Snapshot(db, local, folder) == old(Snapshot(db, local, folder)) && db.pageTokens == old(db.pageTokens)
    ensures started && r.Ok? ==>
      && Succeeded(Listed(server, Some(old(db.pageTokens)[folder]), n),
                   old(Snapshot(db, local, folder)), remote, Snapshot(db, local, folder))
      && db.pageTokens == old(db.pageTokens)[folder := NextStart(server, old(db.pageTokens)[folder], n)]
    ensures started && r.Err? ==>
      && Failed(Listed(server, Some(old(db.pageTokens)[folder]), n),
                old(Snapshot(db, local, folder)), remote, Snapshot(db, local, folder))
      && db.pageTokens == old(db.pageTokens)
    ensures forall g :: g != folder ==> db.TableOf(g) == old(db.TableOf(g))
  {
    var stored := db.GetPageToken(folder, faults);
    if stored.Err? {
      return Err(stored.error), false;
    }
    if stored.value.None? {
      return Ok(()), false;
    }
    started := true;
    r := PollFrom(folder, db, local, server, stored.value.value, n, remote, faults);
  }

  method PollFrom(
      folder: FolderId, db: StateDb, local: LocalFiles, server: Server<Change>, token: string, ghost n: nat,
      remote: Remote, faults: Faults)
    returns (r: Result<(), SyncError>)
    requires EndsAfter(server, Some(token), n) && ListOk(Listed(server, Some(token), n))
    requires DistinctRows(db.TableOf(folder))
    modifies db, local, faults
    ensures if r.Ok? then faults.count == old(faults.count)
            else faults.count > old(faults.count)
                 || !CanApplyAll(Listed(server, Some(token), n), old(Snapshot(db, local, folder)), remote)
    ensures r.Ok? ==>
      && Succeeded(Listed(server, Some(token), n),
                   old(Snapshot(db, local, folder)), remote, Snapshot(db, local, folder))
      && db.pageTokens == old(db.pageTokens)[folder := NextStart(server, token, n)]
    ensures r.Err? ==>
      && Failed(Listed(server, Some(token), n), old(Snapshot(db, local, folder)), remote, Snapshot(db, local, folder))
      && db.pageTokens == old(db.pageTokens)
    ensures forall g :: g != folder ==> db.TableOf(g) == old(db.TableOf(g))
  {
    ghost var start := Snapshot(db, local, folder);
    NothingDone(Listed(server, Some(token), n), start, remote);
    var listing := ListChanges(server, token, faults, n);
    if listing.Err? {
      return Err(listing.error);
    }
    var (changes, newToken) := listing.value;
    var ok := ApplyChanges(folder, db, local, changes, remote, faults);
    if !ok {
      return Err(Io);
    }
    SavingTokenFailed(changes, start, remote, Snapshot(db, local, folder));
    var saved := db.SetPageToken(folder, newToken, faults);
    return if saved then Ok(()) else Err(Io);
  }

  /** The loop over the changes. */
  method ApplyChanges(
      folder: FolderId, db: StateDb, local: LocalFiles, changes: seq<Change>, remote: Remote, faults: Faults)
    returns (ok: bool)
    requires ListOk(changes) && DistinctRows(db.TableOf(folder))
    modifies db`rows, local, faults
    ensures if ok then faults.count == old(faults.count)
            else faults.count > old(faults.count) || !CanApplyAll(changes, old(Snapshot(db, local, folder)), remote)
    ensures ok ==> Succeeded(changes, old(Snapshot(db, local, folder)), remote, Snapshot(db, local, folder))
    ensures !ok ==> Failed(changes, old(Snapshot(db, local, folder)), remote, Snapshot(db, local, folder))
    ensures forall g :: g != folder ==> db.TableOf(g) == old(db.TableOf(g))
  {
    ghost var start := Snapshot(db, local, folder);
    for i := 0 to |changes|
      invariant Succeeded(changes[..i], start, remote, Snapshot(db, local, folder))
      invariant DistinctRows(db.TableOf(folder)) && faults.count == old(faults.count)
      invariant forall g :: g != folder ==> db.TableOf(g) == old(db.TableOf(g))
    {
      ghost var before := Snapshot(db, local, folder);
      ok := ApplyChange(folder, db, local, changes[i], remote, faults);
      if !ok {
        if CanApplyAll(changes, start, remote) {
          CannotSkip(changes, i, start, remote);
        }
        assert FailedAttempt(changes, start, remote, i, Snapshot(db, local, folder));
        return;
      }
      ApplyKeepsDistinct(changes[i], before, remote);
      OneMore(changes, i, start, remote);
    }
    assert changes[..|changes|] == changes;
    ok := true;
  }

  lemma CannotSkip(cs: seq<Change>, i: nat, st: Local, remote: Remote)
    requires i < |cs| && CanApplyAll(cs, st, remote)
    ensures CanApply(cs[i], ApplyAll(cs[..i], st, remote))
  {
    ApplyAllSplit(cs, i, st, remote);
  }

  lemma OneMore(cs: seq<Change>, i: nat, st: Local, remote: Remote)
    requires i < |cs| && CanApplyAll(cs[..i], st, remote)
    requires CanApply(cs[i], ApplyAll(cs[..i], st, remote))
    ensures CanApplyAll(cs[..i + 1], st, remote)
    ensures ApplyAll(cs[..i + 1], st, remote) == Apply(cs[i], ApplyAll(cs[..i], st, remote), remote)
  {
    assert cs[..i + 1][..i] == cs[..i] && cs[..i + 1][i..] == [cs[i]];
    ApplyAllSplit(cs[..i + 1], i, st, remote);
    var mid := ApplyAll(cs[..i], st, remote);
    assert [cs[i]][1..] == [];
    assert ApplyAll([cs[i]], mid, remote) == Apply(cs[i], mid, remote);
    assert CanApplyAll([cs[i]], mid, remote);
  }
}
