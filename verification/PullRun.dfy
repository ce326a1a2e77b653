/** The pull as the engine runs it: a loop over each listing, recursing into
    folders, any call of which may fail. */
module PullRun {
  import opened Common
  import opened Paths
  import opened SyncState
  import opened Pull
  import opened PullMoments

  function NodeFiles(n: Node, path: string): set<string> {
    if n.File? then {path} else FilePaths(n.children, path)
  }

  // --------------------------------------------- decisions stay with a node

  lemma {:induction false} DownloadsElsewhere(ns: seq<Node>, prefix: string, st: Local, a: set<string>, b: set<string>)
    requires forall p :: p in FilePaths(ns, prefix) ==> (p in a <==> p in b)
    ensures PullTree(ns, prefix, st, a) == PullTree(ns, prefix, st, b)
    ensures LegalTree(ns, prefix, st, a) ==> LegalTree(ns, prefix, st, b)
    decreases ns, 0
  {
    if ns != [] {
      var n := ns[0];
      var top := JoinPath(prefix, n.name);
      NodeDownloadsElsewhere(n, top, st, a, b);
      DownloadsElsewhere(ns[1..], prefix, PullNode(n, top, st, a), a, b);
      if LegalTree(ns, prefix, st, a) {
        assert LegalNode(n, top, st, b);
        assert LegalTree(ns[1..], prefix, PullNode(n, top, st, b), b);
      }
    }
  }

  lemma NodeDownloadsElsewhere(n: Node, path: string, st: Local, a: set<string>, b: set<string>)
    requires forall p :: p in NodeFiles(n, path) ==> (p in a <==> p in b)
    ensures PullNode(n, path, st, a) == PullNode(n, path, st, b)
    ensures LegalNode(n, path, st, a) ==> LegalNode(n, path, st, b)
    decreases n, 1
  {
    if n.Folder? {
      DownloadsElsewhere(n.children, path, Recorded(n, path, st, Dir), a, b);
    } else if LegalNode(n, path, st, a) {
      var found :| AnswersFor(st.table, n.id, found) && NeedsDownload(found, path, n) == (path in a);
      assert path in a <==> path in b;
      assert NeedsDownload(found, path, n) == (path in b);
    }
  }

  lemma {:induction false} PullSnoc(ns: seq<Node>, n: Node, prefix: string, st: Local, downloads: set<string>)
    ensures var mid := PullTree(ns, prefix, st, downloads);
      var top := JoinPath(prefix, n.name);
      && PullTree(ns + [n], prefix, st, downloads) == PullNode(n, top, mid, downloads)
      && (LegalTree(ns, prefix, st, downloads) && LegalNode(n, top, mid, downloads) ==>
            LegalTree(ns + [n], prefix, st, downloads))
      && FilePaths(ns + [n], prefix) == FilePaths(ns, prefix) + NodeFiles(n, top)
      && TreePaths(ns + [n], prefix) == TreePaths(ns, prefix) + NodePaths(n, top)
    decreases ns
  {
    if ns == [] {
      assert ns + [n] == [n] && [n][1..] == [];
    } else {
      assert (ns + [n])[1..] == ns[1..] + [n];
      PullSnoc(ns[1..], n, prefix, PullNode(ns[0], JoinPath(prefix, ns[0].name), st, downloads), downloads);
    }
  }

  lemma {:induction false} TreeOkTake(ns: seq<Node>, i: nat)
    requires TreeOk(ns) && i <= |ns|
    ensures TreeOk(ns[..i])
    ensures forall j :: i <= j < |ns| ==> forall n :: n in ns[..i] ==> n.name != ns[j].name
    ensures i < |ns| ==> ValidName(ns[i].name) && (ns[i].Folder? ==> TreeOk(ns[i].children))
  {
    if i > 0 {
      TreeOkTake(ns[1..], i - 1);
      assert ns[..i][1..] == ns[1..][..i - 1];
      assert forall j :: i <= j < |ns| ==> ns[j] == ns[1..][j - 1];
      forall j, n | i <= j < |ns| && n in ns[..i] ensures n.name != ns[j].name {
        if n == ns[0] {
          assert ns[j] in ns[1..];
        } else {
          assert n in ns[1..][..i - 1];
        }
      }
    }
  }

  lemma EarlierApart(ns: seq<Node>, i: nat, prefix: string, path: string)
    requires TreeOk(ns) && i < |ns| && path in NodePaths(ns[i], JoinPath(prefix, ns[i].name))
    ensures path !in TreePaths(ns[..i], prefix)
  {
    TreeOkTake(ns, i);
    var top := JoinPath(prefix, ns[i].name);
    if path != top {
      TreePathsUnder(ns[i].children, top, path);
    }
    if path in TreePaths(ns[..i], prefix) {
      TreePathsUnder(ns[..i], prefix, path);
      var m :| m in ns[..i] && Under(JoinPath(prefix, m.name), path);
      ValidNames(ns[..i], m);
      ChildIsUnique(prefix, ns[i].name, m.name, path);
    }
  }

  // ------------------------------------------------------------- the runs

  /** `st` is where a legal pull ends that downloads exactly `downloads`. */
  ghost predicate Pulled(ns: seq<Node>, prefix: string, start: Local, st: Local, downloads: set<string>) {
    && st == PullTree(ns, prefix, start, downloads)
    && LegalTree(ns, prefix, start, downloads)
    && downloads <= FilePaths(ns, prefix)
  }

  lemma {:induction false} NodeOfTree(ns: seq<Node>, i: nat)
    requires TreeOk(ns) && i < |ns|
    ensures ValidName(ns[i].name) && (ns[i].Folder? ==> TreeOk(ns[i].children))
  {
    TreeOkTake(ns, i);
  }

  lemma PulledKeepsParent(ns: seq<Node>, i: nat, prefix: string, start: Local, st: Local, downloads: set<string>)
    requires TreeOk(ns) && i <= |ns| && Pulled(ns[..i], prefix, start, st, downloads) && IsDir(start.files, prefix)
    ensures IsDir(st.files, prefix)
  {
    if prefix != "" {
      TreeOkTake(ns, i);
      PrefixApart(ns[..i], prefix);
      PullFrame(ns[..i], prefix, start, downloads, prefix);
    }
  }

  /** Nothing on disk is of the wrong kind for the tree. */
  predicate ClearNode(n: Node, path: string, files: Files)
    decreases n, 1
  {
    && (path in files ==> files[path].Dir? == n.Folder?)
    && (n.Folder? ==> Clear(n.children, path, files))
  }

  predicate Clear(ns: seq<Node>, prefix: string, files: Files)
    decreases ns, 0
  {
    ns == [] || (ClearNode(ns[0], JoinPath(prefix, ns[0].name), files) && Clear(ns[1..], prefix, files))
  }

  predicate SameFilesAt(a: Files, b: Files, path: string) {
    (path in a <==> path in b) && (path in a ==> a[path] == b[path])
  }

  lemma {:induction false} ClearFrame(ns: seq<Node>, prefix: string, a: Files, b: Files)
    requires forall p :: p in TreePaths(ns, prefix) ==> SameFilesAt(a, b, p)
    ensures Clear(ns, prefix, a) == Clear(ns, prefix, b)
    decreases ns
  {
    if ns != [] {
      var top := JoinPath(prefix, ns[0].name);
      assert NodePaths(ns[0], top) <= TreePaths(ns, prefix);
      if ns[0].Folder? {
        ClearFrame(ns[0].children, top, a, b);
      }
      ClearFrame(ns[1..], prefix, a, b);
    }
  }

  lemma {:induction false} ClearAt(ns: seq<Node>, prefix: string, files: Files, i: nat)
    requires Clear(ns, prefix, files) && i < |ns|
    ensures ClearNode(ns[i], JoinPath(prefix, ns[i].name), files)
  {
    if i > 0 {
      ClearAt(ns[1..], prefix, files, i - 1);
    }
  }

  /** An empty place is clear, and so is one that agrees with the tree. */
  lemma {:induction false} EmptyIsClear(ns: seq<Node>, prefix: string)
    ensures Clear(ns, prefix, map[])
    decreases ns
  {
    if ns != [] {
      if ns[0].Folder? {
        EmptyIsClear(ns[0].children, JoinPath(prefix, ns[0].name));
      }
      EmptyIsClear(ns[1..], prefix);
    }
  }

  lemma {:induction false} AgreeingIsClear(ns: seq<Node>, prefix: string, st: Local)
    requires Agrees(ns, prefix, st)
    ensures Clear(ns, prefix, st.files)
    decreases ns
  {
    if ns != [] {
      if ns[0].Folder? {
        AgreeingIsClear(ns[0].children, JoinPath(prefix, ns[0].name), st);
      }
      AgreeingIsClear(ns[1..], prefix, st);
    }
  }

  /** The earlier children leave a child's way as clear as it was. */
  lemma StillClear(ns: seq<Node>, i: nat, prefix: string, start: Local, st: Local, downloads: set<string>)
    requires TreeOk(ns) && i < |ns| && Pulled(ns[..i], prefix, start, st, downloads)
    requires Clear(ns, prefix, start.files)
    ensures ClearNode(ns[i], JoinPath(prefix, ns[i].name), st.files)
  {
    var n := ns[i];
    var path := JoinPath(prefix, n.name);
    ClearAt(ns, prefix, start.files, i);
    forall p | p in NodePaths(n, path) ensures SameFilesAt(start.files, st.files, p) {
      EarlierApart(ns, i, prefix, p);
      PullFrame(ns[..i], prefix, start, downloads, p);
    }
    assert SameFilesAt(start.files, st.files, path);
    if n.Folder? {
      ClearFrame(n.children, path, start.files, st.files);
    }
  }

  method InitialPull(
      folder: FolderId, db: StateDb, local: LocalFiles, ns: seq<Node>, prefix: string, faults: Faults)
    returns (r: Result<nat, SyncError>, ghost downloads: set<string>)
    requires TreeOk(ns) && IsDir(local.nodes, prefix)
    modifies db`rows, local, faults
    ensures r.Ok? ==> Pulled(ns, prefix, old(Snapshot(db, local, folder)), Snapshot(db, local, folder), downloads)
    // The returned number counts the files downloaded in the whole recursion.
    ensures r.Ok? ==> r.value == |downloads|
    // It fails only when a call does, or when a local thing of the wrong kind is in the way.
    ensures if r.Ok? then faults.count == old(faults.count)
            else faults.count > old(faults.count) || !Clear(ns, prefix, old(local.nodes))
    ensures Moment(ns, prefix, old(Snapshot(db, local, folder)), Snapshot(db, local, folder))
    ensures forall g :: g != folder ==> db.TableOf(g) == old(db.TableOf(g))
    decreases ns, 1
  {
    downloads := {};
    ghost var start := Snapshot(db, local, folder);
    NothingPulled(ns, prefix, start);
    var listed := faults.Attempt();
    if !listed {
      return Err(Api), downloads;
    }
    var synced := 0;
    var i := 0;
    while i < |ns|
      invariant i <= |ns| && synced == |downloads|
      invariant Pulled(ns[..i], prefix, start, Snapshot(db, local, folder), downloads)
      invariant faults.count == old(faults.count)
      invariant forall g :: g != folder ==> db.TableOf(g) == old(db.TableOf(g))
    {
      var one;
      ghost var more;
      one, more := PullNext(folder, db, local, ns, i, prefix, faults, start, downloads);
      if one.Err? {
        return Err(one.error), downloads;
      }
      synced := synced + one.value;
      downloads := downloads + more;
      i := i + 1;
    }
    assert ns[..i] == ns && Pulled(ns, prefix, start, Snapshot(db, local, folder), downloads);
    DoneIsMoment(ns, prefix, start, downloads);
    return Ok(synced), downloads;
  }

  lemma NothingPulled(ns: seq<Node>, prefix: string, st: Local)
    ensures Pulled(ns[..0], prefix, st, st, {}) && Moment(ns, prefix, st, st)
  {
  }

  /** One turn of the loop; `start` and `downloads` are where the loop began and
      what it has downloaded. */
  method PullNext(
      folder: FolderId, db: StateDb, local: LocalFiles, ns: seq<Node>, i: nat, prefix: string, faults: Faults,
      ghost start: Local, ghost downloads: set<string>)
    returns (r: Result<nat, SyncError>, ghost more: set<string>)
    requires TreeOk(ns) && i < |ns| && IsDir(start.files, prefix)
    requires Pulled(ns[..i], prefix, start, Snapshot(db, local, folder), downloads)
    modifies db`rows, local, faults
    ensures if r.Ok? then faults.count == old(faults.count)
            else faults.count > old(faults.count) || !Clear(ns, prefix, start.files)
    ensures r.Ok? ==> Pulled(ns[..i + 1], prefix, start, Snapshot(db, local, folder), downloads + more)
    ensures r.Ok? ==> |downloads| + r.value == |downloads + more|
    ensures r.Err? ==> Moment(ns, prefix, start, Snapshot(db, local, folder))
    ensures forall g :: g != folder ==> db.TableOf(g) == old(db.TableOf(g))
    decreases ns, 0
  {
    ghost var before := Snapshot(db, local, folder);
    var path := JoinPath(prefix, ns[i].name);
    NodeOfTree(ns, i);
    ParentOfJoin(prefix, ns[i].name);
    PulledKeepsParent(ns, i, prefix, start, before, downloads);
    if Clear(ns, prefix, start.files) {
      StillClear(ns, i, prefix, start, before, downloads);
    }
    r, more := PullChild(folder, db, local, ns[i], path, faults);
    if r.Ok? {
      ExtendPull(ns, i, prefix, start, before, Snapshot(db, local, folder), downloads, more);
    } else {
      MomentAt(ns, i, prefix, start, downloads, Snapshot(db, local, folder));
    }
  }

  lemma ChildFilesApart(ns: seq<Node>, i: nat, prefix: string)
    requires TreeOk(ns) && i < |ns|
    ensures NodeFiles(ns[i], JoinPath(prefix, ns[i].name)) !! FilePaths(ns[..i], prefix)
  {
    var path := JoinPath(prefix, ns[i].name);
    FilePathsAreTreePaths(ns[..i], prefix);
    if ns[i].Folder? {
      FilePathsAreTreePaths(ns[i].children, path);
    }
    forall p | p in NodeFiles(ns[i], path) ensures p !in FilePaths(ns[..i], prefix) {
      assert p in NodePaths(ns[i], path);
      EarlierApart(ns, i, prefix, p);
    }
  }

  /** The decisions for one more child complete those made before it. */
  lemma ExtendPull(
      ns: seq<Node>, i: nat, prefix: string, start: Local, mid: Local, end: Local,
      downloads: set<string>, more: set<string>)
    requires TreeOk(ns) && i < |ns| && Pulled(ns[..i], prefix, start, mid, downloads)
    requires var path := JoinPath(prefix, ns[i].name);
      more <= NodeFiles(ns[i], path) && LegalNode(ns[i], path, mid, more) && end == PullNode(ns[i], path, mid, more)
    ensures Pulled(ns[..i + 1], prefix, start, end, downloads + more)
    ensures |downloads + more| == |downloads| + |more|
  {
    var n := ns[i];
    var path := JoinPath(prefix, n.name);
    var all := downloads + more;
    ChildFilesApart(ns, i, prefix);
    DownloadsElsewhere(ns[..i], prefix, start, downloads, all);
    NodeDownloadsElsewhere(n, path, mid, more, all);
    assert ns[..i + 1] == ns[..i] + [n];
    PullSnoc(ns[..i], n, prefix, start, all);
  }

  method PullChild(folder: FolderId, db: StateDb, local: LocalFiles, n: Node, path: string, faults: Faults)
    returns (r: Result<nat, SyncError>, ghost downloads: set<string>)
    requires (n.Folder? ==> TreeOk(n.children)) && path != "" && IsDir(local.nodes, ParentPath(path))
    modifies db`rows, local, faults
    ensures if r.Ok? then faults.count == old(faults.count)
            else faults.count > old(faults.count) || !ClearNode(n, path, old(local.nodes))
    ensures r.Ok? ==> Snapshot(db, local, folder) == PullNode(n, path, old(Snapshot(db, local, folder)), downloads)
    ensures r.Ok? ==> LegalNode(n, path, old(Snapshot(db, local, folder)), downloads)
    ensures r.Ok? ==> downloads <= NodeFiles(n, path) && r.value == |downloads|
    ensures r.Err? ==> MomentOfNode(n, path, old(Snapshot(db, local, folder)), Snapshot(db, local, folder))
    ensures forall g :: g != folder ==> db.TableOf(g) == old(db.TableOf(g))
    decreases n, 0
  {
    if n.File? {
      r, downloads := PullFile(folder, db, local, n, path, faults);
      return;
    }
    var entered := EnterFolder(folder, db, local, n, path, faults);
    if !entered {
      return Err(Io), {};
    }
    PrefixApart(n.children, path);
    ClearFrame(n.children, path, old(local.nodes), local.nodes);
    r, downloads := InitialPull(folder, db, local, n.children, path, faults);
  }

  method EnterFolder(folder: FolderId, db: StateDb, local: LocalFiles, n: Node, path: string, faults: Faults)
    returns (ok: bool)
    requires n.Folder? && path != "" && IsDir(local.nodes, ParentPath(path))
    modifies db`rows, local, faults
    ensures if ok then faults.count == old(faults.count)
            else faults.count > old(faults.count) || !CanMakeDir(old(local.nodes), path)
    ensures ok ==>
      CanMakeDir(old(local.nodes), path)
      && Snapshot(db, local, folder) == Recorded(n, path, old(Snapshot(db, local, folder)), Dir)
    ensures !ok ==> MomentOfNode(n, path, old(Snapshot(db, local, folder)), Snapshot(db, local, folder))
    ensures forall g :: g != folder ==> db.TableOf(g) == old(db.TableOf(g))
  {
    ok := local.CreateDir(path, faults);
    if !ok {
      return;
    }
    ok := faults.Attempt();
    if !ok {
      return;
    }
    var now: int := *;
    ok := db.Upsert(folder, path, Entry(Some(n.id), true, Some(now), n.modified, None), faults);
  }

  /** Writes a downloaded file, then its row. */
  method StoreFile(folder: FolderId, db: StateDb, local: LocalFiles, n: Node, path: string, faults: Faults)
    returns (ok: bool)
    requires n.File?
    modifies db`rows, local, faults
    ensures if ok then faults.count == old(faults.count)
            else faults.count > old(faults.count) || !CanWrite(old(local.nodes), path)
    ensures ok ==>
      CanWrite(old(local.nodes), path)
      && Snapshot(db, local, folder) == Recorded(n, path, old(Snapshot(db, local, folder)), Data(n.content))
    ensures !ok ==>
      db.TableOf(folder) == old(db.TableOf(folder)) && PartlyWritten(old(local.nodes), path, local.nodes)
    ensures forall g :: g != folder ==> db.TableOf(g) == old(db.TableOf(g))
  {
    ok := local.Write(path, n.content, faults);
    if !ok {
      return;
    }
    WriteIsPartlyWritten(old(local.nodes), path, n.content);
    ok := faults.Attempt();
    if !ok {
      return;
    }
    var now: int := *;
    ok := db.Upsert(folder, path, Entry(Some(n.id), false, Some(now), n.modified, Some(n.md5)), faults);
  }

  lemma WriteIsPartlyWritten(files: Files, path: string, content: Content)
    requires CanWrite(files, path)
    ensures PartlyWritten(files, path, files[path := Data(content)])
  {
    assert files[path := Data(content)] - {path} == files - {path};
  }

  method PullFile(folder: FolderId, db: StateDb, local: LocalFiles, n: Node, path: string, faults: Faults)
    returns (r: Result<nat, SyncError>, ghost downloads: set<string>)
    requires n.File? && path != "" && IsDir(local.nodes, ParentPath(path))
    modifies db`rows, local, faults
    ensures if r.Ok? then faults.count == old(faults.count)
            else faults.count > old(faults.count) || !ClearNode(n, path, old(local.nodes))
    ensures r.Ok? ==> Snapshot(db, local, folder) == PullNode(n, path, old(Snapshot(db, local, folder)), downloads)
    ensures r.Ok? ==> LegalNode(n, path, old(Snapshot(db, local, folder)), downloads)
    ensures r.Ok? ==> downloads <= NodeFiles(n, path) && r.value == |downloads|
    ensures MomentOfNode(n, path, old(Snapshot(db, local, folder)), Snapshot(db, local, folder))
    ensures forall g :: g != folder ==> db.TableOf(g) == old(db.TableOf(g))
  {
    downloads := {};
    var found := db.FindByDriveId(folder, n.id, faults);
    if found.Err? {
      return Err(found.error), downloads;
    }
    if !NeedsDownload(found.value, path, n) {
      return Ok(0), downloads;
    }
    var received := faults.Attempt();
    if !received {
      return Err(Api), downloads;
    }
    var ok := StoreFile(folder, db, local, n, path, faults);
    if !ok {
      return Err(Io), downloads;
    }
    downloads := {path};
    return Ok(1), downloads;
  }
}
