/** Applying remote changes, and replaying them after a failure. */
module Poll {
  import opened Common
  import opened Paths
  import opened SyncState

  /** File metadata inside a change. */
  datatype Meta = Meta(id: string, modified: Option<string>, md5: Option<string>, trashed: bool)

  datatype Change = Change(fileId: string, removed: bool, file: Option<Meta>)

  /** The content each file id downloads to; fixed between retries. */
  type Remote = string -> Content

  predicate Gone(c: Change) {
    c.removed || c.file.None? || c.file.value.trashed
  }

  /** One entry per file, and metadata that names the file it belongs to. */
  predicate ListOk(cs: seq<Change>) {
    && (forall i, j :: 0 <= i < j < |cs| ==> cs[i].fileId != cs[j].fileId)
    && (forall i :: 0 <= i < |cs| && cs[i].file.Some? ==> cs[i].file.value.id == cs[i].fileId)
  }

  predicate DistinctRows(table: Table) {
    forall p, q :: p in table && q in table && table[p].driveId.Some? && table[p].driveId == table[q].driveId ==> p == q
  }

  /** The row with a Drive id, which is unique in a table with distinct rows. */
  ghost function Find(table: Table, id: string): Option<string> {
    if exists p :: p in table && table[p].driveId == Some(id) then
      var p :| p in table && table[p].driveId == Some(id); Some(p)
    else None
  }

  function UpdatedRow(m: Meta, previous: Row): Row {
    Row(Some(m.id), previous.isFolder, m.modified, m.md5)
  }

  predicate Unchanged(c: Change, row: Row)
    requires !Gone(c)
  {
    c.file.value.md5 == row.md5
  }

  /** Whether the file system allows the change to be applied. */
  ghost predicate CanApply(c: Change, st: Local) {
    match Find(st.table, c.fileId)
    case None => true
    case Some(q) =>
      if Gone(c) then q in st.files ==> st.files[q].Dir? == st.table[q].isFolder
      else Unchanged(c, st.table[q]) || CanWrite(st.files, q)
  }

  function Removed(files: Files, path: string, isFolder: bool): Files {
    if path !in files then files else if isFolder then WithoutTree(files, path) else files - {path}
  }

  ghost function Apply(c: Change, st: Local, remote: Remote): Local {
    match Find(st.table, c.fileId)
    case None => st
    case Some(q) =>
      var row := st.table[q];
      if Gone(c) then Local(st.table - {q}, Removed(st.files, q, row.isFolder))
      else if Unchanged(c, row) then st
      else Local(st.table[q := UpdatedRow(c.file.value, row)], st.files[q := Data(remote(c.file.value.id))])
  }

  ghost predicate CanApplyAll(cs: seq<Change>, st: Local, remote: Remote) {
    cs == [] || (CanApply(cs[0], st) && CanApplyAll(cs[1..], Apply(cs[0], st, remote), remote))
  }

  ghost function ApplyAll(cs: seq<Change>, st: Local, remote: Remote): Local {
    if cs == [] then st else ApplyAll(cs[1..], Apply(cs[0], st, remote), remote)
  }

  /** What may be left when a change fails: files partly removed or written, or
      the files done and the row not. The row itself is written last. */
  ghost predicate Broken(c: Change, st: Local, st': Local) {
    && st'.table == st.table
    && (st'.files == st.files
        || (Find(st.table, c.fileId).Some?
            && var q := Find(st.table, c.fileId).value;
            if Gone(c) then
              q in st.files
              && (st'.files == Removed(st.files, q, st.table[q].isFolder)
                  || (st.table[q].isFolder && PartlyRemoved(st.files, q, st'.files)))
            else !Unchanged(c, st.table[q]) && PartlyWritten(st.files, q, st'.files)))
  }

  /** An attempt that applied `k` changes and then failed in the next one, or,
      with all of them applied, in saving the page token. */
  ghost predicate FailedAttempt(cs: seq<Change>, st: Local, remote: Remote, k: nat, st': Local) {
    && k <= |cs| && CanApplyAll(cs[..k], st, remote)
    && (if k < |cs| then Broken(cs[k], ApplyAll(cs[..k], st, remote), st') else st' == ApplyAll(cs, st, remote))
  }

  // ------------------------------------------------------------ one change

  lemma FindIs(table: Table, id: string, p: string)
    requires DistinctRows(table) && p in table && table[p].driveId == Some(id)
    ensures Find(table, id) == Some(p)
  {
  }

  lemma ApplyKeepsDistinct(c: Change, st: Local, remote: Remote)
    requires DistinctRows(st.table) && (c.file.Some? ==> c.file.value.id == c.fileId)
    ensures DistinctRows(Apply(c, st, remote).table)
  {
  }

  /** Nothing is left to do for the change. */
  ghost predicate Handled(c: Change, table: Table) {
    match Find(table, c.fileId)
    case None => true
    case Some(q) => !Gone(c) && Unchanged(c, table[q])
  }

  lemma ApplyHandles(c: Change, st: Local, remote: Remote)
    requires DistinctRows(st.table) && (c.file.Some? ==> c.file.value.id == c.fileId)
    ensures Handled(c, Apply(c, st, remote).table)
  {
    var end := Apply(c, st, remote);
    ApplyKeepsDistinct(c, st, remote);
    if Find(st.table, c.fileId).Some? && !Gone(c) {
      FindIs(end.table, c.fileId, Find(st.table, c.fileId).value);
    }
  }

  lemma OthersStayHandled(c: Change, other: Change, st: Local, remote: Remote)
    requires DistinctRows(st.table) && Handled(c, st.table) && c.fileId != other.fileId
    requires other.file.Some? ==> other.file.value.id == other.fileId
    ensures Handled(c, Apply(other, st, remote).table)
  {
    var end := Apply(other, st, remote);
    ApplyKeepsDistinct(other, st, remote);
    if Find(st.table, c.fileId).Some? {
      FindIs(end.table, c.fileId, Find(st.table, c.fileId).value);
    }
  }

  lemma HandledIsNoOp(c: Change, st: Local, remote: Remote)
    requires Handled(c, st.table)
    ensures CanApply(c, st) && Apply(c, st, remote) == st
  {
  }

  /** Doing a change again from what its failure left gives what doing it in one
      go gives. */
  lemma BrokenConverges(c: Change, st: Local, st': Local, remote: Remote)
    requires CanApply(c, st) && Broken(c, st, st')
    ensures CanApply(c, st') && Apply(c, st', remote) == Apply(c, st, remote)
  {
    if st'.files != st.files {
      var q := Find(st.table, c.fileId).value;
      if Gone(c) {
        assert WithoutTree(WithoutTree(st.files, q), q) == WithoutTree(st.files, q);
        if st.table[q].isFolder && PartlyRemoved(st.files, q, st'.files) && q in st'.files {
          assert WithoutTree(st'.files, q) == WithoutTree(st.files, q);
        }
      } else {
        ParentIsShorter(q);
        var p := ParentPath(q);
        assert p in st'.files <==> p in st'.files - {q};
        assert p in st.files <==> p in st.files - {q};
        assert p in st.files ==> st'.files[p] == (st'.files - {q})[p] == st.files[p];
        var data := Data(remote(c.file.value.id));
        assert st'.files[q := data] == (st'.files - {q})[q := data];
        assert st.files[q := data] == (st.files - {q})[q := data];
      }
    }
  }

  // ------------------------------------------------------------ whole lists

  lemma {:induction false} ApplyAllSplit(cs: seq<Change>, k: nat, st: Local, remote: Remote)
    requires k <= |cs|
    ensures ApplyAll(cs, st, remote) == ApplyAll(cs[k..], ApplyAll(cs[..k], st, remote), remote)
    ensures CanApplyAll(cs, st, remote) <==>
      CanApplyAll(cs[..k], st, remote) && CanApplyAll(cs[k..], ApplyAll(cs[..k], st, remote), remote)
  {
    if k > 0 {
      assert cs[..k][1..] == cs[1..][..k - 1] && cs[1..][k - 1..] == cs[k..];
      ApplyAllSplit(cs[1..], k - 1, Apply(cs[0], st, remote), remote);
    } else {
      assert cs[0..] == cs;
    }
  }

  lemma {:induction false} PrefixHandled(cs: seq<Change>, st: Local, remote: Remote)
    requires ListOk(cs) && DistinctRows(st.table)
    ensures DistinctRows(ApplyAll(cs, st, remote).table)
    ensures forall c :: c in cs ==> Handled(c, ApplyAll(cs, st, remote).table)
  {
    if cs != [] {
      ApplyKeepsDistinct(cs[0], st, remote);
      ApplyHandles(cs[0], st, remote);
      PrefixHandled(cs[1..], Apply(cs[0], st, remote), remote);
      AllStayHandled(cs[0], cs[1..], Apply(cs[0], st, remote), remote);
    }
  }

  lemma {:induction false} AllStayHandled(c: Change, cs: seq<Change>, st: Local, remote: Remote)
    requires ListOk(cs) && DistinctRows(st.table) && Handled(c, st.table)
    requires forall d :: d in cs ==> d.fileId != c.fileId
    ensures Handled(c, ApplyAll(cs, st, remote).table)
  {
    if cs != [] {
      ApplyKeepsDistinct(cs[0], st, remote);
      OthersStayHandled(c, cs[0], st, remote);
      AllStayHandled(c, cs[1..], Apply(cs[0], st, remote), remote);
    }
  }

  lemma {:induction false} AllHandledIsNoOp(cs: seq<Change>, st: Local, remote: Remote)
    requires forall c :: c in cs ==> Handled(c, st.table)
    ensures CanApplyAll(cs, st, remote) && ApplyAll(cs, st, remote) == st
  {
    if cs != [] {
      HandledIsNoOp(cs[0], st, remote);
      AllHandledIsNoOp(cs[1..], st, remote);
    }
  }

  /** A retry from the same page token after a failure at any point can run to
      its end and ends where one uninterrupted run would have. */
  lemma {:induction false} ReplayConverges(cs: seq<Change>, st: Local, remote: Remote, k: nat, st': Local)
    requires ListOk(cs) && DistinctRows(st.table) && CanApplyAll(cs, st, remote)
    requires FailedAttempt(cs, st, remote, k, st')
    ensures CanApplyAll(cs, st', remote) && ApplyAll(cs, st', remote) == ApplyAll(cs, st, remote)
    ensures DistinctRows(st'.table)
  {
    var mid := ApplyAll(cs[..k], st, remote);
    assert cs[..|cs|] == cs;
    PrefixHandled(cs[..k], st, remote);
    assert st'.table == mid.table;
    AllHandledIsNoOp(cs[..k], st', remote);
    ApplyAllSplit(cs, k, st, remote);
    ApplyAllSplit(cs, k, st', remote);
    if k < |cs| {
      BrokenConverges(cs[k], mid, st', remote);
    }
  }

  ghost predicate Succeeded(cs: seq<Change>, st: Local, remote: Remote, st': Local) {
    CanApplyAll(cs, st, remote) && st' == ApplyAll(cs, st, remote)
  }

  ghost predicate Failed(cs: seq<Change>, st: Local, remote: Remote, st': Local) {
    exists k :: FailedAttempt(cs, st, remote, k, st')
  }

  /** Failing before the first change is a failed attempt as well. */
  lemma NothingDone(cs: seq<Change>, st: Local, remote: Remote)
    ensures Failed(cs, st, remote, st)
  {
    assert cs[..0] == [];
    assert FailedAttempt(cs, st, remote, 0, st);
  }

  lemma SavingTokenFailed(cs: seq<Change>, st: Local, remote: Remote, st': Local)
    requires Succeeded(cs, st, remote, st')
    ensures Failed(cs, st, remote, st')
  {
    assert cs[..|cs|] == cs;
    assert FailedAttempt(cs, st, remote, |cs|, st');
  }

  /** However many attempts fail one after another, the first that succeeds ends
      where one uninterrupted run from the very beginning would have. */
  lemma {:induction false} RetriesConverge(cs: seq<Change>, remote: Remote, states: seq<Local>, end: Local)
    requires states != [] && ListOk(cs) && DistinctRows(states[0].table) && CanApplyAll(cs, states[0], remote)
    requires forall i :: 0 <= i < |states| - 1 ==> Failed(cs, states[i], remote, states[i + 1])
    requires Succeeded(cs, states[|states| - 1], remote, end)
    ensures Succeeded(cs, states[0], remote, end)
    decreases |states|
  {
    if |states| > 1 {
      assert Failed(cs, states[0], remote, states[1]);
      var k :| FailedAttempt(cs, states[0], remote, k, states[1]);
      ReplayConverges(cs, states[0], remote, k, states[1]);
      forall i | 0 <= i < |states[1..]| - 1 ensures Failed(cs, states[1..][i], remote, states[1..][i + 1]) {
        assert Failed(cs, states[i + 1], remote, states[i + 2]);
      }
      RetriesConverge(cs, remote, states[1..], end);
    }
  }

  // ------------------------------------------------- what a poll amounts to

  /** The row at `p` is about the file of change `c`. */
  predicate About(c: Change, table: Table, p: string) {
    p in table && table[p].driveId == Some(c.fileId)
  }

  /** The row a change makes of the row of its file: none when the file was removed,
      has no metadata any more or is in the trash, the same when the checksum is
      still the recorded one, and else the new metadata with the kind it had. */
  function RowAfter(c: Change, row: Row): Option<Row> {
    if c.removed || c.file.None? || c.file.value.trashed then None
    else if c.file.value.md5 == row.md5 then Some(row)
    else Some(Row(Some(c.file.value.id), row.isFolder, c.file.value.modified, c.file.value.md5))
  }

  /** What the list makes of the row at `p`, whatever the order of the changes. */
  predicate RowSettled(cs: seq<Change>, before: Table, after: Table, p: string) {
    && (forall i :: 0 <= i < |cs| && About(cs[i], before, p) ==> Lookup(after, p) == RowAfter(cs[i], before[p]))
    && ((forall i :: 0 <= i < |cs| ==> !About(cs[i], before, p)) ==>
          (p in before <==> p in after) && (p in before ==> after[p] == before[p]))
  }

  lemma ApplySettles(c: Change, st: Local, remote: Remote, p: string)
    requires DistinctRows(st.table)
    ensures var end := Apply(c, st, remote).table;
      if !About(c, st.table, p) then (p in st.table <==> p in end) && (p in st.table ==> end[p] == st.table[p])
      else Lookup(end, p) == RowAfter(c, st.table[p])
  {
    if About(c, st.table, p) {
      FindIs(st.table, c.fileId, p);
    }
  }

  /** After a successful poll, rows of removed files are gone, rows of changed
      files carry the remote checksum, and all other rows are as before. */
  lemma {:induction false} TableSettles(cs: seq<Change>, st: Local, remote: Remote, p: string)
    requires ListOk(cs) && DistinctRows(st.table)
    ensures RowSettled(cs, st.table, ApplyAll(cs, st, remote).table, p)
  {
    if cs != [] {
      var mid := Apply(cs[0], st, remote);
      ApplyKeepsDistinct(cs[0], st, remote);
      ApplySettles(cs[0], st, remote, p);
      TableSettles(cs[1..], mid, remote, p);
      var end := ApplyAll(cs, st, remote).table;
      if About(cs[0], st.table, p) {
        assert forall i :: 0 <= i < |cs[1..]| ==> cs[1..][i] == cs[i + 1] && !About(cs[1..][i], mid.table, p);
      } else {
        assert forall i :: 1 <= i < |cs| ==> cs[i] == cs[1..][i - 1];
        assert forall i :: 0 <= i < |cs[1..]| ==> cs[1..][i] == cs[i + 1];
      }
    }
  }

  // ------------------------------------------------------ and of its files

  /** The change removes `p`, either itself or with a folder above it. */
  predicate TakenBy(c: Change, st: Local, q: string, p: string) {
    && About(c, st.table, q) && RowAfter(c, st.table[q]).None? && q in st.files
    && (p == q || (st.table[q].isFolder && Under(q, p)))
  }

  ghost predicate Taken(cs: seq<Change>, st: Local, p: string) {
    exists i, q :: 0 <= i < |cs| && TakenBy(cs[i], st, q, p)
  }

  predicate Renews(c: Change, table: Table, p: string) {
    About(c, table, p) && RowAfter(c, table[p]).Some? && c.file.value.md5 != table[p].md5
  }

  predicate Renewed(cs: seq<Change>, table: Table, p: string) {
    exists i :: 0 <= i < |cs| && Renews(cs[i], table, p)
  }

  /** One change by itself. */
  lemma ApplyFiles(c: Change, st: Local, remote: Remote, p: string)
    requires DistinctRows(st.table) && CanApply(c, st) && (c.file.Some? ==> c.file.value.id == c.fileId)
    ensures var files := Apply(c, st, remote).files;
      && (p in files <==> (p in st.files || Renews(c, st.table, p)) && !Taken([c], st, p))
      && (p in files ==>
            files[p] == if Renews(c, st.table, p) then Data(remote(st.table[p].driveId.value)) else st.files[p])
  {
    if q :| About(c, st.table, q) {
      FindIs(st.table, c.fileId, q);
      assert Taken([c], st, p) <==> TakenBy(c, st, q, p) by {
        assert TakenBy(c, st, q, p) ==> TakenBy([c][0], st, q, p);
      }
    } else {
      assert Find(st.table, c.fileId).Some? ==> About(c, st.table, Find(st.table, c.fileId).value);
      assert !Taken([c], st, p);
    }
  }

  lemma RenewedStep(cs: seq<Change>, st: Local, remote: Remote, p: string)
    requires ListOk(cs) && cs != [] && DistinctRows(st.table)
    ensures Renewed(cs, st.table, p) <==>
      Renews(cs[0], st.table, p) || Renewed(cs[1..], Apply(cs[0], st, remote).table, p)
    ensures var mid := Apply(cs[0], st, remote).table;
      Renewed(cs[1..], mid, p) ==> p in st.table && mid[p] == st.table[p] && !About(cs[0], st.table, p)
  {
    var mid := Apply(cs[0], st, remote).table;
    ApplySettles(cs[0], st, remote, p);
    forall i | 1 <= i < |cs| ensures Renews(cs[i], st.table, p) == Renews(cs[1..][i - 1], mid, p) {
    }
    if Renewed(cs, st.table, p) {
      var i :| 0 <= i < |cs| && Renews(cs[i], st.table, p);
      assert i > 0 ==> Renews(cs[1..][i - 1], mid, p);
    }
    if j :| 0 <= j < |cs[1..]| && Renews(cs[1..][j], mid, p) {
      assert Renews(cs[j + 1], st.table, p);
    }
  }

  lemma TakenStep(cs: seq<Change>, st: Local, remote: Remote, p: string)
    requires ListOk(cs) && cs != [] && DistinctRows(st.table) && CanApply(cs[0], st)
    ensures Taken(cs, st, p) <==> Taken([cs[0]], st, p) || Taken(cs[1..], Apply(cs[0], st, remote), p)
  {
    var mid := Apply(cs[0], st, remote);
    if i, q :| 0 <= i < |cs| && TakenBy(cs[i], st, q, p) {
      if i == 0 {
        assert TakenBy([cs[0]][0], st, q, p);
      } else {
        TakenLater(cs, st, remote, p, i, q);
      }
    }
    if q :| TakenBy([cs[0]][0], st, q, p) {
      assert TakenBy(cs[0], st, q, p);
    }
    if j, q :| 0 <= j < |cs[1..]| && TakenBy(cs[1..][j], mid, q, p) {
      ApplySettles(cs[0], st, remote, q);
      ApplyFiles(cs[0], st, remote, q);
      assert cs[1..][j] == cs[j + 1];
      assert TakenBy(cs[j + 1], st, q, p);
    }
  }

  /** What a later change takes, it still takes, unless the first takes it already. */
  lemma TakenLater(cs: seq<Change>, st: Local, remote: Remote, p: string, i: nat, q: string)
    requires ListOk(cs) && 0 < i < |cs| && DistinctRows(st.table) && CanApply(cs[0], st)
    requires TakenBy(cs[i], st, q, p)
    ensures Taken([cs[0]], st, p) || Taken(cs[1..], Apply(cs[0], st, remote), p)
  {
    ApplySettles(cs[0], st, remote, q);
    ApplyFiles(cs[0], st, remote, q);
    if Taken([cs[0]], st, q) {
      var above :| TakenBy([cs[0]][0], st, above, q);
      assert above != q;
      if p != q {
        UnderTransitive(above, q, p);
      }
      assert TakenBy([cs[0]][0], st, above, p);
    } else {
      assert TakenBy(cs[1..][i - 1], Apply(cs[0], st, remote), q, p);
    }
  }

  /** A poll makes no directories, so a file without one is not written. */
  lemma {:induction false} OrphanIsNotRenewed(cs: seq<Change>, st: Local, remote: Remote, p: string)
    requires ListOk(cs) && DistinctRows(st.table) && CanApplyAll(cs, st, remote)
    requires !IsDir(st.files, ParentPath(p))
    ensures !Renewed(cs, st.table, p)
  {
    if cs != [] {
      ApplyKeepsDistinct(cs[0], st, remote);
      RenewedStep(cs, st, remote, p);
      ApplyFiles(cs[0], st, remote, ParentPath(p));
      if About(cs[0], st.table, p) {
        FindIs(st.table, cs[0].fileId, p);
      }
      OrphanIsNotRenewed(cs[1..], Apply(cs[0], st, remote), remote, p);
    }
  }

  /** The files after a poll, exactly: a file is there if it was there or was
      downloaded, and neither it nor a folder above it was removed; downloaded
      files have the remote content and all others are as before. */
  lemma {:induction false} FilesSettle(cs: seq<Change>, st: Local, remote: Remote, p: string)
    requires ListOk(cs) && DistinctRows(st.table) && CanApplyAll(cs, st, remote) && "" !in st.table
    ensures var files := ApplyAll(cs, st, remote).files;
      && (p in files <==> (p in st.files || Renewed(cs, st.table, p)) && !Taken(cs, st, p))
      && (p in files ==>
            files[p] == if Renewed(cs, st.table, p) then Data(remote(st.table[p].driveId.value)) else st.files[p])
  {
    if cs != [] {
      var mid := Apply(cs[0], st, remote);
      ApplyKeepsDistinct(cs[0], st, remote);
      ApplySettles(cs[0], st, remote, "");
      RenewedStep(cs, st, remote, p);
      TakenStep(cs, st, remote, p);
      ApplyFiles(cs[0], st, remote, p);
      FilesSettle(cs[1..], mid, remote, p);
      if Taken([cs[0]], st, p) && Renewed(cs[1..], mid.table, p) {
        var q :| TakenBy([cs[0]][0], st, q, p);
        ParentUnder(q, p);
        assert TakenBy([cs[0]][0], st, q, ParentPath(p));
        ApplyFiles(cs[0], st, remote, ParentPath(p));
        OrphanIsNotRenewed(cs[1..], mid, remote, p);
      }
    }
  }

  // ------------------------------------------------ said in a change's own words

  predicate SaysRemoved(c: Change) {
    c.removed || c.file == None || c.file.value.trashed
  }

  /** The folder with this id is on disk at `q`. */
  predicate FolderOf(st: Local, id: string, q: string) {
    q in st.table && st.table[q].driveId == Some(id) && st.table[q].isFolder && q in st.files
  }

  /** A successful poll has done what each entry of the list says. After a removal,
      also into the trash, no row has the file's id, and neither the file nor
      anything below the folder is left. */
  lemma RemovalIsDone(cs: seq<Change>, st: Local, remote: Remote, i: nat)
    requires ListOk(cs) && DistinctRows(st.table) && CanApplyAll(cs, st, remote) && "" !in st.table
    requires i < |cs| && SaysRemoved(cs[i])
    ensures var end := ApplyAll(cs, st, remote);
      && (forall p :: p in end.table ==> end.table[p].driveId != Some(cs[i].fileId))
      && (forall q :: q in st.table && st.table[q].driveId == Some(cs[i].fileId) ==> q !in end.files)
      && (forall q, p :: FolderOf(st, cs[i].fileId, q) && Under(q, p) ==> p !in end.files)
  {
    var end := ApplyAll(cs, st, remote);
    forall p | p in end.table ensures end.table[p].driveId != Some(cs[i].fileId) {
      RowsKeepIds(cs, st, remote, p);
      TableSettles(cs, st, remote, p);
      assert About(cs[i], st.table, p) ==> Lookup(end.table, p) == RowAfter(cs[i], st.table[p]);
    }
    forall q | q in st.table && st.table[q].driveId == Some(cs[i].fileId) ensures q !in end.files {
      FilesSettle(cs, st, remote, q);
      assert q in st.files ==> TakenBy(cs[i], st, q, q);
      assert forall j :: 0 <= j < |cs| && About(cs[j], st.table, q) ==> j == i;
    }
    forall q, p | FolderOf(st, cs[i].fileId, q) && Under(q, p) ensures p !in end.files {
      FilesSettle(cs, st, remote, p);
      assert TakenBy(cs[i], st, q, p);
    }
  }

  /** Rows never move to another id. */
  lemma RowsKeepIds(cs: seq<Change>, st: Local, remote: Remote, p: string)
    requires ListOk(cs) && DistinctRows(st.table)
    ensures var end := ApplyAll(cs, st, remote).table;
      p in end ==>
        p in st.table && end[p].driveId == st.table[p].driveId && end[p].isFolder == st.table[p].isFolder
  {
    TableSettles(cs, st, remote, p);
    if i :| 0 <= i < |cs| && About(cs[i], st.table, p) {
      assert Lookup(ApplyAll(cs, st, remote).table, p) == RowAfter(cs[i], st.table[p]);
    }
  }

  /** After an entry that is no removal the row is still there, of the same kind and
      with the checksum the entry gives; if that is new, so are the time and the
      content of the file. */
  lemma UpdateIsDone(cs: seq<Change>, st: Local, remote: Remote, i: nat, q: string)
    requires ListOk(cs) && DistinctRows(st.table) && CanApplyAll(cs, st, remote) && "" !in st.table
    requires i < |cs| && !cs[i].removed && cs[i].file.Some? && !cs[i].file.value.trashed
    requires q in st.table && st.table[q].driveId == Some(cs[i].fileId)
    ensures var end, m := ApplyAll(cs, st, remote), cs[i].file.value;
      && q in end.table && end.table[q].driveId == Some(cs[i].fileId)
      && end.table[q].isFolder == st.table[q].isFolder && end.table[q].md5 == m.md5
      && end.table[q].driveModified == (if m.md5 == st.table[q].md5 then st.table[q].driveModified else m.modified)
      && (q in end.files ==>
            if m.md5 == st.table[q].md5 then q in st.files && end.files[q] == st.files[q]
            else end.files[q] == Data(remote(cs[i].fileId)))
  {
    TableSettles(cs, st, remote, q);
    FilesSettle(cs, st, remote, q);
    assert About(cs[i], st.table, q);
    assert forall j :: 0 <= j < |cs| && About(cs[j], st.table, q) ==> j == i;
    assert Renewed(cs, st.table, q) <==> Renews(cs[i], st.table, q);
  }

  // -------------------------------------------------------- files and folders

  /** When rows tell files from folders, every removal can be carried out. */
  lemma RemovalCanBeDone(c: Change, st: Local)
    requires Telling(st) && SaysRemoved(c)
    ensures CanApply(c, st)
  {
    if q :| Find(st.table, c.fileId) == Some(q) {
      assert ToldAt(st, q);
    }
  }

  /** Exactly when rows still tell files from folders after a poll: no content may
      have been downloaded for a folder's row, unless it is gone again. */
  lemma PollStaysTelling(cs: seq<Change>, st: Local, remote: Remote)
    requires ListOk(cs) && DistinctRows(st.table) && CanApplyAll(cs, st, remote) && "" !in st.table && Telling(st)
    ensures Telling(ApplyAll(cs, st, remote)) <==>
      forall q :: Renewed(cs, st.table, q) && st.table[q].isFolder ==> Taken(cs, st, q)
  {
    var end := ApplyAll(cs, st, remote);
    forall p | p in st.table
      ensures (p in end.table ==> ToldAt(end, p)) <==>
        (Renewed(cs, st.table, p) && st.table[p].isFolder ==> Taken(cs, st, p))
    {
      RowsKeepIds(cs, st, remote, p);
      FilesSettle(cs, st, remote, p);
      if i :| 0 <= i < |cs| && Renews(cs[i], st.table, p) {
        UpdateIsDone(cs, st, remote, i, p);
      }
      assert ToldAt(st, p);
    }
    forall p | p in end.table ensures p in st.table {
      RowsKeepIds(cs, st, remote, p);
    }
  }

  /** Drive gives no checksums for folders, so no folder's row is renewed; then also
      every failed attempt leaves rows that tell files from folders. */
  lemma FailedAttemptStaysTelling(cs: seq<Change>, st: Local, remote: Remote, k: nat, st': Local)
    requires ListOk(cs) && DistinctRows(st.table) && "" !in st.table && Telling(st)
    requires FailedAttempt(cs, st, remote, k, st')
    requires forall q :: Renewed(cs, st.table, q) ==> !st.table[q].isFolder
    ensures Telling(st')
  {
    var mid := ApplyAll(cs[..k], st, remote);
    forall q | Renewed(cs[..k], st.table, q) ensures Renewed(cs, st.table, q) {
      var i :| 0 <= i < |cs[..k]| && Renews(cs[..k][i], st.table, q);
      assert Renews(cs[i], st.table, q);
    }
    PollStaysTelling(cs[..k], st, remote);
    assert cs[..|cs|] == cs;
    if k < |cs| && st' != mid {
      PrefixHandled(cs[..k], st, remote);
      BrokenStaysTelling(cs, k, st, mid, remote, st');
    }
  }

  lemma BrokenStaysTelling(cs: seq<Change>, k: nat, st: Local, mid: Local, remote: Remote, st': Local)
    requires ListOk(cs) && DistinctRows(st.table) && k < |cs| && mid == ApplyAll(cs[..k], st, remote)
    requires Telling(mid) && Broken(cs[k], mid, st') && st' != mid
    requires forall q :: Renewed(cs, st.table, q) ==> !st.table[q].isFolder
    ensures Telling(st')
  {
    var q := Find(mid.table, cs[k].fileId).value;
    RowsKeepIds(cs[..k], st, remote, q);
    TableSettles(cs[..k], st, remote, q);
    assert forall i :: 0 <= i < k ==> !About(cs[..k][i], st.table, q);
    if !Gone(cs[k]) {
      assert Renews(cs[k], st.table, q);
      forall p | p in st'.table ensures ToldAt(st', p) {
        assert ToldAt(mid, p);
        assert p != q ==> (p in st'.files <==> p in st'.files - {q}) && (p in mid.files <==> p in mid.files - {q});
        assert p != q && p in st'.files ==> (st'.files - {q})[p] == (mid.files - {q})[p];
      }
    } else {
      forall p | p in st'.table ensures ToldAt(st', p) {
        assert ToldAt(mid, p);
      }
    }
  }

  /** A checksum for a folder that is missing on disk downloads a file in its place,
      under a row that still says folder. */
  lemma FolderRenewalMisleads(id: string, name: string, md5: string, remote: Remote)
    requires name != "" && SLASH !in name
    ensures var st := Local(map[name := Row(Some(id), true, None, None)], map[]);
      var cs := [Change(id, false, Some(Meta(id, None, Some(md5), false)))];
      && Telling(st) && CanApplyAll(cs, st, remote) && !Telling(ApplyAll(cs, st, remote))
  {
    var st := Local(map[name := Row(Some(id), true, None, None)], map[]);
    var cs := [Change(id, false, Some(Meta(id, None, Some(md5), false)))];
    ParentOfJoin("", name);
    FindIs(st.table, id, name);
    assert cs[1..] == [];
    assert !ToldAt(Apply(cs[0], st, remote), name);
  }
}
