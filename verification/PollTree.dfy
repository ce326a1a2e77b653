/** What a poll does to a tree that was pulled before. */
module PollTree {
  import opened Common
  import opened Paths
  import opened SyncState
  import opened Pull
  import opened Poll

  function ChangeFor(cs: seq<Change>, id: string): Option<Change> {
    if cs == [] then None else if cs[0].fileId == id then Some(cs[0]) else ChangeFor(cs[1..], id)
  }

  lemma {:induction false} ChangeForIs(cs: seq<Change>, id: string)
    ensures ChangeFor(cs, id).None? ==> forall i :: 0 <= i < |cs| ==> cs[i].fileId != id
    ensures ChangeFor(cs, id).Some? ==> exists i :: 0 <= i < |cs| && cs[i] == ChangeFor(cs, id).value
    ensures ChangeFor(cs, id).Some? ==> ChangeFor(cs, id).value.fileId == id
  {
    if cs != [] && cs[0].fileId != id {
      ChangeForIs(cs[1..], id);
      if ChangeFor(cs, id).Some? {
        var i :| 0 <= i < |cs[1..]| && cs[1..][i] == ChangeFor(cs[1..], id).value;
        assert cs[i + 1] == ChangeFor(cs, id).value;
      }
    }
  }

  /** The tree after the listed changes: removed nodes are gone with all below them,
      and files have the content and checksum that Drive now has. Folders keep the
      modification time they had, which nothing reads. */
  function Revised(ns: seq<Node>, cs: seq<Change>, remote: Remote): seq<Node>
    decreases ns, 0
  {
    if ns == [] then [] else RevisedNode(ns[0], cs, remote) + Revised(ns[1..], cs, remote)
  }

  function RevisedNode(n: Node, cs: seq<Change>, remote: Remote): seq<Node>
    decreases n, 1
  {
    var c := ChangeFor(cs, n.id);
    if c.Some? && Gone(c.value) then []
    else
      match n
      case Folder(id, name, modified, children) => [Folder(id, name, modified, Revised(children, cs, remote))]
      case File(id, name, _, md5, _) =>
        if c.None? || c.value.file.value.md5 == Some(md5) then [n]
        else
          var m := c.value.file.value;
          [File(id, name, m.modified, if m.md5.Some? then m.md5.value else "", remote(id))]
  }

  /** Changed files carry checksums and changed folders none. */
  predicate Described(ns: seq<Node>, cs: seq<Change>) {
    ns == [] ||
    var c := ChangeFor(cs, ns[0].id);
    && (c.Some? && !Gone(c.value) ==> c.value.file.value.md5.Some? == ns[0].File?)
    && (ns[0].Folder? ==> Described(ns[0].children, cs))
    && Described(ns[1..], cs)
  }

  /** A child is taken only by its own removal or together with its parent. */
  lemma ChildTaken(cs: seq<Change>, st: Local, prefix: string, name: string)
    requires ValidName(name) && "" !in st.table && Taken(cs, st, JoinPath(prefix, name))
    ensures (prefix != "" && Taken(cs, st, prefix))
         || exists i :: 0 <= i < |cs| && Gone(cs[i]) && About(cs[i], st.table, JoinPath(prefix, name))
  {
    var path := JoinPath(prefix, name);
    var i, q :| 0 <= i < |cs| && TakenBy(cs[i], st, q, path);
    if q != path {
      var before := |path| - |name|;
      assert forall j :: before <= j < |path| ==> path[j] == name[j - before];
      assert Under(q, path) && path[|q|] == SLASH;
      assert prefix != "" && |q| <= |prefix|;
      assert prefix[..|q|] == path[..|q|];
      assert |q| < |prefix| ==> prefix[|q|] == path[|q|];
      assert q == prefix || Under(q, prefix);
      assert TakenBy(cs[i], st, q, prefix);
    }
  }

  /** One node whose row and file agreed, and whose parent is still there. */
  lemma NodeAfterPoll(n: Node, prefix: string, cs: seq<Change>, st: Local, remote: Remote)
    requires ListOk(cs) && DistinctRows(st.table) && CanApplyAll(cs, st, remote) && "" !in st.table
    requires ValidName(n.name) && (prefix != "" ==> !Taken(cs, st, prefix))
    requires var path := JoinPath(prefix, n.name);
      path in st.table && path in st.files && st.table[path].driveId == Some(n.id)
    requires ChangeFor(cs, n.id).Some? ==> !Gone(ChangeFor(cs, n.id).value)
    ensures var path, end, c := JoinPath(prefix, n.name), ApplyAll(cs, st, remote), ChangeFor(cs, n.id);
      && !Taken(cs, st, path) && path in end.table && path in end.files
      && if c.None? || Unchanged(c.value, st.table[path]) then
           end.table[path] == st.table[path] && end.files[path] == st.files[path]
         else
           && c.value.file.value.id == n.id
           && end.table[path] == UpdatedRow(c.value.file.value, st.table[path])
           && end.files[path] == Data(remote(n.id))
  {
    var path := JoinPath(prefix, n.name);
    var c := ChangeFor(cs, n.id);
    ChangeForIs(cs, n.id);
    forall i | 0 <= i < |cs| && About(cs[i], st.table, path) ensures c == Some(cs[i]) {
    }
    if Taken(cs, st, path) {
      ChildTaken(cs, st, prefix, n.name);
    }
    TableSettles(cs, st, remote, path);
    FilesSettle(cs, st, remote, path);
    if c.Some? {
      var i :| 0 <= i < |cs| && cs[i] == c.value;
      assert About(cs[i], st.table, path);
      assert !Unchanged(c.value, st.table[path]) ==> Renews(cs[i], st.table, path);
    }
  }

  /** A poll carries agreement along: local files and rows that agreed with the tree
      agree with the revised tree afterwards. */
  lemma {:induction false} PollFollowsTree(ns: seq<Node>, prefix: string, cs: seq<Change>, st: Local, remote: Remote)
    requires TreeOk(ns) && Described(ns, cs) && Agrees(ns, prefix, st) && (prefix != "" ==> !Taken(cs, st, prefix))
    requires ListOk(cs) && DistinctRows(st.table) && CanApplyAll(cs, st, remote) && "" !in st.table
    ensures Agrees(Revised(ns, cs, remote), prefix, ApplyAll(cs, st, remote))
    decreases ns
  {
    if ns != [] {
      var n := ns[0];
      var end := ApplyAll(cs, st, remote);
      PollFollowsTree(ns[1..], prefix, cs, st, remote);
      var first := RevisedNode(n, cs, remote);
      if first == [] {
        assert first + Revised(ns[1..], cs, remote) == Revised(ns[1..], cs, remote);
      } else if n.File? {
        FileAfterPoll(n, prefix, cs, st, remote);
        AgreesCons(first[0], Revised(ns[1..], cs, remote), prefix, end);
      } else {
        NodeAfterPoll(n, prefix, cs, st, remote);
        PollFollowsTree(n.children, JoinPath(prefix, n.name), cs, st, remote);
        FolderAfterPoll(n, prefix, cs, st, remote);
        AgreesCons(first[0], Revised(ns[1..], cs, remote), prefix, end);
      }
    }
  }

  predicate NodeAgrees(n: Node, path: string, st: Local) {
    && path in st.table && path in st.files
    && st.table[path].driveId == Some(n.id)
    && (n.File? ==> st.table[path].md5 == Some(n.md5) && st.files[path] == Data(n.content))
    && (n.Folder? ==> st.table[path] == Row(Some(n.id), true, n.modified, None) && st.files[path] == Dir)
    && (n.Folder? ==> Agrees(n.children, path, st))
  }

  lemma AgreesCons(n: Node, ns: seq<Node>, prefix: string, st: Local)
    requires Agrees(ns, prefix, st) && NodeAgrees(n, JoinPath(prefix, n.name), st)
    ensures Agrees([n] + ns, prefix, st)
  {
    assert ([n] + ns)[1..] == ns;
  }

  lemma FileAfterPoll(n: Node, prefix: string, cs: seq<Change>, st: Local, remote: Remote)
    requires n.File? && NodeAgrees(n, JoinPath(prefix, n.name), st) && RevisedNode(n, cs, remote) != []
    requires ListOk(cs) && DistinctRows(st.table) && CanApplyAll(cs, st, remote) && "" !in st.table
    requires ValidName(n.name) && Described([n], cs) && (prefix != "" ==> !Taken(cs, st, prefix))
    ensures var first := RevisedNode(n, cs, remote);
      first == [first[0]] && NodeAgrees(first[0], JoinPath(prefix, first[0].name), ApplyAll(cs, st, remote))
  {
    NodeAfterPoll(n, prefix, cs, st, remote);
  }

  lemma FolderAfterPoll(n: Node, prefix: string, cs: seq<Change>, st: Local, remote: Remote)
    requires n.Folder? && NodeAgrees(n, JoinPath(prefix, n.name), st) && RevisedNode(n, cs, remote) != []
    requires ListOk(cs) && DistinctRows(st.table) && CanApplyAll(cs, st, remote) && "" !in st.table
    requires ValidName(n.name) && Described([n], cs) && (prefix != "" ==> !Taken(cs, st, prefix))
    requires Agrees(Revised(n.children, cs, remote), JoinPath(prefix, n.name), ApplyAll(cs, st, remote))
    ensures var first := RevisedNode(n, cs, remote);
      first == [first[0]] && NodeAgrees(first[0], JoinPath(prefix, first[0].name), ApplyAll(cs, st, remote))
  {
    NodeAfterPoll(n, prefix, cs, st, remote);
  }

  lemma {:induction false} AgreesMakesSole(ns: seq<Node>, prefix: string, st: Local)
    requires Agrees(ns, prefix, st) && DistinctRows(st.table)
    ensures Sole(ns, prefix, st.table)
    decreases ns
  {
    if ns != [] {
      if ns[0].Folder? {
        AgreesMakesSole(ns[0].children, JoinPath(prefix, ns[0].name), st);
      }
      AgreesMakesSole(ns[1..], prefix, st);
    }
  }

  /** So a pull after a poll has nothing left to do. */
  lemma {:induction false} PullAfterPollIsQuiet(
      ns: seq<Node>, cs: seq<Change>, st: Local, remote: Remote, downloads: set<string>)
    requires TreeOk(ns) && Described(ns, cs) && Agrees(ns, "", st)
    requires ListOk(cs) && DistinctRows(st.table) && CanApplyAll(cs, st, remote) && "" !in st.table
    requires LegalTree(Revised(ns, cs, remote), "", ApplyAll(cs, st, remote), downloads)
    ensures var end := ApplyAll(cs, st, remote);
      && downloads !! FilePaths(Revised(ns, cs, remote), "")
      && PullTree(Revised(ns, cs, remote), "", end, downloads) == end
  {
    PollFollowsTree(ns, "", cs, st, remote);
    PrefixHandled(cs, st, remote);
    AgreesMakesSole(Revised(ns, cs, remote), "", ApplyAll(cs, st, remote));
    SettledPullIsQuiet(Revised(ns, cs, remote), "", ApplyAll(cs, st, remote), downloads);
  }

  /** Whatever a pull has put in place can be removed again: from rows that told
      files from folders it makes a state in which the removal of any id can be
      carried out, and then nothing of the item is left. */
  lemma PulledItemCanBeRemoved(
      ns: seq<Node>, prefix: string, st: Local, downloads: set<string>, id: string, remote: Remote)
    requires Telling(st)
    ensures var end, removal := PullTree(ns, prefix, st, downloads), Change(id, true, None);
      && CanApply(removal, end)
      && (DistinctRows(end.table) && "" !in end.table ==>
            var after := ApplyAll([removal], end, remote);
            forall q :: q in end.table && end.table[q].driveId == Some(id) ==> q !in after.table && q !in after.files)
  {
    var end, removal := PullTree(ns, prefix, st, downloads), Change(id, true, None);
    PullStaysTelling(ns, prefix, st, downloads);
    RemovalCanBeDone(removal, end);
    if DistinctRows(end.table) && "" !in end.table {
      assert [removal][1..] == [];
      RemovalIsDone([removal], end, remote, 0);
      forall q | q in end.table && end.table[q].driveId == Some(id)
        ensures q !in ApplyAll([removal], end, remote).table
      {
        RowsKeepIds([removal], end, remote, q);
      }
    }
  }
}
