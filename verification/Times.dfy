/** Modification times take part in no decision: pull and poll do the same to files
    and tables whatever the times say. */
module Times {
  import opened Common
  import opened Paths
  import opened SyncState
  import opened Pull
  import opened Poll

  // Everything with its modification times erased.

  function BareRow(row: Row): Row {
    row.(driveModified := None)
  }

  function BareTable(table: Table): Table {
    map p | p in table :: BareRow(table[p])
  }

  function Bare(st: Local): Local {
    Local(BareTable(st.table), st.files)
  }

  function BareNode(n: Node): Node
    decreases n, 1
  {
    match n
    case File(id, name, _, md5, content) => File(id, name, None, md5, content)
    case Folder(id, name, _, children) => Folder(id, name, None, BareTree(children))
  }

  function BareTree(ns: seq<Node>): seq<Node>
    decreases ns, 0
  {
    if ns == [] then [] else [BareNode(ns[0])] + BareTree(ns[1..])
  }

  function BareChange(c: Change): Change {
    c.(file := if c.file.Some? then Some(c.file.value.(modified := None)) else None)
  }

  function BareChanges(cs: seq<Change>): seq<Change> {
    seq(|cs|, i requires 0 <= i < |cs| => BareChange(cs[i]))
  }

  /** Some answer of the state table leads to this decision. */
  ghost predicate Decides(table: Table, n: Node, path: string, download: bool)
    requires n.File?
  {
    exists found :: AnswersFor(table, n.id, found) && NeedsDownload(found, path, n) == download
  }

  lemma AnswersWithoutTimes(table: Table, n: Node, path: string, download: bool)
    requires n.File?
    ensures Decides(table, n, path, download) <==> Decides(BareTable(table), BareNode(n), path, download)
  {
    assert forall p :: p in table ==> BareTable(table)[p].driveId == table[p].driveId;
    if found :| AnswersFor(table, n.id, found) && NeedsDownload(found, path, n) == download {
      var bare := if found.Some? then Some((found.value.0, BareRow(found.value.1))) else None;
      assert AnswersFor(BareTable(table), n.id, bare) && NeedsDownload(bare, path, BareNode(n)) == download;
    }
    if found :| AnswersFor(BareTable(table), n.id, found) && NeedsDownload(found, path, BareNode(n)) == download {
      var full := if found.Some? then Some((found.value.0, table[found.value.0])) else None;
      assert AnswersFor(table, n.id, full) && NeedsDownload(full, path, n) == download;
    }
  }

  lemma RecordedWithoutTimes(n: Node, path: string, st: Local, node: LocalNode)
    ensures Bare(Recorded(n, path, st, node)) == Recorded(BareNode(n), path, Bare(st), node)
  {
    assert BareTable(st.table[path := RowFor(n)]) == BareTable(st.table)[path := RowFor(BareNode(n))];
  }

  lemma NodeWithoutTimes(n: Node, path: string, st: Local, downloads: set<string>)
    ensures LegalNode(n, path, st, downloads) <==> LegalNode(BareNode(n), path, Bare(st), downloads)
    ensures Bare(PullNode(n, path, st, downloads)) == PullNode(BareNode(n), path, Bare(st), downloads)
    decreases n, 1
  {
    if n.File? {
      AnswersWithoutTimes(st.table, n, path, path in downloads);
      RecordedWithoutTimes(n, path, st, Data(n.content));
    } else {
      RecordedWithoutTimes(n, path, st, Dir);
      PullIgnoresTimes(n.children, path, Recorded(n, path, st, Dir), downloads);
    }
  }

  /** Which pulls can happen, what they download and where they end do not depend on
      modification times, remote or recorded. */
  lemma {:induction false} PullIgnoresTimes(ns: seq<Node>, prefix: string, st: Local, downloads: set<string>)
    ensures LegalTree(ns, prefix, st, downloads) <==> LegalTree(BareTree(ns), prefix, Bare(st), downloads)
    ensures Bare(PullTree(ns, prefix, st, downloads)) == PullTree(BareTree(ns), prefix, Bare(st), downloads)
    decreases ns, 0
  {
    if ns != [] {
      var top := JoinPath(prefix, ns[0].name);
      assert BareTree(ns)[0] == BareNode(ns[0]) && BareTree(ns)[1..] == BareTree(ns[1..]);
      NodeWithoutTimes(ns[0], top, st, downloads);
      PullIgnoresTimes(ns[1..], prefix, PullNode(ns[0], top, st, downloads), downloads);
    }
  }

  lemma FindWithoutTimes(table: Table, id: string)
    requires DistinctRows(table)
    ensures DistinctRows(BareTable(table)) && Find(BareTable(table), id) == Find(table, id)
  {
    var bare := BareTable(table);
    if p :| p in table && table[p].driveId == Some(id) {
      FindIs(table, id, p);
      FindIs(bare, id, p);
    } else {
      assert forall p :: p in bare ==> p in table && bare[p].driveId == table[p].driveId;
    }
  }

  lemma ChangeWithoutTimes(c: Change, st: Local, remote: Remote)
    requires DistinctRows(st.table)
    ensures CanApply(c, st) <==> CanApply(BareChange(c), Bare(st))
    ensures Bare(Apply(c, st, remote)) == Apply(BareChange(c), Bare(st), remote)
  {
    FindWithoutTimes(st.table, c.fileId);
    if Find(st.table, c.fileId).Some? {
      var q := Find(st.table, c.fileId).value;
      assert BareTable(st.table - {q}) == BareTable(st.table) - {q};
      if !Gone(c) {
        var row := UpdatedRow(c.file.value, st.table[q]);
        assert BareTable(st.table[q := row]) == BareTable(st.table)[q := BareRow(row)];
      }
    }
  }

  /** The same for polls. */
  lemma {:induction false} PollIgnoresTimes(cs: seq<Change>, st: Local, remote: Remote)
    requires ListOk(cs) && DistinctRows(st.table)
    ensures CanApplyAll(cs, st, remote) <==> CanApplyAll(BareChanges(cs), Bare(st), remote)
    ensures Bare(ApplyAll(cs, st, remote)) == ApplyAll(BareChanges(cs), Bare(st), remote)
  {
    if cs != [] {
      ChangeWithoutTimes(cs[0], st, remote);
      ApplyKeepsDistinct(cs[0], st, remote);
      assert BareChanges(cs)[1..] == BareChanges(cs[1..]);
      PollIgnoresTimes(cs[1..], Apply(cs[0], st, remote), remote);
    }
  }
}
