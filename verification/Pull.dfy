/** The initial recursive pull of a Drive folder into the local root. */
module Pull {
  import opened Common
  import opened Paths
  import opened SyncState

  /** The remote tree as listings and downloads show it during one pull. */
  datatype Node =
    | File(id: string, name: string, modified: Option<string>, md5: string, content: Content)
    | Folder(id: string, name: string, modified: Option<string>, children: seq<Node>)

  function RowFor(n: Node): Row {
    Row(Some(n.id), n.Folder?, n.modified, if n.File? then Some(n.md5) else None)
  }

  /** Names are valid and siblings have different names, at every level. */
  predicate TreeOk(ns: seq<Node>) {
    ns == [] ||
    (ValidName(ns[0].name) && (ns[0].Folder? ==> TreeOk(ns[0].children))
     && (forall n :: n in ns[1..] ==> n.name != ns[0].name) && TreeOk(ns[1..]))
  }

  function NodePaths(n: Node, path: string): set<string>
    decreases n, 1
  {
    {path} + (if n.Folder? then TreePaths(n.children, path) else {})
  }

  function TreePaths(ns: seq<Node>, prefix: string): set<string>
    decreases ns, 0
  {
    if ns == [] then {}
    else NodePaths(ns[0], JoinPath(prefix, ns[0].name)) + TreePaths(ns[1..], prefix)
  }

  function FilePaths(ns: seq<Node>, prefix: string): set<string>
    decreases ns
  {
    if ns == [] then {}
    else
      var path := JoinPath(prefix, ns[0].name);
      (if ns[0].File? then {path} else FilePaths(ns[0].children, path)) + FilePaths(ns[1..], prefix)
  }

  /** Whether the row found for the file's id calls for a download. */
  predicate NeedsDownload(found: Option<(string, Row)>, path: string, n: Node)
    requires n.File?
  {
    match found
    case Some((at, row)) => at != path || row.md5 != Some(n.md5)
    case None => true
  }

  // ------------------------------------------------------- specification

  /** The node's row and its file or directory are in place. */
  function Recorded(n: Node, path: string, st: Local, node: LocalNode): Local {
    Local(st.table[path := RowFor(n)], st.files[path := node])
  }

  /** The outcome of a successful pull in which exactly the files at `downloads`
      were downloaded. */
  function PullNode(n: Node, path: string, st: Local, downloads: set<string>): Local
    decreases n, 1
  {
    match n
    case File(_, _, _, _, content) =>
      if path in downloads then Recorded(n, path, st, Data(content)) else st
    case Folder(_, _, _, children) =>
      PullTree(children, path, Recorded(n, path, st, Dir), downloads)
  }

  function PullTree(ns: seq<Node>, prefix: string, st: Local, downloads: set<string>): Local
    decreases ns, 0
  {
    if ns == [] then st
    else PullTree(ns[1..], prefix, PullNode(ns[0], JoinPath(prefix, ns[0].name), st, downloads), downloads)
  }

  /** A pull that can run to its end: each decision to download or to skip follows
      from some row that the state table could have returned for the file's id at
      that moment, and nothing local is in the way of what it writes. */
  ghost predicate LegalNode(n: Node, path: string, st: Local, downloads: set<string>)
    decreases n, 1
  {
    match n
    case File(id, _, _, _, _) =>
      && (exists found :: AnswersFor(st.table, id, found) && NeedsDownload(found, path, n) == (path in downloads))
      && (path in downloads ==> CanWrite(st.files, path))
    case Folder(_, _, _, children) =>
      CanMakeDir(st.files, path) && LegalTree(children, path, Recorded(n, path, st, Dir), downloads)
  }

  ghost predicate LegalTree(ns: seq<Node>, prefix: string, st: Local, downloads: set<string>)
    decreases ns, 0
  {
    ns == [] ||
    (LegalNode(ns[0], JoinPath(prefix, ns[0].name), st, downloads)
     && LegalTree(ns[1..], prefix, PullNode(ns[0], JoinPath(prefix, ns[0].name), st, downloads), downloads))
  }

  predicate RowMatches(table: Table, path: string, n: Node)
    requires n.File?
  {
    path in table && table[path].driveId == Some(n.id) && table[path].md5 == Some(n.md5)
  }

  /** Every remote file has a row with its id and checksum and a local file with
      its content; every remote folder has its row and a local directory. */
  predicate Agrees(ns: seq<Node>, prefix: string, st: Local)
    decreases ns
  {
    ns == [] ||
    var n := ns[0];
    var path := JoinPath(prefix, n.name);
    && path in st.table && path in st.files
    && st.table[path].driveId == Some(n.id)
    && (n.File? ==> st.table[path].md5 == Some(n.md5) && st.files[path] == Data(n.content))
    && (n.Folder? ==> st.table[path] == Row(Some(n.id), true, n.modified, None) && st.files[path] == Dir)
    && (n.Folder? ==> Agrees(n.children, path, st))
    && Agrees(ns[1..], prefix, st)
  }

  /** A row that already has a file's id and checksum tells the truth about the
      local file. */
  predicate Ready(ns: seq<Node>, prefix: string, st: Local)
    decreases ns
  {
    ns == [] ||
    var n := ns[0];
    var path := JoinPath(prefix, n.name);
    && (n.File? && RowMatches(st.table, path, n) ==> path in st.files && st.files[path] == Data(n.content))
    && (n.Folder? ==> Ready(n.children, path, st))
    && Ready(ns[1..], prefix, st)
  }

  predicate SameAt(a: Local, b: Local, path: string) {
    && (path in a.table <==> path in b.table) && (path in a.table ==> a.table[path] == b.table[path])
    && (path in a.files <==> path in b.files) && (path in a.files ==> a.files[path] == b.files[path])
  }

  // ------------------------------------------------------ paths of a tree

  lemma {:induction false} TreePathsUnder(ns: seq<Node>, prefix: string, path: string)
    requires TreeOk(ns) && path in TreePaths(ns, prefix)
    ensures exists n :: n in ns && Under(JoinPath(prefix, n.name), path)
    ensures prefix != "" ==> Under(prefix, path) && path != prefix
    decreases ns
  {
    var n := ns[0];
    var top := JoinPath(prefix, n.name);
    if path in NodePaths(n, top) {
      if path != top {
        TreePathsUnder(n.children, top, path);
      }
      assert Under(top, path);
      if prefix != "" {
        JoinIsUnder(prefix, n.name);
        UnderTransitive(prefix, top, path);
      }
    } else {
      TreePathsUnder(ns[1..], prefix, path);
    }
  }

  /** Different nodes have different paths: a node's paths are apart from those
      of its later siblings, and a folder's own path from those inside it. */
  lemma SiblingsApart(ns: seq<Node>, prefix: string, path: string)
    requires TreeOk(ns) && ns != [] && path in NodePaths(ns[0], JoinPath(prefix, ns[0].name))
    ensures path !in TreePaths(ns[1..], prefix)
  {
    var n := ns[0];
    var top := JoinPath(prefix, n.name);
    if path != top {
      TreePathsUnder(n.children, top, path);
    }
    if path in TreePaths(ns[1..], prefix) {
      TreePathsUnder(ns[1..], prefix, path);
      var m :| m in ns[1..] && Under(JoinPath(prefix, m.name), path);
      ValidNames(ns[1..], m);
      ChildIsUnique(prefix, n.name, m.name, path);
    }
  }

  lemma {:induction false} ValidNames(ns: seq<Node>, n: Node)
    requires TreeOk(ns) && n in ns
    ensures ValidName(n.name)
  {
    if n != ns[0] {
      ValidNames(ns[1..], n);
    }
  }

  lemma PrefixApart(ns: seq<Node>, prefix: string)
    requires TreeOk(ns) && prefix != ""
    ensures prefix !in TreePaths(ns, prefix)
  {
    if prefix in TreePaths(ns, prefix) {
      TreePathsUnder(ns, prefix, prefix);
    }
  }

  /** Pulling one node leaves the directory it is in. */
  lemma ParentStays(ns: seq<Node>, prefix: string, st: Local, downloads: set<string>)
    requires TreeOk(ns) && ns != [] && IsDir(st.files, prefix)
    ensures IsDir(PullNode(ns[0], JoinPath(prefix, ns[0].name), st, downloads).files, prefix)
  {
    if prefix != "" {
      PrefixApart(ns, prefix);
      PullNodeFrame(ns[0], JoinPath(prefix, ns[0].name), st, downloads, prefix);
    }
  }

  // ------------------------------------------------------------ theorems

  /** A pull touches nothing outside the tree's paths. */
  lemma {:induction false} PullFrame(ns: seq<Node>, prefix: string, st: Local, downloads: set<string>, path: string)
    requires path !in TreePaths(ns, prefix)
    ensures SameAt(PullTree(ns, prefix, st, downloads), st, path)
    decreases ns
  {
    if ns != [] {
      var n := ns[0];
      var top := JoinPath(prefix, n.name);
      if n.Folder? {
        PullFrame(n.children, top, Recorded(n, top, st, Dir), downloads, path);
      }
      PullFrame(ns[1..], prefix, PullNode(n, top, st, downloads), downloads, path);
    }
  }

  lemma PullNodeFrame(n: Node, path: string, st: Local, downloads: set<string>, p: string)
    requires p !in NodePaths(n, path)
    ensures SameAt(PullNode(n, path, st, downloads), st, p)
  {
    if n.Folder? {
      PullFrame(n.children, path, Recorded(n, path, st, Dir), downloads, p);
    }
  }

  lemma {:induction false} AgreesFrame(ns: seq<Node>, prefix: string, a: Local, b: Local)
    requires Agrees(ns, prefix, a) && forall p :: p in TreePaths(ns, prefix) ==> SameAt(a, b, p)
    ensures Agrees(ns, prefix, b)
    decreases ns
  {
    if ns != [] {
      var top := JoinPath(prefix, ns[0].name);
      assert NodePaths(ns[0], top) <= TreePaths(ns, prefix);
      if ns[0].Folder? {
        AgreesFrame(ns[0].children, top, a, b);
      }
      AgreesFrame(ns[1..], prefix, a, b);
    }
  }

  lemma {:induction false} ReadyFrame(ns: seq<Node>, prefix: string, a: Local, b: Local)
    requires Ready(ns, prefix, a) && forall p :: p in TreePaths(ns, prefix) ==> SameAt(a, b, p)
    ensures Ready(ns, prefix, b)
    decreases ns
  {
    if ns != [] {
      var top := JoinPath(prefix, ns[0].name);
      assert NodePaths(ns[0], top) <= TreePaths(ns, prefix);
      if ns[0].Folder? {
        ReadyFrame(ns[0].children, top, a, b);
      }
      ReadyFrame(ns[1..], prefix, a, b);
    }
  }

  lemma NodeFrame(ns: seq<Node>, prefix: string, st: Local, downloads: set<string>)
    requires TreeOk(ns) && ns != []
    ensures forall p :: p in TreePaths(ns[1..], prefix) ==>
      SameAt(PullNode(ns[0], JoinPath(prefix, ns[0].name), st, downloads), st, p)
  {
    var n := ns[0];
    var top := JoinPath(prefix, n.name);
    forall p | p in TreePaths(ns[1..], prefix) ensures SameAt(PullNode(n, top, st, downloads), st, p) {
      if p in NodePaths(n, top) {
        SiblingsApart(ns, prefix, p);
      }
      PullNodeFrame(n, top, st, downloads, p);
    }
  }

  /** A successful pull leaves local root and state table in agreement with the
      remote tree, whichever matching rows the table returned. */
  lemma {:induction false} PullAgrees(ns: seq<Node>, prefix: string, st: Local, downloads: set<string>)
    requires TreeOk(ns) && Ready(ns, prefix, st) && LegalTree(ns, prefix, st, downloads)
    ensures Agrees(ns, prefix, PullTree(ns, prefix, st, downloads))
    decreases ns
  {
    if ns != [] {
      var n := ns[0];
      var top := JoinPath(prefix, n.name);
      var mid := PullNode(n, top, st, downloads);
      var end := PullTree(ns, prefix, st, downloads);
      NodeFrame(ns, prefix, st, downloads);
      ReadyFrame(ns[1..], prefix, st, mid);
      PullAgrees(ns[1..], prefix, mid, downloads);
      forall p | p in NodePaths(n, top) ensures SameAt(mid, end, p) {
        SiblingsApart(ns, prefix, p);
        PullFrame(ns[1..], prefix, mid, downloads, p);
      }
      if n.Folder? {
        var inside := Recorded(n, top, st, Dir);
        PrefixApart(n.children, top);
        ReadyFrame(n.children, top, st, inside);
        PullAgrees(n.children, top, inside, downloads);
        PullFrame(n.children, top, inside, downloads, top);
        AgreesFrame(n.children, top, mid, end);
      }
      assert SameAt(mid, end, top);
    }
  }

  /** What a pull writes down: each folder and each downloaded file is on disk and
      has a row with its id, kind, modification time and checksum. */
  predicate Accounted(ns: seq<Node>, prefix: string, downloads: set<string>, st: Local)
    decreases ns
  {
    ns == [] ||
    var n := ns[0];
    var path := JoinPath(prefix, n.name);
    && (n.Folder? || path in downloads ==> path in st.table && path in st.files)
    && (n.File? && path in downloads ==>
          st.table[path] == Row(Some(n.id), false, n.modified, Some(n.md5)) && st.files[path] == Data(n.content))
    && (n.Folder? ==> st.table[path] == Row(Some(n.id), true, n.modified, None) && st.files[path] == Dir)
    && (n.Folder? ==> Accounted(n.children, path, downloads, st))
    && Accounted(ns[1..], prefix, downloads, st)
  }

  lemma {:induction false} AccountedFrame(ns: seq<Node>, prefix: string, downloads: set<string>, a: Local, b: Local)
    requires Accounted(ns, prefix, downloads, a) && forall p :: p in TreePaths(ns, prefix) ==> SameAt(a, b, p)
    ensures Accounted(ns, prefix, downloads, b)
    decreases ns
  {
    if ns != [] {
      var top := JoinPath(prefix, ns[0].name);
      assert NodePaths(ns[0], top) <= TreePaths(ns, prefix);
      if ns[0].Folder? {
        AccountedFrame(ns[0].children, top, downloads, a, b);
      }
      AccountedFrame(ns[1..], prefix, downloads, a, b);
    }
  }

  lemma {:induction false} PullAccounts(ns: seq<Node>, prefix: string, st: Local, downloads: set<string>)
    requires TreeOk(ns)
    ensures Accounted(ns, prefix, downloads, PullTree(ns, prefix, st, downloads))
    decreases ns
  {
    if ns != [] {
      var n := ns[0];
      var top := JoinPath(prefix, n.name);
      var mid := PullNode(n, top, st, downloads);
      var end := PullTree(ns, prefix, st, downloads);
      PullAccounts(ns[1..], prefix, mid, downloads);
      forall p | p in NodePaths(n, top) ensures SameAt(mid, end, p) {
        SiblingsApart(ns, prefix, p);
        PullFrame(ns[1..], prefix, mid, downloads, p);
      }
      if n.Folder? {
        var inside := Recorded(n, top, st, Dir);
        PrefixApart(n.children, top);
        PullAccounts(n.children, top, inside, downloads);
        PullFrame(n.children, top, inside, downloads, top);
        AccountedFrame(n.children, top, downloads, mid, end);
      }
      assert SameAt(mid, end, top);
    }
  }

  /** After a pull the rows still tell files from folders. */
  lemma {:induction false} PullStaysTelling(ns: seq<Node>, prefix: string, st: Local, downloads: set<string>)
    requires Telling(st)
    ensures Telling(PullTree(ns, prefix, st, downloads))
    decreases ns
  {
    if ns != [] {
      var n := ns[0];
      var top := JoinPath(prefix, n.name);
      if n.Folder? {
        PullStaysTelling(n.children, top, Recorded(n, top, st, Dir), downloads);
      }
      PullStaysTelling(ns[1..], prefix, PullNode(n, top, st, downloads), downloads);
    }
  }

  /** The files a pull has to download under every answer: those without a
      matching row at their own path. */
  function Required(ns: seq<Node>, prefix: string, st: Local): set<string>
    decreases ns
  {
    if ns == [] then {}
    else
      var n := ns[0];
      var path := JoinPath(prefix, n.name);
      (if n.Folder? then Required(n.children, path, st)
       else if RowMatches(st.table, path, n) then {} else {path})
      + Required(ns[1..], prefix, st)
  }

  lemma {:induction false} FilePathsAreTreePaths(ns: seq<Node>, prefix: string)
    ensures FilePaths(ns, prefix) <= TreePaths(ns, prefix)
    decreases ns
  {
    if ns != [] {
      if ns[0].Folder? {
        FilePathsAreTreePaths(ns[0].children, JoinPath(prefix, ns[0].name));
      }
      FilePathsAreTreePaths(ns[1..], prefix);
    }
  }

  lemma {:induction false} RequiredAreFilePaths(ns: seq<Node>, prefix: string, st: Local)
    ensures Required(ns, prefix, st) <= FilePaths(ns, prefix)
    decreases ns
  {
    if ns != [] {
      if ns[0].Folder? {
        RequiredAreFilePaths(ns[0].children, JoinPath(prefix, ns[0].name), st);
      }
      RequiredAreFilePaths(ns[1..], prefix, st);
    }
  }

  /** Some answer always exists, and a row at the file's own path may be it. */
  lemma SomeAnswer(table: Table, path: string, n: Node) returns (found: Option<(string, Row)>)
    requires n.File?
    ensures AnswersFor(table, n.id, found)
    ensures RowMatches(table, path, n) <==> !NeedsDownload(found, path, n)
  {
    if RowMatches(table, path, n) {
      found := Some((path, table[path]));
    } else if exists p :: p in table && table[p].driveId == Some(n.id) {
      var p :| p in table && table[p].driveId == Some(n.id);
      found := Some((p, table[p]));
    } else {
      found := None;
    }
  }

  /** Nothing local is in the way: no file where a folder belongs, and no directory
      where a file has to be written. */
  predicate WritableNode(n: Node, path: string, st: Local)
    decreases n, 1
  {
    match n
    case File(_, _, _, _, _) => RowMatches(st.table, path, n) || path !in st.files || st.files[path].Data?
    case Folder(_, _, _, children) => CanMakeDir(st.files, path) && Writable(children, path, st)
  }

  predicate Writable(ns: seq<Node>, prefix: string, st: Local)
    decreases ns, 0
  {
    ns == [] || (WritableNode(ns[0], JoinPath(prefix, ns[0].name), st) && Writable(ns[1..], prefix, st))
  }

  lemma {:induction false} WritableFrame(ns: seq<Node>, prefix: string, a: Local, b: Local)
    requires forall p :: p in TreePaths(ns, prefix) ==> SameAt(a, b, p)
    ensures Writable(ns, prefix, a) == Writable(ns, prefix, b)
    decreases ns
  {
    if ns != [] {
      var top := JoinPath(prefix, ns[0].name);
      assert NodePaths(ns[0], top) <= TreePaths(ns, prefix);
      if ns[0].Folder? {
        WritableFrame(ns[0].children, top, a, b);
      }
      WritableFrame(ns[1..], prefix, a, b);
    }
  }

  lemma {:induction false} LegalIsWritable(ns: seq<Node>, prefix: string, st: Local, downloads: set<string>)
    requires TreeOk(ns) && LegalTree(ns, prefix, st, downloads)
    ensures Writable(ns, prefix, st)
    decreases ns, 0
  {
    if ns != [] {
      var n := ns[0];
      var top := JoinPath(prefix, n.name);
      LegalNodeIsWritable(n, top, st, downloads);
      NodeFrame(ns, prefix, st, downloads);
      LegalIsWritable(ns[1..], prefix, PullNode(n, top, st, downloads), downloads);
      WritableFrame(ns[1..], prefix, PullNode(n, top, st, downloads), st);
    }
  }

  lemma LegalNodeIsWritable(n: Node, path: string, st: Local, downloads: set<string>)
    requires (n.Folder? ==> TreeOk(n.children)) && path != "" && LegalNode(n, path, st, downloads)
    ensures WritableNode(n, path, st)
    decreases n, 1
  {
    if n.Folder? {
      PrefixApart(n.children, path);
      LegalIsWritable(n.children, path, Recorded(n, path, st, Dir), downloads);
      WritableFrame(n.children, path, Recorded(n, path, st, Dir), st);
    } else if path !in downloads {
      var found :| AnswersFor(st.table, n.id, found) && !NeedsDownload(found, path, n);
    }
  }

  /** Downloading just the required files is always a pull that can run. */
  lemma {:induction false} RequiredIsLegal(ns: seq<Node>, prefix: string, st: Local, downloads: set<string>)
    requires TreeOk(ns) && Writable(ns, prefix, st) && IsDir(st.files, prefix)
    requires downloads * FilePaths(ns, prefix) == Required(ns, prefix, st)
    ensures LegalTree(ns, prefix, st, downloads)
    decreases ns, 0
  {
    if ns != [] {
      var top := JoinPath(prefix, ns[0].name);
      var mid := PullNode(ns[0], top, st, downloads);
      RequiredSplit(ns, prefix, st, downloads);
      ParentOfJoin(prefix, ns[0].name);
      RequiredNodeIsLegal(ns[0], top, st, downloads);
      NodeFrame(ns, prefix, st, downloads);
      WritableFrame(ns[1..], prefix, st, mid);
      RequiredFrame(ns[1..], prefix, st, mid);
      ParentStays(ns, prefix, st, downloads);
      RequiredIsLegal(ns[1..], prefix, mid, downloads);
    }
  }

  lemma RequiredNodeIsLegal(n: Node, path: string, st: Local, downloads: set<string>)
    requires path != "" && WritableNode(n, path, st) && IsDir(st.files, ParentPath(path))
    requires n.File? ==> (path in downloads <==> !RowMatches(st.table, path, n))
    requires n.Folder? ==> TreeOk(n.children)
    requires n.Folder? ==> downloads * FilePaths(n.children, path) == Required(n.children, path, st)
    ensures LegalNode(n, path, st, downloads)
    decreases n, 1
  {
    if n.File? {
      var found := SomeAnswer(st.table, path, n);
    } else {
      var inside := Recorded(n, path, st, Dir);
      PrefixApart(n.children, path);
      WritableFrame(n.children, path, st, inside);
      RequiredFrame(n.children, path, st, inside);
      RequiredIsLegal(n.children, path, inside, downloads);
    }
  }

  lemma RequiredSplit(ns: seq<Node>, prefix: string, st: Local, downloads: set<string>)
    requires TreeOk(ns) && ns != [] && downloads * FilePaths(ns, prefix) == Required(ns, prefix, st)
    ensures var n := ns[0];
      var top := JoinPath(prefix, n.name);
      && downloads * FilePaths(ns[1..], prefix) == Required(ns[1..], prefix, st)
      && (n.File? ==> (top in downloads <==> !RowMatches(st.table, top, n)))
      && (n.Folder? ==> downloads * FilePaths(n.children, top) == Required(n.children, top, st))
  {
    var n := ns[0];
    var top := JoinPath(prefix, n.name);
    var headFiles := if n.File? then {top} else FilePaths(n.children, top);
    var headRequired :=
      if n.Folder? then Required(n.children, top, st)
      else if RowMatches(st.table, top, n) then {} else {top};
    if n.Folder? {
      FilePathsAreTreePaths(n.children, top);
      RequiredAreFilePaths(n.children, top, st);
    }
    FilePathsAreTreePaths(ns[1..], prefix);
    RequiredAreFilePaths(ns[1..], prefix, st);
    forall p | p in headFiles ensures p !in TreePaths(ns[1..], prefix) {
      SiblingsApart(ns, prefix, p);
    }
    assert downloads * headFiles == headRequired;
    assert downloads * FilePaths(ns[1..], prefix) == Required(ns[1..], prefix, st);
  }

  /** A file that is not downloaded keeps its local content. */
  lemma {:induction false} RequiredOnlyAgreesIfReady(
      ns: seq<Node>, prefix: string, st: Local, downloads: set<string>, end: Local)
    requires TreeOk(ns) && downloads * FilePaths(ns, prefix) == Required(ns, prefix, st)
    requires forall p :: p in FilePaths(ns, prefix) && p !in downloads ==> SameAt(st, end, p)
    requires Agrees(ns, prefix, end)
    ensures Ready(ns, prefix, st)
    decreases ns
  {
    if ns != [] {
      RequiredSplit(ns, prefix, st, downloads);
      if ns[0].Folder? {
        RequiredOnlyAgreesIfReady(ns[0].children, JoinPath(prefix, ns[0].name), st, downloads, end);
      }
      RequiredOnlyAgreesIfReady(ns[1..], prefix, st, downloads, end);
    }
  }

  lemma {:induction false} SkippedFilesUnchanged(
      ns: seq<Node>, prefix: string, st: Local, downloads: set<string>, path: string)
    requires TreeOk(ns) && path in FilePaths(ns, prefix) && path !in downloads
    ensures SameAt(PullTree(ns, prefix, st, downloads), st, path)
    decreases ns
  {
    var n := ns[0];
    var top := JoinPath(prefix, n.name);
    var mid := PullNode(n, top, st, downloads);
    if path in FilePaths(ns[1..], prefix) {
      FilePathsAreTreePaths(ns[1..], prefix);
      NodeFrame(ns, prefix, st, downloads);
      SkippedFilesUnchanged(ns[1..], prefix, mid, downloads, path);
    } else {
      if n.Folder? {
        FilePathsAreTreePaths(n.children, top);
        PrefixApart(n.children, top);
        SkippedFilesUnchanged(n.children, top, Recorded(n, top, st, Dir), downloads, path);
      }
      SiblingsApart(ns, prefix, path);
      PullFrame(ns[1..], prefix, mid, downloads, path);
    }
  }

  ghost predicate CanFinish(ns: seq<Node>, prefix: string, st: Local) {
    exists downloads: set<string> :: LegalTree(ns, prefix, st, downloads)
  }

  /** A pull can run to its end exactly if nothing local is in its way. */
  lemma CanFinishIffWritable(ns: seq<Node>, prefix: string, st: Local)
    requires TreeOk(ns) && IsDir(st.files, prefix)
    ensures CanFinish(ns, prefix, st) <==> Writable(ns, prefix, st)
  {
    if Writable(ns, prefix, st) {
      var downloads := RequiredPull(ns, prefix, st);
      assert LegalTree(ns, prefix, st, downloads);
    }
    if CanFinish(ns, prefix, st) {
      var downloads: set<string> :| LegalTree(ns, prefix, st, downloads);
      LegalIsWritable(ns, prefix, st, downloads);
    }
  }

  lemma RequiredPull(ns: seq<Node>, prefix: string, st: Local) returns (downloads: set<string>)
    requires TreeOk(ns) && Writable(ns, prefix, st) && IsDir(st.files, prefix)
    ensures downloads == Required(ns, prefix, st) && LegalTree(ns, prefix, st, downloads)
  {
    downloads := Required(ns, prefix, st);
    RequiredAreFilePaths(ns, prefix, st);
    assert downloads * FilePaths(ns, prefix) == downloads;
    RequiredIsLegal(ns, prefix, st, downloads);
  }

  /** Whatever rows the table returns, a pull that succeeds ends in agreement. */
  ghost predicate AlwaysAgrees(ns: seq<Node>, prefix: string, st: Local) {
    forall downloads: set<string> :: LegalTree(ns, prefix, st, downloads) ==>
      Agrees(ns, prefix, PullTree(ns, prefix, st, downloads))
  }

  lemma AlwaysAgreesMakesReady(ns: seq<Node>, prefix: string, st: Local)
    requires TreeOk(ns) && AlwaysAgrees(ns, prefix, st) && Writable(ns, prefix, st) && IsDir(st.files, prefix)
    ensures Ready(ns, prefix, st)
  {
    var downloads := RequiredPull(ns, prefix, st);
    var end := PullTree(ns, prefix, st, downloads);
    assert Agrees(ns, prefix, end);
    RequiredAreFilePaths(ns, prefix, st);
    assert downloads * FilePaths(ns, prefix) == downloads;
    forall p | p in FilePaths(ns, prefix) && p !in downloads ensures SameAt(st, end, p) {
      SkippedFilesUnchanged(ns, prefix, st, downloads, p);
    }
    RequiredOnlyAgreesIfReady(ns, prefix, st, downloads, end);
  }

  /** Exactly when every pull that succeeds ends in agreement: matching rows must
      describe the local files beforehand, unless something local is in the way,
      so that none can succeed. */
  lemma PullAgreesIffReady(ns: seq<Node>, prefix: string, st: Local)
    requires TreeOk(ns) && IsDir(st.files, prefix)
    ensures AlwaysAgrees(ns, prefix, st) <==> (Writable(ns, prefix, st) ==> Ready(ns, prefix, st))
  {
    forall downloads: set<string> | LegalTree(ns, prefix, st, downloads)
      ensures Writable(ns, prefix, st)
      ensures Ready(ns, prefix, st) ==> Agrees(ns, prefix, PullTree(ns, prefix, st, downloads))
    {
      LegalIsWritable(ns, prefix, st, downloads);
      if Ready(ns, prefix, st) {
        PullAgrees(ns, prefix, st, downloads);
      }
    }
    if AlwaysAgrees(ns, prefix, st) && Writable(ns, prefix, st) {
      AlwaysAgreesMakesReady(ns, prefix, st);
    }
  }

  /** A matching row hides that the local file is missing: the pull succeeds
      without it. */
  lemma MatchingRowHidesMissingFile(id: string, name: string, md5: string, content: Content)
    requires ValidName(name)
    ensures var tree := [File(id, name, None, md5, content)];
      var st := Local(map[name := Row(Some(id), false, None, Some(md5))], map[]);
      && TreeOk(tree) && !Ready(tree, "", st)
      && LegalTree(tree, "", st, {}) && !Agrees(tree, "", PullTree(tree, "", st, {}))
  {
    var tree := [File(id, name, None, md5, content)];
    var st := Local(map[name := Row(Some(id), false, None, Some(md5))], map[]);
    assert tree[1..] == [];
    assert AnswersFor(st.table, id, Some((name, st.table[name])));
    assert LegalNode(tree[0], name, st, {});
  }

  /** Rows whose checksums describe the local files are enough, provided equal
      checksums mean equal content. */
  lemma {:induction false} DescribedRowsAreReady(
      digest: Content -> string, ns: seq<Node>, prefix: string, st: Local)
    requires forall a, b :: digest(a) == digest(b) ==> a == b
    requires ChecksumsOf(digest, ns)
    requires forall p :: p in st.table && st.table[p].md5.Some? ==>
      p in st.files && st.files[p].Data? && digest(st.files[p].content) == st.table[p].md5.value
    ensures Ready(ns, prefix, st)
    decreases ns
  {
    if ns != [] {
      if ns[0].Folder? {
        DescribedRowsAreReady(digest, ns[0].children, JoinPath(prefix, ns[0].name), st);
      }
      DescribedRowsAreReady(digest, ns[1..], prefix, st);
    }
  }

  predicate ChecksumsOf(digest: Content -> string, ns: seq<Node>) {
    ns == [] ||
    (&& (ns[0].File? ==> ns[0].md5 == digest(ns[0].content))
     && (ns[0].Folder? ==> ChecksumsOf(digest, ns[0].children))
     && ChecksumsOf(digest, ns[1..]))
  }

  // --------------------------------------------------- pulling once more

  function TreeIds(ns: seq<Node>): set<string> {
    if ns == [] then {}
    else {ns[0].id} + (if ns[0].Folder? then TreeIds(ns[0].children) else {}) + TreeIds(ns[1..])
  }

  predicate DistinctIds(ns: seq<Node>) {
    ns == [] ||
    var inside := if ns[0].Folder? then TreeIds(ns[0].children) else {};
    && ns[0].id !in inside && (ns[0].Folder? ==> DistinctIds(ns[0].children))
    && ({ns[0].id} + inside) !! TreeIds(ns[1..]) && DistinctIds(ns[1..])
  }

  /** No row away from a file's own path carries the file's id. */
  predicate Sole(ns: seq<Node>, prefix: string, table: Table)
    decreases ns
  {
    ns == [] ||
    var n := ns[0];
    var path := JoinPath(prefix, n.name);
    && (n.File? ==> forall p :: p in table && table[p].driveId == Some(n.id) ==> p == path)
    && (n.Folder? ==> Sole(n.children, path, table))
    && Sole(ns[1..], prefix, table)
  }

  predicate NoneOf(table: Table, ids: set<string>) {
    forall p :: p in table && table[p].driveId.Some? ==> table[p].driveId.value !in ids
  }

  /** New rows carry ids of the tree. */
  lemma {:induction false} PullAddsTreeIds(ns: seq<Node>, prefix: string, st: Local, downloads: set<string>)
    ensures var end := PullTree(ns, prefix, st, downloads).table;
      forall p :: p in end ==>
        (p in st.table && end[p] == st.table[p]) || (end[p].driveId.Some? && end[p].driveId.value in TreeIds(ns))
    decreases ns
  {
    if ns != [] {
      var n := ns[0];
      var top := JoinPath(prefix, n.name);
      if n.Folder? {
        PullAddsTreeIds(n.children, top, Recorded(n, top, st, Dir), downloads);
      }
      PullAddsTreeIds(ns[1..], prefix, PullNode(n, top, st, downloads), downloads);
    }
  }

  lemma {:induction false} SoleKept(ns: seq<Node>, prefix: string, a: Table, b: Table)
    requires Sole(ns, prefix, a)
    requires forall p :: p in b && b[p].driveId.Some? && b[p].driveId.value in TreeIds(ns) ==>
      p in a && a[p] == b[p]
    ensures Sole(ns, prefix, b)
    decreases ns
  {
    if ns != [] {
      if ns[0].Folder? {
        SoleKept(ns[0].children, JoinPath(prefix, ns[0].name), a, b);
      }
      SoleKept(ns[1..], prefix, a, b);
    }
  }

  lemma {:induction false} PullMakesSole(ns: seq<Node>, prefix: string, st: Local, downloads: set<string>)
    requires DistinctIds(ns) && NoneOf(st.table, TreeIds(ns))
    ensures Sole(ns, prefix, PullTree(ns, prefix, st, downloads).table)
    decreases ns
  {
    if ns != [] {
      var n := ns[0];
      var top := JoinPath(prefix, n.name);
      var mid := PullNode(n, top, st, downloads);
      if n.Folder? {
        var inside := Recorded(n, top, st, Dir);
        PullMakesSole(n.children, top, inside, downloads);
        PullAddsTreeIds(n.children, top, inside, downloads);
      }
      PullAddsTreeIds(ns[1..], prefix, mid, downloads);
      PullMakesSole(ns[1..], prefix, mid, downloads);
      if n.Folder? {
        SoleKept(n.children, top, mid.table, PullTree(ns, prefix, st, downloads).table);
      }
    }
  }

  /** With agreement and no stray rows, a pull downloads and changes nothing. */
  lemma {:induction false} SettledPullIsQuiet(ns: seq<Node>, prefix: string, st: Local, downloads: set<string>)
    requires Agrees(ns, prefix, st) && Sole(ns, prefix, st.table) && LegalTree(ns, prefix, st, downloads)
    ensures downloads !! FilePaths(ns, prefix)
    ensures PullTree(ns, prefix, st, downloads) == st
    decreases ns
  {
    if ns != [] {
      var n := ns[0];
      var top := JoinPath(prefix, n.name);
      if n.Folder? {
        var inside := Recorded(n, top, st, Dir);
        assert inside == st;
        SettledPullIsQuiet(n.children, top, st, downloads);
      } else {
        var found :| AnswersFor(st.table, n.id, found) && NeedsDownload(found, top, n) == (top in downloads);
        assert found.Some?;
      }
      SettledPullIsQuiet(ns[1..], prefix, st, downloads);
    }
  }

  /** Pulling twice from a table without rows of this tree: the second pull
      downloads nothing and leaves rows and files alone. */
  lemma SecondPullIsQuiet(ns: seq<Node>, prefix: string, st: Local, first: set<string>, second: set<string>)
    requires TreeOk(ns) && DistinctIds(ns) && NoneOf(st.table, TreeIds(ns))
    requires LegalTree(ns, prefix, st, first)
    requires LegalTree(ns, prefix, PullTree(ns, prefix, st, first), second)
    ensures Agrees(ns, prefix, PullTree(ns, prefix, st, first))
    ensures second !! FilePaths(ns, prefix)
    ensures PullTree(ns, prefix, PullTree(ns, prefix, st, first), second) == PullTree(ns, prefix, st, first)
  {
    UnknownIdsAreReady(ns, prefix, st);
    PullAgrees(ns, prefix, st, first);
    PullMakesSole(ns, prefix, st, first);
    SettledPullIsQuiet(ns, prefix, PullTree(ns, prefix, st, first), second);
  }

  lemma {:induction false} UnknownIdsAreReady(ns: seq<Node>, prefix: string, st: Local)
    requires NoneOf(st.table, TreeIds(ns))
    ensures Ready(ns, prefix, st)
    decreases ns
  {
    if ns != [] {
      if ns[0].Folder? {
        UnknownIdsAreReady(ns[0].children, JoinPath(prefix, ns[0].name), st);
      }
      UnknownIdsAreReady(ns[1..], prefix, st);
    }
  }

  lemma {:induction false} RequiredFrame(ns: seq<Node>, prefix: string, a: Local, b: Local)
    requires forall p :: p in TreePaths(ns, prefix) ==> SameAt(a, b, p)
    ensures Required(ns, prefix, a) == Required(ns, prefix, b)
    decreases ns
  {
    if ns != [] {
      var top := JoinPath(prefix, ns[0].name);
      assert NodePaths(ns[0], top) <= TreePaths(ns, prefix);
      if ns[0].Folder? {
        RequiredFrame(ns[0].children, top, a, b);
      }
      RequiredFrame(ns[1..], prefix, a, b);
    }
  }

  /** Without stray rows a pull downloads exactly the files that need it. */
  lemma {:induction false} SoleDownloadsAreRequired(ns: seq<Node>, prefix: string, st: Local, downloads: set<string>)
    requires TreeOk(ns) && DistinctIds(ns) && Sole(ns, prefix, st.table) && LegalTree(ns, prefix, st, downloads)
    ensures downloads * FilePaths(ns, prefix) == Required(ns, prefix, st)
    decreases ns, 0
  {
    if ns != [] {
      var n := ns[0];
      var top := JoinPath(prefix, n.name);
      var mid := PullNode(n, top, st, downloads);
      SoleNodeDownloadsAreRequired(n, top, st, downloads);
      NodeFrame(ns, prefix, st, downloads);
      SoleAfterFirst(ns, prefix, st, downloads);
      SoleDownloadsAreRequired(ns[1..], prefix, mid, downloads);
      RequiredFrame(ns[1..], prefix, mid, st);
    }
  }

  lemma SoleAfterFirst(ns: seq<Node>, prefix: string, st: Local, downloads: set<string>)
    requires DistinctIds(ns) && Sole(ns, prefix, st.table) && ns != []
    ensures Sole(ns[1..], prefix, PullNode(ns[0], JoinPath(prefix, ns[0].name), st, downloads).table)
  {
    var n := ns[0];
    var top := JoinPath(prefix, n.name);
    if n.Folder? {
      PullAddsTreeIds(n.children, top, Recorded(n, top, st, Dir), downloads);
    }
    SoleKept(ns[1..], prefix, st.table, PullNode(n, top, st, downloads).table);
  }

  lemma SoleNodeDownloadsAreRequired(n: Node, path: string, st: Local, downloads: set<string>)
    requires path != "" && (n.Folder? ==> TreeOk(n.children) && DistinctIds(n.children) && n.id !in TreeIds(n.children))
    requires n.File? ==> forall p :: p in st.table && st.table[p].driveId == Some(n.id) ==> p == path
    requires (n.Folder? ==> Sole(n.children, path, st.table)) && LegalNode(n, path, st, downloads)
    ensures n.File? ==> (path in downloads <==> !RowMatches(st.table, path, n))
    ensures n.Folder? ==> downloads * FilePaths(n.children, path) == Required(n.children, path, st)
    decreases n, 1
  {
    if n.Folder? {
      var inside := Recorded(n, path, st, Dir);
      PrefixApart(n.children, path);
      SoleKept(n.children, path, st.table, inside.table);
      SoleDownloadsAreRequired(n.children, path, inside, downloads);
      RequiredFrame(n.children, path, inside, st);
    } else {
      var found :| AnswersFor(st.table, n.id, found) && NeedsDownload(found, path, n) == (path in downloads);
    }
  }
}
