/** The states a pull goes through, in any of which it may fail or be aborted, and
    what they leave for the next pull. */
module PullMoments {
  import opened Common
  import opened Paths
  import opened SyncState
  import opened Pull

  /** `end` is the state at some moment of pulling the node, up to its last. */
  ghost predicate MomentOfNode(n: Node, path: string, st: Local, end: Local)
    decreases n, 1
  {
    end == st ||
    match n
    case File(id, _, _, _, content) =>
      && (exists found :: AnswersFor(st.table, id, found) && NeedsDownload(found, path, n))
      && ((end.table == st.table && PartlyWritten(st.files, path, end.files))
          || (CanWrite(st.files, path) && end == Recorded(n, path, st, Data(content))))
    case Folder(_, _, _, children) =>
      && CanMakeDir(st.files, path)
      && (end == Local(st.table, st.files[path := Dir]) || Moment(children, path, Recorded(n, path, st, Dir), end))
  }

  ghost predicate Moment(ns: seq<Node>, prefix: string, st: Local, end: Local)
    decreases ns, 0
  {
    end == st ||
    (ns != [] &&
     var top := JoinPath(prefix, ns[0].name);
     MomentOfNode(ns[0], top, st, end)
     || exists downloads: set<string> ::
          LegalNode(ns[0], top, st, downloads) && Moment(ns[1..], prefix, PullNode(ns[0], top, st, downloads), end))
  }

  lemma {:induction false} DoneIsMoment(ns: seq<Node>, prefix: string, st: Local, downloads: set<string>)
    requires LegalTree(ns, prefix, st, downloads)
    ensures Moment(ns, prefix, st, PullTree(ns, prefix, st, downloads))
    decreases ns
  {
    if ns != [] {
      DoneIsMoment(ns[1..], prefix, PullNode(ns[0], JoinPath(prefix, ns[0].name), st, downloads), downloads);
    }
  }

  lemma DoneIsMomentOfNode(n: Node, path: string, st: Local, downloads: set<string>)
    requires LegalNode(n, path, st, downloads)
    ensures MomentOfNode(n, path, st, PullNode(n, path, st, downloads))
  {
    if n.Folder? {
      DoneIsMoment(n.children, path, Recorded(n, path, st, Dir), downloads);
    }
  }

  /** Children done so far, and then some moment of the next child. */
  lemma {:induction false} MomentAt(
      ns: seq<Node>, i: nat, prefix: string, st: Local, downloads: set<string>, end: Local)
    requires i < |ns| && LegalTree(ns[..i], prefix, st, downloads)
    requires MomentOfNode(ns[i], JoinPath(prefix, ns[i].name), PullTree(ns[..i], prefix, st, downloads), end)
    ensures Moment(ns, prefix, st, end)
    decreases i
  {
    if i > 0 {
      assert ns[..i][1..] == ns[1..][..i - 1];
      var top := JoinPath(prefix, ns[0].name);
      assert LegalNode(ns[0], top, st, downloads);
      MomentAt(ns[1..], i - 1, prefix, PullNode(ns[0], top, st, downloads), downloads, end);
    }
  }

  // ------------------------------------------------------ what can change

  function NodeIds(n: Node): set<string> {
    {n.id} + if n.Folder? then TreeIds(n.children) else {}
  }

  predicate NodeOk(n: Node) {
    n.Folder? ==> TreeOk(n.children) && DistinctIds(n.children) && n.id !in TreeIds(n.children)
  }

  /** From `a` to `b` only `paths` changed and new rows carry one of `ids`. */
  ghost predicate ChangedWithin(a: Local, b: Local, paths: set<string>, ids: set<string>) {
    && (forall p :: p !in paths ==> SameAt(a, b, p))
    && (forall p :: p in b.table ==>
          (p in a.table && a.table[p] == b.table[p])
          || (b.table[p].driveId.Some? && b.table[p].driveId.value in ids))
  }

  lemma ChangedWithinTrans(
      a: Local, b: Local, c: Local, ps: set<string>, ids: set<string>, qs: set<string>, more: set<string>)
    requires ChangedWithin(a, b, ps, ids) && ChangedWithin(b, c, qs, more)
    ensures ChangedWithin(a, c, ps + qs, ids + more)
  {
    forall p | p !in ps + qs ensures SameAt(a, c, p) {
      assert SameAt(a, b, p) && SameAt(b, c, p);
    }
    forall p | p in c.table
      ensures (p in a.table && a.table[p] == c.table[p])
        || (c.table[p].driveId.Some? && c.table[p].driveId.value in ids + more)
    {
      if p in b.table && b.table[p] == c.table[p] {
        assert (p in a.table && a.table[p] == b.table[p]) || b.table[p].driveId.value in ids;
      }
    }
  }

  /** At every moment only the tree's own paths have changed. */
  lemma {:induction false} MomentChanges(ns: seq<Node>, prefix: string, st: Local, end: Local)
    requires Moment(ns, prefix, st, end)
    ensures ChangedWithin(st, end, TreePaths(ns, prefix), TreeIds(ns))
    decreases ns, 0
  {
    if end != st {
      var top := JoinPath(prefix, ns[0].name);
      if MomentOfNode(ns[0], top, st, end) {
        MomentOfNodeChanges(ns[0], top, st, end);
      } else {
        var downloads: set<string> :|
          LegalNode(ns[0], top, st, downloads) && Moment(ns[1..], prefix, PullNode(ns[0], top, st, downloads), end);
        var mid := PullNode(ns[0], top, st, downloads);
        DoneIsMomentOfNode(ns[0], top, st, downloads);
        MomentOfNodeChanges(ns[0], top, st, mid);
        MomentChanges(ns[1..], prefix, mid, end);
        ChangedWithinTrans(st, mid, end, NodePaths(ns[0], top), NodeIds(ns[0]), TreePaths(ns[1..], prefix),
                           TreeIds(ns[1..]));
      }
    }
  }

  lemma MomentOfNodeChanges(n: Node, path: string, st: Local, end: Local)
    requires MomentOfNode(n, path, st, end)
    ensures ChangedWithin(st, end, NodePaths(n, path), NodeIds(n))
    decreases n, 1
  {
    if end != st {
      if n.File? {
        FileMomentChanges(n, path, st, end);
      } else if end != Local(st.table, st.files[path := Dir]) {
        var inside := Recorded(n, path, st, Dir);
        MomentChanges(n.children, path, inside, end);
        ChangedWithinTrans(st, inside, end, {path}, {n.id}, TreePaths(n.children, path), TreeIds(n.children));
      }
    }
  }

  lemma FileMomentChanges(n: Node, path: string, st: Local, end: Local)
    requires n.File? && MomentOfNode(n, path, st, end)
    ensures ChangedWithin(st, end, {path}, {n.id})
  {
    PartlyWrittenElsewhere(st.files, path, end.files);
  }

  lemma PartlyWrittenElsewhere(before: Files, path: string, after: Files)
    ensures PartlyWritten(before, path, after) ==>
      forall p :: p != path ==> (p in before <==> p in after) && (p in before ==> before[p] == after[p])
  {
    if PartlyWritten(before, path, after) {
      forall p | p != path ensures (p in before <==> p in after) && (p in before ==> before[p] == after[p]) {
        assert p in after <==> p in after - {path};
        assert p in before <==> p in before - {path};
        assert p in after && p in before ==> after[p] == (after - {path})[p] == (before - {path})[p];
      }
    }
  }

  // -------------------------------------------------- a state kept for good

  predicate ReadyNode(n: Node, path: string, st: Local) {
    && (n.File? && RowMatches(st.table, path, n) ==> path in st.files && st.files[path] == Data(n.content))
    && (n.Folder? ==> Ready(n.children, path, st))
  }

  predicate SoleNode(n: Node, path: string, table: Table) {
    && (n.File? ==> forall p :: p in table && table[p].driveId == Some(n.id) ==> p == path)
    && (n.Folder? ==> Sole(n.children, path, table))
  }

  /** The next pull ends in agreement, and no row away from a file's path carries
      the file's id. */
  predicate Safe(ns: seq<Node>, prefix: string, st: Local) {
    Ready(ns, prefix, st) && Sole(ns, prefix, st.table)
  }

  predicate SafeNode(n: Node, path: string, st: Local) {
    ReadyNode(n, path, st) && SoleNode(n, path, st.table)
  }

  lemma SafeElsewhere(ns: seq<Node>, prefix: string, a: Local, b: Local, paths: set<string>, ids: set<string>)
    requires Safe(ns, prefix, a) && ChangedWithin(a, b, paths, ids)
    requires paths !! TreePaths(ns, prefix) && ids !! TreeIds(ns)
    ensures Safe(ns, prefix, b)
  {
    forall p | p in TreePaths(ns, prefix) ensures SameAt(a, b, p) {
    }
    ReadyFrame(ns, prefix, a, b);
    SoleKept(ns, prefix, a.table, b.table);
  }

  lemma NodeSafeElsewhere(n: Node, path: string, a: Local, b: Local, paths: set<string>, ids: set<string>)
    requires SafeNode(n, path, a) && ChangedWithin(a, b, paths, ids)
    requires paths !! NodePaths(n, path) && ids !! NodeIds(n)
    ensures SafeNode(n, path, b)
  {
    if n.Folder? {
      SafeElsewhere(n.children, path, a, b, paths, ids);
    } else {
      assert SameAt(a, b, path);
    }
  }

  lemma FirstApart(ns: seq<Node>, prefix: string)
    requires TreeOk(ns) && DistinctIds(ns) && ns != []
    ensures NodePaths(ns[0], JoinPath(prefix, ns[0].name)) !! TreePaths(ns[1..], prefix)
    ensures NodeIds(ns[0]) !! TreeIds(ns[1..])
    ensures NodeOk(ns[0]) && JoinPath(prefix, ns[0].name) != ""
  {
    forall p | p in NodePaths(ns[0], JoinPath(prefix, ns[0].name)) ensures p !in TreePaths(ns[1..], prefix) {
      SiblingsApart(ns, prefix, p);
    }
  }

  /** A safe state stays safe at every moment of a pull, so any number of pulls may
      fail one after another before one succeeds. */
  lemma {:induction false} SafeStays(ns: seq<Node>, prefix: string, st: Local, end: Local)
    requires TreeOk(ns) && DistinctIds(ns) && Safe(ns, prefix, st) && Moment(ns, prefix, st, end)
    ensures Safe(ns, prefix, end)
    decreases ns, 0
  {
    if end != st {
      var n := ns[0];
      var top := JoinPath(prefix, n.name);
      FirstApart(ns, prefix);
      if MomentOfNode(n, top, st, end) {
        SafeAfterFirst(ns, prefix, st, end);
      } else {
        var downloads: set<string> :|
          LegalNode(n, top, st, downloads) && Moment(ns[1..], prefix, PullNode(n, top, st, downloads), end);
        var mid := PullNode(n, top, st, downloads);
        DoneIsMomentOfNode(n, top, st, downloads);
        SafeAfterFirst(ns, prefix, st, mid);
        SafeStays(ns[1..], prefix, mid, end);
        MomentChanges(ns[1..], prefix, mid, end);
        NodeSafeElsewhere(n, top, mid, end, TreePaths(ns[1..], prefix), TreeIds(ns[1..]));
      }
    }
  }

  lemma SafeAfterFirst(ns: seq<Node>, prefix: string, st: Local, end: Local)
    requires TreeOk(ns) && DistinctIds(ns) && ns != [] && Safe(ns, prefix, st)
    requires MomentOfNode(ns[0], JoinPath(prefix, ns[0].name), st, end)
    ensures Safe(ns, prefix, end)
    decreases ns[0], 2
  {
    var top := JoinPath(prefix, ns[0].name);
    FirstApart(ns, prefix);
    SafeNodeStays(ns[0], top, st, end);
    MomentOfNodeChanges(ns[0], top, st, end);
    SafeElsewhere(ns[1..], prefix, st, end, NodePaths(ns[0], top), NodeIds(ns[0]));
  }

  lemma SafeNodeStays(n: Node, path: string, st: Local, end: Local)
    requires NodeOk(n) && path != "" && SafeNode(n, path, st) && MomentOfNode(n, path, st, end)
    ensures SafeNode(n, path, end)
    decreases n, 1
  {
    if end != st {
      if n.File? {
        MomentOfNodeChanges(n, path, st, end);
      } else {
        var inside := Recorded(n, path, st, Dir);
        PrefixApart(n.children, path);
        SafeInside(n, path, st);
        if end != Local(st.table, st.files[path := Dir]) {
          SafeStays(n.children, path, inside, end);
        }
      }
    }
  }

  lemma SafeInside(n: Node, path: string, st: Local)
    requires n.Folder? && NodeOk(n) && path != "" && Safe(n.children, path, st)
    ensures Safe(n.children, path, Local(st.table, st.files[path := Dir]))
    ensures Safe(n.children, path, Recorded(n, path, st, Dir))
  {
    PrefixApart(n.children, path);
    SafeElsewhere(n.children, path, st, Local(st.table, st.files[path := Dir]), {path}, {n.id});
    SafeElsewhere(n.children, path, st, Recorded(n, path, st, Dir), {path}, {n.id});
  }

  // ------------------------------------------------ exactly when it stays so

  /** Two things a pull should never upset: matching rows describe the content of
      their files, and rows tell files from folders. */
  datatype Aspect = Contents | Kinds

  predicate KindsTold(ns: seq<Node>, prefix: string, st: Local)
    decreases ns
  {
    ns == [] ||
    var path := JoinPath(prefix, ns[0].name);
    && ToldAt(st, path) && (ns[0].Folder? ==> KindsTold(ns[0].children, path, st))
    && KindsTold(ns[1..], prefix, st)
  }

  predicate Sound(ns: seq<Node>, prefix: string, st: Local, aspect: Aspect) {
    if aspect.Contents? then Ready(ns, prefix, st) else KindsTold(ns, prefix, st)
  }

  predicate SoundNode(n: Node, path: string, st: Local, aspect: Aspect) {
    if aspect.Contents? then ReadyNode(n, path, st)
    else ToldAt(st, path) && (n.Folder? ==> KindsTold(n.children, path, st))
  }

  lemma {:induction false} SoundFrame(ns: seq<Node>, prefix: string, a: Local, b: Local, aspect: Aspect)
    requires Sound(ns, prefix, a, aspect) && forall p :: p in TreePaths(ns, prefix) ==> SameAt(a, b, p)
    ensures Sound(ns, prefix, b, aspect)
    decreases ns
  {
    if aspect.Contents? {
      ReadyFrame(ns, prefix, a, b);
    } else if ns != [] {
      var top := JoinPath(prefix, ns[0].name);
      assert NodePaths(ns[0], top) <= TreePaths(ns, prefix);
      if ns[0].Folder? {
        SoundFrame(ns[0].children, top, a, b, aspect);
      }
      SoundFrame(ns[1..], prefix, a, b, aspect);
    }
  }

  lemma SoundNodeFrame(n: Node, path: string, a: Local, b: Local, aspect: Aspect)
    requires SoundNode(n, path, a, aspect) && forall p :: p in NodePaths(n, path) ==> SameAt(a, b, p)
    ensures SoundNode(n, path, b, aspect)
  {
    assert SameAt(a, b, path);
    if n.Folder? {
      SoundFrame(n.children, path, a, b, aspect);
    }
  }

  /** The file's row is the only one with its id, except where the pull will have
      written another row before it comes to the file. `passed` are the paths that
      come before. */
  predicate OnlyRow(n: Node, path: string, table: Table, passed: set<string>) {
    forall p :: p in table && table[p].driveId == Some(n.id) ==> p == path || p in passed
  }

  /** For contents, a file whose row matches must have no second row: it would start
      a download that can break off. For kinds, there must be no row of the other
      kind where nothing is on disk, unless the file will not be downloaded. */
  predicate GuardedNode(n: Node, path: string, st: Local, passed: set<string>, aspect: Aspect)
    decreases n, 1
  {
    var misleading := path in st.table && path !in st.files && st.table[path].isFolder != n.Folder?;
    match n
    case File(_, _, _, _, _) =>
      if aspect.Contents? then RowMatches(st.table, path, n) ==> OnlyRow(n, path, st.table, passed)
      else misleading ==> RowMatches(st.table, path, n) && OnlyRow(n, path, st.table, passed)
    case Folder(_, _, _, children) =>
      && (aspect.Kinds? ==> !misleading)
      && (CanMakeDir(st.files, path) ==> Guarded(children, path, st, passed + {path}, aspect))
  }

  /** The same for all files the pull can come to. */
  predicate Guarded(ns: seq<Node>, prefix: string, st: Local, passed: set<string>, aspect: Aspect)
    decreases ns, 0
  {
    ns == [] ||
    var top := JoinPath(prefix, ns[0].name);
    && GuardedNode(ns[0], top, st, passed, aspect)
    && (WritableNode(ns[0], top, st) ==> Guarded(ns[1..], prefix, st, passed + NodePaths(ns[0], top), aspect))
  }

  lemma {:induction false} GuardedFrame(
      ns: seq<Node>, prefix: string, a: Local, b: Local, passed: set<string>, aspect: Aspect)
    requires forall p :: p !in passed || p in TreePaths(ns, prefix) ==> SameAt(a, b, p)
    ensures Guarded(ns, prefix, a, passed, aspect) == Guarded(ns, prefix, b, passed, aspect)
    decreases ns, 0
  {
    if ns != [] {
      var top := JoinPath(prefix, ns[0].name);
      assert NodePaths(ns[0], top) <= TreePaths(ns, prefix);
      GuardedNodeFrame(ns[0], top, a, b, passed, aspect);
      if ns[0].Folder? {
        WritableFrame(ns[0].children, top, a, b);
      }
      GuardedFrame(ns[1..], prefix, a, b, passed + NodePaths(ns[0], top), aspect);
    }
  }

  lemma GuardedNodeFrame(n: Node, path: string, a: Local, b: Local, passed: set<string>, aspect: Aspect)
    requires forall p :: p !in passed || p in NodePaths(n, path) ==> SameAt(a, b, p)
    ensures GuardedNode(n, path, a, passed, aspect) == GuardedNode(n, path, b, passed, aspect)
    decreases n, 1
  {
    assert SameAt(a, b, path);
    if n.Folder? {
      GuardedFrame(n.children, path, a, b, passed + {path}, aspect);
    }
  }

  /** Rows at paths already passed carry none of the ids still to come. */
  predicate NoneLeft(passed: set<string>, table: Table, ids: set<string>) {
    forall p :: p in passed && p in table && table[p].driveId.Some? ==> table[p].driveId.value !in ids
  }

  /** A pulled node leaves rows with its own ids at all its paths. */
  lemma {:induction false} PullCovers(ns: seq<Node>, prefix: string, st: Local, downloads: set<string>, p: string)
    requires TreeOk(ns) && DistinctIds(ns) && LegalTree(ns, prefix, st, downloads) && p in TreePaths(ns, prefix)
    ensures var end := PullTree(ns, prefix, st, downloads).table;
      p in end && end[p].driveId.Some? && end[p].driveId.value in TreeIds(ns)
    decreases ns, 0
  {
    var top := JoinPath(prefix, ns[0].name);
    var mid := PullNode(ns[0], top, st, downloads);
    FirstApart(ns, prefix);
    if p in NodePaths(ns[0], top) {
      PullNodeCovers(ns[0], top, st, downloads, p);
      PullFrame(ns[1..], prefix, mid, downloads, p);
    } else {
      PullCovers(ns[1..], prefix, mid, downloads, p);
    }
  }

  lemma PullNodeCovers(n: Node, path: string, st: Local, downloads: set<string>, p: string)
    requires NodeOk(n) && path != "" && LegalNode(n, path, st, downloads) && p in NodePaths(n, path)
    ensures var end := PullNode(n, path, st, downloads).table;
      p in end && end[p].driveId.Some? && end[p].driveId.value in NodeIds(n)
    decreases n, 1
  {
    if n.Folder? {
      var inside := Recorded(n, path, st, Dir);
      PrefixApart(n.children, path);
      if p == path {
        PullFrame(n.children, path, inside, downloads, p);
      } else {
        PullCovers(n.children, path, inside, downloads, p);
      }
    } else if path !in downloads {
      var found :| AnswersFor(st.table, n.id, found) && !NeedsDownload(found, path, n);
    }
  }

  /** Once the first node is pulled, the condition for the rest is as before. */
  lemma GuardedAfterFirst(
      ns: seq<Node>, prefix: string, st: Local, downloads: set<string>, passed: set<string>, aspect: Aspect)
    requires TreeOk(ns) && DistinctIds(ns) && ns != []
    requires LegalNode(ns[0], JoinPath(prefix, ns[0].name), st, downloads) && NoneLeft(passed, st.table, TreeIds(ns))
    ensures var top := JoinPath(prefix, ns[0].name);
      var mid := PullNode(ns[0], top, st, downloads);
      var further := passed + NodePaths(ns[0], top);
      && NoneLeft(further, mid.table, TreeIds(ns[1..]))
      && Guarded(ns[1..], prefix, mid, further, aspect) == Guarded(ns[1..], prefix, st, further, aspect)
  {
    var top := JoinPath(prefix, ns[0].name);
    var mid := PullNode(ns[0], top, st, downloads);
    var further := passed + NodePaths(ns[0], top);
    FirstApart(ns, prefix);
    forall p ensures p !in NodePaths(ns[0], top) ==> SameAt(mid, st, p) {
      if p !in NodePaths(ns[0], top) {
        PullNodeFrame(ns[0], top, st, downloads, p);
      }
    }
    forall p | p in further && p in mid.table && mid.table[p].driveId.Some?
      ensures mid.table[p].driveId.value !in TreeIds(ns[1..])
    {
      if p in NodePaths(ns[0], top) {
        PullNodeCovers(ns[0], top, st, downloads, p);
      } else {
        assert SameAt(mid, st, p);
      }
    }
    GuardedFrame(ns[1..], prefix, mid, st, further, aspect);
  }

  lemma GuardedInside(n: Node, path: string, st: Local, passed: set<string>, aspect: Aspect)
    requires n.Folder? && NodeOk(n) && path != "" && NoneLeft(passed, st.table, NodeIds(n))
    ensures var inside := Recorded(n, path, st, Dir);
      && NoneLeft(passed + {path}, inside.table, TreeIds(n.children))
      && Guarded(n.children, path, inside, passed + {path}, aspect) ==
         Guarded(n.children, path, st, passed + {path}, aspect)
  {
    PrefixApart(n.children, path);
    GuardedFrame(n.children, path, Recorded(n, path, st, Dir), st, passed + {path}, aspect);
  }

  lemma {:induction false} GuardedStaysSound(
      ns: seq<Node>, prefix: string, st: Local, end: Local, passed: set<string>, aspect: Aspect)
    requires TreeOk(ns) && DistinctIds(ns) && Moment(ns, prefix, st, end) && NoneLeft(passed, st.table, TreeIds(ns))
    requires Sound(ns, prefix, st, aspect) && Guarded(ns, prefix, st, passed, aspect)
    ensures Sound(ns, prefix, end, aspect)
    decreases ns, 2
  {
    if end != st {
      var n := ns[0];
      var top := JoinPath(prefix, n.name);
      FirstApart(ns, prefix);
      if MomentOfNode(n, top, st, end) {
        GuardedNodeStaysSound(n, top, st, end, passed, aspect);
        MomentOfNodeChanges(n, top, st, end);
        SoundFrame(ns[1..], prefix, st, end, aspect);
      } else {
        var downloads: set<string> :|
          LegalNode(n, top, st, downloads) && Moment(ns[1..], prefix, PullNode(n, top, st, downloads), end);
        GuardedStepsOn(ns, prefix, st, end, passed, downloads, aspect);
      }
    }
  }

  lemma GuardedStepsOn(
      ns: seq<Node>, prefix: string, st: Local, end: Local, passed: set<string>, downloads: set<string>,
      aspect: Aspect)
    requires TreeOk(ns) && DistinctIds(ns) && ns != [] && NoneLeft(passed, st.table, TreeIds(ns))
    requires Sound(ns, prefix, st, aspect) && Guarded(ns, prefix, st, passed, aspect)
    requires var top := JoinPath(prefix, ns[0].name);
      LegalNode(ns[0], top, st, downloads) && Moment(ns[1..], prefix, PullNode(ns[0], top, st, downloads), end)
    ensures Sound(ns, prefix, end, aspect)
    decreases ns, 1
  {
    var n := ns[0];
    var top := JoinPath(prefix, n.name);
    var mid := PullNode(n, top, st, downloads);
    FirstApart(ns, prefix);
    DoneIsMomentOfNode(n, top, st, downloads);
    GuardedNodeStaysSound(n, top, st, mid, passed, aspect);
    MomentOfNodeChanges(n, top, st, mid);
    SoundFrame(ns[1..], prefix, st, mid, aspect);
    LegalNodeIsWritable(n, top, st, downloads);
    GuardedAfterFirst(ns, prefix, st, downloads, passed, aspect);
    GuardedStaysSound(ns[1..], prefix, mid, end, passed + NodePaths(n, top), aspect);
    MomentChanges(ns[1..], prefix, mid, end);
    SoundNodeFrame(n, top, mid, end, aspect);
  }

  lemma GuardedNodeStaysSound(n: Node, path: string, st: Local, end: Local, passed: set<string>, aspect: Aspect)
    requires NodeOk(n) && path != "" && MomentOfNode(n, path, st, end) && NoneLeft(passed, st.table, NodeIds(n))
    requires SoundNode(n, path, st, aspect) && GuardedNode(n, path, st, passed, aspect)
    ensures SoundNode(n, path, end, aspect)
    decreases n, 1
  {
    if end != st {
      if n.File? {
        GuardedFileStaysSound(n, path, st, end, passed, aspect);
      } else {
        var inside := Recorded(n, path, st, Dir);
        SoundInside(n, path, st, aspect);
        if end != Local(st.table, st.files[path := Dir]) {
          GuardedInside(n, path, st, passed, aspect);
          GuardedStaysSound(n.children, path, inside, end, passed + {path}, aspect);
          PrefixApart(n.children, path);
          MomentChanges(n.children, path, inside, end);
          assert SameAt(inside, end, path);
        }
      }
    }
  }

  lemma SoundInside(n: Node, path: string, st: Local, aspect: Aspect)
    requires n.Folder? && TreeOk(n.children) && path != "" && Sound(n.children, path, st, aspect)
    ensures Sound(n.children, path, Local(st.table, st.files[path := Dir]), aspect)
    ensures Sound(n.children, path, Recorded(n, path, st, Dir), aspect)
  {
    PrefixApart(n.children, path);
    SoundFrame(n.children, path, st, Local(st.table, st.files[path := Dir]), aspect);
    SoundFrame(n.children, path, st, Recorded(n, path, st, Dir), aspect);
  }

  /** A download of a guarded file means that its row did not match, so a broken
      write cannot be hidden by that row. */
  lemma GuardedFileStaysSound(n: Node, path: string, st: Local, end: Local, passed: set<string>, aspect: Aspect)
    requires n.File? && end != st && MomentOfNode(n, path, st, end) && SoundNode(n, path, st, aspect)
    requires GuardedNode(n, path, st, passed, aspect) && NoneLeft(passed, st.table, NodeIds(n))
    ensures SoundNode(n, path, end, aspect)
  {
    var found :| AnswersFor(st.table, n.id, found) && NeedsDownload(found, path, n);
    assert !(RowMatches(st.table, path, n) && OnlyRow(n, path, st.table, passed));
  }

  /** Without the guard there is a moment at which soundness is gone. */
  lemma {:induction false} UnguardedBreaks(
      ns: seq<Node>, prefix: string, st: Local, passed: set<string>, aspect: Aspect)
    returns (end: Local)
    requires TreeOk(ns) && DistinctIds(ns) && IsDir(st.files, prefix) && NoneLeft(passed, st.table, TreeIds(ns))
    requires Sound(ns, prefix, st, aspect) && !Guarded(ns, prefix, st, passed, aspect)
    ensures Moment(ns, prefix, st, end) && !Sound(ns, prefix, end, aspect)
    decreases ns, 0
  {
    var n := ns[0];
    var top := JoinPath(prefix, n.name);
    FirstApart(ns, prefix);
    ParentOfJoin(prefix, n.name);
    if !GuardedNode(n, top, st, passed, aspect) {
      end := UnguardedNodeBreaks(n, top, st, passed, aspect);
    } else {
      var downloads := RequiredOfNode(n, top, st);
      var mid := PullNode(n, top, st, downloads);
      GuardedAfterFirst(ns, prefix, st, downloads, passed, aspect);
      NodeFrame(ns, prefix, st, downloads);
      SoundFrame(ns[1..], prefix, st, mid, aspect);
      ParentStays(ns, prefix, st, downloads);
      end := UnguardedBreaks(ns[1..], prefix, mid, passed + NodePaths(n, top), aspect);
    }
  }

  lemma RequiredOfNode(n: Node, path: string, st: Local) returns (downloads: set<string>)
    requires NodeOk(n) && path != "" && WritableNode(n, path, st) && IsDir(st.files, ParentPath(path))
    ensures LegalNode(n, path, st, downloads)
  {
    if n.File? {
      downloads := if RowMatches(st.table, path, n) then {} else {path};
    } else {
      downloads := Required(n.children, path, st);
      RequiredAreFilePaths(n.children, path, st);
      assert downloads * FilePaths(n.children, path) == downloads;
    }
    RequiredNodeIsLegal(n, path, st, downloads);
  }

  lemma UnguardedNodeBreaks(n: Node, path: string, st: Local, passed: set<string>, aspect: Aspect)
    returns (end: Local)
    requires NodeOk(n) && path != "" && IsDir(st.files, ParentPath(path)) && NoneLeft(passed, st.table, NodeIds(n))
    requires SoundNode(n, path, st, aspect) && !GuardedNode(n, path, st, passed, aspect)
    ensures MomentOfNode(n, path, st, end) && !SoundNode(n, path, end, aspect)
    decreases n, 1
  {
    if n.File? {
      end := UnguardedFileBreaks(n, path, st, passed, aspect);
    } else if aspect.Kinds? && path in st.table && path !in st.files && !st.table[path].isFolder {
      end := Local(st.table, st.files[path := Dir]);
    } else {
      var inside := Recorded(n, path, st, Dir);
      SoundInside(n, path, st, aspect);
      GuardedInside(n, path, st, passed, aspect);
      end := UnguardedBreaks(n.children, path, inside, passed + {path}, aspect);
    }
  }

  lemma UnguardedFileBreaks(n: Node, path: string, st: Local, passed: set<string>, aspect: Aspect)
    returns (end: Local)
    requires n.File? && path != "" && IsDir(st.files, ParentPath(path))
    requires SoundNode(n, path, st, aspect) && !GuardedNode(n, path, st, passed, aspect)
    ensures MomentOfNode(n, path, st, end) && !SoundNode(n, path, end, aspect)
  {
    var found: Option<(string, Row)>;
    if RowMatches(st.table, path, n) {
      var stray :| stray in st.table && st.table[stray].driveId == Some(n.id) && stray != path && stray !in passed;
      found := Some((stray, st.table[stray]));
    } else {
      found := SomeAnswer(st.table, path, n);
    }
    assert AnswersFor(st.table, n.id, found) && NeedsDownload(found, path, n);
    var cut := n.content + "?";
    assert |cut| != |n.content|;
    end := Local(st.table, st.files[path := Data(cut)]);
    assert end.files - {path} == st.files - {path};
  }

  /** Exactly when a pull keeps an aspect at every moment, broken writes included: it
      must hold beforehand, and the rows must be guarded. */
  lemma AlwaysSoundIffGuarded(ns: seq<Node>, prefix: string, st: Local, aspect: Aspect)
    requires TreeOk(ns) && DistinctIds(ns) && IsDir(st.files, prefix)
    ensures (forall end: Local :: Moment(ns, prefix, st, end) ==> Sound(ns, prefix, end, aspect))
       <==> Sound(ns, prefix, st, aspect) && Guarded(ns, prefix, st, {}, aspect)
  {
    if Sound(ns, prefix, st, aspect) {
      if Guarded(ns, prefix, st, {}, aspect) {
        forall end: Local | Moment(ns, prefix, st, end) ensures Sound(ns, prefix, end, aspect) {
          GuardedStaysSound(ns, prefix, st, end, {}, aspect);
        }
      } else {
        var end := UnguardedBreaks(ns, prefix, st, {}, aspect);
      }
    }
    assert Moment(ns, prefix, st, st);
  }

  /** At every moment of every pull the rows that match still tell the truth. */
  ghost predicate AlwaysReady(ns: seq<Node>, prefix: string, st: Local) {
    forall end: Local :: Moment(ns, prefix, st, end) ==> Ready(ns, prefix, end)
  }

  /** Exactly when a pull that fails leaves a state from which every pull that then
      succeeds ends in agreement: rows must match the local files beforehand, and
      no file whose own row matches may have a second row the query could return. */
  lemma AlwaysReadyIffGuarded(ns: seq<Node>, prefix: string, st: Local)
    requires TreeOk(ns) && DistinctIds(ns) && IsDir(st.files, prefix)
    ensures AlwaysReady(ns, prefix, st) <==> Ready(ns, prefix, st) && Guarded(ns, prefix, st, {}, Contents)
  {
    AlwaysSoundIffGuarded(ns, prefix, st, Contents);
    assert forall end: Local :: Sound(ns, prefix, end, Contents) == Ready(ns, prefix, end);
  }

  // ------------------------------------------------------------ rows and kinds

  lemma {:induction false} ToldInside(ns: seq<Node>, prefix: string, st: Local, p: string)
    requires KindsTold(ns, prefix, st) && p in TreePaths(ns, prefix)
    ensures ToldAt(st, p)
    decreases ns
  {
    var top := JoinPath(prefix, ns[0].name);
    if p !in NodePaths(ns[0], top) {
      ToldInside(ns[1..], prefix, st, p);
    } else if p != top {
      ToldInside(ns[0].children, top, st, p);
    }
  }

  lemma {:induction false} TellingTellsKinds(ns: seq<Node>, prefix: string, st: Local)
    requires Telling(st)
    ensures KindsTold(ns, prefix, st)
    decreases ns
  {
    if ns != [] {
      if ns[0].Folder? {
        TellingTellsKinds(ns[0].children, JoinPath(prefix, ns[0].name), st);
      }
      TellingTellsKinds(ns[1..], prefix, st);
    }
  }

  ghost predicate AlwaysTelling(ns: seq<Node>, prefix: string, st: Local) {
    forall end: Local :: Moment(ns, prefix, st, end) ==> Telling(end)
  }

  /** Exactly when rows tell files from folders at every moment of a pull: they must
      do so beforehand, and where nothing is on disk no row of the other kind may
      wait for a folder to be made or a file to be written. */
  lemma AlwaysTellingIffGuarded(ns: seq<Node>, prefix: string, st: Local)
    requires TreeOk(ns) && DistinctIds(ns) && IsDir(st.files, prefix)
    ensures AlwaysTelling(ns, prefix, st) <==> Telling(st) && Guarded(ns, prefix, st, {}, Kinds)
  {
    AlwaysSoundIffGuarded(ns, prefix, st, Kinds);
    assert Moment(ns, prefix, st, st);
    forall end: Local | Moment(ns, prefix, st, end) && Telling(st)
      ensures Sound(ns, prefix, end, Kinds) <==> Telling(end)
    {
      TellingIsSoundKinds(ns, prefix, st, end);
    }
  }

  lemma TellingIsSoundKinds(ns: seq<Node>, prefix: string, st: Local, end: Local)
    requires Telling(st) && Moment(ns, prefix, st, end)
    ensures Sound(ns, prefix, end, Kinds) <==> Telling(end)
  {
    if Telling(end) {
      TellingTellsKinds(ns, prefix, end);
    }
    if KindsTold(ns, prefix, end) {
      MomentChanges(ns, prefix, st, end);
      forall p | p in end.table ensures ToldAt(end, p) {
        if p in TreePaths(ns, prefix) {
          ToldInside(ns, prefix, end, p);
        } else {
          assert SameAt(st, end, p);
        }
      }
    }
  }

  /** A folder made where a row still speaks of a file: when the new row cannot be
      written, the old one misleads. */
  lemma KindChangeMisleads(id: string, name: string, before: string)
    requires ValidName(name)
    ensures var tree := [Folder(id, name, None, [])];
      var st := Local(map[name := Row(Some(before), false, None, None)], map[]);
      var broken := Local(st.table, map[name := Dir]);
      && TreeOk(tree) && DistinctIds(tree) && Telling(st) && !Guarded(tree, "", st, {}, Kinds)
      && Moment(tree, "", st, broken) && !Telling(broken)
  {
    var tree := [Folder(id, name, None, [])];
    var st := Local(map[name := Row(Some(before), false, None, None)], map[]);
    var broken := Local(st.table, map[name := Dir]);
    assert tree[1..] == [];
    assert MomentOfNode(tree[0], name, st, broken);
    assert !GuardedNode(tree[0], name, st, {}, Kinds);
    assert !ToldAt(broken, name);
  }

  /** After a pull that failed from such a state, a repeated one that succeeds ends
      in agreement. */
  lemma RepeatedPullAgrees(ns: seq<Node>, prefix: string, st: Local, failed: Local, downloads: set<string>)
    requires TreeOk(ns) && DistinctIds(ns) && Ready(ns, prefix, st) && Guarded(ns, prefix, st, {}, Contents)
    requires Moment(ns, prefix, st, failed) && LegalTree(ns, prefix, failed, downloads)
    ensures Agrees(ns, prefix, PullTree(ns, prefix, failed, downloads))
  {
    GuardedStaysSound(ns, prefix, st, failed, {}, Contents);
    PullAgrees(ns, prefix, failed, downloads);
  }

  /** A stray row with the file's id starts a needless download; broken off, it
      leaves a wrong file that the file's own matching row then hides. */
  lemma StrayRowHidesBrokenFile(id: string, name: string, other: string, md5: string, content: Content, cut: Content)
    requires ValidName(name) && name != other && cut != content
    ensures var tree := [File(id, name, None, md5, content)];
      var table := map[name := Row(Some(id), false, None, Some(md5)), other := Row(Some(id), false, None, None)];
      var st := Local(table, map[name := Data(content)]);
      var broken := Local(table, map[name := Data(cut)]);
      && TreeOk(tree) && DistinctIds(tree) && Ready(tree, "", st) && !Guarded(tree, "", st, {}, Contents)
      && Moment(tree, "", st, broken)
      && LegalTree(tree, "", broken, {}) && !Agrees(tree, "", PullTree(tree, "", broken, {}))
  {
    var n := File(id, name, None, md5, content);
    var tree := [n];
    var table := map[name := Row(Some(id), false, None, Some(md5)), other := Row(Some(id), false, None, None)];
    var st := Local(table, map[name := Data(content)]);
    var broken := Local(table, map[name := Data(cut)]);
    assert tree[1..] == [];
    ParentOfJoin("", name);
    assert AnswersFor(table, id, Some((other, table[other])));
    assert NeedsDownload(Some((other, table[other])), name, n);
    assert broken.files - {name} == st.files - {name};
    assert MomentOfNode(n, name, st, broken);
    assert AnswersFor(table, id, Some((name, table[name])));
    assert LegalNode(n, name, broken, {});
  }
}
