/** Whether uploads keep the names of remote siblings distinct, as a pull needs. */
module SiblingNames {
  import opened Common
  import opened Paths
  import opened SyncState
  import opened LocalChanges

  predicate DistinctSiblings(items: Items) {
    forall x, y :: x in items && y in items && x != y && items[x].parent == items[y].parent ==>
      items[x].name != items[y].name
  }

  predicate Occupied(items: Items, parent: string, name: string) {
    exists x :: x in items && items[x].parent == parent && items[x].name == name
  }

  /** An event makes a new item. */
  predicate AddsItem(w: World, w': World) {
    exists x :: x in w'.items && x !in w.items
  }

  lemma CreationIffFree(
      w: World, root: string, path: string, isFolder: bool, content: Content, id: string, w': World)
    requires DistinctSiblings(w.items) && Created(w, root, path, isFolder, content, id, w')
    ensures AddsItem(w, w')
    ensures DistinctSiblings(w'.items) <==> !Occupied(w.items, ParentId(w.table, root, path), BaseName(path))
  {
    assert id in w'.items && id !in w.items;
    if x :| x in w.items && w.items[x].parent == ParentId(w.table, root, path) && w.items[x].name == BaseName(path) {
      assert w'.items[x].name == w'.items[id].name;
    }
  }

  /** An event keeps sibling names distinct exactly if it makes no item, or the name
      is still free in the Drive folder that receives it. */
  lemma DistinctIffFree(e: LocalEvent, root: string, w: World, w': World)
    requires DistinctSiblings(w.items) && Transition(e, root, w, w')
    ensures DistinctSiblings(w'.items) <==>
      (AddsItem(w, w') ==> !Occupied(w.items, ParentId(w.table, root, e.path), BaseName(e.path)))
  {
    if w' != w {
      match e
      case Removed(_) =>
      case Touched(path, Directory) =>
        var id :| Created(w, root, path, true, "", id, w');
        CreationIffFree(w, root, path, true, "", id, w');
      case Touched(path, Regular(content)) =>
        if DriveIdAt(w.table, KeyFor(path)).None? {
          var id :| Created(w, root, path, false, content, id, w');
          CreationIffFree(w, root, path, false, content, id, w');
        }
      case Touched(_, Missing) =>
    }
  }

  // --------------------------------------------------- when a name is free

  predicate Relative(key: string) {
    key != "" && key[0] != SLASH
  }

  /** Every item has a row, and rows have relative keys. */
  predicate Tracked(w: World) {
    && (forall x :: x in w.items ==> HasRow(w.table, x))
    && (forall key :: key in w.table ==> Relative(key))
  }

  predicate HasRow(table: Table, id: string) {
    exists key :: key in table && table[key].driveId == Some(id)
  }

  lemma {:induction false} RelativeParts(path: string)
    requires Relative(path)
    ensures path == JoinPath(ParentPath(path), BaseName(path))
    ensures ParentPath(path) == "" || Relative(ParentPath(path))
  {
    var init, last := path[..|path| - 1], path[|path| - 1];
    assert path == init + [last];
    if last != SLASH && init != "" {
      RelativeParts(init);
      assert JoinPath(ParentPath(init), BaseName(init) + [last]) == JoinPath(ParentPath(init), BaseName(init)) + [last];
    }
  }

  /** An item is at one path only. */
  lemma {:induction false} IsAtUnique(items: Items, root: string, id: string, p: string, q: string)
    requires root !in items && IsAt(items, root, id, p) && IsAt(items, root, id, q)
    requires (p == "" || Relative(p)) && (q == "" || Relative(q))
    ensures p == q
    decreases |p|
  {
    if p != "" && q != "" {
      ParentIsShorter(p);
      RelativeParts(p);
      RelativeParts(q);
      IsAtUnique(items, root, items[id].parent, ParentPath(p), ParentPath(q));
    }
  }

  /** What is tracked nowhere has a free name. */
  lemma {:induction false} UntrackedNameIsFree(w: World, root: string, path: string)
    requires Mirrors(w, root) && Tracked(w) && path != "" && Placed(w.table, path) && Relative(KeyFor(path))
    requires DriveIdAt(w.table, KeyFor(path)).None?
    ensures !Occupied(w.items, ParentId(w.table, root, path), BaseName(path))
  {
    var parent := ParentId(w.table, root, path);
    if x :| x in w.items && w.items[x].parent == parent && w.items[x].name == BaseName(path) {
      OccupantIsTrackedHere(w, root, path, x);
    }
  }

  lemma OccupantIsTrackedHere(w: World, root: string, path: string, x: string)
    requires Mirrors(w, root) && Tracked(w) && path != "" && Placed(w.table, path) && Relative(KeyFor(path))
    requires x in w.items && w.items[x].parent == ParentId(w.table, root, path) && w.items[x].name == BaseName(path)
    ensures DriveIdAt(w.table, KeyFor(path)) == Some(x)
  {
    var key := KeyFor(path);
    assert HasRow(w.table, x);
    var other :| other in w.table && w.table[other].driveId == Some(x);
    ParentOfPlaced(w, root, path, x);
    KeyKeepsParentAndName(path);
    assert IsAt(w.items, root, x, other);
    SameParentAndName(w.items, root, x, other, key);
  }

  lemma SameParentAndName(items: Items, root: string, id: string, p: string, q: string)
    requires root !in items && id in items && IsAt(items, root, id, p) && Relative(p) && Relative(q)
    requires items[id].name == BaseName(q) && IsAt(items, root, items[id].parent, ParentPath(q))
    ensures p == q
  {
    RelativeParts(p);
    RelativeParts(q);
    IsAtUnique(items, root, items[id].parent, ParentPath(p), ParentPath(q));
  }

  /** The folder that receives a placed item is at the parent's path, as an item
      inside it shows. */
  lemma ParentOfPlaced(w: World, root: string, path: string, inside: string)
    requires Mirrors(w, root) && path != "" && Placed(w.table, path)
    requires inside in w.items && w.items[inside].parent == ParentId(w.table, root, path) && HasRow(w.table, inside)
    ensures IsAt(w.items, root, ParentId(w.table, root, path), KeyFor(ParentPath(path)))
  {
    var parent := ParentId(w.table, root, path);
    if ParentPath(path) != "" {
      assert DriveIdAt(w.table, KeyFor(ParentPath(path))) == Some(parent) && parent != root;
      var other :| other in w.table && w.table[other].driveId == Some(inside);
      assert IsAt(w.items, root, parent, ParentPath(other));
    }
  }

  /** The event puts what it creates where its path says, and records it. */
  predicate Orderly(e: LocalEvent, w: World, w': World) {
    && (Creates(e, w.table) ==> Placed(w.table, e.path) && Relative(KeyFor(e.path)))
    && (AddsItem(w, w') ==> w'.table != w.table)
  }

  lemma CreationStaysTracked(
      w: World, root: string, path: string, isFolder: bool, content: Content, id: string, w': World)
    requires Tracked(w) && Created(w, root, path, isFolder, content, id, w') && RecordedAs(w, path, id, isFolder, w')
    requires DriveIdAt(w.table, KeyFor(path)).None? && Relative(KeyFor(path))
    ensures Tracked(w')
  {
    var key := KeyFor(path);
    SameRowsElsewhere(w.table, w'.table, key);
    forall x | x in w'.items ensures HasRow(w'.table, x) {
      if x == id {
        assert w'.table[key].driveId == Some(x);
      } else {
        assert HasRow(w.table, x);
        var k :| k in w.table && w.table[k].driveId == Some(x);
        assert k != key && w'.table[k].driveId == Some(x);
      }
    }
  }

  lemma SameRowsElsewhere(before: Table, after: Table, key: string)
    requires after - {key} == before - {key}
    ensures forall k :: k != key ==> (k in after <==> k in before) && (k in before ==> after[k] == before[k])
  {
    forall k | k != key ensures (k in after <==> k in before) && (k in before ==> after[k] == before[k]) {
      assert k in after <==> k in after - {key};
      assert k in before <==> k in before - {key};
      assert k in before && k in after ==> (after - {key})[k] == (before - {key})[k];
    }
  }

  lemma UpdateStaysTracked(w: World, path: string, id: string, w': World)
    requires Tracked(w) && DriveIdAt(w.table, KeyFor(path)) == Some(id) && w'.items.Keys == w.items.Keys
    requires w'.table == w.table || RecordedAs(w, path, id, false, w')
    ensures Tracked(w')
  {
    if w'.table != w.table {
      SameRowsElsewhere(w.table, w'.table, KeyFor(path));
    }
    forall x | x in w'.items ensures HasRow(w'.table, x) {
      assert HasRow(w.table, x);
      var k :| k in w.table && w.table[k].driveId == Some(x);
      assert k in w'.table && w'.table[k].driveId == Some(x);
    }
  }

  lemma RemovalStaysTracked(w: World, root: string, path: string, w': World)
    requires Tracked(w) && Transition(Removed(path), root, w, w')
    ensures Tracked(w')
  {
    forall x | x in w'.items ensures HasRow(w'.table, x) {
      assert HasRow(w.table, x);
      var k :| k in w.table && w.table[k].driveId == Some(x);
      assert k in w'.table && w'.table[k].driveId == Some(x);
    }
  }

  /** Rows mirror their items, every item has one, and sibling names are distinct. */
  ghost predicate Neat(w: World, root: string) {
    Mirrors(w, root) && Tracked(w) && DistinctSiblings(w.items)
  }

  lemma TrackedNext(e: LocalEvent, root: string, w: World, w': World)
    requires Tracked(w) && Transition(e, root, w, w') && Orderly(e, w, w')
    ensures Tracked(w')
  {
    if w' != w {
      match e
      case Removed(path) => RemovalStaysTracked(w, root, path, w');
      case Touched(path, Directory) =>
        var id :| Created(w, root, path, true, "", id, w');
        assert id in w'.items;
        CreationStaysTracked(w, root, path, true, "", id, w');
      case Touched(path, Regular(content)) =>
        match DriveIdAt(w.table, KeyFor(path)) {
          case Some(id) => UpdateStaysTracked(w, path, id, w');
          case None =>
            var id :| Created(w, root, path, false, content, id, w');
            assert id in w'.items;
            CreationStaysTracked(w, root, path, false, content, id, w');
        }
      case Touched(_, Missing) =>
    }
  }

  /** As long as what is created is placed and recorded, no upload takes a name that
      a sibling already has. */
  lemma NeatNext(e: LocalEvent, root: string, w: World, w': World)
    requires Neat(w, root) && Transition(e, root, w, w') && Orderly(e, w, w')
    ensures Neat(w', root)
  {
    MirrorsNext(e, root, w, w');
    TrackedNext(e, root, w, w');
    DistinctIffFree(e, root, w, w');
    if AddsItem(w, w') {
      assert Creates(e, w.table);
      UntrackedNameIsFree(w, root, e.path);
    }
  }

  lemma {:induction false} NeatRun(events: seq<LocalEvent>, root: string, worlds: seq<World>)
    requires |worlds| == |events| + 1 && Neat(worlds[0], root)
    requires forall i :: 0 <= i < |events| ==>
      Transition(events[i], root, worlds[i], worlds[i + 1]) && Orderly(events[i], worlds[i], worlds[i + 1])
    ensures Neat(worlds[|events|], root)
    decreases |events|
  {
    if events != [] {
      var n := |events| - 1;
      NeatRun(events[..n], root, worlds[..n + 1]);
      NeatNext(events[n], root, worlds[n], worlds[n + 1]);
    }
  }

  /** An upload whose row is not written is made again at the next event for the
      path, and the folder then has two items of one name. */
  lemma UnrecordedUploadDuplicates(root: string, first: string, second: string, name: string, content: Content)
    requires ValidName(name) && BACKSLASH !in name && first != root && second != root && first != second
    ensures var item, e := Item(root, name, false, content), Touched(name, Regular(content));
      var w0, w1, w2 := World(map[], map[]), World(map[], map[first := item]),
                        World(map[], map[first := item, second := item]);
      && Neat(w0, root) && Placed(w0.table, name)
      && Transition(e, root, w0, w1) && Transition(e, root, w1, w2) && !DistinctSiblings(w2.items)
  {
    var item, e := Item(root, name, false, content), Touched(name, Regular(content));
    var w0, w1, w2 := World(map[], map[]), World(map[], map[first := item]),
                      World(map[], map[first := item, second := item]);
    ParentOfJoin("", name);
    UnrecordedUpload(w0.items, root, name, content, first);
    UnrecordedUpload(w1.items, root, name, content, second);
    assert w1.items[second := item] == w2.items;
    assert w2.items[first].name == w2.items[second].name;
  }

  lemma UnrecordedUpload(items: Items, root: string, name: string, content: Content, id: string)
    requires ValidName(name) && BACKSLASH !in name && id !in items && id != root
    ensures Transition(Touched(name, Regular(content)), root,
                       World(map[], items), World(map[], items[id := Item(root, name, false, content)]))
  {
    var w, w' := World(map[], items), World(map[], items[id := Item(root, name, false, content)]);
    ParentOfJoin("", name);
    BaseNameOfJoin("", name);
    assert Created(w, root, name, false, content, id, w');
  }
}
