/** Pushing local changes to Drive, and where the pushed items end up. */
module LocalChanges {
  import opened Common
  import opened Paths
  import opened SyncState

  const BACKSLASH: char := '\\'

  datatype Item = Item(parent: string, name: string, isFolder: bool, content: Content)

  /** The items below the synchronised Drive folder, by id; the folder itself is
      `root` and not an item. */
  type Items = map<string, Item>

  datatype World = World(table: Table, items: Items)

  /** What the engine finds at a path when it looks. */
  datatype Found = Missing | Directory | Regular(content: Content)

  datatype LocalEvent = Removed(path: string) | Touched(path: string, found: Found)

  // ---------------------------------------------------------------- paths

  /** The text after the last slash. */
  function BaseName(path: string): string {
    if path == "" || path[|path| - 1] == SLASH then "" else BaseName(path[..|path| - 1]) + [path[|path| - 1]]
  }

  /** The key under which the table files a path. */
  function KeyFor(path: string): string {
    if path == "" then ""
    else KeyFor(path[..|path| - 1]) + [if path[|path| - 1] == BACKSLASH then SLASH else path[|path| - 1]]
  }

  lemma {:induction false} KeyKeepsParentAndName(path: string)
    ensures |KeyFor(path)| == |path| && BACKSLASH !in KeyFor(path) && BACKSLASH !in BaseName(KeyFor(path))
    ensures BACKSLASH !in BaseName(path) ==>
      ParentPath(KeyFor(path)) == KeyFor(ParentPath(path)) && BaseName(KeyFor(path)) == BaseName(path)
  {
    if path != "" {
      var init := path[..|path| - 1];
      KeyKeepsParentAndName(init);
      var key := KeyFor(path);
      assert key[..|key| - 1] == KeyFor(init);
    }
  }

  lemma {:induction false} BaseNameOfJoin(prefix: string, name: string)
    requires SLASH !in name
    ensures name != "" ==> BaseName(JoinPath(prefix, name)) == name
    ensures name == "" && prefix != "" ==> BaseName(JoinPath(prefix, name)) == ""
    decreases |name|
  {
    if name != "" {
      var path := JoinPath(prefix, name);
      var shorter := name[..|name| - 1];
      if shorter != "" || prefix != "" {
        assert path[..|path| - 1] == JoinPath(prefix, shorter);
        BaseNameOfJoin(prefix, shorter);
      } else {
        assert path[..|path| - 1] == "";
      }
      assert shorter + [name[|name| - 1]] == name;
    }
  }

  /** Only backslashes are rewritten. */
  lemma {:induction false} KeyCharacters(path: string, i: nat)
    requires i < |path|
    ensures |KeyFor(path)| == |path|
    ensures KeyFor(path)[i] == if path[i] == BACKSLASH then SLASH else path[i]
  {
    KeyKeepsParentAndName(path);
    if i < |path| - 1 {
      KeyCharacters(path[..|path| - 1], i);
    }
  }

  lemma {:induction false} KeyOfPlain(path: string)
    requires BACKSLASH !in path
    ensures KeyFor(path) == path
  {
    if path != "" {
      KeyOfPlain(path[..|path| - 1]);
    }
  }

  // ------------------------------------------------------------ transitions

  function DriveIdAt(table: Table, key: string): Option<string> {
    if key in table then table[key].driveId else None
  }

  /** The Drive folder that receives an item: the root when the parent directory
      is the root or has no row with an id. */
  function ParentId(table: Table, root: string, path: string): string {
    if ParentPath(path) == "" then root
    else match DriveIdAt(table, KeyFor(ParentPath(path)))
         case Some(id) => id
         case None => root
  }

  /** A new item under a parent the server knows, and its row unless that
      statement failed. */
  ghost predicate Created(
      w: World, root: string, path: string, isFolder: bool, content: Content, id: string, w': World)
  {
    var parent := ParentId(w.table, root, path);
    && (parent == root || parent in w.items)
    && id !in w.items && id != root
    && (forall p :: p in w.table ==> w.table[p].driveId != Some(id))
    && w'.items == w.items[id := Item(parent, BaseName(path), isFolder, content)]
    && (w'.table == w.table || RecordedAs(w, path, id, isFolder, w'))
  }

  predicate RecordedAs(w: World, path: string, id: string, isFolder: bool, w': World) {
    var key := KeyFor(path);
    && key in w'.table && w'.table[key].driveId == Some(id) && w'.table[key].isFolder == isFolder
    && w'.table - {key} == w.table - {key}
  }

  /** An item and what is below it, and nothing else. */
  predicate IsSubtree(items: Items, id: string, gone: set<string>) {
    && id in gone && id in items
    && (forall x :: x in items && items[x].parent in gone ==> x in gone)
    && (forall x :: x in gone ==> x in items && (x == id || items[x].parent in gone))
  }

  /** Deleting an item deletes what is below it as well. */
  ghost predicate Deleted(items: Items, id: string, items': Items) {
    exists gone: set<string> ::
      IsSubtree(items, id, gone) && items' == items - gone
  }

  ghost predicate Transition(e: LocalEvent, root: string, w: World, w': World) {
    w' == w ||
    match e
    case Removed(path) =>
      var key := KeyFor(path);
      && path != "" && key in w.table
      && (w'.table == w.table || w'.table == w.table - {key})
      && (match w.table[key].driveId
          case None => w'.items == w.items
          case Some(id) => Deleted(w.items, id, w'.items))
    case Touched(path, found) =>
      var key := KeyFor(path);
      && path != ""
      && match found
         case Missing => false
         case Directory => key !in w.table && exists id :: Created(w, root, path, true, "", id, w')
         case Regular(content) =>
           match DriveIdAt(w.table, key)
           case Some(id) =>
             && id in w.items && w'.items == w.items[id := w.items[id].(content := content)]
             && (w'.table == w.table || RecordedAs(w, path, id, false, w'))
           case None => exists id :: Created(w, root, path, false, content, id, w')
  }

  // ---------------------------------------------------------------- mirror

  /** The item's remote path, read upwards from it, is `path`. */
  predicate IsAt(items: Items, root: string, id: string, path: string)
    decreases |path|
  {
    if path == "" then id == root
    else
      ParentIsShorter(path);
      id in items && items[id].name == BaseName(path) && IsAt(items, root, items[id].parent, ParentPath(path))
  }

  /** Every row whose item still exists names that item's remote path. */
  ghost predicate Mirrors(w: World, root: string) {
    && root !in w.items
    && (forall key :: key in w.table ==> w.table[key].driveId != Some(root))
    && forall key :: key in w.table && w.table[key].driveId.Some? && w.table[key].driveId.value in w.items ==>
      IsAt(w.items, root, w.table[key].driveId.value, key)
  }

  /** The parent directory is the root or a tracked folder, and the name is one
      that the table's keys keep apart from a path. */
  predicate Placed(table: Table, path: string) {
    && BACKSLASH !in BaseName(path)
    && (ParentPath(path) == "" || DriveIdAt(table, KeyFor(ParentPath(path))).Some?)
  }

  /** The event makes a new item. */
  predicate Creates(e: LocalEvent, table: Table) {
    e.Touched? && !e.found.Missing? &&
    if e.found.Directory? then KeyFor(e.path) !in table else DriveIdAt(table, KeyFor(e.path)).None?
  }

  lemma {:induction false} IsAtGrows(items: Items, root: string, id: string, path: string, extra: string, item: Item)
    requires IsAt(items, root, id, path) && extra !in items
    ensures IsAt(items[extra := item], root, id, path)
    decreases |path|
  {
    if path != "" {
      ParentIsShorter(path);
      IsAtGrows(items, root, items[id].parent, ParentPath(path), extra, item);
    }
  }

  lemma {:induction false} IsAtSurvives(items: Items, root: string, id: string, path: string, gone: set<string>)
    requires IsAt(items, root, id, path) && id !in gone
    requires forall x :: x in items && items[x].parent in gone ==> x in gone
    ensures IsAt(items - gone, root, id, path)
    decreases |path|
  {
    if path != "" {
      ParentIsShorter(path);
      IsAtSurvives(items, root, items[id].parent, ParentPath(path), gone);
    }
  }

  lemma {:induction false} IsAtKeepsContent(
      items: Items, root: string, id: string, path: string, x: string, content: Content)
    requires IsAt(items, root, id, path) && x in items
    ensures IsAt(items[x := items[x].(content := content)], root, id, path)
    decreases |path|
  {
    if path != "" {
      ParentIsShorter(path);
      IsAtKeepsContent(items, root, items[id].parent, ParentPath(path), x, content);
    }
  }

  /** A new item is at its key exactly when it was placed. */
  lemma CreatedIsAtIffPlaced(
      w: World, root: string, path: string, isFolder: bool, content: Content, id: string, w': World)
    requires Mirrors(w, root) && path != "" && Created(w, root, path, isFolder, content, id, w')
    ensures IsAt(w'.items, root, id, KeyFor(path)) <==> Placed(w.table, path)
  {
    var parent := ParentId(w.table, root, path);
    var key := KeyFor(path);
    KeyKeepsParentAndName(path);
    KeyKeepsParentAndName(ParentPath(path));
    if Placed(w.table, path) && ParentPath(path) != "" {
      assert IsAt(w.items, root, parent, KeyFor(ParentPath(path)));
      IsAtGrows(w.items, root, parent, KeyFor(ParentPath(path)), id, w'.items[id]);
    }
  }

  lemma CreatedKeepsOthers(
      w: World, root: string, path: string, isFolder: bool, content: Content, id: string, w': World, key: string)
    requires Mirrors(w, root) && Created(w, root, path, isFolder, content, id, w')
    requires key in w'.table && w'.table[key].driveId.Some? && w'.table[key].driveId.value in w'.items
    requires w'.table == w.table || key != KeyFor(path)
    ensures IsAt(w'.items, root, w'.table[key].driveId.value, key)
  {
    assert key in w.table && w.table[key] == w'.table[key] by {
      assert w'.table != w.table ==> key in w'.table - {KeyFor(path)} && key in w.table - {KeyFor(path)};
      assert w'.table != w.table ==> (w'.table - {KeyFor(path)})[key] == (w.table - {KeyFor(path)})[key];
    }
    IsAtGrows(w.items, root, w.table[key].driveId.value, key, id, w'.items[id]);
  }

  lemma CreationMirrors(w: World, root: string, path: string, isFolder: bool, content: Content, id: string, w': World)
    requires Mirrors(w, root) && path != "" && Created(w, root, path, isFolder, content, id, w')
    ensures w'.table == w.table ==> Mirrors(w', root)
    ensures RecordedAs(w, path, id, isFolder, w') ==> (Mirrors(w', root) <==> Placed(w.table, path))
  {
    CreatedIsAtIffPlaced(w, root, path, isFolder, content, id, w');
    forall key | key in w'.table && (w'.table == w.table || key != KeyFor(path))
      ensures w'.table[key].driveId != Some(root)
      ensures w'.table[key].driveId.Some? && w'.table[key].driveId.value in w'.items ==>
        IsAt(w'.items, root, w'.table[key].driveId.value, key)
    {
      if w'.table != w.table {
        assert key in w'.table - {KeyFor(path)} && key in w.table - {KeyFor(path)};
        assert (w'.table - {KeyFor(path)})[key] == (w.table - {KeyFor(path)})[key];
      }
      if w'.table[key].driveId.Some? && w'.table[key].driveId.value in w'.items {
        CreatedKeepsOthers(w, root, path, isFolder, content, id, w', key);
      }
    }
  }

  lemma RemovalMirrors(w: World, root: string, path: string, w': World)
    requires Mirrors(w, root) && Transition(Removed(path), root, w, w')
    ensures Mirrors(w', root)
  {
    var key := KeyFor(path);
    if w' != w && w.table[key].driveId.Some? {
      var id := w.table[key].driveId.value;
      var gone: set<string> :| IsSubtree(w.items, id, gone) && w'.items == w.items - gone;
      forall k | k in w'.table && w'.table[k].driveId.Some? && w'.table[k].driveId.value in w'.items
        ensures IsAt(w'.items, root, w'.table[k].driveId.value, k)
      {
        IsAtSurvives(w.items, root, w.table[k].driveId.value, k, gone);
      }
    }
  }

  lemma UpdateMirrors(w: World, root: string, path: string, content: Content, id: string, w': World)
    requires Mirrors(w, root) && DriveIdAt(w.table, KeyFor(path)) == Some(id) && id in w.items
    requires w'.items == w.items[id := w.items[id].(content := content)]
    requires w'.table == w.table || RecordedAs(w, path, id, false, w')
    ensures Mirrors(w', root)
  {
    forall k | k in w'.table
      ensures k in w.table && w.table[k].driveId == w'.table[k].driveId
    {
      if k != KeyFor(path) {
        assert w'.table != w.table ==> k in w'.table - {KeyFor(path)} && k in w.table - {KeyFor(path)};
        assert w'.table != w.table ==> (w'.table - {KeyFor(path)})[k] == (w.table - {KeyFor(path)})[k];
      }
    }
    forall k | k in w'.table && w'.table[k].driveId.Some? && w'.table[k].driveId.value in w'.items
      ensures IsAt(w'.items, root, w'.table[k].driveId.value, k)
    {
      IsAtKeepsContent(w.items, root, w.table[k].driveId.value, k, id, content);
    }
  }

  /** Uploads mirror local positions: an event keeps every row at its item's
      remote path, provided what it creates is placed. */
  lemma MirrorsNext(e: LocalEvent, root: string, w: World, w': World)
    requires Mirrors(w, root) && Transition(e, root, w, w') && (Creates(e, w.table) ==> Placed(w.table, e.path))
    ensures Mirrors(w', root)
  {
    if w' == w {
      return;
    }
    match e
    case Removed(path) => RemovalMirrors(w, root, path, w');
    case Touched(path, Directory) =>
      var id :| Created(w, root, path, true, "", id, w');
      CreationMirrors(w, root, path, true, "", id, w');
    case Touched(path, Regular(content)) =>
      match DriveIdAt(w.table, KeyFor(path)) {
        case Some(id) => UpdateMirrors(w, root, path, content, id, w');
        case None =>
          var id :| Created(w, root, path, false, content, id, w');
          CreationMirrors(w, root, path, false, content, id, w');
      }
    case Touched(_, Missing) =>
  }

  /** The same over any run of events. */
  lemma {:induction false} MirrorsRun(events: seq<LocalEvent>, root: string, worlds: seq<World>)
    requires |worlds| == |events| + 1 && Mirrors(worlds[0], root)
    requires forall i :: 0 <= i < |events| ==>
      && Transition(events[i], root, worlds[i], worlds[i + 1])
      && (Creates(events[i], worlds[i].table) ==> Placed(worlds[i].table, events[i].path))
    ensures Mirrors(worlds[|events|], root)
    decreases |events|
  {
    if events != [] {
      var n := |events| - 1;
      MirrorsRun(events[..n], root, worlds[..n + 1]);
      MirrorsNext(events[n], root, worlds[n], worlds[n + 1]);
    }
  }

  /** What an event finds at a path is what is on disk under the path's key. */
  predicate IsFound(files: Files, key: string, found: Found) {
    match found
    case Missing => key !in files
    case Directory => key in files && files[key] == Dir
    case Regular(content) => key in files && files[key] == Data(content)
  }

  /** Exactly when rows still tell files from folders after an event: what it has
      written a row for must be what is on disk under the row's key. */
  lemma EventStaysTelling(e: LocalEvent, root: string, w: World, w': World, files: Files)
    requires Transition(e, root, w, w') && Telling(Local(w.table, files))
    ensures Telling(Local(w'.table, files)) <==>
      (e.Removed? || w'.table == w.table
       || (KeyFor(e.path) in files ==> (files[KeyFor(e.path)] == Dir <==> e.found.Directory?)))
  {
    var key := KeyFor(e.path);
    var st, st' := Local(w.table, files), Local(w'.table, files);
    if e.Touched? && w'.table != w.table {
      assert w'.table - {key} == w.table - {key};
      forall p | p != key && p in w'.table ensures ToldAt(st', p) {
        assert p in w'.table - {key} && p in w.table - {key};
        assert w'.table[p] == (w'.table - {key})[p] == (w.table - {key})[p];
        assert ToldAt(st, p);
      }
      assert key in w'.table && w'.table[key].isFolder == e.found.Directory?;
      assert Telling(st') ==> ToldAt(st', key);
    } else {
      forall p | p in w'.table ensures ToldAt(st', p) {
        assert ToldAt(st, p);
      }
    }
  }

  /** In particular when the key is the path and the event saw what is there. */
  lemma SeenEventStaysTelling(e: LocalEvent, root: string, w: World, w': World, files: Files)
    requires Transition(e, root, w, w') && Telling(Local(w.table, files))
    requires e.Touched? ==> IsFound(files, KeyFor(e.path), e.found)
    ensures Telling(Local(w'.table, files))
  {
    EventStaysTelling(e, root, w, w', files);
  }

  /** The fallback to the root is a real exception: a file in an untracked
      directory is uploaded into the root, and its row then lies. */
  lemma UntrackedParentBreaksMirror(root: string, id: string, dir: string, name: string, content: Content)
    requires id != root && ValidName(dir) && ValidName(name) && BACKSLASH !in JoinPath(dir, name)
    ensures var path := JoinPath(dir, name);
      var w := World(map[], map[]);
      var w' := World(map[path := Row(Some(id), false, None, None)], map[id := Item(root, name, false, content)]);
      Mirrors(w, root) && Transition(Touched(path, Regular(content)), root, w, w') && !Mirrors(w', root)
  {
    var path := JoinPath(dir, name);
    var w := World(map[], map[]);
    var w' := World(map[path := Row(Some(id), false, None, None)], map[id := Item(root, name, false, content)]);
    ParentOfJoin(dir, name);
    BaseNameOfJoin(dir, name);
    KeyOfPlain(path);
    assert w'.table - {path} == w.table - {path};
    assert Created(w, root, path, false, content, id, w');
    CreationMirrors(w, root, path, false, content, id, w');
    assert !Placed(w.table, path);
  }

  // ------------------------------------------------------------ the engine

  /** Drive as the engine calls it; any call may fail without effect. `issued`
      holds every id handed out so far. */
  class DriveFolder {
    const root: string
    var items: Items
    var issued: set<string>

    constructor (root: string, items: Items, issued: set<string>)
      ensures this.root == root && this.items == items && this.issued == issued
    {
      this.root := root;
      this.items := items;
      this.issued := issued;
    }

    predicate Valid()
      reads this
    {
      items.Keys <= issued && root in issued && root !in items
    }

    method Create(parent: string, name: string, isFolder: bool, content: Content, faults: Faults)
      returns (r: Result<string, SyncError>)
      requires Valid()
      modifies this, faults
      ensures if r.Ok? then faults.count == old(faults.count)
              else faults.count > old(faults.count) || (parent != root && parent !in old(items))
      ensures Valid() && old(issued) <= issued
      ensures r.Ok? ==>
        && r.value in issued
        && (parent == root || parent in old(items)) && r.value !in old(issued)
        && items == old(items)[r.value := Item(parent, name, isFolder, content)]
      ensures r.Err? ==> items == old(items)
    {
      if parent != root && parent !in items {
        return Err(Api);
      }
      var accepted := faults.Attempt();
      var id: string := *;
      if !accepted || id in issued {
        faults.count := faults.count + 1;
        return Err(Api);
      }
      issued := issued + {id};
      items := items[id := Item(parent, name, isFolder, content)];
      return Ok(id);
    }

    method Update(id: string, content: Content, faults: Faults) returns (ok: bool)
      requires Valid()
      modifies this`items, faults
      ensures Valid()
      ensures if ok then faults.count == old(faults.count) else faults.count > old(faults.count) || id !in old(items)
      ensures if ok then id in old(items) && items == old(items)[id := old(items)[id].(content := content)]
              else items == old(items)
    {
      if id !in items {
        return false;
      }
      ok := faults.Attempt();
      if ok {
        items := items[id := items[id].(content := content)];
      }
    }

    method Delete(id: string, faults: Faults) returns (ok: bool)
      requires Valid()
      modifies this`items, faults
      ensures Valid()
      ensures if ok then faults.count == old(faults.count) else faults.count > old(faults.count) || id !in old(items)
      ensures if ok then Deleted(old(items), id, items) else items == old(items)
    {
      if id !in items {
        return false;
      }
      var accepted := faults.Attempt();
      var gone: set<string> := *;
      if !accepted || !IsSubtree(items, id, gone) {
        faults.count := faults.count + 1;
        return false;
      }
      ghost var before := items;
      items := items - gone;
      assert before == old(items) && items == before - gone;
      DeletedSubtree(before, id, gone);
      return true;
    }
  }

  lemma DeletedSubtree(items: Items, id: string, gone: set<string>)
    requires IsSubtree(items, id, gone)
    ensures Deleted(items, id, items - gone)
  {
  }

  function WorldOf(db: StateDb, drive: DriveFolder, folder: FolderId): World
    reads db, drive
  {
    World(db.TableOf(folder), drive.items)
  }

  /** Ids in rows come from the server. */
  predicate RowsIssued(table: Table, issued: set<string>) {
    forall p :: p in table && table[p].driveId.Some? ==> table[p].driveId.value in issued
  }

  /** The path's row names an item with this content. */
  predicate Uploaded(table: Table, items: Items, path: string, content: Content) {
    var id := DriveIdAt(table, KeyFor(path));
    id.Some? && id.value in items && items[id.value].content == content
  }

  /** Drive still has what the event needs: the item to change, or the folder that
      receives a new one. */
  predicate CanServe(e: LocalEvent, root: string, w: World) {
    e.path == "" ||
    var parent := ParentId(w.table, root, e.path);
    var id := DriveIdAt(w.table, KeyFor(e.path));
    match e
    case Removed(_) => id.Some? ==> id.value in w.items
    case Touched(_, Missing) => true
    case Touched(_, Directory) => KeyFor(e.path) in w.table || parent == root || parent in w.items
    case Touched(_, Regular(_)) => if id.Some? then id.value in w.items else parent == root || parent in w.items
  }

  /** It has, when all items with rows are still there. */
  lemma ServedWhileItemsExist(e: LocalEvent, root: string, w: World)
    requires forall key :: key in w.table && w.table[key].driveId.Some? ==> w.table[key].driveId.value in w.items
    ensures CanServe(e, root, w)
  {
  }

  /** Ok(true) means work was done, Ok(false) that there was none. `clears` says
      that an earlier error for the path is obsolete: what vanished was not
      tracked on Drive. */
  method HandleLocalChange(folder: FolderId, db: StateDb, drive: DriveFolder, e: LocalEvent, faults: Faults)
    returns (r: Result<bool, SyncError>, clears: bool)
    requires drive.Valid() && RowsIssued(db.TableOf(folder), drive.issued)
    modifies db`rows, drive, faults
    ensures drive.Valid() && RowsIssued(db.TableOf(folder), drive.issued)
    ensures if r.Ok? then faults.count == old(faults.count)
            else faults.count > old(faults.count)
                 || !CanServe(e, drive.root, old(WorldOf(db, drive, folder)))
    ensures Transition(e, drive.root, old(WorldOf(db, drive, folder)), WorldOf(db, drive, folder))
    ensures clears ==> e.Touched? && e.found.Missing? && DriveIdAt(db.TableOf(folder), KeyFor(e.path)).None?
    ensures e.Touched? && e.found.Missing? && e.path != "" && r.Ok? ==>
      (clears <==> DriveIdAt(db.TableOf(folder), KeyFor(e.path)).None?)
    // A finished upload is what a reader of the item gets.
    ensures r == Ok(true) && e.Touched? && e.found.Regular? ==>
      Uploaded(db.TableOf(folder), drive.items, e.path, e.found.content)
    ensures r == Ok(true) && e.Removed? ==> KeyFor(e.path) !in db.TableOf(folder)
    ensures r == Ok(true) && e.Touched? && e.found.Directory? ==> KeyFor(e.path) in db.TableOf(folder)
    ensures r.Ok? ==> (r.value <==> e.path != "" && !(e.Touched? && e.found.Missing?))
    ensures r == Ok(false) ==> WorldOf(db, drive, folder) == old(WorldOf(db, drive, folder))
    ensures forall g :: g != folder ==> db.TableOf(g) == old(db.TableOf(g))
  {
    clears := false;
    if e.path == "" {
      return Ok(false), false;
    }
    match e
    case Removed(_) =>
      r := HandleRemoval(folder, db, drive, e.path, faults);
    case Touched(_, found) =>
      var accessible := faults.Attempt();
      if !accessible {
        return Err(Io), false;
      }
      match found {
        case Missing =>
          var row := db.FindByLocalPath(folder, KeyFor(e.path), faults);
          if row.Err? {
            return Err(row.error), false;
          }
          clears := row.value.None? || row.value.value.driveId.None?;
          r := Ok(false);
        case Directory =>
          r := HandleDirectory(folder, db, drive, e.path, faults);
        case Regular(content) =>
          r := HandleFile(folder, db, drive, e.path, content, faults);
      }
  }

  method HandleDirectory(folder: FolderId, db: StateDb, drive: DriveFolder, path: string, faults: Faults)
    returns (r: Result<bool, SyncError>)
    requires path != "" && drive.Valid() && RowsIssued(db.TableOf(folder), drive.issued)
    modifies db`rows, drive, faults
    ensures drive.Valid() && RowsIssued(db.TableOf(folder), drive.issued)
    ensures if r.Ok? then faults.count == old(faults.count)
            else faults.count > old(faults.count)
                 || !CanServe(Touched(path, Directory), drive.root, old(WorldOf(db, drive, folder)))
    ensures Transition(Touched(path, Directory), drive.root, old(WorldOf(db, drive, folder)),
                       WorldOf(db, drive, folder))
    ensures r.Ok? ==> r.value && KeyFor(path) in db.TableOf(folder)
    ensures forall g :: g != folder ==> db.TableOf(g) == old(db.TableOf(g))
  {
    var parent := ParentDriveFolderId(folder, db, drive.root, path, faults);
    if parent.Err? {
      return Err(parent.error);
    }
    var row := db.FindByLocalPath(folder, KeyFor(path), faults);
    if row.Err? {
      return Err(row.error);
    }
    if row.value.Some? {
      return Ok(true);
    }
    r := Upload(folder, db, drive, path, parent.value, true, "", faults, Touched(path, Directory));
  }

  method HandleFile(
      folder: FolderId, db: StateDb, drive: DriveFolder, path: string, content: Content, faults: Faults)
    returns (r: Result<bool, SyncError>)
    requires path != "" && drive.Valid() && RowsIssued(db.TableOf(folder), drive.issued)
    modifies db`rows, drive, faults
    ensures drive.Valid() && RowsIssued(db.TableOf(folder), drive.issued)
    ensures if r.Ok? then faults.count == old(faults.count)
            else faults.count > old(faults.count)
                 || !CanServe(Touched(path, Regular(content)), drive.root, old(WorldOf(db, drive, folder)))
    ensures Transition(Touched(path, Regular(content)), drive.root, old(WorldOf(db, drive, folder)),
                       WorldOf(db, drive, folder))
    ensures r.Ok? ==> r.value && Uploaded(db.TableOf(folder), drive.items, path, content)
    ensures forall g :: g != folder ==> db.TableOf(g) == old(db.TableOf(g))
  {
    var readable := faults.Attempt();
    if !readable {
      return Err(Io);
    }
    var row := db.FindByLocalPath(folder, KeyFor(path), faults);
    if row.Err? {
      return Err(row.error);
    }
    var parent := ParentDriveFolderId(folder, db, drive.root, path, faults);
    if parent.Err? {
      return Err(parent.error);
    }
    if row.value.Some? && row.value.value.driveId.Some? {
      r := UploadAgain(folder, db, drive, path, row.value.value.driveId.value, content, faults);
    } else {
      r := Upload(folder, db, drive, path, parent.value, false, content, faults, Touched(path, Regular(content)));
    }
  }

  method HandleRemoval(folder: FolderId, db: StateDb, drive: DriveFolder, path: string, faults: Faults)
    returns (r: Result<bool, SyncError>)
    requires path != "" && drive.Valid() && RowsIssued(db.TableOf(folder), drive.issued)
    modifies db`rows, drive`items, faults
    ensures drive.Valid() && RowsIssued(db.TableOf(folder), drive.issued)
    ensures if r.Ok? then faults.count == old(faults.count)
            else faults.count > old(faults.count)
                 || !CanServe(Removed(path), drive.root, old(WorldOf(db, drive, folder)))
    ensures Transition(Removed(path), drive.root, old(WorldOf(db, drive, folder)), WorldOf(db, drive, folder))
    ensures r.Ok? ==> r.value && KeyFor(path) !in db.TableOf(folder)
    ensures forall g :: g != folder ==> db.TableOf(g) == old(db.TableOf(g))
  {
    var key := KeyFor(path);
    var row := db.FindByLocalPath(folder, key, faults);
    if row.Err? {
      return Err(row.error);
    }
    if row.value.None? {
      return Ok(true);
    }
    if row.value.value.driveId.Some? {
      var deleted := drive.Delete(row.value.value.driveId.value, faults);
      if !deleted {
        return Err(Api);
      }
    }
    var ok := db.Remove(folder, key, faults);
    return if ok then Ok(true) else Err(Io);
  }

  lemma RowsIssuedUpdate(table: Table, issued: set<string>, key: string, row: Row, more: set<string>)
    requires RowsIssued(table, issued) && issued <= more && (row.driveId.Some? ==> row.driveId.value in more)
    ensures RowsIssued(table[key := row], more)
    ensures table[key := row] - {key} == table - {key}
  {
  }

  method UploadAgain(
      folder: FolderId, db: StateDb, drive: DriveFolder, path: string, id: string, content: Content, faults: Faults)
    returns (r: Result<bool, SyncError>)
    requires path != "" && drive.Valid() && RowsIssued(db.TableOf(folder), drive.issued)
    requires DriveIdAt(db.TableOf(folder), KeyFor(path)) == Some(id)
    modifies db`rows, drive`items, faults
    ensures drive.Valid() && RowsIssued(db.TableOf(folder), drive.issued)
    ensures if r.Ok? then faults.count == old(faults.count)
            else faults.count > old(faults.count) || id !in old(drive.items)
    ensures Transition(Touched(path, Regular(content)), drive.root, old(WorldOf(db, drive, folder)),
                       WorldOf(db, drive, folder))
    ensures r.Ok? ==> r.value && Uploaded(db.TableOf(folder), drive.items, path, content)
    ensures forall g :: g != folder ==> db.TableOf(g) == old(db.TableOf(g))
  {
    ghost var w := WorldOf(db, drive, folder);
    var updated := drive.Update(id, content, faults);
    if !updated {
      assert WorldOf(db, drive, folder) == w;
      return Err(Api);
    }
    var now: int, modified: Option<string>, md5: Option<string> := *, *, *;
    var entry := Entry(Some(id), false, Some(now), modified, md5);
    RowsIssuedUpdate(w.table, drive.issued, KeyFor(path), Strip(entry), drive.issued);
    var ok := db.Upsert(folder, KeyFor(path), entry, faults);
    UpdateTransition(w, drive.root, path, content, id, Strip(entry), WorldOf(db, drive, folder));
    return if ok then Ok(true) else Err(Io);
  }

  lemma UpdateTransition(w: World, root: string, path: string, content: Content, id: string, row: Row, w': World)
    requires path != "" && DriveIdAt(w.table, KeyFor(path)) == Some(id) && id in w.items && row.driveId == Some(id)
    requires !row.isFolder
    requires w'.items == w.items[id := w.items[id].(content := content)]
    requires w'.table == w.table || w'.table == w.table[KeyFor(path) := row]
    ensures Transition(Touched(path, Regular(content)), root, w, w')
  {
    assert w.table[KeyFor(path) := row] - {KeyFor(path)} == w.table - {KeyFor(path)};
  }

  lemma CreateTransition(
      w: World, e: LocalEvent, root: string, isFolder: bool, content: Content, id: string, row: Row, w': World)
    requires e == Touched(e.path, if isFolder then Directory else Regular(content)) && (isFolder ==> content == "")
    requires e.path != "" && Creates(e, w.table) && row.driveId == Some(id) && row.isFolder == isFolder
    requires var parent := ParentId(w.table, root, e.path);
      && (parent == root || parent in w.items) && id !in w.items && id != root
      && w'.items == w.items[id := Item(parent, BaseName(e.path), isFolder, content)]
    requires forall p :: p in w.table ==> w.table[p].driveId != Some(id)
    requires w'.table == w.table || w'.table == w.table[KeyFor(e.path) := row]
    ensures Transition(e, root, w, w')
  {
    assert w.table[KeyFor(e.path) := row] - {KeyFor(e.path)} == w.table - {KeyFor(e.path)};
    assert Created(w, root, e.path, isFolder, content, id, w');
  }

  method Upload(
      folder: FolderId, db: StateDb, drive: DriveFolder, path: string, parent: string, isFolder: bool, content: Content,
      faults: Faults, ghost e: LocalEvent)
    returns (r: Result<bool, SyncError>)
    requires path != "" && drive.Valid() && RowsIssued(db.TableOf(folder), drive.issued)
    requires e == Touched(path, if isFolder then Directory else Regular(content)) && (isFolder ==> content == "")
    requires Creates(e, db.TableOf(folder)) && parent == ParentId(db.TableOf(folder), drive.root, path)
    modifies db`rows, drive, faults
    ensures drive.Valid() && RowsIssued(db.TableOf(folder), drive.issued)
    ensures if r.Ok? then faults.count == old(faults.count)
            else faults.count > old(faults.count) || (parent != drive.root && parent !in old(drive.items))
    ensures Transition(e, drive.root, old(WorldOf(db, drive, folder)), WorldOf(db, drive, folder))
    ensures r.Ok? ==> r.value && Uploaded(db.TableOf(folder), drive.items, path, content)
    ensures forall g :: g != folder ==> db.TableOf(g) == old(db.TableOf(g))
  {
    ghost var w := WorldOf(db, drive, folder);
    ghost var issued := drive.issued;
    var created := drive.Create(parent, BaseName(path), isFolder, content, faults);
    if created.Err? {
      assert WorldOf(db, drive, folder) == w;
      return Err(created.error);
    }
    var now: int, modified: Option<string>, md5: Option<string> := *, *, *;
    var entry := Entry(Some(created.value), isFolder, Some(now), modified, md5);
    RowsIssuedUpdate(w.table, issued, KeyFor(path), Strip(entry), drive.issued);
    var ok := db.Upsert(folder, KeyFor(path), entry, faults);
    CreateTransition(w, e, drive.root, isFolder, content, created.value, Strip(entry), WorldOf(db, drive, folder));
    return if ok then Ok(true) else Err(Io);
  }

  method ParentDriveFolderId(folder: FolderId, db: StateDb, root: string, path: string, faults: Faults)
    returns (r: Result<string, SyncError>)
    modifies faults
    ensures if r.Ok? then faults.count == old(faults.count) else faults.count > old(faults.count)
    ensures r.Ok? ==> r.value == ParentId(db.TableOf(folder), root, path)
  {
    var parent := ParentPath(path);
    if parent == "" {
      return Ok(root);
    }
    var row := db.FindByLocalPath(folder, KeyFor(parent), faults);
    if row.Err? {
      return Err(row.error);
    }
    if row.value.Some? && row.value.value.driveId.Some? {
      return Ok(row.value.value.driveId.value);
    }
    return Ok(root);
  }
}
