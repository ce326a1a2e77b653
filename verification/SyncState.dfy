/** What the sync engine keeps for a folder: rows of the state table and files
    below the local root. */
module SyncState {
  import opened Common
  import opened Paths

  type FolderId = nat
  type Content = string

  datatype LocalNode = Dir | Data(content: Content)

  /** Keyed by relative path; the root itself always exists. */
  type Files = map<string, LocalNode>

  /** A row as written; `localMtime` is never read back. */
  datatype Entry = Entry(
    driveId: Option<string>,
    isFolder: bool,
    localMtime: Option<int>,
    driveModified: Option<string>,
    md5: Option<string>)

  /** A row up to the local modification time. */
  datatype Row = Row(driveId: Option<string>, isFolder: bool, driveModified: Option<string>, md5: Option<string>)

  type Table = map<string, Row>

  datatype Local = Local(table: Table, files: Files)

  /** The row at a path says what kind of thing is on disk there. */
  predicate ToldAt(st: Local, path: string) {
    path in st.table && path in st.files ==> (st.table[path].isFolder <==> st.files[path] == Dir)
  }

  predicate Telling(st: Local) {
    forall p :: p in st.table ==> ToldAt(st, p)
  }

  function Strip(e: Entry): Row {
    Row(e.driveId, e.isFolder, e.driveModified, e.md5)
  }

  predicate IsDir(files: Files, path: string) {
    path == "" || (path in files && files[path].Dir?)
  }

  /** The text before the last slash. */
  function ParentPath(path: string): string {
    if path == "" then ""
    else if path[|path| - 1] == SLASH then path[..|path| - 1]
    else ParentPath(path[..|path| - 1])
  }

  lemma {:induction false} ParentIsShorter(path: string)
    ensures path != "" ==> |ParentPath(path)| < |path|
  {
    if path != "" && path[|path| - 1] != SLASH {
      ParentIsShorter(path[..|path| - 1]);
    }
  }

  lemma {:induction false} ParentOfJoin(prefix: string, name: string)
    requires SLASH !in name
    ensures ParentPath(JoinPath(prefix, name)) == prefix || (prefix != "" && name == "")
    ensures prefix != "" ==> ParentPath(JoinPath(prefix, name)) == prefix
    decreases |name|
  {
    var path := JoinPath(prefix, name);
    if name == "" {
      assert prefix != "" ==> path[..|path| - 1] == prefix;
    } else {
      var shorter := name[..|name| - 1];
      assert path[..|path| - 1] == JoinPath(prefix, shorter);
      assert path[|path| - 1] == name[|name| - 1];
      ParentOfJoin(prefix, shorter);
    }
  }

  /** Whatever lies below a path lies in a directory that is there or below. */
  lemma {:induction false} ParentUnder(top: string, path: string)
    requires top != "" && Under(top, path) && path != top
    ensures Under(top, ParentPath(path)) && ParentPath(path) != ""
    decreases |path|
  {
    var init := path[..|path| - 1];
    assert init[..|top|] == path[..|top|];
    if path[|path| - 1] != SLASH {
      ParentUnder(top, init);
    }
  }

  predicate CanWrite(files: Files, path: string) {
    path != "" && (path in files ==> files[path].Data?) && IsDir(files, ParentPath(path))
  }

  predicate CanMakeDir(files: Files, path: string) {
    path in files ==> files[path].Dir?
  }

  /** A write that failed may have left any content behind. */
  predicate PartlyWritten(before: Files, path: string, after: Files) {
    after == before
    || (CanWrite(before, path) && path in after && after[path].Data? && after - {path} == before - {path})
  }

  function WithoutTree(files: Files, path: string): Files {
    map p | p in files && !Under(path, p) :: files[p]
  }

  /** A removal that failed may have removed part of the tree, the top last. */
  predicate PartlyRemoved(before: Files, path: string, after: Files) {
    after == before
    || (&& after.Keys <= before.Keys
        && (forall p :: p in after ==> after[p] == before[p])
        && (forall p :: p in before && !Under(path, p) ==> p in after)
        && (path in after || after == WithoutTree(before, path)))
  }

  class LocalFiles {
    var nodes: Files

    constructor (nodes: Files)
      ensures this.nodes == nodes
    {
      this.nodes := nodes;
    }

    method CreateDir(path: string, faults: Faults) returns (ok: bool)
      requires IsDir(nodes, ParentPath(path))
      modifies this, faults
      ensures if ok then CanMakeDir(old(nodes), path) && nodes == old(nodes)[path := Dir] else nodes == old(nodes)
      ensures if ok then faults.count == old(faults.count)
              else !CanMakeDir(old(nodes), path) || faults.count > old(faults.count)
    {
      if path in nodes && !nodes[path].Dir? {
        return false;
      }
      ok := faults.Attempt();
      if ok {
        nodes := nodes[path := Dir];
      }
    }

    method Write(path: string, content: Content, faults: Faults) returns (ok: bool)
      modifies this, faults
      ensures ok ==> CanWrite(old(nodes), path) && nodes == old(nodes)[path := Data(content)]
      ensures !ok ==> PartlyWritten(old(nodes), path, nodes)
      ensures if ok then faults.count == old(faults.count)
              else !CanWrite(old(nodes), path) || faults.count > old(faults.count)
    {
      if !CanWrite(nodes, path) {
        return false;
      }
      ok := faults.Attempt();
      if !ok {
        return;
      }
      ok := faults.Attempt();
      var written: Content := *;
      nodes := nodes[path := Data(if ok then content else written)];
    }

    method RemoveFile(path: string, faults: Faults) returns (ok: bool)
      requires path in nodes
      modifies this, faults
      ensures ok ==> old(nodes)[path].Data? && nodes == old(nodes) - {path}
      ensures !ok ==> nodes == old(nodes)
      ensures if ok then faults.count == old(faults.count)
              else old(nodes)[path].Dir? || faults.count > old(faults.count)
    {
      if nodes[path].Dir? {
        return false;
      }
      ok := faults.Attempt();
      if ok {
        nodes := nodes - {path};
      }
    }

    method RemoveTree(path: string, faults: Faults) returns (ok: bool)
      requires path in nodes
      modifies this, faults
      ensures ok ==> old(nodes)[path].Dir? && nodes == WithoutTree(old(nodes), path)
      ensures !ok ==> PartlyRemoved(old(nodes), path, nodes)
      ensures if ok then faults.count == old(faults.count)
              else old(nodes)[path].Data? || faults.count > old(faults.count)
    {
      if nodes[path].Data? {
        return false;
      }
      ok := faults.Attempt();
      if ok {
        nodes := WithoutTree(nodes, path);
      } else {
        var gone: set<string> := *;
        nodes := map p | p in nodes && (p == path || !Under(path, p) || p !in gone) :: nodes[p];
      }
    }
  }

  datatype Key = Key(folder: FolderId, path: string)

  function FolderTable(rows: map<Key, Entry>, folder: FolderId): Table {
    map k | k in rows && k.folder == folder :: k.path := Strip(rows[k])
  }

  lemma UpdatedTables(rows: map<Key, Entry>, folder: FolderId, path: string, entry: Entry)
    ensures FolderTable(rows[Key(folder, path) := entry], folder) == FolderTable(rows, folder)[path := Strip(entry)]
    ensures forall g :: g != folder ==> FolderTable(rows[Key(folder, path) := entry], g) == FolderTable(rows, g)
  {
    var after := rows[Key(folder, path) := entry];
    forall p ensures p in FolderTable(after, folder) <==> p in FolderTable(rows, folder) || p == path {
      assert p in FolderTable(after, folder) <==> Key(folder, p) in after by { TableMember(after, folder, p); }
      TableMember(rows, folder, p);
    }
    forall g, p | g != folder ensures p in FolderTable(after, g) <==> p in FolderTable(rows, g) {
      TableMember(after, g, p);
      TableMember(rows, g, p);
    }
  }

  lemma RemovedTables(rows: map<Key, Entry>, folder: FolderId, path: string)
    ensures FolderTable(rows - {Key(folder, path)}, folder) == FolderTable(rows, folder) - {path}
    ensures forall g :: g != folder ==> FolderTable(rows - {Key(folder, path)}, g) == FolderTable(rows, g)
  {
    var after := rows - {Key(folder, path)};
    forall g, p ensures p in FolderTable(after, g) <==> p in FolderTable(rows, g) && !(g == folder && p == path) {
      TableMember(after, g, p);
      TableMember(rows, g, p);
    }
  }

  lemma TableMember(rows: map<Key, Entry>, folder: FolderId, path: string)
    ensures path in FolderTable(rows, folder) <==> Key(folder, path) in rows
  {
    if path in FolderTable(rows, folder) {
      var k :| k in rows && k.folder == folder && k.path == path;
      assert k == Key(folder, path);
    }
  }

  /** The state database: rows keyed by folder and path, and a page token for
      each folder. Every statement may fail, and then changes nothing. */
  class StateDb {
    var rows: map<Key, Entry>
    var pageTokens: map<FolderId, string>

    constructor ()
      ensures rows == map[] && pageTokens == map[]
    {
      rows := map[];
      pageTokens := map[];
    }

    function TableOf(folder: FolderId): Table
      reads this`rows
    {
      FolderTable(rows, folder)
    }

    method Upsert(folder: FolderId, path: string, entry: Entry, faults: Faults) returns (ok: bool)
      modifies this`rows, faults
      ensures faults.count == if ok then old(faults.count) else old(faults.count) + 1
      ensures TableOf(folder) == if ok then old(TableOf(folder))[path := Strip(entry)] else old(TableOf(folder))
      ensures forall g :: g != folder ==> TableOf(g) == old(TableOf(g))
    {
      ok := faults.Attempt();
      if ok {
        UpdatedTables(rows, folder, path, entry);
        rows := rows[Key(folder, path) := entry];
      }
    }

    method Remove(folder: FolderId, path: string, faults: Faults) returns (ok: bool)
      modifies this`rows, faults
      ensures faults.count == if ok then old(faults.count) else old(faults.count) + 1
      ensures TableOf(folder) == if ok then old(TableOf(folder)) - {path} else old(TableOf(folder))
      ensures forall g :: g != folder ==> TableOf(g) == old(TableOf(g))
    {
      ok := faults.Attempt();
      if ok {
        RemovedTables(rows, folder, path);
        rows := rows - {Key(folder, path)};
      }
    }

    /** A query that cannot be prepared is an error, one that fails later is taken
        for a folder without a token. */
    method GetPageToken(folder: FolderId, faults: Faults) returns (r: Result<Option<string>, SyncError>)
      modifies faults
      ensures r.Ok? && r.value.Some? ==> folder in pageTokens && r.value.value == pageTokens[folder]
      ensures faults.count >= old(faults.count)
      ensures faults.count == old(faults.count) ==> r.Ok? && (r.value.Some? <==> folder in pageTokens)
    {
      var prepared := faults.Attempt();
      if !prepared {
        return Err(Io);
      }
      var answered := faults.Attempt();
      return Ok(if answered && folder in pageTokens then Some(pageTokens[folder]) else None);
    }

    method SetPageToken(folder: FolderId, token: string, faults: Faults) returns (ok: bool)
      modifies this`pageTokens, faults
      ensures faults.count == if ok then old(faults.count) else old(faults.count) + 1
      ensures pageTokens == if ok then old(pageTokens)[folder := token] else old(pageTokens)
    {
      ok := faults.Attempt();
      if ok {
        pageTokens := pageTokens[folder := token];
      }
    }

    /** Any row of the folder with this Drive id, if there is one. */
    method FindByDriveId(folder: FolderId, id: string, faults: Faults)
      returns (r: Result<Option<(string, Row)>, SyncError>)
      modifies faults
      ensures r.Ok? ==> AnswersFor(TableOf(folder), id, r.value)
      ensures faults.count == if r.Ok? then old(faults.count) else old(faults.count) + 1
    {
      var answered := faults.Attempt();
      if !answered {
        return Err(Io);
      }
      if exists k :: k in rows && k.folder == folder && rows[k].driveId == Some(id) {
        var k :| k in rows && k.folder == folder && rows[k].driveId == Some(id);
        return Ok(Some((k.path, Strip(rows[k]))));
      }
      return Ok(None);
    }

    method FindByLocalPath(folder: FolderId, path: string, faults: Faults) returns (r: Result<Option<Row>, SyncError>)
      modifies faults
      ensures r.Ok? ==> r.value == Lookup(TableOf(folder), path)
      ensures faults.count == if r.Ok? then old(faults.count) else old(faults.count) + 1
    {
      var answered := faults.Attempt();
      if !answered {
        return Err(Io);
      }
      if Key(folder, path) in rows {
        return Ok(Some(Strip(rows[Key(folder, path)])));
      }
      assert forall k :: k in rows && k.folder == folder && k.path == path ==> k == Key(folder, path);
      return Ok(None);
    }
  }

  function Snapshot(db: StateDb, local: LocalFiles, folder: FolderId): Local
    reads db`rows, local
  {
    Local(db.TableOf(folder), local.nodes)
  }

  function Lookup(table: Table, path: string): Option<Row> {
    if path in table then Some(table[path]) else None
  }

  /** A possible answer to a query by Drive id: any matching row, or none when
      none matches. */
  predicate AnswersFor(table: Table, id: string, answer: Option<(string, Row)>) {
    match answer
    case None => forall p :: p in table ==> table[p].driveId != Some(id)
    case Some((path, row)) => path in table && table[path] == row && row.driveId == Some(id)
  }
}
