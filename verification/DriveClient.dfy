/** The token state shared by all Drive requests. The functions on `Client` say
    what each critical section does; the classes carry them out in place. */
module DriveClient {
  import opened Common
  import opened Auth

  datatype Session = Session(token: StoredToken, path: Option<Path>, generation: nat)

  /** The in-memory session and the token cache files. */
  datatype Client = Client(session: Session, files: CacheFiles)

  function BareToken(access: string): StoredToken {
    StoredToken(access, None, None)
  }

  function Replaced(session: Session, token: StoredToken, path: Option<Path>): Session {
    Session(token, path, session.generation + 1)
  }

  function SetAccess(c: Client, access: string): Client {
    c.(session := Replaced(c.session, BareToken(access), None))
  }

  function Restore(c: Client, token: StoredToken, path: Path): Client {
    c.(session := Replaced(c.session, token, Some(path)))
  }

  /** A new session; nothing changes unless the cache was written. */
  function SaveNew(c: Client, token: StoredToken, path: Path, written: bool): Client {
    if !written then c
    else Client(Replaced(c.session, token, Some(path)), c.files[path := Readable(token)])
  }

  /** Whether a refresh started from `snapshot` still belongs to the session. */
  predicate Current(c: Client, snapshot: Session) {
    c.session.generation == snapshot.generation
  }

  /** The write-lock section that ends a refresh. */
  function Install(c: Client, snapshot: Session, issued: StoredToken, written: bool): Client
    requires snapshot.path.Some?
  {
    if !Current(c, snapshot) || !written then c
    else Client(c.session.(token := issued), c.files[snapshot.path.value := Readable(issued)])
  }

  /** The test made on each read of the session by a request. */
  function Decide(session: Session, rejected: Option<Session>, now: int): Result<bool, SyncError> {
    if session.token.accessToken == "" || (rejected.Some? && rejected.value.generation != session.generation) then
      Err(NotAuthenticated)
    else
      Ok(NeedsRefresh(session.token, now)
         || (rejected.Some? && rejected.value.token.accessToken == session.token.accessToken))
  }

  class TokenState {
    var token: StoredToken
    var path: Option<Path>
    var generation: nat

    constructor (access: string)
      ensures View() == Session(BareToken(access), None, 0)
    {
      token := BareToken(access);
      path := None;
      generation := 0;
    }

    function View(): Session
      reads this
    {
      Session(token, path, generation)
    }

    method Replace(token: StoredToken, path: Option<Path>)
      modifies this
      ensures View() == Replaced(old(View()), token, path)
    {
      generation := generation + 1;
      this.token := token;
      this.path := path;
    }
  }

  class DriveClient {
    const tokens: TokenState
    const disk: TokenDisk

    constructor (access: string, disk: TokenDisk)
      ensures fresh(tokens) && this.disk == disk
      ensures View() == Client(Session(BareToken(access), None, 0), disk.files)
    {
      tokens := new TokenState(access);
      this.disk := disk;
    }

    function View(): Client
      reads tokens, disk
    {
      Client(tokens.View(), disk.files)
    }

    method SetAccessToken(access: string)
      modifies tokens
      ensures View() == SetAccess(old(View()), access)
      ensures tokens.token == StoredToken(access, None, None) && tokens.path.None?
      ensures tokens.generation > old(tokens.generation) && disk.files == old(disk.files)
    {
      tokens.Replace(BareToken(access), None);
    }

    method RestoreToken(token: StoredToken, path: Path)
      modifies tokens
      ensures View() == Restore(old(View()), token, path)
      ensures tokens.token == token && tokens.path == Some(path)
      ensures tokens.generation > old(tokens.generation) && disk.files == old(disk.files)
    {
      tokens.Replace(token, Some(path));
    }

    method SaveToken(token: StoredToken, path: Path, temporary: nat, faults: Faults) returns (r: Result<(), SyncError>)
      modifies tokens, disk, faults
      ensures View() == SaveNew(old(View()), token, path, r.Ok?)
      ensures r.Ok? ==>
        && tokens.token == token && tokens.path == Some(path) && tokens.generation > old(tokens.generation)
        && disk.files == old(disk.files)[path := Readable(token)]
      ensures r.Err? ==> View() == old(View())
      ensures if r.Ok? then faults.count == old(faults.count)
              else faults.count > old(faults.count) || temporary in old(disk.drafts)
    {
      ghost var observed;
      r, observed := disk.SaveToken(path, token, temporary, faults);
      if r.Ok? {
        tokens.Replace(token, Some(path));
      }
    }

    /** The end of a refresh: a newer session or a failed write leaves both the
        session and the cache as they were. */
    method FinishRefresh(snapshot: Session, issued: StoredToken, temporary: nat, faults: Faults)
      returns (r: Result<Session, SyncError>)
      requires snapshot.path.Some?
      modifies tokens, disk, faults
      ensures View() == Install(old(View()), snapshot, issued, r.Ok?)
      ensures old(tokens.generation) != snapshot.generation ==> r == Err(NotAuthenticated)
      ensures r.Ok? ==> r.value == tokens.View()
      ensures r.Ok? ==>
        && tokens.token == issued && tokens.path == old(tokens.path) && tokens.generation == old(tokens.generation)
        && disk.files == old(disk.files)[snapshot.path.value := Readable(issued)]
      ensures r.Err? ==> View() == old(View())
      ensures if r.Ok? then faults.count == old(faults.count)
              else faults.count > old(faults.count) || old(tokens.generation) != snapshot.generation
                   || temporary in old(disk.drafts)
    {
      if tokens.generation != snapshot.generation {
        return Err(NotAuthenticated);
      }
      var saved;
      ghost var observed;
      saved, observed := disk.SaveToken(snapshot.path.value, issued, temporary, faults);
      if saved.Err? {
        return Err(saved.error);
      }
      tokens.token := issued;
      return Ok(tokens.View());
    }
  }
}
