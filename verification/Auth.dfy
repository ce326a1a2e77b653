/** OAuth tokens: expiry, the token built from a refresh response, and the
    token cache on disk. */
module Auth {
  import opened Common

  datatype StoredToken = StoredToken(
    accessToken: string,
    refreshToken: Option<string>,
    /** Unix time in seconds after which the access token should be renewed. */
    expiresAt: Option<int>)

  const EXPIRY_MARGIN := 30

  predicate NeedsRefresh(token: StoredToken, now: int) {
    token.expiresAt.Some? && token.expiresAt.value <= now + EXPIRY_MARGIN
  }

  predicate Renewable(token: StoredToken) {
    token.refreshToken.Some? && token.refreshToken.value != ""
  }

  /** What the token endpoint answers to a refresh. */
  datatype TokenReply = TokenReply(
    accessToken: string,
    refreshToken: Option<string>,
    expiresIn: Option<nat>)

  /** The token that replaces `previous`; a reply with an empty token is an error. */
  function RefreshedToken(previous: StoredToken, reply: TokenReply, now: int): (r: Result<StoredToken, SyncError>)
    ensures r.Err? <==> reply.accessToken == "" || reply.refreshToken == Some("")
    // The issued tokens are the reply's; only a refresh token may be carried over.
    ensures r.Ok? ==> r.value.accessToken == reply.accessToken && r.value.accessToken != ""
    ensures r.Ok? ==>
      r.value.refreshToken == if reply.refreshToken.Some? then reply.refreshToken else previous.refreshToken
    ensures r.Ok? && Renewable(previous) ==> Renewable(r.value)
    // The new token stays fresh for its announced lifetime less the margin.
    ensures r.Ok? ==> forall later ::
      NeedsRefresh(r.value, later) <==> reply.expiresIn.Some? && reply.expiresIn.value - 30 <= later - now
  {
    if reply.accessToken == "" || reply.refreshToken == Some("") then Err(OAuth)
    else Ok(StoredToken(
              reply.accessToken,
              if reply.refreshToken.Some? then reply.refreshToken else previous.refreshToken,
              if reply.expiresIn.Some? then Some(now + reply.expiresIn.value) else None))
  }

  type Path = string

  /** A cache file either parses or does not. */
  datatype CacheFile = Readable(token: StoredToken) | Unreadable

  type CacheFiles = map<Path, CacheFile>

  datatype Draft = Empty | Truncated | Whole(token: StoredToken)

  /** The directory holding token caches. Temporary files have names of their
      own kind, so `drafts` is separate from the files a reader opens. */
  class TokenDisk {
    var files: CacheFiles
    var drafts: map<nat, Draft>

    constructor (files: CacheFiles)
      ensures this.files == files && drafts == map[]
    {
      this.files := files;
      drafts := map[];
    }

    /** Writes a private sibling file and renames it over the cache. Every
        system call may fail. `observed` lists what a concurrent reader of the
        cache files could see, from before the first call to after the last:
        only the old files or the finished new ones. */
    method SaveToken(path: Path, token: StoredToken, temporary: nat, faults: Faults)
      returns (r: Result<(), SyncError>, ghost observed: seq<CacheFiles>)
      modifies this, faults
      ensures if r.Ok? then faults.count == old(faults.count)
              else faults.count > old(faults.count) || temporary in old(drafts)
      ensures r.Ok? ==> files == old(files)[path := Readable(token)]
      ensures r.Err? ==> files == old(files)
      ensures |observed| > 0 && observed[0] == old(files) && observed[|observed| - 1] == files
      ensures forall i :: 0 <= i < |observed| ==>
        observed[i] == old(files) || observed[i] == old(files)[path := Readable(token)]
      ensures r.Ok? ==> drafts == old(drafts)
      ensures drafts.Keys <= old(drafts).Keys + {temporary}
    {
      observed := [files];
      var directoryReady := faults.Attempt();
      if !directoryReady || temporary in drafts {
        return Err(Io), observed;
      }
      ghost var before := drafts;
      drafts := drafts[temporary := Empty];
      observed := observed + [files];
      var written := faults.Attempt();
      var synced := faults.Attempt();
      var renamed := faults.Attempt();
      drafts := drafts[temporary := if written then Whole(token) else Truncated];
      observed := observed + [files];
      if written && synced && renamed {
        files := files[path := Readable(drafts[temporary].token)];
        drafts := drafts - {temporary};
        observed := observed + [files];
        assert drafts == before;
        return Ok(()), observed;
      }
      var cleaned: bool := *;
      if cleaned {
        drafts := drafts - {temporary};
      }
      observed := observed + [files];
      return Err(Io), observed;
    }

    method RemoveFile(path: Path, faults: Faults) returns (removed: bool)
      modifies this`files, faults
      ensures faults.count == if removed then old(faults.count) else old(faults.count) + 1
      ensures files == if removed then old(files) - {path} else old(files)
      ensures path !in old(files) ==> removed
    {
      if path !in files {
        assert files - {path} == files;
        return true;
      }
      removed := faults.Attempt();
      if removed {
        files := files - {path};
      }
    }
  }
}
