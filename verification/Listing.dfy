/** Collecting a listing that the server hands out page by page. */
module Listing {
  import opened Common

  datatype Page<T> = Page(items: seq<T>, next: Option<string>, newStart: Option<string>)

  /** What the server answers for each page token; None asks for the first page. */
  type Server<T> = Option<string> -> Page<T>

  /** Following `next` from `token` ends after `n` more pages. */
  predicate EndsAfter<T>(server: Server<T>, token: Option<string>, n: nat)
    decreases n
  {
    if n == 0 then server(token).next.None?
    else server(token).next.Some? && EndsAfter(server, server(token).next, n - 1)
  }

  /** All items from `token` on, in order. */
  function Listed<T>(server: Server<T>, token: Option<string>, n: nat): seq<T>
    requires EndsAfter(server, token, n)
    decreases n
  {
    server(token).items + if n == 0 then [] else Listed(server, server(token).next, n - 1)
  }

  /** The token of the last page. */
  function LastToken<T>(server: Server<T>, token: Option<string>, n: nat): Option<string>
    requires EndsAfter(server, token, n)
    decreases n
  {
    if n == 0 then token else LastToken(server, server(token).next, n - 1)
  }

  /** Where the next poll starts when this one started at `token`. */
  function NextStart<T>(server: Server<T>, token: string, n: nat): string
    requires EndsAfter(server, Some(token), n)
  {
    var last := LastToken(server, Some(token), n);
    if server(last).newStart.Some? then server(last).newStart.value
    else if last.Some? then last.value else token
  }

  /** The number of pages is determined by the server. */
  lemma {:induction false} EndIsUnique<T>(server: Server<T>, token: Option<string>, n: nat, m: nat)
    requires EndsAfter(server, token, n) && EndsAfter(server, token, m)
    ensures n == m
    decreases n
  {
    if n > 0 && m > 0 {
      EndIsUnique(server, server(token).next, n - 1, m - 1);
    }
  }

  // ------------------------------------------------------ the pages themselves

  /** The server's pages from `token` on: each is the one that its predecessor
      names, and the last names none. */
  ghost predicate IsPages<T>(server: Server<T>, token: Option<string>, pages: seq<Page<T>>) {
    && pages != [] && pages[0] == server(token)
    && (forall i :: 0 <= i < |pages| - 1 ==> pages[i].next.Some? && pages[i + 1] == server(pages[i].next))
    && pages[|pages| - 1].next.None?
  }

  /** The number of items on the first `i` pages. */
  function Offset<T>(pages: seq<Page<T>>, i: nat): nat
    requires i <= |pages|
  {
    if i == 0 then 0 else Offset(pages, i - 1) + |pages[i - 1].items|
  }

  lemma {:induction false} OffsetShift<T>(pages: seq<Page<T>>, i: nat)
    requires 0 < i <= |pages|
    ensures Offset(pages, i) == |pages[0].items| + Offset(pages[1..], i - 1)
  {
    if i > 1 {
      OffsetShift(pages, i - 1);
    }
  }

  lemma {:induction false} OffsetsGrow<T>(pages: seq<Page<T>>, i: nat, k: nat)
    requires i <= k <= |pages|
    ensures Offset(pages, i) <= Offset(pages, k)
  {
    if i < k {
      OffsetsGrow(pages, i, k - 1);
    }
  }

  lemma {:induction false} PagesEnd<T>(server: Server<T>, token: Option<string>, pages: seq<Page<T>>)
    requires IsPages(server, token, pages)
    ensures EndsAfter(server, token, |pages| - 1)
    decreases |pages|
  {
    if |pages| > 1 {
      assert IsPages(server, pages[0].next, pages[1..]);
      PagesEnd(server, pages[0].next, pages[1..]);
    }
  }

  /** A listing holds the items of every page, page after page: item `j` of page
      `i` stands behind all items of the pages before. */
  lemma {:induction false} ListedIsAllPages<T>(
      server: Server<T>, token: Option<string>, pages: seq<Page<T>>, i: nat, j: nat)
    requires IsPages(server, token, pages) && i < |pages| && j < |pages[i].items|
    requires EndsAfter(server, token, |pages| - 1)
    ensures |Listed(server, token, |pages| - 1)| == Offset(pages, |pages|)
    ensures Offset(pages, i) + j < Offset(pages, |pages|)
    ensures Listed(server, token, |pages| - 1)[Offset(pages, i) + j] == pages[i].items[j]
    decreases |pages|
  {
    ListedLength(server, token, pages);
    OffsetsGrow(pages, i + 1, |pages|);
    if i > 0 {
      var rest := pages[1..];
      assert IsPages(server, pages[0].next, rest);
      OffsetShift(pages, i);
      ListedIsAllPages(server, pages[0].next, rest, i - 1, j);
    }
  }

  lemma {:induction false} ListedLength<T>(server: Server<T>, token: Option<string>, pages: seq<Page<T>>)
    requires IsPages(server, token, pages) && EndsAfter(server, token, |pages| - 1)
    ensures |Listed(server, token, |pages| - 1)| == Offset(pages, |pages|)
    decreases |pages|
  {
    OffsetShift(pages, |pages|);
    if |pages| > 1 {
      assert IsPages(server, pages[0].next, pages[1..]);
      ListedLength(server, pages[0].next, pages[1..]);
    }
  }

  lemma {:induction false} LastTokenIsSome<T>(server: Server<T>, token: string, n: nat)
    requires EndsAfter(server, Some(token), n)
    ensures LastToken(server, Some(token), n).Some?
    decreases n
  {
    if n > 0 {
      LastTokenIsSome(server, server(Some(token)).next.value, n - 1);
    }
  }

  /** The next poll starts where the last page says, or else at the token that
      asked for the last page. */
  lemma {:induction false} NextStartIsLastPages<T>(server: Server<T>, token: string, pages: seq<Page<T>>)
    requires IsPages(server, Some(token), pages) && EndsAfter(server, Some(token), |pages| - 1)
    ensures var last := pages[|pages| - 1];
      NextStart(server, token, |pages| - 1) ==
      if last.newStart.Some? then last.newStart.value
      else if |pages| == 1 then token else pages[|pages| - 2].next.value
    decreases |pages|
  {
    if |pages| > 1 {
      assert IsPages(server, pages[0].next, pages[1..]);
      var next := pages[0].next;
      NextStartIsLastPages(server, next.value, pages[1..]);
      LastTokenIsSome(server, next.value, |pages| - 2);
      assert LastToken(server, Some(token), |pages| - 1) == LastToken(server, next, |pages| - 2);
    }
  }

  /** Collects every page; a request that fails makes the whole listing fail, so
      a result is never partial. */
  method ListFiles<T>(server: Server<T>, faults: Faults, ghost n: nat) returns (r: Result<seq<T>, SyncError>)
    requires EndsAfter(server, None, n)
    modifies faults
    ensures r.Ok? ==> r.value == Listed(server, None, n)
    ensures faults.count == if r.Ok? then old(faults.count) else old(faults.count) + 1
  {
    var files: seq<T> := [];
    var token: Option<string> := None;
    ghost var left := n;
    while true
      invariant EndsAfter(server, token, left)
      invariant files + Listed(server, token, left) == Listed(server, None, n)
      invariant faults.count == old(faults.count)
      decreases left
    {
      var answered := faults.Attempt();
      if !answered {
        return Err(Api);
      }
      var page := server(token);
      ghost var before := files;
      files := files + page.items;
      if page.next.None? {
        assert files == before + Listed(server, token, left);
        break;
      }
      token := page.next;
      left := left - 1;
    }
    return Ok(files);
  }

  /** The same for changes, which also tell where to continue next time. */
  method ListChanges<T>(server: Server<T>, pageToken: string, faults: Faults, ghost n: nat)
    returns (r: Result<(seq<T>, string), SyncError>)
    requires EndsAfter(server, Some(pageToken), n)
    modifies faults
    ensures faults.count == if r.Ok? then old(faults.count) else old(faults.count) + 1
    ensures r.Ok? ==> r.value == (Listed(server, Some(pageToken), n), NextStart(server, pageToken, n))
  {
    var changes: seq<T> := [];
    var token := pageToken;
    var newStart: Option<string> := None;
    ghost var left := n;
    while true
      invariant EndsAfter(server, Some(token), left)
      invariant changes + Listed(server, Some(token), left) == Listed(server, Some(pageToken), n)
      invariant LastToken(server, Some(token), left) == LastToken(server, Some(pageToken), n)
      invariant faults.count == old(faults.count)
      decreases left
    {
      var answered := faults.Attempt();
      if !answered {
        return Err(Api);
      }
      var page := server(Some(token));
      ghost var before := changes;
      changes := changes + page.items;
      if page.next.Some? {
        token := page.next.value;
        left := left - 1;
      } else {
        newStart := page.newStart;
        assert changes == before + Listed(server, Some(token), left);
        break;
      }
    }
    return Ok((changes, if newStart.Some? then newStart.value else token));
  }
}
