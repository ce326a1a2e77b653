/** Relative paths as the state table stores them: names joined by slashes. */
module Paths {
  const SLASH: char := '/'

  /** Names Drive siblings are assumed to have. */
  predicate ValidName(name: string) {
    name != "" && name != "." && name != ".." && SLASH !in name
  }

  function JoinPath(prefix: string, name: string): string {
    if prefix == "" then name else prefix + [SLASH] + name
  }

  /** `path` is `top` or lies below it. */
  predicate Under(top: string, path: string) {
    path == top || (|top| < |path| && path[..|top|] == top && path[|top|] == SLASH)
  }

  lemma UnderTransitive(a: string, b: string, c: string)
    requires Under(a, b) && Under(b, c)
    ensures Under(a, c)
  {
    if a != b && b != c {
      assert c[..|a|] == c[..|b|][..|a|];
      assert c[|a|] == c[..|b|][|a|];
    }
  }

  lemma JoinIsUnder(prefix: string, name: string)
    requires prefix != ""
    ensures Under(prefix, JoinPath(prefix, name)) && JoinPath(prefix, name) != prefix
  {
  }

  lemma FirstNameIsUnique(a: string, b: string, path: string)
    requires ValidName(a) && ValidName(b) && Under(a, path) && Under(b, path)
    ensures a == b
  {
    assert a == path[..|a|] && b == path[..|b|];
  }

  lemma UnderStripsPrefix(prefix: string, name: string, path: string)
    requires prefix != "" && Under(JoinPath(prefix, name), path)
    ensures |prefix| < |path| && Under(name, path[|prefix| + 1..])
  {
    var joined := JoinPath(prefix, name);
    var rest := path[|prefix| + 1..];
    assert joined[|prefix| + 1..] == name;
    assert rest[..|name|] == path[..|joined|][|prefix| + 1..];
  }

  /** The child of `prefix` below which a path lies is unique. */
  lemma ChildIsUnique(prefix: string, a: string, b: string, path: string)
    requires ValidName(a) && ValidName(b)
    requires Under(JoinPath(prefix, a), path) && Under(JoinPath(prefix, b), path)
    ensures a == b
  {
    if prefix == "" {
      FirstNameIsUnique(a, b, path);
    } else {
      UnderStripsPrefix(prefix, a, path);
      UnderStripsPrefix(prefix, b, path);
      FirstNameIsUnique(a, b, path[|prefix| + 1..]);
    }
  }

  /** A joined path determines its parent and its name. */
  lemma JoinInjective(p: string, n: string, q: string, m: string)
    requires ValidName(n) && ValidName(m) && JoinPath(p, n) == JoinPath(q, m)
    ensures p == q && n == m
  {
    var s := JoinPath(p, n);
    assert forall i :: 0 <= i < |n| ==> s[|s| - |n| + i] == n[i];
    assert forall i :: 0 <= i < |m| ==> s[|s| - |m| + i] == m[i];
    assert |n| < |s| ==> s[|s| - |n| - 1] == SLASH;
    assert |m| < |s| ==> s[|s| - |m| - 1] == SLASH;
    assert p != "" ==> s[..|p|] == p;
    assert q != "" ==> s[..|q|] == q;
  }
}
