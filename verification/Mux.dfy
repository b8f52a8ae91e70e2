/** Routing by the first path segment. */
module Mux {
  import opened Domain
  import opened Text

  /** "/npm/foo/bar" gives "npm" and "/foo/bar"; "/npm" alone gives "npm" and "/". */
  function SplitPrefix(path: string): (string, string) {
    var trimmed := TrimPrefix(path, "/");
    var idx := Index(trimmed, "/");
    if idx.None? then (trimmed, "/") else (trimmed[..idx.value], trimmed[idx.value..])
  }

  /** `path` is "/", `prefix` and `rest` put together, or the prefix alone and the rest "/". */
  predicate Pieces(path: string, prefix: string, rest: string) {
    '/' !in prefix && "/" <= rest && (path == "/" + prefix + rest || (rest == "/" && path == "/" + prefix))
  }

  /** A rooted path is routed to a prefix and a rest exactly when it is made of them. */
  lemma SplitPrefixIff(path: string, prefix: string, rest: string)
    requires "/" <= path
    ensures SplitPrefix(path) == (prefix, rest) <==> Pieces(path, prefix, rest)
  {
    SplitShape(path);
    var (p, r) := SplitPrefix(path);
    hide SplitPrefix;
    if Pieces(path, prefix, rest) {
      FullForm(path, p, r);
      FullForm(path, prefix, rest);
      hide Pieces, Full;
      CutAtFirst('/', p, r[1..], prefix, rest[1..]);
      assert r == "/" + r[1..] && rest == "/" + rest[1..];
    }
  }

  lemma SplitShape(path: string)
    requires "/" <= path
    ensures Pieces(path, SplitPrefix(path).0, SplitPrefix(path).1)
  {
    var s := path[1..];
    assert path == "/" + s;
    SlashIndex(s);
    hide Index;
    var i := Index(s, "/");
    if i.Some? {
      assert s == s[..i.value] + s[i.value..];
      assert path == "/" + s[..i.value] + s[i.value..];
    }
  }

  lemma SlashIndex(s: string)
    ensures var i := Index(s, "/");
      if i.None? then '/' !in s else i.value < |s| && '/' !in s[..i.value] && s[i.value..][0] == '/'
  {
    forall j | 0 <= j < |s|
      ensures s[j] == '/' <==> OccursAt(s, "/", j)
    {
      assert s[j..j + 1] == [s[j]];
    }
    hide OccursAt;
  }

  /** The path with its slash behind the prefix, which a prefix alone lacks. */
  function Full(path: string): string
    requires path != ""
  {
    if '/' in path[1..] then path else path + "/"
  }

  lemma FullForm(path: string, prefix: string, rest: string)
    requires "/" <= path && Pieces(path, prefix, rest)
    ensures Full(path)[1..] == prefix + ['/'] + rest[1..]
  {
    assert rest == "/" + rest[1..];
    if path == "/" + prefix + rest {
      assert path[1..] == prefix + rest && path[1..][|prefix|] == '/';
    } else {
      assert path[1..] == prefix;
    }
  }
}
