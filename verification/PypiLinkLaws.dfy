/** What the link rewriter is for: a kept link, resolved by the client and routed by the proxy, reaches the file the
    index named; and rewriting a rewritten page changes nothing. */
module PypiLinkLaws {
  import opened Domain
  import opened Text
  import opened Url
  import opened PypiLink
  import opened Mux

  // ---------------------------------------------------------------- the shape of a kept link

  predicate IsTail(t: string) { t == "" || t[0] == '?' || t[0] == '#' }

  lemma {:induction false} ClimbIsUps(n: nat, down: seq<string>)
    requires down != []
    ensures Joined(Ups(n) + down) == Climb(n) + Joined(down)
  {
    if n == 0 {
      assert Ups(n) + down == down && Climb(n) + Joined(down) == Joined(down);
    } else {
      ClimbIsUps(n - 1, down);
      assert (Ups(n) + down)[1..] == Ups(n - 1) + down;
      assert UP + "/" + (Climb(n - 1) + Joined(down)) == "../" + Climb(n - 1) + Joined(down);
    }
  }

  function TailOf(l: Link): string { Tail(l.rawQuery, if l.fragment != "" then EscapedFragment(l) else "") }

  /** A cleaned path under /packages/ comes apart into plain segments. */
  lemma TargetSegments(path: string) returns (segments: seq<string>)
    requires PACKAGES <= Clean(path)
    ensures segments != [] && Plain(segments) && Clean(path) == "/" + Joined(segments)
  {
    assert Clean(path)[1] == 'p';
    segments := CleanSegments(path);
    CleanIsPlain([], Segments(path[1..]));
  }

  lemma EscapedTarget(segments: seq<string>)
    requires segments != [] && Plain(segments)
    ensures var e := EscapeAll(segments, InPath);
      && NoDots(e) && NoSlashes(e) && Joined(e) != "" && Escape("/" + Joined(segments), InPath) == "/" + Joined(e)
      && '?' !in Joined(e) && '#' !in Joined(e)
  {
    var e := EscapeAll(segments, InPath);
    hide Escape;
    forall i | 0 <= i < |e|
      ensures !IsDots(e[i]) && '/' !in e[i] && e[i] != ""
    {
      EscapedSegment(segments[i], InPath);
    }
    EscapePair("/", Joined(segments), InPath);
    EscapeSlash(InPath);
    EscapeJoined(segments, InPath);
    EscapedIsSafe(Joined(segments), InPath);
    assert !Safe('?', InPath) && !Safe('#', InPath);
    assert Joined(e) != "" by {
      assert e[0] != "";
    }
  }

  lemma KeptShape(auth: Authorities, requestPath: string, raw: string) returns (segments: seq<string>)
    requires TargetOf(auth, requestPath, raw).Some?
    ensures segments != [] && Plain(segments) && TargetOf(auth, requestPath, raw) == Some("/" + Joined(segments))
    ensures PACKAGES <= "/" + Joined(segments)
    ensures Resolve(auth, requestPath, raw).value
      == Climb(DirDepth(requestPath)) + Joined(EscapeAll(segments, InPath)) + TailOf(Accepted(auth, raw).value)
  {
    segments := TargetSegments(AbsPath(Accepted(auth, raw).value, requestPath));
    EscapedTarget(segments);
    var e := Joined(EscapeAll(segments, InPath));
    assert ("/" + e)[1..] == e;
    hide Clean, AbsPath, Escape, Accepted, DirDepth, EscapedFragment, EscapeAll;
  }

  // ---------------------------------------------------------------- following a kept link

  /** The path a client asks for when it follows `link` on the page whose own path, as it spells it, is `page`. */
  function ClientPath(page: string, link: string): string
    requires "/" <= page && RefPath(link) != ""
  {
    MergedIsRooted(page, RefPath(link));
    RemoveDotSegments(MergePaths(page, RefPath(link)))
  }

  lemma MergedIsRooted(page: string, reference: string)
    requires "/" <= page && reference != ""
    ensures "/" <= MergePaths(page, reference)
  {
    MergedSegments(page, reference);
  }

  /** Where the proxy routes a request: registry and path; None for a path it cannot decode. */
  function Routed(path: string): Option<(string, string)> {
    var p := Unescape(path);
    if p.None? then None else Some(SplitPrefix(p.value))
  }

  /** What is left of the page's directory, dot segments resolved, after climbing `depth` levels. */
  function Above(page: string, depth: nat): seq<string>
    requires "/" <= page
  {
    var stack := PushAll([], Directory(page));
    if depth <= |stack| then stack[..|stack| - depth] else []
  }

  /** Climbing `depth` levels from the page's directory leaves exactly the registry's own prefix. */
  predicate LandsOn(page: string, depth: nat, prefix: string)
    requires "/" <= page
  {
    Above(page, depth) != [] && Unescape(Joined(Above(page, depth))) == Some(prefix)
  }

  lemma {:induction false} UnescapeFails(a: string, b: string)
    requires Unescape(a).None?
    ensures Unescape(a + "/" + b).None?
    decreases |a|
  {
    var s := a + "/" + b;
    assert a != "" && s[..|a|] == a && s[|a|] == '/';
    hide Unescape, Head;
    UnescapeStep(a);
    UnescapeStep(s);
    var k := if a[0] == '%' then 3 else 1;
    if k <= |a| {
      assert s[..k] == a[..k];
      if Head(a[..k]).Some? {
        UnescapeFails(a[k..], b);
        assert s[k..] == a[k..] + "/" + b;
      }
    } else if k <= |s| {
      SlashIsNoHex(s[..k], |a|);
    }
  }

  lemma SlashIsNoHex(s: string, i: nat)
    requires |s| == 3 && s[0] == '%' && 1 <= i < 3 && s[i] == '/'
    ensures Head(s).None?
  {
  }

  lemma UnescapeRooted(above: string, e: string, target: string)
    requires Unescape("/" + e) == Some(target)
    ensures Unescape("/" + above + "/" + e)
      == if Unescape(above).None? then None else Some("/" + Unescape(above).value + target)
  {
    hide Unescape;
    var s := above + "/" + e;
    assert "/" + above + "/" + e == "/" + s;
    UnescapeSlash(s);
    if Unescape(above).None? {
      UnescapeFails(above, e);
    } else {
      UnescapePair(above, "/" + e);
      assert above + ("/" + e) == s;
      assert ['/'] + (Unescape(above).value + target) == "/" + Unescape(above).value + target;
    }
  }

  lemma UnescapeSlash(s: string)
    ensures Unescape("/" + s) == Append('/', Unescape(s))
  {
    assert ("/" + s)[1..] == s;
  }

  /** Following a kept link on any page: the request reaches the file it stands for under `prefix` exactly when
      climbing from the page's directory by the depth counted leaves that prefix. */
  lemma KeptLinkLandsIff(auth: Authorities, requestPath: string, raw: string, page: string, prefix: string)
    requires "/" <= page && prefix != "" && '/' !in prefix
    ensures var link, target := Resolve(auth, requestPath, raw), TargetOf(auth, requestPath, raw);
      link.Some? ==>
        target.Some? && RefPath(link.value) != ""
        && (Routed(ClientPath(page, link.value)) == Some((prefix, target.value))
            <==> LandsOn(page, DirDepth(requestPath), prefix))
  {
    ResolvesTargets(auth, requestPath, raw);
    if TargetOf(auth, requestPath, raw).Some? {
      var segments := KeptShape(auth, requestPath, raw);
      TailStarts(Accepted(auth, raw).value);
      LinkLandsIff(DirDepth(requestPath), segments, TailOf(Accepted(auth, raw).value), page, prefix);
      hide *;
    }
  }

  lemma ResolvesTargets(auth: Authorities, requestPath: string, raw: string)
    ensures Resolve(auth, requestPath, raw).Some? <==> TargetOf(auth, requestPath, raw).Some?
    ensures TargetOf(auth, requestPath, raw).Some? ==> Accepted(auth, raw).Some?
  {
    hide Accepted, Clean, AbsPath;
  }

  lemma TargetIsUnderPackages(auth: Authorities, requestPath: string, raw: string)
    ensures var target := TargetOf(auth, requestPath, raw); target.Some? ==> PACKAGES <= target.value
  {
    hide Accepted, Clean, AbsPath;
  }

  lemma TailStarts(l: Link)
    ensures IsTail(TailOf(l))
  {
    hide EscapedFragment;
  }

  lemma LinkLandsIff(depth: nat, segments: seq<string>, tail: string, page: string, prefix: string)
    requires segments != [] && Plain(segments) && PACKAGES <= "/" + Joined(segments) && IsTail(tail)
    requires "/" <= page && prefix != "" && '/' !in prefix
    ensures var link := Climb(depth) + Joined(EscapeAll(segments, InPath)) + tail;
      RefPath(link) != "" &&
      (Routed(ClientPath(page, link)) == Some((prefix, "/" + Joined(segments))) <==> LandsOn(page, depth, prefix))
  {
    var down, target := EscapeAll(segments, InPath), "/" + Joined(segments);
    EscapedTarget(segments);
    UnescapeInvertsEscape(target, InPath);
    ClientPathIs(depth, down, tail, page);
    ClientPathRoutes(Above(page, depth), down, target, prefix);
    hide *;
  }

  lemma ClientPathIs(depth: nat, down: seq<string>, tail: string, page: string)
    requires down != [] && NoDots(down) && NoSlashes(down) && '?' !in Joined(down) && '#' !in Joined(down)
      && Joined(down) != ""
    requires IsTail(tail) && "/" <= page
    ensures var link := Climb(depth) + Joined(down) + tail;
      RefPath(link) != "" && ClientPath(page, link) == "/" + Joined(Above(page, depth) + down)
  {
    LinkPath(depth, down, tail);
    ClimbIsUps(depth, down);
    ResolvingUps(page, depth, down);
    hide PushAll, Directory, Joined, Climb, Ups, MergePaths, RemoveDotSegments, RefPath, NoDots, NoSlashes;
  }

  lemma LinkPath(depth: nat, down: seq<string>, tail: string)
    requires down != [] && '?' !in Joined(down) && '#' !in Joined(down) && Joined(down) != "" && IsTail(tail)
    ensures RefPath(Climb(depth) + Joined(down) + tail) == Climb(depth) + Joined(down)
  {
    ClimbIsPlain(depth);
    RefPathStops(Climb(depth) + Joined(down), tail);
  }

  lemma {:induction false} ClimbIsPlain(n: nat)
    ensures forall c | c in Climb(n) :: c == '.' || c == '/'
  {
    if n > 0 {
      ClimbIsPlain(n - 1);
    }
  }

  lemma ClientPathRoutes(above: seq<string>, down: seq<string>, target: string, prefix: string)
    requires down != [] && Unescape("/" + Joined(down)) == Some(target) && PACKAGES <= target
    requires prefix != "" && '/' !in prefix
    ensures Routed("/" + Joined(above + down)) == Some((prefix, target))
      <==> (above != [] && Unescape(Joined(above)) == Some(prefix))
  {
    hide Unescape, SplitPrefix;
    if above == [] {
      assert above + down == down;
      assert target[0] == '/' && |target| > 1;
      SplitPrefixIff(target, prefix, target);
    } else {
      JoinedPair(above, down);
      var a := Joined(above);
      assert "/" + (a + "/" + Joined(down)) == "/" + a + "/" + Joined(down);
      UnescapeRooted(a, Joined(down), target);
      if Unescape(a).Some? {
        var path := "/" + Unescape(a).value + target;
        SplitPrefixIff(path, prefix, target);
        SameFront(Unescape(a).value, prefix, target);
      }
    }
  }

  lemma SameFront(a: string, b: string, t: string)
    ensures "/" + a + t == "/" + b + t <==> a == b
  {
    if "/" + a + t == "/" + b + t {
      var s := "/" + a + t;
      assert |a| == |b| && a == s[1..1 + |a|] && b == s[1..1 + |a|];
    }
  }

  // ---------------------------------------------------------------- ordinary pages

  /** The page's path has no empty or dot segment before its last one. */
  predicate PlainPage(requestPath: string) { "/" <= requestPath && Plain(Directory(requestPath)) }

  lemma {:induction false} CountsSegments(s: string)
    ensures Count(s, '/') + 1 == |Segments(s)|
  {
    if s != "" {
      CountsSegments(s[1..]);
    }
  }

  lemma {:induction false} TrimmedStays(s: string)
    ensures s != "" && s[0] != '/' ==> TrimSlashesLeft(s) == s
    ensures s != "" && s[|s| - 1] != '/' ==> TrimSlashesRight(s) == s
  {
  }

  /** The directory of a path is the text up to its last slash. */
  lemma DirectoryText(path: string)
    requires "/" <= path
    ensures var d := Directory(path);
      path[..LastSlash(path) + 1] == (if d == [] then "/" else "/" + Joined(d) + "/")
  {
    var i := LastSlash(path);
    DirectoryIs(path);
    hide Directory, Segments, LastIndex, Joined;
    if i == 0 {
      assert path[..1] == "/";
    } else {
      JoinedSegments(path[1..i]);
      assert path[..i + 1] == "/" + path[1..i] + "/";
    }
  }

  lemma DirDepthCounts(requestPath: string)
    requires PlainPage(requestPath)
    ensures DirDepth(requestPath) == |Directory(requestPath)|
  {
    DirectoryText(requestPath);
    SlashAtTheEnd(requestPath);
    DepthOfSegments(Directory(requestPath));
    hide *;
  }

  lemma DepthOfSegments(d: seq<string>)
    requires Plain(d)
    ensures DepthOf(if d == [] then "/" else "/" + Joined(d) + "/") == |d|
  {
    if d == [] {
      TrimsOneSlash("", "");
      assert "/" + "" + "" == "/";
    } else {
      PlainEnds(d);
      TrimsOneSlash(Joined(d), "/");
      assert NoSlashes(d);
      SegmentsOfJoined(d);
      CountsSegments(Joined(d));
    }
    hide TrimSlashesLeft, TrimSlashesRight, Count, Segments, Joined;
  }

  lemma SlashAtTheEnd(path: string)
    requires "/" <= path
    ensures DirText(path) == path[..LastSlash(path) + 1]
  {
    if Suffixed(path, "/") {
      var n := |path| - 1;
      assert path[n..][0] == path[n] == '/';
    }
  }

  lemma TrimsOneSlash(s: string, tail: string)
    requires (s == "" && tail == "") || (s != "" && s[0] != '/' && s[|s| - 1] != '/' && tail == "/")
    ensures TrimSlashesRight(TrimSlashesLeft("/" + s + tail)) == s
  {
    assert ("/" + s + tail)[1..] == s + tail;
    if s != "" {
      TrimmedStays(s + tail);
      assert (s + tail)[..|s + tail| - 1] == s;
      TrimmedStays(s);
    }
  }

  lemma {:induction false} PlainEnds(p: seq<string>)
    requires p != [] && Plain(p)
    ensures var s := Joined(p); s != "" && s[0] != '/' && s[|s| - 1] != '/'
  {
    assert p[0] != "" && p[0][0] in p[0];
    if |p| == 1 {
      assert p[0][|p[0]| - 1] in p[0];
    } else {
      PlainEnds(p[1..]);
    }
  }

  /** An ordinary page under `prefix`, with its path spelled as Go spells it. */
  function PageOf(prefix: string, requestPath: string): string { Escape("/" + prefix + requestPath, InPath) }

  lemma PageDirectory(prefix: string, requestPath: string)
    requires PlainPage(requestPath) && Plain([prefix])
    ensures "/" <= PageOf(prefix, requestPath)
    ensures Directory(PageOf(prefix, requestPath)) == EscapeAll([prefix] + Directory(requestPath), InPath)
  {
    var rest := requestPath[1..];
    assert requestPath == "/" + rest && '/' !in prefix by {
      assert [prefix][0] == prefix;
    }
    var text := prefix + "/" + rest;
    assert "/" + prefix + requestPath == "/" + text;
    EscapePair("/", text, InPath);
    EscapeSlash(InPath);
    SegmentsOfEscaped(text);
    SegmentsOfPair(prefix, rest);
    SegmentsOfPlain(prefix);
    var s := Segments(rest);
    assert PageOf(prefix, requestPath)[1..] == Escape(text, InPath);
    hide Escape, Segments;
    assert ([prefix] + s)[..|s|] == [prefix] + s[..|s| - 1];
  }

  lemma SegmentsOfEscaped(s: string)
    ensures Segments(Escape(s, InPath)) == EscapeAll(Segments(s), InPath)
  {
    var p := Segments(s);
    JoinedSegments(s);
    EscapeJoined(p, InPath);
    var e := EscapeAll(p, InPath);
    forall i | 0 <= i < |e|
      ensures '/' !in e[i]
    {
      EscapedSegment(p[i], InPath);
    }
    SegmentsOfJoined(e);
  }

  lemma OrdinaryPageLands(requestPath: string, prefix: string)
    requires PlainPage(requestPath) && Plain([prefix])
    ensures "/" <= PageOf(prefix, requestPath) && LandsOn(PageOf(prefix, requestPath), DirDepth(requestPath), prefix)
  {
    var d := Directory(requestPath);
    DirDepthCounts(requestPath);
    PageDirectory(prefix, requestPath);
    var e := EscapeAll([prefix] + d, InPath);
    forall i | 0 <= i < |e|
      ensures !IsDots(e[i])
    {
      assert ([prefix] + d)[i] == if i == 0 then [prefix][0] else d[i - 1];
      EscapedSegment(([prefix] + d)[i], InPath);
    }
    PushAllPlain([], e);
    UnescapeInvertsEscape(prefix, InPath);
    hide PushAll, Escape, Unescape, DirDepth, PageOf, Directory;
    assert [] + e == e && e[..|e| - |d|] == [Escape(prefix, InPath)];
  }

  /** Every kept link of an ordinary page leads back, through the client and the mux, to the same registry and to the
      cleaned /packages/ path of the link the index gave. */
  lemma KeptLinkReachesItsFile(auth: Authorities, requestPath: string, raw: string, prefix: string)
    requires PlainPage(requestPath) && Plain([prefix])
    ensures var page, link := PageOf(prefix, requestPath), Resolve(auth, requestPath, raw);
      var target := TargetOf(auth, requestPath, raw);
      link.Some? ==>
        && target.Some? && PACKAGES <= target.value
        && "/" <= page && RefPath(link.value) != ""
        && Routed(ClientPath(page, link.value)) == Some((prefix, target.value))
  {
    TargetIsUnderPackages(auth, requestPath, raw);
    OrdinaryPageLands(requestPath, prefix);
    assert [prefix][0] == prefix;
    KeptLinkLandsIff(auth, requestPath, raw, PageOf(prefix, requestPath), prefix);
  }

  /** An empty segment at the end of the page's directory is not counted, and every link of that page misses. */
  lemma TrailingSlashMisses(segment: string, prefix: string)
    requires Plain([segment]) && Plain([prefix])
    ensures var page := "/" + prefix + "/" + segment + "//";
      DirDepth("/" + segment + "//") == 1 && !LandsOn(page, 1, prefix)
  {
    assert [segment][0] == segment && [prefix][0] == prefix;
    var path := "/" + segment + "//";
    assert path[|path| - 1..] == "/";
    TrimsTwoSlashes(segment);
    SegmentsOfPlain(segment);
    CountsSegments(segment);
    var dir := [prefix, segment, ""];
    TrailingDirectory(prefix, segment);
    PushAllPlain([], dir);
    assert [] + dir == dir && dir[..2] == [prefix, segment];
    JoinedPair([prefix], [segment]);
    assert [prefix] + [segment] == [prefix, segment];
    UnescapeKeepsSlash(prefix, segment);
    hide PushAll, DirDepth, Directory, Unescape;
  }

  lemma TrailingDirectory(prefix: string, segment: string)
    requires '/' !in prefix && '/' !in segment
    ensures Directory("/" + prefix + "/" + segment + "//") == [prefix, segment, ""]
  {
    var page := "/" + prefix + "/" + segment + "//";
    assert page[1..] == prefix + "/" + (segment + "/" + "/");
    assert "" + "/" + "" == "/";
    SegmentsOfPair("", "");
    SegmentsOfPair(segment, "/");
    SegmentsOfPair(prefix, segment + "/" + "/");
    SegmentsOfPlain(prefix);
    SegmentsOfPlain(segment);
    hide Segments;
    assert [prefix] + ([segment] + (Segments("") + Segments(""))) == [prefix, segment, "", ""] by {
      SegmentsOfPlain("");
    }
  }

  lemma TrimsTwoSlashes(s: string)
    requires s != "" && '/' !in s
    ensures TrimSlashesRight(TrimSlashesLeft("/" + s + "//")) == s
  {
    var t := s + "//";
    assert ("/" + t)[1..] == t && "/" + s + "//" == "/" + t;
    assert s[0] in s && s[|s| - 1] in s;
    TrimmedStays(t);
    assert t[..|t| - 1] == s + "/" && (s + "/")[..|s|] == s;
    TrimmedStays(s);
  }

  lemma UnescapeKeepsSlash(a: string, b: string)
    ensures Unescape(a + "/" + b).Some? ==> '/' in Unescape(a + "/" + b).value
  {
    if Unescape(a).None? {
      UnescapeFails(a, b);
    } else {
      UnescapePair(a, "/" + b);
      assert a + ("/" + b) == a + "/" + b && ("/" + b)[1..] == b;
      assert Unescape("/" + b) == Append('/', Unescape(b));
    }
  }
}
