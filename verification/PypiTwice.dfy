/** Rewriting a link that is already rewritten: it stays as it is, unless it ends in a space. */
module PypiTwice {
  import opened Domain
  import opened Text
  import opened Url
  import opened PypiLink
  import opened PypiLinkLaws

  // ---------------------------------------------------------------- what a parsed link's parts hold

  lemma {:induction false} CutParts(s: string, c: char)
    ensures var (before, after) := Cut(s, c);
      c !in before && (if c in s then s == before + [c] + after else before == s && after == "")
  {
    if s != "" && s[0] != c {
      CutParts(s[1..], c);
      assert s == [s[0]] + s[1..];
      var (before, after) := Cut(s[1..], c);
      assert [s[0]] + (before + [c] + after) == [s[0]] + before + [c] + after;
    }
  }

  lemma CutAround(before: string, c: char, after: string)
    requires c !in before
    ensures Cut(before + [c] + after, c) == (before, after)
  {
    var s := before + [c] + after;
    assert s[|before|] == c;
    CutParts(s, c);
    var (b, a) := Cut(s, c);
    CutAtFirst(c, before, after, b, a);
  }

  lemma CutNothing(s: string, c: char)
    requires c !in s
    ensures Cut(s, c) == (s, "")
  {
    CutParts(s, c);
  }

  predicate EndOf(s: string, t: string) { Suffixed(t, s) }

  lemma {:induction false} SchemeRest(s: string, i: nat)
    requires i <= |s| && SchemeFrom(s, i).Scheme?
    ensures EndOf(SchemeFrom(s, i).rest, s)
    decreases |s| - i
  {
    if i < |s| && s[i] != ':' {
      SchemeRest(s, i + 1);
    }
  }

  /** A link's query is the end of the text before its fragment. */
  lemma QueryIsAnEnd(auth: Authorities, u: string)
    requires ParseNoFragment(auth, u).Some?
    ensures EndOf(ParseNoFragment(auth, u).value.rawQuery, u)
    ensures var l := ParseNoFragment(auth, u).value; l.rawFragment == "" && l.fragment == ""
    ensures forall c | c in u :: !Control(c)
  {
    if u != "*" {
      match SchemeFrom(u, 0)
      case NoScheme =>
        RestQuery(auth, "", u);
      case Scheme(name, rest) =>
        SchemeRest(u, 0);
        RestQuery(auth, LowerAll(name), rest);
    }
  }

  lemma RestQuery(auth: Authorities, scheme: string, text: string)
    requires ParseRest(auth, scheme, text).Some?
    ensures EndOf(ParseRest(auth, scheme, text).value.rawQuery, text)
    ensures var l := ParseRest(auth, scheme, text).value; l.rawFragment == "" && l.fragment == ""
  {
    CutParts(text, '?');
    hide Segments, Cut, Index, Unescape;
  }

  lemma {:induction false} CleanCharsEnd(s: string)
    requires s != "" && !Blank(s[|s| - 1])
    ensures CleanChars(s) != "" && !Blank(CleanChars(s)[|CleanChars(s)| - 1])
  {
    var first, rest := CleanChar(s[0]), CleanChars(s[1..]);
    CleanedChar(s[0]);
    if |s| > 1 {
      CleanCharsEnd(s[1..]);
    }
    assert CleanChars(s) == first + rest && (|s| == 1 ==> rest == "");
    hide CleanChar, CleanChars, Blank;
    assert rest != "" ==> (first + rest)[|first + rest| - 1] == rest[|rest| - 1];
  }

  lemma {:induction false} TrimRightEnd(s: string)
    ensures var t := TrimRight(s);
      t <= s && (t != "" ==> !Blank(t[|t| - 1])) && (s != "" && !Blank(s[|s| - 1]) ==> t == s)
  {
    if s != "" && Blank(s[|s| - 1]) {
      TrimRightEnd(s[..|s| - 1]);
    }
  }

  lemma {:induction false} TrimLeftStart(s: string)
    ensures EndOf(TrimLeft(s), s) && (s != "" && !Blank(s[0]) ==> TrimLeft(s) == s)
  {
    if s != "" && Blank(s[0]) {
      TrimLeftStart(s[1..]);
    }
  }

  /** Text that starts and ends above the blanks and holds nothing to clean is left alone. */
  lemma NormalizeKeeps(s: string)
    requires Sanitized(s) && s != "" && !Blank(s[0]) && !Blank(s[|s| - 1])
    ensures NormalizeLink(s) == s
  {
    TrimLeftStart(s);
    TrimRightEnd(s);
    CleanCharsSanitize(s);
  }

  lemma NormalizedEnds(raw: string)
    ensures var n := NormalizeLink(raw); Sanitized(n) && (n != "" ==> !Blank(n[|n| - 1])) && ('#' !in raw ==> '#' !in n)
  {
    hide TrimLeft, TrimRight, CleanChars, CleanChar, Sanitized, Blank;
    var t := TrimRight(TrimLeft(raw));
    TrimRightEnd(TrimLeft(raw));
    if '#' !in raw {
      TrimKeepsHashOut(raw);
    }
    CleanCharsSanitize(t);
    if t == "" {
      CleanNothing();
    } else {
      CleanCharsEnd(t);
    }
  }

  lemma CleanNothing()
    ensures CleanChars("") == ""
  {
  }

  lemma TrimKeepsHashOut(raw: string)
    requires '#' !in raw
    ensures '#' !in TrimRight(TrimLeft(raw))
  {
    TrimLeftStart(raw);
    TrimRightEnd(TrimLeft(raw));
    var l := TrimLeft(raw);
    hide TrimLeft, TrimRight;
    assert forall i | 0 <= i < |l| :: l[i] == raw[|raw| - |l| + i];
  }

  predicate QueryText(q: string) { forall c | c in q :: !Control(c) && c != '#' && c != '\\' }

  /** What an accepted link's query and fragment can be. */
  lemma AcceptedParts(auth: Authorities, raw: string)
    requires Accepted(auth, raw).Some?
    ensures var l := Accepted(auth, raw).value;
      && QueryText(l.rawQuery)
      && Unescape(l.rawFragment) == Some(l.fragment) && (l.fragment == "" ==> l.rawFragment == "")
  {
    var norm := NormalizeLink(raw);
    NormalizedEnds(raw);
    var (u, frag) := Cut(norm, '#');
    CutParts(norm, '#');
    assert forall c | c in u :: c in norm && c != '#';
    QueryIsAnEnd(auth, u);
    var q := ParseNoFragment(auth, u).value.rawQuery;
    assert forall c | c in q :: c in u;
    FragmentDecodes(frag);
    hide ParseNoFragment, NormalizeLink, Cut, Unescape;
    assert '\\' in "\t\r\n\\";
  }

  lemma FragmentDecodes(frag: string)
    ensures Unescape("") == Some("") && (frag != "" && Unescape(frag).Some? ==> Unescape(frag).value != "")
  {
    if frag != "" {
      UnescapeStep(frag);
      hide Unescape;
    }
  }

  // ---------------------------------------------------------------- ending in a space

  /** The guard that fails: nothing after the query, and the query ends in a space. */
  predicate EndsInSpace(l: Link) { l.fragment == "" && l.rawQuery != "" && l.rawQuery[|l.rawQuery| - 1] == ' ' }

  /** The fragment as served. */
  function FragmentOf(l: Link): string { if l.fragment != "" then EscapedFragment(l) else "" }

  predicate Visible(s: string) { forall c | c in s :: !Blank(c) && !Control(c) && c != '\\' }

  lemma FragmentIsVisible(l: Link)
    requires Unescape(l.rawFragment) == Some(l.fragment)
    ensures Visible(FragmentOf(l)) && (FragmentOf(l) == "" <==> l.fragment == "")
    ensures l.fragment != "" ==>
      Unescape(FragmentOf(l)) == Some(l.fragment) && Spelling(FragmentOf(l), l.fragment, InFragment) == FragmentOf(l)
  {
    SpellingIsVisible(l.rawFragment, l.fragment);
    UnescapeInvertsEscape(l.fragment, InFragment);
    hide Unescape, Escape, Visible, ValidEncoded;
  }

  lemma SpellingIsVisible(written: string, decoded: string)
    requires Unescape(written) == Some(decoded)
    ensures Visible(Spelling(written, decoded, InFragment))
    ensures Spelling(written, decoded, InFragment) == "" <==> decoded == ""
  {
    EscapedIsSafe(decoded, InFragment);
    EscapedSegment(decoded, InFragment);
    UnescapeDots();
    FragmentDecodes(written);
    hide Unescape, Escape;
    var t := Spelling(written, decoded, InFragment);
    forall c | c in t
      ensures !Blank(c) && !Control(c) && c != '\\'
    {
      VisibleChar(c, InFragment);
    }
  }

  lemma VisibleChar(c: char, m: Mode)
    ensures Safe(c, m) || c in "!$&'()*+,;=:@[]%" ==> !Blank(c) && !Control(c) && c != '\\'
    ensures Safe(c, InPath) ==> c != '?' && c != '#'
  {
  }

  /** A served link ends in a space exactly when the parsed one did. */
  lemma ServedEnd(relative: string, l: Link)
    requires relative != "" && Visible(relative) && QueryText(l.rawQuery) && Unescape(l.rawFragment) == Some(l.fragment)
    ensures var out := relative + Tail(l.rawQuery, FragmentOf(l));
      !Blank(out[0]) && (Blank(out[|out| - 1]) <==> EndsInSpace(l)) && Sanitized(out)
  {
    FragmentIsVisible(l);
    var out, q, f := relative + Tail(l.rawQuery, FragmentOf(l)), l.rawQuery, FragmentOf(l);
    hide FragmentOf, Unescape;
    assert out[0] == relative[0] && relative[|relative| - 1] in relative;
    if f != "" {
      assert out[|out| - 1] == f[|f| - 1] && f[|f| - 1] in f;
    } else if q != "" {
      assert out[|out| - 1] == q[|q| - 1] && q[|q| - 1] in q;
    }
    forall c | c in out
      ensures c !in "\t\r\n\\"
    {
      assert c in relative || c in q || c in f || c == '?' || c == '#';
    }
  }

  /** What is served for text without '#' never ends in a space. */
  lemma NoFragmentNoSpace(auth: Authorities, raw: string)
    requires Accepted(auth, raw).Some? && '#' !in raw
    ensures !EndsInSpace(Accepted(auth, raw).value)
  {
    var norm := NormalizeLink(raw);
    NormalizedEnds(raw);
    CutNothing(norm, '#');
    QueryIsAnEnd(auth, norm);
    hide ParseNoFragment, NormalizeLink, Cut;
    var q := Accepted(auth, raw).value.rawQuery;
    assert q != "" ==> q[|q| - 1] == norm[|norm| - 1];
  }

  // ---------------------------------------------------------------- parsing what was served

  lemma {:induction false} NoSchemeBeforeSlash(s: string, i: nat, k: nat)
    requires i <= k < |s| && s[k] == '/' && forall j | i <= j < k :: Letter(s[j])
    ensures SchemeFrom(s, i) == NoScheme
    decreases k - i
  {
    if i < k {
      NoSchemeBeforeSlash(s, i + 1, k);
    }
  }

  /** The first step of a served link: up, or straight into packages. */
  predicate FirstStep(first: string) { first == UP || first == "packages" }

  function WithQuery(relative: string, q: string): string { relative + (if q != "" then "?" + q else "") }

  lemma ServedParses(auth: Authorities, first: string, more: string, path: string, l: Link)
    requires FirstStep(first) && Visible(first + "/" + more) && '?' !in more && '#' !in more
    requires Unescape(first + "/" + more) == Some(path)
    requires QueryText(l.rawQuery) && Unescape(l.rawFragment) == Some(l.fragment)
    ensures Parse(auth, first + "/" + more + Tail(l.rawQuery, FragmentOf(l)))
      == Some(Link("", "", false, "", first + "/" + more, path, l.rawQuery, FragmentOf(l), l.fragment))
  {
    FragmentIsVisible(l);
    UParses(auth, first, more, path, l.rawQuery);
    FragmentCut(first, more, l.rawQuery, FragmentOf(l));
    hide ParseNoFragment, Unescape, FragmentOf, Visible, QueryText, Cut, Tail, WithQuery, FirstStep, Spelling;
  }

  lemma FragmentCut(first: string, more: string, q: string, f: string)
    requires FirstStep(first) && '#' !in more && QueryText(q)
    ensures Cut(first + "/" + more + Tail(q, f), '#') == (WithQuery(first + "/" + more, q), f)
  {
    var u := WithQuery(first + "/" + more, q);
    var out := first + "/" + more + Tail(q, f);
    assert '#' !in u;
    hide FirstStep, QueryText;
    if f == "" {
      assert out == u;
      CutNothing(u, '#');
    } else {
      assert out == u + ['#'] + f;
      CutAround(u, '#', f);
    }
  }

  lemma QueryCut(relative: string, q: string)
    requires '?' !in relative
    ensures Cut(WithQuery(relative, q), '?') == (relative, q)
  {
    if q == "" {
      assert WithQuery(relative, q) == relative;
      CutNothing(relative, '?');
    } else {
      assert WithQuery(relative, q) == relative + ['?'] + q;
      CutAround(relative, '?', q);
    }
  }

  lemma NoControls(relative: string, q: string)
    requires Visible(relative) && QueryText(q)
    ensures forall c | c in WithQuery(relative, q) :: !Control(c)
  {
    assert !Control('?');
    hide Control;
  }

  lemma FirstStepIsNoScheme(first: string, more: string, q: string)
    requires FirstStep(first)
    ensures SchemeFrom(WithQuery(first + "/" + more, q), 0) == NoScheme && WithQuery(first + "/" + more, q) != "*"
  {
    var u := WithQuery(first + "/" + more, q);
    assert u[..|first|] == first && u[|first|] == '/';
    if first == UP {
      assert u[0] == '.';
    } else {
      assert forall j | 0 <= j < |first| :: u[j] == first[j] && Letter(first[j]);
      NoSchemeBeforeSlash(u, 0, |first|);
    }
  }

  lemma FirstSegmentOf(first: string, more: string)
    requires FirstStep(first)
    ensures ':' !in Segments(first + "/" + more)[0] && !("/" <= first + "/" + more) && !("//" <= first + "/" + more)
  {
    hide Segments;
    FirstSegmentIs(first, more);
    assert (first + "/" + more)[0] == first[0];
  }

  lemma FirstSegmentIs(first: string, more: string)
    requires '/' !in first
    ensures Segments(first + "/" + more)[0] == first
  {
    SegmentsOfPair(first, more);
    SegmentsOfPlain(first);
  }

  lemma UParses(auth: Authorities, first: string, more: string, path: string, q: string)
    requires FirstStep(first) && Visible(first + "/" + more) && '?' !in more && QueryText(q)
    requires Unescape(first + "/" + more) == Some(path)
    ensures ParseNoFragment(auth, WithQuery(first + "/" + more, q))
      == Some(Link("", "", false, "", first + "/" + more, path, q, "", ""))
  {
    NoControls(first + "/" + more, q);
    FirstStepIsNoScheme(first, more, q);
    assert '?' !in first;
    QueryCut(first + "/" + more, q);
    FirstSegmentOf(first, more);
    hide Unescape, Segments, Cut, SchemeFrom, Index, WithQuery, Visible, QueryText, FirstStep, Control;
  }

  // ---------------------------------------------------------------- resolving what was served

  lemma {:induction false} GoPushPlain(stack: seq<string>, p: seq<string>)
    requires NoDots(p)
    ensures GoPushAll(stack, p) == stack + p
    decreases |p|
  {
    if p == [] {
      assert stack + p == stack;
    } else {
      GoPushPlain(stack + [p[0]], p[1..]);
      assert stack + [p[0]] + p[1..] == stack + p;
    }
  }

  lemma {:induction false} GoPushPair(stack: seq<string>, a: seq<string>, b: seq<string>)
    ensures GoPushAll(stack, a + b) == GoPushAll(GoPushAll(stack, a), b)
    decreases |a|
  {
    if a == [] {
      assert a + b == b;
    } else {
      GoPushPair(GoPush(stack, a[0]), a[1..], b);
      assert (a + b)[0] == a[0] && (a + b)[1..] == a[1..] + b;
    }
  }

  lemma {:induction false} GoPushUps(stack: seq<string>, n: nat)
    requires n < |stack|
    ensures GoPushAll(stack, Ups(n)) == stack[..|stack| - n]
    decreases n
  {
    if n > 0 {
      assert Ups(n)[1..] == Ups(n - 1);
      GoPushUps(GoPush(stack, UP), n - 1);
    }
  }

  lemma GoPushedUps(dir: seq<string>, down: seq<string>)
    requires NoDots(dir) && NoDots(down)
    ensures GoPushAll([], [""] + (dir + (Ups(|dir|) + down))) == [""] + down
  {
    hide GoPushAll, GoPush, Ups;
    var root := [""] + dir;
    assert NoDots(root) && NoDots([""]);
    assert [""] + (dir + (Ups(|dir|) + down)) == root + (Ups(|dir|) + down);
    GoPushPair([], root, Ups(|dir|) + down);
    GoPushPlain([], root);
    assert [] + root == root;
    GoPushPair(root, Ups(|dir|), down);
    GoPushUps(root, |dir|);
    assert root[..1] == [""];
    GoPushPlain([""], down);
  }

  /** On a page as deep as its directory is long, climbing out of it and down is going down from the root. */
  lemma ServedResolves(base: string, down: seq<string>)
    requires "/" <= base && NoDots(Directory(base)) && down != [] && NoDots(down) && NoSlashes(down) && down[0] != ""
    ensures GoResolvePath(base, Joined(Ups(|Directory(base)|) + down)) == "/" + Joined(down)
  {
    var r := Ups(|Directory(base)|) + down;
    assert NoSlashes(r);
    SegmentsOfJoined(r);
    StartsOnFirst(r);
    FullSegments(base, Joined(r));
    GoPushedUps(Directory(base), down);
    JoinedPair([""], down);
    assert ([""] + (Directory(base) + r))[|Directory(base) + r|] == down[|down| - 1];
    assert !IsDots(down[|down| - 1]);
    var full := base[..LastSlash(base) + 1] + Joined(r);
    MergesTo(base, Joined(r));
    RemovesTo(full, [""] + (Directory(base) + r), down);
    assert GoResolvePath(base, Joined(r)) == GoRemoveDots(full);
    hide *;
  }

  lemma MergesTo(base: string, reference: string)
    requires "/" <= base && reference != "" && reference[0] != '/'
    ensures GoMerge(base, reference) == base[..LastSlash(base) + 1] + reference
  {
    hide LastIndex;
  }

  lemma RemovesTo(full: string, segments: seq<string>, down: seq<string>)
    requires full != "" && Segments(full) == segments && down != []
    requires GoPushAll([], segments) == [""] + down && segments != [] && !IsDots(segments[|segments| - 1])
    requires Joined([""] + down) == Joined([""]) + "/" + Joined(down)
    ensures GoRemoveDots(full) == "/" + Joined(down)
  {
    hide GoPushAll, Segments, IsDots;
    assert Joined([""]) == "";
    hide Joined;
    var d := Joined(down);
    assert "/" + Joined([""] + down) == "//" + d;
    assert OneSlash("//" + d) == ("//" + d)[1..] == "/" + d;
  }

  lemma StartsOnFirst(p: seq<string>)
    requires p != [] && p[0] != "" && NoSlashes(p)
    ensures Joined(p) != "" && Joined(p)[0] == p[0][0] && Joined(p)[0] != '/'
  {
    assert p[0][0] in p[0];
  }

  lemma FullSegments(base: string, reference: string)
    requires "/" <= base && reference != ""
    ensures Segments(base[..LastSlash(base) + 1] + reference) == [""] + (Directory(base) + Segments(reference))
  {
    var full := base[..LastSlash(base) + 1] + reference;
    MergedSegments(base, reference);
    assert full == "" + "/" + full[1..];
    SegmentsOfPair("", full[1..]);
    SegmentsOfPlain("");
  }

  // ---------------------------------------------------------------- the two passes

  /** A served link's path, as segments and as text. */
  lemma ServedPath(depth: nat, segments: seq<string>)
    requires segments != [] && Plain(segments)
    ensures var down := EscapeAll(segments, InPath);
      var relative, path := Joined(Ups(depth) + down), Joined(Ups(depth) + segments);
      && Escape(path, InPath) == relative && Unescape(relative) == Some(path)
      && Visible(relative) && '?' !in relative && '#' !in relative
  {
    var all := Ups(depth) + segments;
    EscapeJoined(all, InPath);
    EscapedUps(depth, segments);
    UnescapeInvertsEscape(Joined(all), InPath);
    EscapedIsVisible(Joined(all));
    hide Escape, Unescape, EscapeAll, Joined, Ups, Visible, Plain;
  }

  lemma EscapedUps(depth: nat, segments: seq<string>)
    ensures EscapeAll(Ups(depth) + segments, InPath) == Ups(depth) + EscapeAll(segments, InPath)
  {
    EscapeUp();
    hide Escape;
  }

  lemma EscapedIsVisible(s: string)
    ensures var e := Escape(s, InPath); Visible(e) && '?' !in e && '#' !in e
  {
    EscapedIsSafe(s, InPath);
    hide Escape;
    var e := Escape(s, InPath);
    forall c | c in e
      ensures !Blank(c) && !Control(c) && c != '\\' && c != '?' && c != '#'
    {
      VisibleChar(c, InPath);
    }
  }

  lemma EscapeUp()
    ensures Escape(UP, InPath) == UP
  {
    assert UP[1..] == DOT && DOT[1..] == "";
  }

  lemma FirstSegmentIsPackages(segments: seq<string>) returns (more: string)
    requires segments != [] && Plain(segments) && PACKAGES <= "/" + Joined(segments)
    ensures Joined(EscapeAll(segments, InPath)) == "packages/" + more
  {
    hide Escape, Segments, Plain;
    var rest := ("/" + Joined(segments))[|PACKAGES|..];
    PackagesFirst(segments, rest);
    more := Joined(EscapeAll(Segments(rest), InPath));
    EscapePlain("packages");
    EscapedFirst("packages", Segments(rest));
    hide *;
    assert "packages" + "/" + more == "packages/" + more;
  }

  lemma EscapedFirst(first: string, rest: seq<string>)
    requires rest != [] && Escape(first, InPath) == first
    ensures Joined(EscapeAll([first] + rest, InPath)) == first + "/" + Joined(EscapeAll(rest, InPath))
  {
    hide Escape, Joined;
    var e, all := EscapeAll(rest, InPath), [first] + rest;
    assert forall i | 0 < i < |all| :: all[i] == rest[i - 1];
    assert EscapeAll(all, InPath) == [first] + e;
    JoinedPair([first], e);
    JoinedOne(first);
  }

  lemma JoinedOne(s: string)
    ensures Joined([s]) == s
  {
  }

  lemma PackagesFirst(segments: seq<string>, rest: string)
    requires segments != [] && Plain(segments) && PACKAGES <= "/" + Joined(segments)
    requires rest == ("/" + Joined(segments))[|PACKAGES|..]
    ensures segments == ["packages"] + Segments(rest)
  {
    var text := Joined(segments);
    assert "/" + text == PACKAGES + rest && ("/" + text)[1..] == text;
    assert text == "packages" + "/" + rest;
    SegmentsOfJoined(segments);
    SegmentsOfPair("packages", rest);
    SegmentsOfPlain("packages");
  }

  lemma {:induction false} EscapePlain(s: string)
    requires forall c | c in s :: Letter(c)
    ensures Escape(s, InPath) == s
  {
    if s != "" {
      EscapePlain(s[1..]);
      assert s[0] in s && EscapeChar(s[0], InPath) == [s[0]];
      assert s == [s[0]] + s[1..];
    }
  }

  lemma ServedStart(depth: nat, segments: seq<string>) returns (first: string, more: string)
    requires segments != [] && Plain(segments) && PACKAGES <= "/" + Joined(segments)
    ensures FirstStep(first) && Joined(Ups(depth) + EscapeAll(segments, InPath)) == first + "/" + more
  {
    var down := EscapeAll(segments, InPath);
    if depth == 0 {
      more := FirstSegmentIsPackages(segments);
      assert Ups(0) + down == down;
      assert "packages/" + more == "packages" + "/" + more;
      return "packages", more;
    }
    assert (Ups(depth) + down)[1..] == Ups(depth - 1) + down;
    return UP, Joined(Ups(depth - 1) + down);
  }

  /** The page's own base resolves a served path back to the file. */
  lemma ServedTarget(requestPath: string, segments: seq<string>, l: Link)
    requires PlainPage(requestPath) && segments != [] && Plain(segments)
    requires l.scheme == "" && l.host == ""
    requires l.rawPath == Joined(Ups(DirDepth(requestPath)) + EscapeAll(segments, InPath))
    requires l.path == Joined(Ups(DirDepth(requestPath)) + segments)
    ensures AbsPath(l, requestPath) == "/" + Joined(segments)
    requires '/' in l.path
  {
    DirDepthCounts(requestPath);
    var d, down := DirDepth(requestPath), EscapeAll(segments, InPath);
    ServedPath(d, segments);
    assert l.path != "*";
    assert EscapedPath(l) == l.rawPath;
    EscapedDirectory(requestPath);
    var base := Escape(requestPath, InPath);
    EscapedTarget(segments);
    EscapedSegment(segments[0], InPath);
    ServedResolves(base, down);
    UnescapeInvertsEscape("/" + Joined(segments), InPath);
    hide Escape, Unescape, Joined, Directory, GoResolvePath, DirDepth, EscapedPath, Ups;
  }

  lemma EscapedDirectory(requestPath: string)
    requires PlainPage(requestPath)
    ensures var base := Escape(requestPath, InPath);
      "/" <= base && NoDots(Directory(base)) && |Directory(base)| == |Directory(requestPath)|
  {
    var rest := requestPath[1..];
    assert requestPath == "/" + rest;
    EscapePair("/", rest, InPath);
    EscapeSlash(InPath);
    SegmentsOfEscaped(rest);
    var base, s := Escape(requestPath, InPath), Segments(rest);
    assert base[1..] == Escape(rest, InPath);
    var d := Directory(base);
    hide Escape, Segments;
    forall i | 0 <= i < |d|
      ensures !IsDots(d[i])
    {
      EscapedSegment(s[i], InPath);
      assert d[i] == Escape(s[i], InPath) && Directory(requestPath)[i] == s[i];
    }
  }

  /** A served link that does not end in a space parses to what it was served from. */
  lemma ServedIsAccepted(auth: Authorities, first: string, more: string, path: string, l: Link)
    requires FirstStep(first) && Visible(first + "/" + more) && '?' !in more && '#' !in more
    requires Unescape(first + "/" + more) == Some(path)
    requires QueryText(l.rawQuery) && Unescape(l.rawFragment) == Some(l.fragment) && !EndsInSpace(l)
    ensures Accepted(auth, first + "/" + more + Tail(l.rawQuery, FragmentOf(l)))
      == Some(Link("", "", false, "", first + "/" + more, path, l.rawQuery, FragmentOf(l), l.fragment))
  {
    ServedEnd(first + "/" + more, l);
    var out := first + "/" + more + Tail(l.rawQuery, FragmentOf(l));
    NormalizeKeeps(out);
    ServedParses(auth, first, more, path, l);
    hide Parse, NormalizeLink, Unescape, FragmentOf, Tail, Visible;
  }

  /** Rewriting an already rewritten link changes nothing, exactly unless what was parsed ended in a space: an empty
      fragment behind such a query is cut, and the next clean-up takes the space. */
  lemma RewritingTwiceIsOnceIff(auth: Authorities, requestPath: string, raw: string)
    requires PlainPage(requestPath)
    ensures var out, l := Resolve(auth, requestPath, raw), Accepted(auth, raw);
      out.Some? ==> l.Some? && (Resolve(auth, requestPath, out.value) == out <==> !EndsInSpace(l.value))
  {
    ResolvesTargets(auth, requestPath, raw);
    if Resolve(auth, requestPath, raw).Some? {
      if EndsInSpace(Accepted(auth, raw).value) {
        SpaceIsLost(auth, requestPath, raw);
      } else {
        SecondPass(auth, requestPath, raw);
      }
    }
    hide *;
  }

  /** Everything known of a served link, in one place. */
  lemma Served(auth: Authorities, requestPath: string, raw: string)
      returns (segments: seq<string>, first: string, more: string, path: string)
    requires Resolve(auth, requestPath, raw).Some?
    ensures segments != [] && Plain(segments) && PACKAGES <= "/" + Joined(segments)
    ensures FirstStep(first) && Visible(first + "/" + more) && '?' !in more && '#' !in more
    ensures Unescape(first + "/" + more) == Some(path)
    ensures var d := DirDepth(requestPath);
      && first + "/" + more == Joined(Ups(d) + EscapeAll(segments, InPath))
      && path == Joined(Ups(d) + segments)
    ensures Resolve(auth, requestPath, raw).value == first + "/" + more + TailOf(Accepted(auth, raw).value)
  {
    var d := DirDepth(requestPath);
    ResolvesTargets(auth, requestPath, raw);
    segments := KeptShape(auth, requestPath, raw);
    hide Resolve, TargetOf, TailOf, Accepted, DirDepth;
    ServedPath(d, segments);
    first, more := ServedStart(d, segments);
    ClimbIsUps(d, EscapeAll(segments, InPath));
    path := Joined(Ups(d) + segments);
    hide *;
    assert forall c | c in more :: c in first + "/" + more;
  }

  lemma SecondPass(auth: Authorities, requestPath: string, raw: string)
    requires Resolve(auth, requestPath, raw).Some? && PlainPage(requestPath) && !EndsInSpace(Accepted(auth, raw).value)
    ensures var out := Resolve(auth, requestPath, raw).value; Resolve(auth, requestPath, out) == Some(out)
  {
    var out, l := Resolve(auth, requestPath, raw).value, Accepted(auth, raw).value;
    AcceptedParts(auth, raw);
    var segments, first, more, path := Served(auth, requestPath, raw);
    TailIs(l);
    hide *;
    ServedIsAccepted(auth, first, more, path, l);
    var l2 := Link("", "", false, "", first + "/" + more, path, l.rawQuery, FragmentOf(l), l.fragment);
    SlashInPath(first, more, path);
    ServedTarget(requestPath, segments, l2);
    CleanOfPlain(segments);
    FragmentIsVisible(l);
    Reassemble(auth, requestPath, out, l2, segments);
  }

  lemma TailIs(l: Link)
    ensures TailOf(l) == Tail(l.rawQuery, FragmentOf(l))
  {
    hide EscapedFragment, Tail;
  }

  lemma SlashInPath(first: string, more: string, path: string)
    requires FirstStep(first) && Unescape(first + "/" + more) == Some(path)
    ensures '/' in path
  {
    UnescapeKeepsSlash(first, more);
  }

  /** The last lines of the rewriter on a link that is known. */
  lemma Reassemble(auth: Authorities, requestPath: string, out: string, l: Link, segments: seq<string>)
    requires Accepted(auth, out) == Some(l) && segments != [] && Plain(segments)
    requires Clean(AbsPath(l, requestPath)) == "/" + Joined(segments) && PACKAGES <= "/" + Joined(segments)
    requires out == Joined(Ups(DirDepth(requestPath)) + EscapeAll(segments, InPath)) + Tail(l.rawQuery, l.rawFragment)
    requires l.fragment != "" ==> Spelling(l.rawFragment, l.fragment, InFragment) == l.rawFragment
    requires l.fragment == "" ==> l.rawFragment == ""
    ensures Resolve(auth, requestPath, out) == Some(out)
  {
    var down := EscapeAll(segments, InPath);
    EscapedTarget(segments);
    ClimbIsUps(DirDepth(requestPath), down);
    assert ("/" + Joined(down))[1..] == Joined(down);
    hide Accepted, Clean, AbsPath, DirDepth, Escape, EscapeAll, Joined, Ups, Climb, Spelling, Tail;
  }

  lemma SpaceIsLost(auth: Authorities, requestPath: string, raw: string)
    requires Resolve(auth, requestPath, raw).Some? && EndsInSpace(Accepted(auth, raw).value)
    ensures var out := Resolve(auth, requestPath, raw).value; Resolve(auth, requestPath, out) != Some(out)
  {
    var out := Resolve(auth, requestPath, raw).value;
    ServedText(auth, requestPath, raw);
    assert Accepted(auth, raw).value.fragment == "";
    hide *;
    if Resolve(auth, requestPath, out) == Some(out) {
      ServedText(auth, requestPath, out);
      NoFragmentNoSpace(auth, out);
    }
  }

  /** A served link ends in a space exactly when it was parsed so, and shows '#' only before a fragment. */
  lemma ServedText(auth: Authorities, requestPath: string, raw: string)
    requires Resolve(auth, requestPath, raw).Some?
    ensures Accepted(auth, raw).Some?
    ensures var out, l := Resolve(auth, requestPath, raw).value, Accepted(auth, raw).value;
      out != "" && (Blank(out[|out| - 1]) <==> EndsInSpace(l)) && (l.fragment == "" ==> '#' !in out)
  {
    ResolvesTargets(auth, requestPath, raw);
    var l := Accepted(auth, raw).value;
    AcceptedParts(auth, raw);
    var segments, first, more, path := Served(auth, requestPath, raw);
    TailIs(l);
    hide *;
    ServedEnd(first + "/" + more, l);
    NoHashServed(first, more, l);
  }

  lemma NoHashServed(first: string, more: string, l: Link)
    requires FirstStep(first) && '#' !in more && QueryText(l.rawQuery)
    ensures l.fragment == "" ==> '#' !in first + "/" + more + Tail(l.rawQuery, FragmentOf(l))
  {
  }
}
