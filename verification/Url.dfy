/** URL text: segments, percent-encoding as Go's net/url does it, Go's path.Clean, and reference resolution by
    sections 5.2.3 and 5.2.4 of RFC 3986. A string is its bytes, one per character; larger characters do not occur. */
module Url {
  import opened Domain
  import opened Text

  // ---------------------------------------------------------------- segments

  /** The pieces between slashes; always at least one. */
  function Segments(s: string): (r: seq<string>)
    ensures r != [] && NoSlashes(r)
  {
    if s == "" then [""]
    else
      var r := Segments(s[1..]);
      Grow(s[0], r)
  }

  function Joined(p: seq<string>): string
    requires p != []
  {
    if |p| == 1 then p[0] else p[0] + "/" + Joined(p[1..])
  }

  lemma {:induction false} JoinedSegments(s: string)
    ensures Joined(Segments(s)) == s
  {
    if s != "" {
      JoinedSegments(s[1..]);
      var r := Segments(s[1..]);
      assert s == [s[0]] + s[1..];
      if s[0] == '/' {
        assert ([""] + r)[1..] == r;
        assert Joined([""] + r) == "" + "/" + Joined(r);
      } else if |r| > 1 {
        assert ([[s[0]] + r[0]] + r[1..])[1..] == r[1..];
        assert [s[0]] + (r[0] + "/" + Joined(r[1..])) == [s[0]] + r[0] + "/" + Joined(r[1..]);
      }
    }
  }

  /** What one more character in front does to the segments. */
  function Grow(c: char, r: seq<string>): seq<string>
    requires r != []
  {
    if c == '/' then [""] + r else [[c] + r[0]] + r[1..]
  }

  lemma GrowPair(c: char, r: seq<string>, q: seq<string>)
    requires r != []
    ensures Grow(c, r + q) == Grow(c, r) + q
  {
    assert (r + q)[1..] == r[1..] + q;
  }

  lemma {:induction false} SegmentsOfPair(a: string, b: string)
    ensures Segments(a + "/" + b) == Segments(a) + Segments(b)
  {
    var s := a + "/" + b;
    if a == "" {
      assert s[1..] == b && s[0] == '/';
    } else {
      assert s[1..] == a[1..] + "/" + b && s[0] == a[0];
      SegmentsOfPair(a[1..], b);
      GrowPair(a[0], Segments(a[1..]), Segments(b));
      assert Segments(s) == Grow(s[0], Segments(s[1..])) && Segments(a) == Grow(a[0], Segments(a[1..]));
    }
  }

  lemma {:induction false} SegmentsOfPlain(s: string)
    requires '/' !in s
    ensures Segments(s) == [s]
  {
    if s != "" {
      SegmentsOfPlain(s[1..]);
      assert [s[0]] + s[1..] == s;
    }
  }

  predicate NoSlashes(p: seq<string>) { forall i | 0 <= i < |p| :: '/' !in p[i] }

  lemma {:induction false} SegmentsOfJoined(p: seq<string>)
    requires p != [] && NoSlashes(p)
    ensures Segments(Joined(p)) == p
  {
    SegmentsOfPlain(p[0]);
    if |p| > 1 {
      SegmentsOfJoined(p[1..]);
      SegmentsOfPair(p[0], Joined(p[1..]));
      assert [p[0]] + p[1..] == p;
    }
  }

  lemma {:induction false} JoinedPair(p: seq<string>, q: seq<string>)
    requires p != [] && q != []
    ensures Joined(p + q) == Joined(p) + "/" + Joined(q)
  {
    if |p| == 1 {
      assert (p + q)[1..] == q;
    } else {
      JoinedPair(p[1..], q);
      assert (p + q)[1..] == p[1..] + q;
      assert p[0] + "/" + (Joined(p[1..]) + "/" + Joined(q)) == p[0] + "/" + Joined(p[1..]) + "/" + Joined(q);
    }
  }

  // ---------------------------------------------------------------- dot segments

  const DOT := "."
  const UP := ".."

  predicate IsDots(s: string) { s == DOT || s == UP }

  /** One segment on a stack of those kept so far. */
  function Push(stack: seq<string>, s: string): seq<string> {
    if s == DOT then stack
    else if s == UP then (if stack == [] then [] else stack[..|stack| - 1])
    else stack + [s]
  }

  function PushAll(stack: seq<string>, segments: seq<string>): seq<string>
    decreases |segments|
  {
    if segments == [] then stack else PushAll(Push(stack, segments[0]), segments[1..])
  }

  lemma {:induction false} PushAllPair(stack: seq<string>, a: seq<string>, b: seq<string>)
    ensures PushAll(stack, a + b) == PushAll(PushAll(stack, a), b)
    decreases |a|
  {
    if a == [] {
      assert a + b == b;
    } else {
      PushAllPair(Push(stack, a[0]), a[1..], b);
      assert (a + b)[0] == a[0] && (a + b)[1..] == a[1..] + b;
    }
  }

  predicate NoDots(p: seq<string>) { forall i | 0 <= i < |p| :: !IsDots(p[i]) }

  lemma {:induction false} PushAllPlain(stack: seq<string>, p: seq<string>)
    requires NoDots(p)
    ensures PushAll(stack, p) == stack + p
    decreases |p|
  {
    if p == [] {
      assert stack + p == stack;
    } else {
      PushAllPlain(stack + [p[0]], p[1..]);
      assert stack + [p[0]] + p[1..] == stack + p;
    }
  }

  function Ups(n: nat): (r: seq<string>)
    ensures |r| == n && forall i | 0 <= i < n :: r[i] == UP
  {
    seq(n, _ => UP)
  }

  lemma {:induction false} PushUps(stack: seq<string>, n: nat)
    ensures PushAll(stack, Ups(n)) == if n <= |stack| then stack[..|stack| - n] else []
    decreases n
  {
    if n > 0 {
      assert Ups(n)[1..] == Ups(n - 1);
      PushUps(Push(stack, UP), n - 1);
    }
  }

  /** The segments left by removing dot segments, with an empty one for a trailing dot segment. */
  function Remaining(segments: seq<string>): seq<string>
    requires segments != []
  {
    var kept := PushAll([], segments);
    if IsDots(segments[|segments| - 1]) then kept + [""] else kept
  }

  /** Section 5.2.4 of RFC 3986, for an absolute path. */
  function RemoveDotSegments(path: string): string
    requires "/" <= path
  {
    var body := Remaining(Segments(path[1..]));
    if body == [] then "/" else "/" + Joined(body)
  }

  /** The directory of an absolute path, as segments. */
  function Directory(path: string): seq<string>
    requires "/" <= path
  {
    var s := Segments(path[1..]);
    s[..|s| - 1]
  }

  function LastSlash(path: string): (i: nat)
    requires "/" <= path
    ensures i < |path| && path[i] == '/' && '/' !in path[i + 1..] && Some(i) == LastIndex(path, '/')
  {
    assert path[0] == '/';
    LastIndex(path, '/').value
  }

  /** Sections 5.2.2 and 5.2.3 of RFC 3986, for a reference that is a non-empty relative path. */
  function MergePaths(base: string, reference: string): string
    requires "/" <= base && reference != ""
  {
    base[..LastSlash(base) + 1] + reference
  }

  /** The part of a relative reference that is its path. */
  function RefPath(s: string): string {
    if s == "" || s[0] == '?' || s[0] == '#' then "" else [s[0]] + RefPath(s[1..])
  }

  lemma {:induction false} RefPathStops(p: string, tail: string)
    requires '?' !in p && '#' !in p && (tail == "" || tail[0] == '?' || tail[0] == '#')
    ensures RefPath(p + tail) == p
  {
    if p != "" {
      RefPathStops(p[1..], tail);
      assert (p + tail)[0] == p[0] && (p + tail)[1..] == p[1..] + tail;
    } else {
      assert p + tail == tail;
    }
  }

  lemma {:induction false} RefPathKeeps(s: string)
    ensures RefPath(s) <= s && (RefPath(s) == s <==> ('?' !in s && '#' !in s))
  {
    if s != "" {
      RefPathKeeps(s[1..]);
      assert s == [s[0]] + s[1..];
    }
  }

  /** Where a relative path leads from a page: up `n` levels from its directory, then down. */
  lemma ResolvingUps(page: string, n: nat, down: seq<string>)
    requires "/" <= page && down != [] && NoDots(down) && NoSlashes(down) && Joined(Ups(n) + down) != ""
    ensures var stack := PushAll([], Directory(page));
      var above := if n <= |stack| then stack[..|stack| - n] else [];
      RemoveDotSegments(MergePaths(page, Joined(Ups(n) + down))) == "/" + Joined(above + down)
  {
    hide PushAll, Segments, Joined, Directory, MergePaths, RemoveDotSegments;
    var r := Ups(n) + down;
    assert NoSlashes(r);
    MergedSegments(page, Joined(r));
    SegmentsOfJoined(r);
    PushedUps(Directory(page), n, down);
    var merged, all := MergePaths(page, Joined(r)), Directory(page) + r;
    assert all[|all| - 1] == down[|down| - 1] && !IsDots(down[|down| - 1]);
    hide *;
    DotsRemoved(merged, all);
  }

  lemma DotsRemoved(path: string, segments: seq<string>)
    requires "/" <= path && segments != [] && Segments(path[1..]) == segments && !IsDots(segments[|segments| - 1])
    ensures var kept := PushAll([], segments); kept != [] ==> RemoveDotSegments(path) == "/" + Joined(kept)
  {
    hide PushAll, Segments, Joined, IsDots;
  }

  lemma PushedUps(dir: seq<string>, n: nat, down: seq<string>)
    requires NoDots(down)
    ensures var stack := PushAll([], dir);
      PushAll([], dir + (Ups(n) + down)) == (if n <= |stack| then stack[..|stack| - n] else []) + down
  {
    PushAllPair([], dir, Ups(n) + down);
    PushAllPair(PushAll([], dir), Ups(n), down);
    PushUps(PushAll([], dir), n);
    PushAllPlain(PushAll(PushAll([], dir), Ups(n)), down);
  }

  lemma MergedSegments(page: string, reference: string)
    requires "/" <= page && reference != ""
    ensures "/" <= MergePaths(page, reference)
    ensures Segments(MergePaths(page, reference)[1..]) == Directory(page) + Segments(reference)
  {
    var i := LastSlash(page);
    DirectoryIs(page);
    hide Directory, Segments, LastIndex;
    if i == 0 {
      assert MergePaths(page, reference)[1..] == reference;
    } else {
      MergedText(page, i, reference);
      SegmentsOfPair(page[1..i], reference);
    }
  }

  lemma MergedText(page: string, i: nat, reference: string)
    requires 0 < i < |page| && page[0] == '/' && page[i] == '/'
    ensures (page[..i + 1] + reference)[1..] == page[1..i] + "/" + reference
    ensures (page[..i + 1] + reference)[0] == '/'
  {
    assert page[..i + 1] == [page[0]] + page[1..i] + [page[i]];
  }

  lemma SplitAt(s: string, i: nat)
    requires i < |s| && s[i] == '/'
    ensures s == s[..i] + "/" + s[i + 1..]
  {
  }

  /** The directory is what stands before the last slash. */
  lemma DirectoryIs(path: string)
    requires "/" <= path
    ensures var i := LastSlash(path);
      if i == 0 then Directory(path) == [] else Directory(path) == Segments(path[1..i])
  {
    var i, s := LastSlash(path), path[1..];
    var last := path[i + 1..];
    SegmentsOfPlain(last);
    hide LastIndex;
    if i == 0 {
      assert s == last;
    } else {
      SplitAt(s, i - 1);
      assert s[..i - 1] == path[1..i] && s[i - 1 + 1..] == last;
      SegmentsOfPair(path[1..i], last);
    }
    hide Segments;
  }

  // ---------------------------------------------------------------- clean-up

  /** What URL parsers do to every character before parsing: tab, CR and LF go, a backslash counts as a slash. */
  function CleanChar(c: char): string { if c in "\t\r\n" then "" else if c == '\\' then "/" else [c] }
  function CleanChars(s: string): string { if s == "" then "" else CleanChar(s[0]) + CleanChars(s[1..]) }

  predicate Sanitized(s: string) { forall c | c in s :: c !in "\t\r\n\\" }

  lemma {:induction false} CleanCharsSanitize(s: string)
    ensures Sanitized(CleanChars(s)) && (Sanitized(s) ==> CleanChars(s) == s)
    ensures '#' !in s ==> '#' !in CleanChars(s)
    ensures |CleanChars(s)| <= |s| && (s != "" && s[0] == '/' ==> CleanChars(s) != "" && CleanChars(s)[0] == '/')
  {
    if s != "" {
      CleanCharsSanitize(s[1..]);
      assert s == [s[0]] + s[1..];
      CleanedChar(s[0]);
      hide CleanChar;
      assert s[0] in s && forall c | c in s[1..] :: c in s;
    }
  }

  lemma CleanedChar(c: char)
    ensures Sanitized(CleanChar(c)) && (c !in "\t\r\n\\" ==> CleanChar(c) == [c])
    ensures '#' in CleanChar(c) ==> c == '#'
    ensures |CleanChar(c)| <= 1
    ensures c > ' ' ==> |CleanChar(c)| == 1 && CleanChar(c)[0] > ' '
  {
  }

  // ---------------------------------------------------------------- lengths

  /** The length of the segments with one slash for each. */
  function Total(p: seq<string>): nat { if p == [] then 0 else |p[0]| + 1 + Total(p[1..]) }

  lemma {:induction false} JoinedTotal(p: seq<string>)
    requires p != []
    ensures |Joined(p)| + 1 == Total(p)
  {
    if |p| > 1 {
      JoinedTotal(p[1..]);
    }
  }

  lemma {:induction false} TotalPair(p: seq<string>, q: seq<string>)
    ensures Total(p + q) == Total(p) + Total(q)
  {
    if p == [] {
      assert p + q == q;
    } else {
      TotalPair(p[1..], q);
      assert (p + q)[1..] == p[1..] + q;
    }
  }

  lemma PushTotal(stack: seq<string>, s: string)
    ensures Total(Push(stack, s)) + (if IsDots(s) then 2 else 0) <= Total(stack) + |s| + 1
  {
    TotalPair(stack, [s]);
    if stack != [] {
      TotalPair(stack[..|stack| - 1], [stack[|stack| - 1]]);
      assert stack == stack[..|stack| - 1] + [stack[|stack| - 1]];
    }
    assert Total([s]) == |s| + 1;
  }

  lemma {:induction false} PushAllTotal(stack: seq<string>, segments: seq<string>)
    ensures Total(PushAll(stack, segments)) + (if NoDots(segments) then 0 else 2) <= Total(stack) + Total(segments)
    decreases |segments|
  {
    if segments != [] {
      PushTotal(stack, segments[0]);
      PushAllTotal(Push(stack, segments[0]), segments[1..]);
      assert NoDots(segments) <==> !IsDots(segments[0]) && NoDots(segments[1..]) by {
        assert forall i | 0 <= i < |segments| - 1 :: segments[1..][i] == segments[i + 1];
        assert forall i | 0 < i < |segments| :: segments[i] == segments[1..][i - 1];
      }
      hide Push, NoDots, IsDots;
    }
  }

  /** Removing dot segments leaves exactly the paths without them alone, and makes every other one shorter. */
  lemma RemoveDotsKeeps(path: string)
    requires "/" <= path
    ensures "/" <= RemoveDotSegments(path) && |RemoveDotSegments(path)| <= |path|
    ensures if NoDots(Segments(path[1..])) then RemoveDotSegments(path) == path else |RemoveDotSegments(path)| < |path|
  {
    var segments := Segments(path[1..]);
    JoinedSegments(path[1..]);
    JoinedTotal(segments);
    assert path == "/" + path[1..];
    RemovedBody(segments);
    var body := Remaining(segments);
    JoinedTotal(body);
    assert RemoveDotSegments(path) == "/" + Joined(body);
    hide *;
    assert |"/" + Joined(body)| == Total(body) && |"/" + Joined(segments)| == Total(segments);
  }

  lemma RemovedBody(segments: seq<string>)
    requires segments != []
    ensures var body := Remaining(segments);
      body != [] && Total(body) <= Total(segments)
        && (if NoDots(segments) then body == segments else Total(body) < Total(segments))
  {
    var kept := PushAll([], segments);
    PushAllTotal([], segments);
    if IsDots(segments[|segments| - 1]) {
      TotalPair(kept, [""]);
      assert Total([""]) == 1 && !NoDots(segments);
    } else {
      LastIsKept(segments);
    }
    if NoDots(segments) {
      PushAllPlain([], segments);
      assert [] + segments == segments;
    }
    hide PushAll, NoDots, IsDots;
  }

  lemma LastIsKept(segments: seq<string>)
    requires segments != [] && !IsDots(segments[|segments| - 1])
    ensures PushAll([], segments) != []
  {
    var n := |segments| - 1;
    assert segments == segments[..n] + [segments[n]];
    PushAllPair([], segments[..n], [segments[n]]);
  }

  // ---------------------------------------------------------------- percent-encoding

  function HexDigit(n: nat): char
    requires n < 16
  {
    if n < 10 then ('0' as int + n) as char else ('A' as int + n - 10) as char
  }

  function HexValue(c: char): Option<nat> {
    if '0' <= c <= '9' then Some(c as int - '0' as int)
    else if 'A' <= c <= 'F' then Some(c as int - 'A' as int + 10)
    else if 'a' <= c <= 'f' then Some(c as int - 'a' as int + 10)
    else None
  }

  predicate Unreserved(c: char) { Upper(c) || LowerCase(c) || '0' <= c <= '9' || c in "-_.~" }

  datatype Mode = InPath | InFragment

  predicate ShouldEscape(c: char, m: Mode) {
    !Unreserved(c) && c !in "$&+,/:;=@" && !(m == InFragment && c in "?!()*")
  }

  function EscapeChar(c: char, m: Mode): string {
    if ShouldEscape(c, m) && c as int < 256 then ['%', HexDigit(c as int / 16), HexDigit(c as int % 16)] else [c]
  }

  function Escape(s: string, m: Mode): string { if s == "" then "" else EscapeChar(s[0], m) + Escape(s[1..], m) }

  function Append(c: char, r: Option<string>): Option<string> { if r.None? then None else Some([c] + r.value) }

  /** None when a '%' is not followed by two hexadecimal digits. */
  function Unescape(s: string): Option<string> {
    if s == "" then Some("")
    else if s[0] != '%' then Append(s[0], Unescape(s[1..]))
    else if |s| < 3 || HexValue(s[1]).None? || HexValue(s[2]).None? then None
    else Append((HexValue(s[1]).value * 16 + HexValue(s[2]).value) as char, Unescape(s[3..]))
  }

  lemma {:induction false} UnescapePair(a: string, b: string)
    requires Unescape(a).Some?
    ensures Unescape(a + b) == AppendAll(Unescape(a).value, Unescape(b))
    decreases |a|
  {
    if a == "" {
      assert a + b == b;
      assert Unescape(b).Some? ==> "" + Unescape(b).value == Unescape(b).value;
    } else {
      var k := if a[0] == '%' then 3 else 1;
      UnescapePair(a[k..], b);
      UnescapeStep(a);
      UnescapeStep(a + b);
      assert (a + b)[k..] == a[k..] + b;
      assert a[..k] == (a + b)[..k];
      hide Unescape;
      AppendAppends(Head(a[..k]).value, Unescape(a[k..]).value, Unescape(b));
    }
  }

  function AppendAll(a: string, r: Option<string>): Option<string> { if r.None? then None else Some(a + r.value) }

  lemma AppendAppends(c: char, a: string, r: Option<string>)
    ensures Append(c, AppendAll(a, r)) == AppendAll([c] + a, r)
  {
    if r.Some? {
      assert [c] + (a + r.value) == [c] + a + r.value;
    }
  }

  /** The character written by one unit of escaped text. */
  function Head(u: string): Option<char> {
    if |u| == 1 && u[0] != '%' then Some(u[0])
    else if |u| == 3 && u[0] == '%' && HexValue(u[1]).Some? && HexValue(u[2]).Some? then
      Some((HexValue(u[1]).value * 16 + HexValue(u[2]).value) as char)
    else None
  }

  lemma UnescapeStep(s: string)
    requires s != ""
    ensures var k := if s[0] == '%' then 3 else 1;
      if k <= |s| && Head(s[..k]).Some? then
        Unescape(s) == Append(Head(s[..k]).value, Unescape(s[k..]))
      else Unescape(s).None?
  {
  }

  /** Unescaping keeps the length of exactly the text without '%', and leaves that as it is. */
  lemma {:induction false} UnescapeKeeps(s: string)
    ensures '%' !in s ==> Unescape(s) == Some(s)
    ensures Unescape(s).Some? ==> |Unescape(s).value| <= |s|
    ensures Unescape(s).Some? && '%' in s ==> |Unescape(s).value| < |s|
    decreases |s|
  {
    if s != "" {
      UnescapeStep(s);
      var k := if s[0] == '%' then 3 else 1;
      if k <= |s| {
        UnescapeKeeps(s[k..]);
        assert s == s[..k] + s[k..] && (k == 1 ==> s[..k] == [s[0]]);
      }
      hide Unescape;
    }
  }

  lemma UnescapeChar(c: char, m: Mode)
    ensures Unescape(EscapeChar(c, m)) == Some([c])
  {
    var e := EscapeChar(c, m);
    if ShouldEscape(c, m) && c as int < 256 {
      assert e[3..] == "" && Unescape("") == Some("");
      HexRoundTrip(c as int / 16);
      HexRoundTrip(c as int % 16);
      assert [c] + "" == [c];
    } else {
      assert ShouldEscape('%', m);
      assert e[1..] == "" && [c] + "" == [c];
    }
  }

  lemma HexRoundTrip(n: nat)
    requires n < 16
    ensures HexValue(HexDigit(n)) == Some(n)
  {
  }

  /** Escaping is undone by unescaping, on every string. */
  lemma {:induction false} UnescapeInvertsEscape(s: string, m: Mode)
    ensures Unescape(Escape(s, m)) == Some(s)
  {
    if s != "" {
      UnescapeChar(s[0], m);
      UnescapeInvertsEscape(s[1..], m);
      UnescapePair(EscapeChar(s[0], m), Escape(s[1..], m));
      assert s == [s[0]] + s[1..];
    }
  }

  /** Which characters escaped text can hold. */
  predicate Safe(c: char, m: Mode) { c == '%' || !ShouldEscape(c, m) || c as int >= 256 }

  lemma {:induction false} EscapedIsSafe(s: string, m: Mode)
    ensures forall c | c in Escape(s, m) :: Safe(c, m)
  {
    if s != "" {
      EscapedIsSafe(s[1..], m);
      var e := EscapeChar(s[0], m);
      assert forall c | c in e :: Safe(c, m);
    }
  }

  lemma {:induction false} EscapePair(a: string, b: string, m: Mode)
    ensures Escape(a + b, m) == Escape(a, m) + Escape(b, m)
  {
    hide EscapeChar;
    if a == "" {
      assert a + b == b;
    } else {
      EscapePair(a[1..], b, m);
      assert (a + b)[0] == a[0] && (a + b)[1..] == a[1..] + b;
      assert Escape(a + b, m) == EscapeChar(a[0], m) + (Escape(a[1..], m) + Escape(b, m));
    }
  }

  function EscapeAll(p: seq<string>, m: Mode): seq<string> { seq(|p|, i requires 0 <= i < |p| => Escape(p[i], m)) }

  lemma EscapeSlash(m: Mode)
    ensures Escape("/", m) == "/"
  {
    assert Escape("/", m) == EscapeChar('/', m) + Escape("", m);
  }

  lemma {:induction false} EscapeJoined(p: seq<string>, m: Mode)
    requires p != []
    ensures Escape(Joined(p), m) == Joined(EscapeAll(p, m))
  {
    if |p| > 1 {
      EscapeJoined(p[1..], m);
      EscapePair(p[0] + "/", Joined(p[1..]), m);
      EscapePair(p[0], "/", m);
      EscapeSlash(m);
      assert EscapeAll(p, m)[1..] == EscapeAll(p[1..], m);
      hide Escape;
    }
  }

  /** Segments that hold no slash and are not dots stay so when escaped. */
  lemma EscapedSegment(s: string, m: Mode)
    ensures '/' !in s ==> '/' !in Escape(s, m)
    ensures IsDots(Escape(s, m)) <==> IsDots(s)
    ensures Escape(s, m) == "" <==> s == ""
  {
    if '/' !in s {
      EscapeKeepsSlashOut(s, m);
    }
    UnescapeInvertsEscape(s, m);
    UnescapeDots();
    assert Escape(DOT, m) == DOT && Escape(UP, m) == UP by {
      assert DOT[1..] == "" && UP[1..] == DOT;
    }
  }

  lemma UnescapeDots()
    ensures Unescape("") == Some("") && Unescape(DOT) == Some(DOT) && Unescape(UP) == Some(UP)
  {
    assert DOT[1..] == "" && UP[1..] == DOT;
    assert ['.'] + "" == DOT && ['.'] + DOT == UP;
  }

  lemma {:induction false} EscapeKeepsSlashOut(s: string, m: Mode)
    requires '/' !in s
    ensures '/' !in Escape(s, m)
  {
    if s != "" {
      EscapeKeepsSlashOut(s[1..], m);
      assert '/' !in EscapeChar(s[0], m);
    }
  }

  // ---------------------------------------------------------------- following a path

  /** The path a client asks for when it follows a reference that is an absolute path, as the server decodes it. */
  function RequestedPath(text: string): Option<string> {
    var path := RefPath(CleanChars(text));
    if "/" <= path then Unescape(RemoveDotSegments(path)) else None
  }

  /** No character has a meaning of its own in the text of a path. */
  predicate Literal(s: string) { '?' !in s && '#' !in s && '%' !in s && Sanitized(s) }

  /** A path is asked for as it stands exactly when it is literal and has no dot segments. */
  lemma RequestedIsTextIff(text: string)
    requires "/" <= text
    ensures RequestedPath(text) == Some(text) <==> (Literal(text) && NoDots(Segments(text[1..])))
    ensures var p := RequestedPath(text); p.Some? ==> "/" <= p.value
  {
    var cleaned := CleanChars(text);
    CleanCharsSanitize(text);
    RefPathKeeps(cleaned);
    RefPathRooted(cleaned);
    var path := RefPath(cleaned);
    RemoveDotsKeeps(path);
    var plain := RemoveDotSegments(path);
    UnescapeKeeps(plain);
    if Unescape(plain).Some? {
      UnescapeKeepsRoot(plain);
    }
    hide CleanChars, RefPath, RemoveDotSegments, Unescape, NoDots, Segments;
    if RequestedPath(text) == Some(text) {
      assert |plain| == |path| == |cleaned| == |text|;
    }
  }

  lemma RefPathRooted(s: string)
    requires s != "" && s[0] == '/'
    ensures "/" <= RefPath(s)
  {
    assert RefPath(s)[0] == '/';
  }

  lemma UnescapeKeepsRoot(s: string)
    requires "/" <= s && Unescape(s).Some?
    ensures "/" <= Unescape(s).value
  {
    assert s[0] == '/';
    assert Unescape(s) == Append('/', Unescape(s[1..]));
  }

  // ---------------------------------------------------------------- Go's path.Clean

  function CleanPush(stack: seq<string>, s: string): seq<string> { if s == "" then stack else Push(stack, s) }

  function CleanAll(stack: seq<string>, segments: seq<string>): (r: seq<string>)
    decreases |segments|
  {
    if segments == [] then stack else CleanAll(CleanPush(stack, segments[0]), segments[1..])
  }

  /** The segments of path.Clean of an absolute path. */
  function CleanSegments(path: string): seq<string>
    requires "/" <= path
  {
    CleanAll([], Segments(path[1..]))
  }

  function Clean(path: string): string {
    if !("/" <= path) then DOT
    else
      var c := CleanSegments(path);
      if c == [] then "/" else "/" + Joined(c)
  }

  /** No segment is empty, a dot segment, or holds a slash. */
  predicate Plain(p: seq<string>) { forall i | 0 <= i < |p| :: p[i] != "" && !IsDots(p[i]) && '/' !in p[i] }

  lemma {:induction false} CleanIsPlain(stack: seq<string>, segments: seq<string>)
    requires Plain(stack) && NoSlashes(segments)
    ensures Plain(CleanAll(stack, segments))
    decreases |segments|
  {
    if segments != [] {
      CleanIsPlain(CleanPush(stack, segments[0]), segments[1..]);
    }
  }

  lemma {:induction false} CleanKeepsPlain(stack: seq<string>, p: seq<string>)
    requires Plain(p)
    ensures CleanAll(stack, p) == stack + p
    decreases |p|
  {
    if p == [] {
      assert stack + p == stack;
    } else {
      CleanKeepsPlain(stack + [p[0]], p[1..]);
      assert stack + [p[0]] + p[1..] == stack + p;
    }
  }

  /** Cleaning a clean path changes nothing. */
  lemma CleanOfPlain(p: seq<string>)
    requires p != [] && Plain(p)
    ensures Clean("/" + Joined(p)) == "/" + Joined(p) && CleanSegments("/" + Joined(p)) == p
  {
    assert ("/" + Joined(p))[1..] == Joined(p);
    SegmentsOfJoined(p);
    CleanKeepsPlain([], p);
    assert [] + p == p;
  }
}
