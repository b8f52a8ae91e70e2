/** The links of a Python package index: which ones are kept, and as what. Every kept link is a relative one to the
    proxy's own /packages/ route. */
module PypiLink {
  import opened Domain
  import opened Text
  import opened Url

  // ---------------------------------------------------------------- parsing, as Go's net/url does it

  datatype Authority = Authority(user: bool, host: string)

  /** A parsed link. `rawPath` and `rawFragment` are the parts as written, `path` and `fragment` their decoded forms. */
  datatype Link = Link(scheme: string, rootless: string, user: bool, host: string, rawPath: string, path: string,
                       rawQuery: string, rawFragment: string, fragment: string)

  /** The text before the first `c` and the text after it. */
  function Cut(s: string, c: char): (string, string) {
    if s == "" then ("", "")
    else if s[0] == c then ("", s[1..])
    else
      var (before, after) := Cut(s[1..], c);
      ([s[0]] + before, after)
  }

  predicate Control(c: char) { c < ' ' || c == 0x7f as char }
  predicate Letter(c: char) { Upper(c) || LowerCase(c) }

  datatype SchemeCut = NoScheme | MissingScheme | Scheme(name: string, rest: string)

  function SchemeFrom(s: string, i: nat): SchemeCut
    requires i <= |s|
    decreases |s| - i
  {
    if i == |s| then NoScheme
    else if Letter(s[i]) then SchemeFrom(s, i + 1)
    else if '0' <= s[i] <= '9' || s[i] in "+-." then (if i == 0 then NoScheme else SchemeFrom(s, i + 1))
    else if s[i] == ':' then (if i == 0 then MissingScheme else Scheme(s[..i], s[i + 1..]))
    else NoScheme
  }

  /** How a "user@host:port" part reads is left open. */
  type Authorities = string -> Option<Authority>

  function WithPath(scheme: string, a: Authority, rawPath: string, query: string): Option<Link> {
    var path := Unescape(rawPath);
    if path.None? then None else Some(Link(scheme, "", a.user, a.host, rawPath, path.value, query, "", ""))
  }

  function ParseRest(auth: Authorities, scheme: string, text: string): Option<Link> {
    var (p, query) := Cut(text, '?');
    if !("/" <= p) && scheme != "" then Some(Link(scheme, p, false, "", "", "", query, "", ""))
    else if !("/" <= p) && ':' in Segments(p)[0] then None
    else if "//" <= p && (scheme != "" || !("///" <= p)) then
      var i := Index(p[2..], "/");
      var (authority, path) := if i.None? then (p[2..], "") else (p[2..][..i.value], p[2..][i.value..]);
      var a := auth(authority);
      if a.None? then None else WithPath(scheme, a.value, path, query)
    else WithPath(scheme, Authority(false, ""), p, query)
  }

  function ParseNoFragment(auth: Authorities, u: string): Option<Link> {
    if exists c | c in u :: Control(c) then None
    else if u == "*" then Some(Link("", "", false, "", "*", "*", "", "", ""))
    else
      match SchemeFrom(u, 0)
      case MissingScheme => None
      case NoScheme => ParseRest(auth, "", u)
      case Scheme(name, rest) => ParseRest(auth, LowerAll(name), rest)
  }

  function Parse(auth: Authorities, s: string): Option<Link> {
    var (u, frag) := Cut(s, '#');
    var l := ParseNoFragment(auth, u);
    if l.None? || frag == "" then l
    else
      var f := Unescape(frag);
      if f.None? then None else Some(l.value.(rawFragment := frag, fragment := f.value))
  }

  predicate ValidEncoded(s: string, m: Mode) { forall c | c in s :: c in "!$&'()*+,;=:@[]%" || !ShouldEscape(c, m) }

  /** The part as written when that is a valid spelling of its own, else the canonical one. */
  function Spelling(written: string, decoded: string, m: Mode): string {
    if written != Escape(decoded, m) && ValidEncoded(written, m) then written else Escape(decoded, m)
  }

  function EscapedPath(l: Link): string {
    if l.path == "*" && Spelling(l.rawPath, l.path, InPath) == Escape(l.path, InPath) then "*"
    else Spelling(l.rawPath, l.path, InPath)
  }

  function EscapedFragment(l: Link): string { Spelling(l.rawFragment, l.fragment, InFragment) }

  // ---------------------------------------------------------------- resolving, as Go's net/url does it

  function GoPush(stack: seq<string>, s: string): seq<string> {
    if s == DOT then (if stack == [] then [""] else stack)
    else if s == UP then (if |stack| <= 1 then [] else stack[..|stack| - 1])
    else stack + [s]
  }

  function GoPushAll(stack: seq<string>, segments: seq<string>): seq<string>
    decreases |segments|
  {
    if segments == [] then stack else GoPushAll(GoPush(stack, segments[0]), segments[1..])
  }

  function GoMerge(base: string, reference: string): string {
    var last := LastIndex(base, '/');
    if reference == "" then base
    else if reference[0] == '/' then reference
    else (if last.None? then "" else base[..last.value + 1]) + reference
  }

  function GoRemoveDots(full: string): string {
    if full == "" then ""
    else
      var segments := Segments(full);
      var stack := GoPushAll([], segments);
      var body := "/" + (if stack == [] then "" else Joined(stack));
      OneSlash(if IsDots(segments[|segments| - 1]) then body + "/" else body)
  }

  function OneSlash(text: string): string { if |text| > 1 && text[1] == '/' then text[1..] else text }

  function GoResolvePath(base: string, reference: string): string { GoRemoveDots(GoMerge(base, reference)) }

  // ---------------------------------------------------------------- rewriting

  predicate Blank(c: char) { c <= ' ' }

  function TrimLeft(s: string): string { if s != "" && Blank(s[0]) then TrimLeft(s[1..]) else s }
  function TrimRight(s: string): string {
    if s != "" && Blank(s[|s| - 1]) then TrimRight(s[..|s| - 1]) else s
  }

  /** The clean-up URL parsers do before parsing. */
  function NormalizeLink(raw: string): string { CleanChars(TrimRight(TrimLeft(raw))) }

  function Count(s: string, c: char): nat { if s == "" then 0 else (if s[0] == c then 1 else 0) + Count(s[1..], c) }

  function TrimSlashesLeft(s: string): string { if s != "" && s[0] == '/' then TrimSlashesLeft(s[1..]) else s }
  function TrimSlashesRight(s: string): string {
    if s != "" && s[|s| - 1] == '/' then TrimSlashesRight(s[..|s| - 1]) else s
  }

  /** The text of the page's directory. */
  function DirText(requestPath: string): string {
    var last := LastIndex(requestPath, '/');
    if Suffixed(requestPath, "/") then requestPath else if last.None? then "" else requestPath[..last.value + 1]
  }

  /** How many segments a directory has. */
  function DepthOf(dir: string): nat {
    var trimmed := TrimSlashesRight(TrimSlashesLeft(dir));
    if trimmed == "" then 0 else Count(trimmed, '/') + 1
  }

  /** How many levels the page is below the registry's root. */
  function DirDepth(requestPath: string): nat { DepthOf(DirText(requestPath)) }

  function Climb(n: nat): string { if n == 0 then "" else "../" + Climb(n - 1) }

  const PACKAGES := "/packages/"

  /** The link as parsed, unless its form alone rules it out. */
  function Accepted(auth: Authorities, raw: string): Option<Link> {
    var norm := NormalizeLink(raw);
    var l := Parse(auth, norm);
    if l.None? || l.value.rootless != "" || l.value.user then None
    else if l.value.scheme != "" && ((l.value.scheme != "http" && l.value.scheme != "https") || l.value.host == ""
                                     || !(l.value.scheme + "://" <= LowerAll(norm))) then None
    else l
  }

  /** The decoded path an accepted link means on the page at `requestPath`. */
  function AbsPath(l: Link, requestPath: string): string {
    var text :=
      if l.scheme != "" || l.host != "" then GoResolvePath(EscapedPath(l), "")
      else GoResolvePath(Escape(requestPath, InPath), EscapedPath(l));
    var p := Unescape(text);
    if p.None? then l.path else p.value
  }

  function Tail(query: string, fragment: string): string {
    (if query != "" then "?" + query else "") + (if fragment != "" then "#" + fragment else "")
  }

  /** The file a link stands for: the cleaned path of the link as the index wrote it; None when it is not one of the
      /packages/ route. */
  function TargetOf(auth: Authorities, requestPath: string, raw: string): Option<string> {
    var l := Accepted(auth, raw);
    if l.None? then None
    else
      var clean := Clean(AbsPath(l.value, requestPath));
      if PACKAGES <= clean then Some(clean) else None
  }

  /** The link to serve in place of `raw`; None to drop it. */
  function Resolve(auth: Authorities, requestPath: string, raw: string): Option<string> {
    var clean := TargetOf(auth, requestPath, raw);
    if clean.None? then None
    else
      var l := Accepted(auth, raw).value;
      Some(Climb(DirDepth(requestPath)) + TrimPrefix(Escape(clean.value, InPath), "/")
           + Tail(l.rawQuery, if l.fragment != "" then EscapedFragment(l) else ""))
  }

  // ---------------------------------------------------------------- documents

  /** What a file entry's "url" holds. */
  datatype Target = Absent | NotText | Url(link: string)
  datatype File = File(url: Target, rest: string)

  /** The entries kept of a list, each with its link replaced; None when some entry's "url" is not a string. */
  function Kept(auth: Authorities, requestPath: string, files: seq<File>): Option<seq<File>> {
    if files == [] then Some([])
    else
      var n := |files| - 1;
      var before, f := Kept(auth, requestPath, files[..n]), files[n];
      if before.None? || f.url.NotText? then None
      else if f.url.Absent? then Some(before.value + [f])
      else
        var r := Resolve(auth, requestPath, f.url.link);
        if r.None? then before else Some(before.value + [f.(url := Url(r.value))])
  }

  /** The links of a list that are dropped, in order. */
  function DroppedOf(auth: Authorities, requestPath: string, files: seq<File>): seq<string> {
    if files == [] then []
    else
      var n := |files| - 1;
      var before, f := DroppedOf(auth, requestPath, files[..n]), files[n];
      if f.url.Url? && Resolve(auth, requestPath, f.url.link).None? then before + [f.url.link] else before
  }

  /** How many links of a list change. */
  function ChangedOf(auth: Authorities, requestPath: string, files: seq<File>): nat {
    if files == [] then 0
    else
      var n := |files| - 1;
      var before, f := ChangedOf(auth, requestPath, files[..n]), files[n];
      if f.url.Url? && Resolve(auth, requestPath, f.url.link) !in {None, Some(f.url.link)} then before + 1 else before
  }

  class LinkRewriter {
    const auth: Authorities
    const requestPath: string
    var rewritten: nat
    var dropped: seq<string>

    constructor (auth: Authorities, requestPath: string)
      ensures this.auth == auth && this.requestPath == requestPath && rewritten == 0 && dropped == []
    {
      this.auth, this.requestPath, rewritten, dropped := auth, requestPath, 0, [];
    }

    method MapLink(raw: string) returns (mapped: Option<string>)
      modifies this
      ensures mapped == Resolve(auth, requestPath, raw)
      ensures dropped == old(dropped) + (if mapped.None? then [raw] else [])
      ensures rewritten == old(rewritten) + (if mapped.Some? && mapped.value != raw then 1 else 0)
    {
      mapped := Resolve(auth, requestPath, raw);
      if mapped.None? {
        dropped := dropped + [raw];
        return;
      }
      if mapped.value != raw {
        rewritten := rewritten + 1;
      }
    }

    /** The href attributes of one anchor: all are mapped, and the anchor is kept only when every one of them is. */
    method MapAnchor(hrefs: seq<string>) returns (keep: bool, out: seq<string>)
      modifies this
      ensures |out| == |hrefs|
      ensures keep <==> forall i | 0 <= i < |hrefs| :: Resolve(auth, requestPath, hrefs[i]).Some?
      ensures keep ==> dropped == old(dropped)
      ensures keep ==> forall i | 0 <= i < |hrefs| :: Resolve(auth, requestPath, hrefs[i]) == Some(out[i])
      ensures !keep ==> old(dropped) < dropped
    {
      hide Resolve;
      keep, out := true, [];
      for k := 0 to |hrefs|
        invariant |out| == k
        invariant keep <==> forall i | 0 <= i < k :: Resolve(auth, requestPath, hrefs[i]).Some?
        invariant keep ==> dropped == old(dropped)
        invariant keep ==> forall i | 0 <= i < k :: Resolve(auth, requestPath, hrefs[i]) == Some(out[i])
        invariant !keep ==> old(dropped) < dropped
      {
        var mapped := MapLink(hrefs[k]);
        keep := keep && mapped.Some?;
        out := out + [if mapped.Some? then mapped.value else hrefs[k]];
      }
    }

    method FileList(files: seq<File>) returns (kept: Option<seq<File>>)
      modifies this
      ensures kept == Kept(auth, requestPath, files)
      ensures kept.Some? ==> dropped == old(dropped) + DroppedOf(auth, requestPath, files)
      ensures kept.Some? ==> rewritten == old(rewritten) + ChangedOf(auth, requestPath, files)
    {
      var out: seq<File> := [];
      for i := 0 to |files|
        invariant Kept(auth, requestPath, files[..i]) == Some(out)
        invariant dropped == old(dropped) + DroppedOf(auth, requestPath, files[..i])
        invariant rewritten == old(rewritten) + ChangedOf(auth, requestPath, files[..i])
      {
        var f := files[i];
        assert files[..i + 1][..i] == files[..i];
        if f.url.NotText? {
          NotTextFails(auth, requestPath, files, i);
          return None;
        }
        if f.url.Absent? {
          out := out + [f];
          continue;
        }
        var mapped := MapLink(f.url.link);
        if mapped.None? {
          continue;
        }
        out := out + [if mapped.value != f.url.link then f.(url := Url(mapped.value)) else f];
      }
      assert files[..|files|] == files;
      kept := Some(out);
    }
  }

  lemma {:induction false} NotTextFails(auth: Authorities, requestPath: string, files: seq<File>, i: nat)
    requires i < |files| && files[i].url.NotText?
    ensures Kept(auth, requestPath, files).None?
  {
    if i < |files| - 1 {
      NotTextFails(auth, requestPath, files[..|files| - 1], i);
    }
  }

  /** Nothing gets past the rewriter: every entry of the result either has no link or one this page would serve, and
      what was dropped and what was kept account for every entry. */
  lemma {:induction false} NothingGetsPast(auth: Authorities, requestPath: string, files: seq<File>)
    ensures var kept := Kept(auth, requestPath, files);
      kept.Some? ==>
        && |kept.value| + |DroppedOf(auth, requestPath, files)| == |files|
        && (forall f | f in kept.value && f.url.Url? ::
              exists g :: g in files && g.url.Url? && Resolve(auth, requestPath, g.url.link) == Some(f.url.link)
                && g.rest == f.rest)
  {
    hide Resolve;
    if files != [] {
      var n := |files| - 1;
      NothingGetsPast(auth, requestPath, files[..n]);
      assert files[n] in files && forall g | g in files[..n] :: g in files;
    }
  }

  /** A list fails exactly when some "url" is not a string. Otherwise an entry without a link is kept as it is, and one
      with a link exactly with what this page serves for it, or else its link is among those dropped. */
  lemma {:induction false} EntriesAreAccountedFor(auth: Authorities, requestPath: string, files: seq<File>)
    ensures var kept, dropped := Kept(auth, requestPath, files), DroppedOf(auth, requestPath, files);
      && (kept.None? <==> exists f :: f in files && f.url.NotText?)
      && (kept.Some? ==> forall f | f in files && f.url.Absent? :: f in kept.value)
      && (kept.Some? ==> forall f | f in files && f.url.Url? ::
            match Resolve(auth, requestPath, f.url.link)
            case None => f.url.link in dropped
            case Some(link) => f.(url := Url(link)) in kept.value)
      && (forall link | link in dropped :: Resolve(auth, requestPath, link).None?)
  {
    hide Resolve;
    if files != [] {
      var n := |files| - 1;
      EntriesAreAccountedFor(auth, requestPath, files[..n]);
      assert forall f :: f in files <==> f in files[..n] || f == files[n];
    }
  }
}
