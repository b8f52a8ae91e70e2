/** Which links of an index are kept: the forms in which an index names one of its files. */
module PypiOrigins {
  import opened Domain
  import opened Text
  import opened Url
  import opened PypiLink
  import opened PypiLinkLaws
  import opened PypiTwice

  /** What stands before the path of a link that does not depend on its page. */
  datatype Origin = Rooted | SchemeRelative(host: string) | Absolute(scheme: string, host: string)

  function OriginText(o: Origin): string {
    match o
    case Rooted => ""
    case SchemeRelative(host) => "//" + host
    case Absolute(scheme, host) => scheme + "://" + host
  }

  predicate HostText(host: string) {
    host != "" && Visible(host) && '/' !in host && '?' !in host && '#' !in host
  }

  predicate SchemeText(scheme: string) { scheme != "" && forall c | c in scheme :: LowerCase(c) }

  predicate Proper(o: Origin) {
    (o.Rooted? || HostText(o.host)) && (o.Absolute? ==> SchemeText(o.scheme))
  }

  /** The rewriter lets this origin through: the web's two schemes with a host, and never with a user. */
  predicate Welcome(auth: Authorities, o: Origin) {
    o.Rooted?
    || (&& auth(o.host).Some? && !auth(o.host).value.user
        && (o.Absolute? ==> o.scheme in {"http", "https"} && auth(o.host).value.host != ""))
  }

  function PathText(segments: seq<string>): string
    requires segments != []
  {
    "/" + Joined(EscapeAll(segments, InPath))
  }

  predicate TailText(q: string, frag: string) {
    Visible(q) && '#' !in q && Visible(frag) && Unescape(frag).Some?
  }

  /** The fragment as served. */
  function ServedFragment(frag: string): string
    requires Unescape(frag).Some?
  {
    if frag == "" then "" else Spelling(frag, Unescape(frag).value, InFragment)
  }

  // ---------------------------------------------------------------- parsing

  lemma VisibleNormalizes(s: string)
    requires Visible(s) && s != ""
    ensures NormalizeLink(s) == s
  {
    assert s[0] in s && s[|s| - 1] in s;
    assert Sanitized(s) by {
      assert Blank('\t') && Blank('\r') && Blank('\n');
    }
    NormalizeKeeps(s);
    hide NormalizeLink;
  }

  lemma {:induction false} SchemeIsFound(s: string, i: nat, k: nat)
    requires i <= k < |s| && 0 < k && s[k] == ':' && forall j | i <= j < k :: Letter(s[j])
    ensures SchemeFrom(s, i) == Scheme(s[..k], s[k + 1..])
    decreases k - i
  {
    if i < k {
      SchemeIsFound(s, i + 1, k);
    }
  }

  lemma LowerStays(scheme: string, rest: string)
    requires SchemeText(scheme)
    ensures LowerAll(scheme) == scheme && scheme + "://" <= LowerAll(scheme + "://" + rest)
  {
    var s := scheme + "://" + rest;
    assert forall i | 0 <= i < |scheme| :: s[i] == scheme[i] && scheme[i] in scheme;
    assert s[|scheme|..|scheme| + 3] == "://";
    assert forall i | 0 <= i < 3 :: s[|scheme| + i] == "://"[i] && Lower("://"[i]) == "://"[i];
    assert forall i | 0 <= i < |scheme| + 3 :: LowerAll(s)[i] == (scheme + "://")[i];
  }

  /** The text after the scheme, with its query: host and path. */
  lemma HostAndPathParse(auth: Authorities, scheme: string, host: string, path: string, decoded: string, q: string)
    requires HostText(host) && "/" <= path && '?' !in path && Unescape(path) == Some(decoded)
    ensures ParseRest(auth, scheme, WithQuery("//" + host + path, q))
      == if auth(host).None? then None
         else Some(Link(scheme, "", auth(host).value.user, auth(host).value.host, path, decoded, q, "", ""))
  {
    var p := "//" + host + path;
    assert '?' !in p;
    QueryCut(p, q);
    assert p[2..] == host + path && p[0] == '/' && p[1] == '/' && p[2] == host[0] && host[0] in host;
    SlashAfter(host, path);
    assert (host + path)[..|host|] == host && (host + path)[|host|..] == path;
    hide Unescape, Cut, Index, WithQuery, Visible, Segments;
  }

  lemma SlashAfter(host: string, path: string)
    requires '/' !in host && "/" <= path
    ensures Index(host + path, "/") == Some(|host|)
  {
    var s := host + path;
    assert s[|host|..|host| + 1] == path[..1] == "/";
    forall j | 0 <= j < |host|
      ensures !OccursAt(s, "/", j)
    {
      assert s[j] == host[j];
      Mismatch(s, "/", j, 0);
    }
    IndexIs(s, "/", |host|);
  }

  lemma RootedParses(auth: Authorities, path: string, decoded: string, q: string)
    requires "/" <= path && !("//" <= path) && '?' !in path && Unescape(path) == Some(decoded)
    ensures ParseRest(auth, "", WithQuery(path, q)) == Some(Link("", "", false, "", path, decoded, q, "", ""))
  {
    QueryCut(path, q);
    hide Unescape, Cut, Index, WithQuery, Segments;
  }

  function SchemeOf(o: Origin): string { if o.Absolute? then o.scheme else "" }

  /** The link that a text of this form parses to. */
  function ParsedLink(auth: Authorities, o: Origin, path: string, decoded: string, q: string,
                      frag: string): Option<Link>
    requires Unescape(frag).Some?
  {
    if o.Rooted? then Some(Link("", "", false, "", path, decoded, q, frag, Unescape(frag).value))
    else if auth(o.host).None? then None
    else Some(Link(SchemeOf(o), "", auth(o.host).value.user, auth(o.host).value.host, path, decoded, q, frag,
                   Unescape(frag).value))
  }

  lemma OriginParses(auth: Authorities, o: Origin, path: string, decoded: string, q: string)
    requires Proper(o) && "/" <= path && !("//" <= path) && Visible(path) && '?' !in path && Visible(q)
    requires Unescape(path) == Some(decoded) && Unescape("") == Some("")
    ensures ParseNoFragment(auth, WithQuery(OriginText(o) + path, q)) == ParsedLink(auth, o, path, decoded, q, "")
  {
    var u := WithQuery(OriginText(o) + path, q);
    OriginIsVisible(o, path, q);
    assert forall c | c in u :: !Control(c);
    OriginScheme(o, path, q);
    match o
    case Rooted =>
      assert "" + path == path;
      RootedParses(auth, path, decoded, q);
    case SchemeRelative(host) =>
      HostAndPathParse(auth, "", host, path, decoded, q);
    case Absolute(scheme, host) =>
      LowerStays(scheme, "");
      HostAndPathParse(auth, scheme, host, path, decoded, q);
    hide Unescape, SchemeFrom, ParseRest, WithQuery, OriginText, Visible, HostText, SchemeText, Control;
  }

  lemma OriginIsVisible(o: Origin, path: string, q: string)
    requires Proper(o) && Visible(path) && Visible(q)
    ensures Visible(OriginText(o)) && Visible(WithQuery(OriginText(o) + path, q))
    ensures '#' !in OriginText(o)
  {
    assert forall c | LowerCase(c) :: !Blank(c) && !Control(c) && c != '\\' && c != '#';
    assert !Blank(':') && !Blank('/') && !Blank('?') && !Control(':') && !Control('/') && !Control('?');
    hide Blank, Control, LowerCase;
    var t := OriginText(o);
    forall c | c in t
      ensures !Blank(c) && !Control(c) && c != '\\' && c != '#'
    {
      assert c == ':' || c == '/' || (o.Absolute? && c in o.scheme) || (!o.Rooted? && c in o.host);
    }
  }

  lemma OriginScheme(o: Origin, path: string, q: string)
    requires Proper(o) && "/" <= path
    ensures var u := WithQuery(OriginText(o) + path, q);
      && u != "*"
      && SchemeFrom(u, 0) == if o.Absolute? then Scheme(o.scheme, WithQuery("//" + o.host + path, q)) else NoScheme
  {
    var u := WithQuery(OriginText(o) + path, q);
    if o.Absolute? {
      var k := |o.scheme|;
      assert u == o.scheme + ":" + WithQuery("//" + o.host + path, q);
      assert u[..k] == o.scheme && u[k] == ':' && u[k + 1..] == WithQuery("//" + o.host + path, q);
      assert forall j | 0 <= j < k :: u[j] == o.scheme[j] && o.scheme[j] in o.scheme && Letter(u[j]);
      SchemeIsFound(u, 0, k);
    } else {
      assert u[0] == '/';
    }
  }

  lemma IndexLinkText(o: Origin, path: string, q: string, frag: string)
    requires Proper(o) && "/" <= path && Visible(path) && '#' !in path
    requires Visible(q) && '#' !in q && Visible(frag)
    ensures var raw := OriginText(o) + path + Tail(q, frag);
      NormalizeLink(raw) == raw && Cut(raw, '#') == (WithQuery(OriginText(o) + path, q), frag)
  {
    var raw, u := OriginText(o) + path + Tail(q, frag), WithQuery(OriginText(o) + path, q);
    OriginIsVisible(o, path, q);
    assert raw == (if frag == "" then u else u + ['#'] + frag) && raw != "";
    assert '#' !in u;
    assert !Blank('#') && !Control('#');
    hide OriginText, WithQuery, Tail, Proper, Blank, Control;
    assert Visible(raw);
    VisibleNormalizes(raw);
    if frag == "" {
      CutNothing(u, '#');
    } else {
      CutAround(u, '#', frag);
    }
  }

  lemma IndexLinkParses(auth: Authorities, o: Origin, path: string, decoded: string, q: string, frag: string)
    requires Proper(o) && "/" <= path && !("//" <= path) && Visible(path) && '?' !in path && '#' !in path
    requires TailText(q, frag) && Unescape(path) == Some(decoded)
    ensures var raw := OriginText(o) + path + Tail(q, frag);
      NormalizeLink(raw) == raw && Parse(auth, raw) == ParsedLink(auth, o, path, decoded, q, frag)
  {
    FragmentDecodes("");
    IndexLinkText(o, path, q, frag);
    OriginParses(auth, o, path, decoded, q);
    hide NormalizeLink, ParseNoFragment, Unescape, Cut, OriginText, WithQuery, Tail, Visible, Proper;
  }

  // ---------------------------------------------------------------- what is served for it

  /** The path a link's segments stand for, as written and decoded. */
  lemma PathOfSegments(segments: seq<string>)
    requires segments != [] && Plain(segments) && PACKAGES <= "/" + Joined(segments)
    ensures var path, decoded := PathText(segments), "/" + Joined(segments);
      && "/" <= path && !("//" <= path) && Visible(path) && '?' !in path && '#' !in path
      && Unescape(path) == Some(decoded) && Escape(decoded, InPath) == path && decoded != "*"
  {
    var decoded := "/" + Joined(segments);
    EscapedTarget(segments);
    UnescapeInvertsEscape(decoded, InPath);
    EscapedIsVisible(decoded);
    var more := FirstSegmentIsPackages(segments);
    assert PathText(segments)[1] == 'p' && decoded[0] == '/';
    hide Escape, Unescape, Joined, EscapeAll, Visible, Plain, NoDots, NoSlashes;
  }

  lemma PathHasNoDots(segments: seq<string>)
    requires segments != [] && Plain(segments)
    ensures GoRemoveDots(PathText(segments)) == PathText(segments)
  {
    var down := EscapeAll(segments, InPath);
    EscapedTarget(segments);
    SegmentsOfJoined(down);
    SegmentsOfPair("", Joined(down));
    SegmentsOfPlain("");
    GoPushPlain([], [""] + down);
    JoinedPair([""], down);
    hide Escape, Joined, Segments, EscapeAll, Plain, GoPushAll, GoRemoveDots, NoSlashes;
    assert "" + "/" + Joined(down) == "/" + Joined(down);
    assert [] + ([""] + down) == [""] + down && ([""] + down)[|down|] == down[|down| - 1];
    RemovesTo("/" + Joined(down), [""] + down, down);
  }

  lemma AbsPathOf(auth: Authorities, requestPath: string, l: Link, segments: seq<string>)
    requires segments != [] && Plain(segments) && PACKAGES <= "/" + Joined(segments)
    requires l.rawPath == PathText(segments) && l.path == "/" + Joined(segments)
    ensures AbsPath(l, requestPath) == "/" + Joined(segments)
  {
    PathOfSegments(segments);
    PathHasNoDots(segments);
    assert EscapedPath(l) == l.rawPath;
    hide Escape, Unescape, Joined, GoRemoveDots, EscapedPath, Plain, PathText;
  }

  /** A link in one of these forms to a file below /packages/ is served, as the page's own relative link to that file
      with the same query and fragment, exactly when its origin is welcome; on whatever page it stands. */
  lemma IndexLinkIsServedIff(auth: Authorities, requestPath: string, o: Origin, segments: seq<string>, q: string,
                             frag: string)
    requires Proper(o) && segments != [] && Plain(segments) && PACKAGES <= "/" + Joined(segments) && TailText(q, frag)
    ensures Resolve(auth, requestPath, OriginText(o) + PathText(segments) + Tail(q, frag))
      == if Welcome(auth, o) then
           Some(Climb(DirDepth(requestPath)) + Joined(EscapeAll(segments, InPath)) + Tail(q, ServedFragment(frag)))
         else None
  {
    var path, decoded := PathText(segments), "/" + Joined(segments);
    var raw := OriginText(o) + path + Tail(q, frag);
    hide Proper, OriginText, Welcome, ParsedLink;
    PathOfSegments(segments);
    IndexLinkParses(auth, o, path, decoded, q, frag);
    OriginStarts(o, path, Tail(q, frag));
    OriginIsAccepted(auth, o, path, decoded, q, frag, raw);
    assert Unescape(frag).Some?;
    hide *;
    if Welcome(auth, o) {
      WelcomeIsServed(auth, requestPath, o, segments, q, frag, raw);
    } else {
      NotAccepted(auth, requestPath, raw);
    }
  }

  lemma NotAccepted(auth: Authorities, requestPath: string, raw: string)
    requires Accepted(auth, raw).None?
    ensures Resolve(auth, requestPath, raw).None?
  {
    hide Accepted;
  }

  lemma OriginStarts(o: Origin, path: string, tail: string)
    requires Proper(o)
    ensures o.Absolute? ==> o.scheme + "://" <= LowerAll(OriginText(o) + path + tail)
  {
    if o.Absolute? {
      var rest := o.host + path + tail;
      LowerStays(o.scheme, rest);
      assert OriginText(o) + path + tail == o.scheme + "://" + rest;
    }
    hide LowerAll, HostText;
  }

  lemma WelcomeIsServed(auth: Authorities, requestPath: string, o: Origin, segments: seq<string>, q: string,
                        frag: string, raw: string)
    requires segments != [] && Plain(segments) && PACKAGES <= "/" + Joined(segments)
    requires Welcome(auth, o) && Unescape(frag).Some?
    requires Accepted(auth, raw) == ParsedLink(auth, o, PathText(segments), "/" + Joined(segments), q, frag)
    ensures Resolve(auth, requestPath, raw)
      == Some(Climb(DirDepth(requestPath)) + Joined(EscapeAll(segments, InPath)) + Tail(q, ServedFragment(frag)))
  {
    var l := ParsedLink(auth, o, PathText(segments), "/" + Joined(segments), q, frag).value;
    AbsPathOf(auth, requestPath, l, segments);
    CleanOfPlain(segments);
    FragmentDecodes(frag);
    assert (if l.fragment != "" then EscapedFragment(l) else "") == ServedFragment(frag);
    hide Accepted, Resolve, Clean, AbsPath, DirDepth, Joined, EscapeAll, Plain, PathText, Climb, Tail, Unescape;
    hide ServedFragment, EscapedFragment;
    Assembled(auth, requestPath, raw, l, segments);
  }

  lemma OriginIsAccepted(auth: Authorities, o: Origin, path: string, decoded: string, q: string, frag: string,
                         raw: string)
    requires Proper(o) && Unescape(frag).Some? && (o.Absolute? ==> o.scheme + "://" <= LowerAll(raw))
    requires NormalizeLink(raw) == raw && Parse(auth, raw) == ParsedLink(auth, o, path, decoded, q, frag)
    ensures Accepted(auth, raw) == if Welcome(auth, o) then ParsedLink(auth, o, path, decoded, q, frag) else None
  {
    hide NormalizeLink, Parse, Unescape, LowerAll, HostText;
  }

  lemma Assembled(auth: Authorities, requestPath: string, raw: string, l: Link, segments: seq<string>)
    requires Accepted(auth, raw) == Some(l) && segments != [] && Plain(segments)
    requires Clean(AbsPath(l, requestPath)) == "/" + Joined(segments) && PACKAGES <= "/" + Joined(segments)
    ensures Resolve(auth, requestPath, raw)
      == Some(Climb(DirDepth(requestPath)) + Joined(EscapeAll(segments, InPath))
              + Tail(l.rawQuery, if l.fragment != "" then EscapedFragment(l) else ""))
  {
    EscapedTarget(segments);
    var e := Joined(EscapeAll(segments, InPath));
    assert ("/" + e)[1..] == e;
    hide Accepted, Clean, AbsPath, DirDepth, Escape, EscapeAll, Joined, Climb, EscapedFragment, Tail, Plain;
  }
}
