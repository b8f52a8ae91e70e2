/** npm: tarball paths, the links a packument gives for them, and which versions it shows. */
module Npm {
  import opened Domain
  import opened Text
  import opened Url
  import opened Mux

  const TARBALLS := "/-/"
  const TGZ := ".tgz"

  // ---------------------------------------------------------------- paths

  function Unscoped(name: string): string {
    var i := LastIndex(name, '/');
    if i.None? then name else name[i.value + 1..]
  }

  /** The version in a tarball's file name. */
  function ParseVersion(name: string, filename: string): Option<string> {
    var file, prefix := TrimSuffix(filename, TGZ), Unscoped(name) + "-";
    if !(prefix <= file) || file == prefix then None else Some(file[|prefix|..])
  }

  /** The package and version a tarball download names; None when the path is not one. */
  function NormalizeRequest(path: string): Option<PackageRef> {
    if !Suffixed(path, TGZ) then None
    else
      var idx := Index(path, TARBALLS);
      if idx.None? then None
      else
        var name, filename := TrimPrefix(path[..idx.value], "/"), path[idx.value + |TARBALLS|..];
        var version := ParseVersion(name, filename);
        if version.None? then None else Some(PackageRef("npm", name, version.value, ""))
  }

  /** The name and the version or tag a metadata path asks for; an empty version asks for the whole packument. */
  function SplitMetadataPath(s: string): Option<(string, string)> {
    var parts := Segments(s);
    if s == "" || parts[0] == "-" then None
    else
      var scoped := s[0] == '@';
      if scoped && (|parts| < 2 || |parts[0]| < 2 || parts[1] == "") then None
      else
        var n := if scoped then 2 else 1;
        if |parts| == n then Some((s, ""))
        else if |parts| == n + 1 && parts[n] != "" && parts[n] != "-" then Some((Joined(parts[..n]), parts[n]))
        else None
  }

  predicate VersionChar(c: char) { Upper(c) || LowerCase(c) || '0' <= c <= '9' || c in ".+_-" }
  predicate ValidVersion(v: string) { v != "" && forall c | c in v :: VersionChar(c) }

  function TarballFile(name: string, version: string): string { Unscoped(name) + "-" + version + TGZ }

  /** The proxy path of a version's tarball, below the registry's prefix. */
  function TarballPath(name: string, version: string): string { "/" + name + TARBALLS + TarballFile(name, version) }

  /** The link served for one version; None when the version cannot form one. */
  function TarballUrl(linkBase: string, name: string, version: string): Option<string> {
    if !ValidVersion(version) || ParseVersion(name, TarballFile(name, version)) != Some(version) then None
    else Some(linkBase + TarballPath(name, version))
  }

  lemma ParseInvertsFile(name: string, version: string)
    requires version != ""
    ensures ParseVersion(name, TarballFile(name, version)) == Some(version)
  {
    var prefix, file := Unscoped(name) + "-", TarballFile(name, version);
    assert file == prefix + version + TGZ;
    assert file[|file| - |TGZ|..] == TGZ && file[..|file| - |TGZ|] == prefix + version;
    assert (prefix + version)[|prefix|..] == version;
  }

  /** The second test in TarballUrl never fails: a link exists for exactly the versions of safe characters. */
  lemma LinkExistsIff(linkBase: string, name: string, version: string)
    ensures TarballUrl(linkBase, name, version).Some? <==> ValidVersion(version)
  {
    if version != "" {
      ParseInvertsFile(name, version);
    }
  }

  /** An accepted path is the tarball path of what it names, exactly unless it has no name in front of its marker. */
  lemma NormalizedPathIsTarballPath(path: string)
    requires "/" <= path && NormalizeRequest(path).Some?
    ensures var ref := NormalizeRequest(path).value; path == TarballPath(ref.name, ref.version) <==> !(TARBALLS <= path)
  {
    var i := Index(path, TARBALLS).value;
    var name, filename := TrimPrefix(path[..i], "/"), path[i + |TARBALLS|..];
    var version := ParseVersion(name, filename).value;
    TgzAtTheEnd(path, i);
    FileParsesBack(name, filename);
    hide Index, ParseVersion, TarballFile;
    MarkerSplits(path, i);
    if i == 0 {
      assert |TarballPath(name, version)| == |path| + 1;
    } else {
      assert !OccursAt(path, TARBALLS, 0);
    }
  }

  /** A path around its marker. */
  lemma MarkerSplits(path: string, i: nat)
    requires "/" <= path && OccursAt(path, TARBALLS, i)
    ensures TARBALLS <= path <==> OccursAt(path, TARBALLS, 0)
    ensures var name, filename := TrimPrefix(path[..i], "/"), path[i + |TARBALLS|..];
      if i == 0 then path == TARBALLS + filename && name == "" else path == "/" + name + TARBALLS + filename
  {
    var filename := path[i + |TARBALLS|..];
    assert path == path[..i] + path[i..i + |TARBALLS|] + filename;
    assert path[0..|TARBALLS|] == path[..|TARBALLS|] || |path| < |TARBALLS|;
    if i == 0 {
      assert path[..0] == "";
    } else {
      assert path[..i] == "/" + TrimPrefix(path[..i], "/");
    }
  }

  lemma FileParsesBack(name: string, filename: string)
    requires Suffixed(filename, TGZ) && ParseVersion(name, filename).Some?
    ensures filename == TarballFile(name, ParseVersion(name, filename).value)
  {
    var file, prefix := TrimSuffix(filename, TGZ), Unscoped(name) + "-";
    assert filename == file + TGZ && file == prefix + file[|prefix|..];
  }

  lemma TgzAtTheEnd(path: string, i: nat)
    requires Suffixed(path, TGZ) && OccursAt(path, TARBALLS, i)
    ensures Suffixed(path[i + |TARBALLS|..], TGZ)
  {
    TgzClearsMarker(path, i);
    var filename := path[i + |TARBALLS|..];
    assert filename[|filename| - |TGZ|..] == path[|path| - |TGZ|..];
  }

  lemma TgzClearsMarker(path: string, i: nat)
    requires Suffixed(path, TGZ) && OccursAt(path, TARBALLS, i)
    ensures i + |TARBALLS| + |TGZ| <= |path|
  {
    var n := |path|;
    assert path[n - 4] == TGZ[0] && path[n - 3] == TGZ[1] && path[n - 2] == TGZ[2] && path[n - 1] == TGZ[3];
    assert path[i + 2] == TARBALLS[2] && path[i] == TARBALLS[0];
  }

  // ---------------------------------------------------------------- links lead back

  /** A name without a scope, or one scope and one name. */
  predicate Bare(name: string) { '/' !in name && name != "-" }

  predicate Scoped(name: string, scope: string, bare: string) {
    name == scope + "/" + bare && '/' !in scope && '/' !in bare && "@" <= scope && bare != ""
  }

  /** The names of metadata paths are of these two shapes. */
  lemma NameShape(s: string) returns (scope: string, bare: string)
    requires SplitMetadataPath(s).Some?
    ensures var name := SplitMetadataPath(s).value.0; Bare(name) || Scoped(name, scope, bare)
  {
    var parts := Segments(s);
    JoinedSegments(s);
    var n := if s[0] == '@' then 2 else 1;
    var name := SplitMetadataPath(s).value.0;
    assert parts[..|parts|] == parts;
    assert name == Joined(parts[..n]);
    if n == 1 {
      assert name == parts[0] && '/' !in name && name != "-";
      return "", "";
    }
    JoinedFront(parts);
    hide Joined, Segments, SplitMetadataPath;
    assert parts[..2] == [parts[0]] + [parts[1]];
    JoinedPair([parts[0]], [parts[1]]);
    scope, bare := parts[0], parts[1];
    OneSegment(scope);
    OneSegment(bare);
  }

  /** The names that can be asked for: bare ones that do not look like a scope, and names in a scope. */
  ghost predicate MetadataName(name: string) {
    (Bare(name) && !("@" <= name)) || exists scope, bare :: Scoped(name, scope, bare) && |scope| >= 2
  }

  /** A metadata path is a name, or a name and a version or tag that is one segment; which is which can be told. */
  lemma MetadataPathIff(s: string, name: string, version: string)
    ensures SplitMetadataPath(s) == Some((name, version))
      <==> && MetadataName(name) && '/' !in version && version != "-"
           && s == (if version == "" then name else name + "/" + version) && s != ""
  {
    if SplitMetadataPath(s) == Some((name, version)) {
      MetadataPathParts(s);
    }
    if MetadataName(name) && '/' !in version && version != "-" && s != ""
       && s == (if version == "" then name else name + "/" + version) {
      SegmentsOfPlain(version);
      SegmentsOfPair(name, version);
      if Bare(name) && !("@" <= name) {
        SegmentsOfPlain(name);
        BarePathSplits(s, name, version);
      } else {
        var scope, bare :| Scoped(name, scope, bare) && |scope| >= 2;
        SegmentsOfPlain(scope);
        SegmentsOfPlain(bare);
        SegmentsOfPair(scope, bare);
        ScopedPathSplits(s, name, scope, bare, version);
      }
      hide SplitMetadataPath;
    }
    hide Segments, Joined;
  }

  lemma BarePathSplits(s: string, name: string, version: string)
    requires Bare(name) && !("@" <= name) && s != ""
    requires Segments(s) == if version == "" then [name] else [name, version]
    requires s == (if version == "" then name else name + "/" + version) && version != "-"
    ensures SplitMetadataPath(s) == Some((name, version))
  {
    OneSegment(name);
    assert version != "" ==> [name, version][..1] == [name];
    hide Segments, Joined;
  }

  lemma ScopedPathSplits(s: string, name: string, scope: string, bare: string, version: string)
    requires Scoped(name, scope, bare) && |scope| >= 2 && s != ""
    requires Segments(s) == if version == "" then [scope, bare] else [scope, bare, version]
    requires s == (if version == "" then name else name + "/" + version) && version != "-"
    ensures SplitMetadataPath(s) == Some((name, version))
  {
    OneSegment(scope);
    OneSegment(bare);
    JoinedPair([scope], [bare]);
    assert [scope] + [bare] == [scope, bare];
    assert version != "" ==> [scope, bare, version][..2] == [scope, bare];
    hide Segments, Joined;
  }

  /** The parts of a path that is accepted. */
  lemma MetadataPathParts(s: string)
    requires SplitMetadataPath(s).Some?
    ensures var (name, version) := SplitMetadataPath(s).value;
      && MetadataName(name) && '/' !in version && version != "-"
      && s == (if version == "" then name else name + "/" + version) && s != ""
  {
    var parts := Segments(s);
    JoinedSegments(s);
    var n := if s[0] == '@' then 2 else 1;
    var name := SplitMetadataPath(s).value.0;
    assert parts[..|parts|] == parts;
    if |parts| == n + 1 {
      JoinedPair(parts[..n], [parts[n]]);
      OneSegment(parts[n]);
      assert parts == parts[..n] + [parts[n]];
    }
    assert name == Joined(parts[..n]);
    assert parts[0] != "" ==> parts[0][0] == s[0] by {
      if parts[0] != "" {
        JoinedFront(parts);
      }
    }
    OneSegment(parts[0]);
    if n == 1 {
      assert parts[..1] == [parts[0]];
    } else {
      OneSegment(parts[1]);
      JoinedPair([parts[0]], [parts[1]]);
      assert parts[..2] == [parts[0]] + [parts[1]];
      assert Scoped(name, parts[0], parts[1]);
    }
    hide Joined;
  }

  lemma OneSegment(s: string)
    ensures Joined([s]) == s
  {
  }

  /** The text starts as its first segment does. */
  lemma JoinedFront(p: seq<string>)
    requires p != [] && p[0] != ""
    ensures Joined(p) != "" && Joined(p)[0] == p[0][0]
  {
  }

  /** Where the marker is found in a tarball path. */
  lemma MarkerIsFound(name: string, rest: string)
    requires Bare(name)
    ensures Index("/" + name + TARBALLS + rest, TARBALLS) == Some(1 + |name|)
  {
    var path := "/" + name + TARBALLS + rest;
    MarkerOccurs(name, rest);
    forall j | 0 <= j < 1 + |name|
      ensures !OccursAt(path, TARBALLS, j)
    {
      if j > 0 {
        assert path[j] == name[j - 1];
        Mismatch(path, TARBALLS, j, 0);
      } else if name == "" || name[0] != '-' {
        assert path[1] == if name == "" then '/' else name[0];
        Mismatch(path, TARBALLS, 0, 1);
      } else {
        assert path[2] == name[1];
        Mismatch(path, TARBALLS, 0, 2);
      }
    }
    IndexIs(path, TARBALLS, 1 + |name|);
  }

  lemma MarkerOccurs(name: string, rest: string)
    ensures OccursAt("/" + name + TARBALLS + rest, TARBALLS, 1 + |name|)
  {
    var path := "/" + name + TARBALLS + rest;
    assert path == ("/" + name) + TARBALLS + rest;
    assert path[1 + |name|..1 + |name| + |TARBALLS|] == TARBALLS;
  }

  lemma ScopedMarkerIsFound(name: string, scope: string, bare: string, rest: string)
    requires Scoped(name, scope, bare)
    ensures Index("/" + name + TARBALLS + rest, TARBALLS) == Some(if bare == "-" then 1 + |scope| else 1 + |name|)
  {
    var path := "/" + name + TARBALLS + rest;
    ScopedPath(name, scope, bare, rest);
    MarkerOccurs(name, rest);
    ScopeGap(path, scope);
    if bare == "-" {
      MarkerOccurs(scope, "-/" + rest);
      IndexIs(path, TARBALLS, 1 + |scope|);
    } else {
      ScopedGap(path, scope, bare, rest);
      IndexIs(path, TARBALLS, 1 + |name|);
    }
  }

  lemma ScopedPath(name: string, scope: string, bare: string, rest: string)
    requires Scoped(name, scope, bare)
    ensures var path := "/" + name + TARBALLS + rest;
      && path == "/" + scope + "/" + bare + "/" + "-/" + rest
      && path[1] == '@' && path[..1 + |scope|] == "/" + scope
      && (bare == "-" ==> path == "/" + scope + TARBALLS + ("-/" + rest))
  {
  }

  lemma ScopeGap(path: string, scope: string)
    requires 1 + |scope| + |TARBALLS| <= |path| && path[..1 + |scope|] == "/" + scope && '/' !in scope && path[1] != '-'
    ensures forall j | 0 <= j < 1 + |scope| :: !OccursAt(path, TARBALLS, j)
  {
    forall j | 0 <= j < 1 + |scope|
      ensures !OccursAt(path, TARBALLS, j)
    {
      if j == 0 {
        Mismatch(path, TARBALLS, 0, 1);
      } else {
        assert path[j] == path[..1 + |scope|][j] == scope[j - 1];
        Mismatch(path, TARBALLS, j, 0);
      }
    }
  }

  lemma ScopedGap(path: string, scope: string, bare: string, rest: string)
    requires path == "/" + scope + "/" + bare + "/" + "-/" + rest && '/' !in bare && bare != "" && bare != "-"
    ensures forall j | 1 + |scope| <= j < 2 + |scope| + |bare| :: !OccursAt(path, TARBALLS, j)
  {
    forall j | 1 + |scope| <= j < 2 + |scope| + |bare|
      ensures !OccursAt(path, TARBALLS, j)
    {
      var k := j - 2 - |scope|;
      if k >= 0 {
        assert path[j] == bare[k];
        Mismatch(path, TARBALLS, j, 0);
      } else if bare[0] != '-' {
        assert path[j + 1] == bare[0];
        Mismatch(path, TARBALLS, j, 1);
      } else {
        assert path[j + 2] == bare[1];
        Mismatch(path, TARBALLS, j, 2);
      }
    }
  }

  /** A version's tarball path names the same package and version, for every name the metadata route accepts but
      those of the form "@scope/-". */
  lemma TarballRoundTripIff(s: string, version: string)
    requires SplitMetadataPath(s).Some? && ValidVersion(version)
    ensures var name := SplitMetadataPath(s).value.0;
      NormalizeRequest(TarballPath(name, version)) == Some(PackageRef("npm", name, version, ""))
      <==> !Suffixed(name, "/-")
  {
    var name := SplitMetadataPath(s).value.0;
    var scope, bare := NameShape(s);
    hide SplitMetadataPath;
    var file := TarballFile(name, version);
    if Bare(name) {
      MarkerIsFound(name, file);
      BareEnding(name);
    } else {
      ScopedMarkerIsFound(name, scope, bare, file);
      ScopedEnding(name, scope, bare);
    }
    MarkerDecides(name, version);
  }

  lemma BareEnding(name: string)
    requires '/' !in name
    ensures !Suffixed(name, "/-")
  {
    if |name| >= 2 {
      assert name[|name| - 2..][0] == name[|name| - 2];
    }
  }

  lemma ScopedEnding(name: string, scope: string, bare: string)
    requires Scoped(name, scope, bare)
    ensures Suffixed(name, "/-") <==> bare == "-"
  {
    var n := |name|;
    assert name[n - 1] == bare[|bare| - 1] && name[n - 2] == (if |bare| == 1 then '/' else bare[|bare| - 2]);
    assert name[n - 2..] == [name[n - 2], name[n - 1]];
    assert bare == "-" || |bare| > 1 || bare[0] != '-';
  }

  lemma MarkerDecides(name: string, version: string)
    requires version != "" && Index(TarballPath(name, version), TARBALLS).Some?
    ensures NormalizeRequest(TarballPath(name, version)) == Some(PackageRef("npm", name, version, ""))
      <==> Index(TarballPath(name, version), TARBALLS) == Some(1 + |name|)
  {
    var path, file := TarballPath(name, version), TarballFile(name, version);
    var i := Index(path, TARBALLS).value;
    TarballPathEnds(name, version);
    ParseInvertsFile(name, version);
    hide ParseVersion, Index, TarballFile;
    if i == 1 + |name| {
      assert path[..i] == "/" + name && path[i + |TARBALLS|..] == file;
      assert ("/" + name)[1..] == name;
    } else if i > 0 {
      assert |TrimPrefix(path[..i], "/")| == i - 1;
    }
  }

  lemma TarballPathEnds(name: string, version: string)
    ensures Suffixed(TarballPath(name, version), TGZ) && TarballPath(name, version)[0] == '/'
  {
    var path := TarballPath(name, version);
    assert path == "/" + name + TARBALLS + (Unscoped(name) + "-" + version) + TGZ;
    assert path[|path| - |TGZ|..] == TGZ;
  }

  /** Where a client that follows a link with this path ends up: the registry, and what is asked of it. */
  function Followed(text: string): Option<(string, Option<PackageRef>)> {
    var p := RequestedPath(text);
    if p.None? then None else Some((SplitPrefix(p.value).0, NormalizeRequest(SplitPrefix(p.value).1)))
  }

  /** The name holds nothing that following a link gives a meaning to, and is not of the form "@scope/-". */
  predicate Linkable(name: string) { Literal(name) && NoDots(Segments(name)) && !Suffixed(name, "/-") }

  /** The link of a shown version, followed, is a request to the same registry for the same package and version,
      exactly when the name is linkable. */
  lemma LinkLeadsBackIff(origin: string, prefix: string, s: string, version: string)
    requires SplitMetadataPath(s).Some? && ValidVersion(version)
    requires '/' !in prefix && Literal(prefix) && !IsDots(prefix)
    ensures var name := SplitMetadataPath(s).value.0;
      TarballUrl(origin + "/" + prefix, name, version) == Some(origin + ("/" + prefix + TarballPath(name, version)))
    ensures var name := SplitMetadataPath(s).value.0;
      Followed("/" + prefix + TarballPath(name, version)) == Some((prefix, Some(PackageRef("npm", name, version, ""))))
      <==> Linkable(name)
  {
    var name := SplitMetadataPath(s).value.0;
    ParseInvertsFile(name, version);
    assert origin + "/" + prefix + TarballPath(name, version) == origin + ("/" + prefix + TarballPath(name, version));
    TarballRoundTripIff(s, version);
    hide SplitMetadataPath;
    var text := "/" + prefix + TarballPath(name, version);
    LiteralPath(prefix, name, version);
    PathSegments(prefix, name, version);
    RequestedIsTextIff(text);
    if RequestedPath(text) == Some(text) {
      FollowedLiterally(prefix, name, version);
    } else {
      NoNameIsLiteral();
      NotFollowed(prefix, name, version);
    }
    hide *;
  }

  /** The name ".." is one that the metadata route accepts. Its tarball links, followed, climb out of the registry:
      they ask for a tarball of another one, called "-", where there is none. */
  lemma UpNameLeadsAway(prefix: string, version: string)
    requires '/' !in prefix && Literal(prefix) && !IsDots(prefix) && ValidVersion(version)
    ensures SplitMetadataPath(UP) == Some((UP, ""))
    ensures Followed("/" + prefix + TarballPath(UP, version)) == Some(("-", None))
  {
    UpIsAName();
    UpPathClimbsOut(prefix, version);
    UpFileAlone(TarballFile(UP, version), version);
    hide SplitPrefix, NormalizeRequest, TarballPath, TarballFile, RequestedPath, ValidVersion, Literal;
    hide SplitMetadataPath;
  }

  lemma UpIsAName()
    ensures SplitMetadataPath(UP) == Some((UP, "")) && Literal(UP) && Segments(UP) == [UP]
  {
    SegmentsOfPlain(UP);
    hide Segments;
  }

  lemma UpPathClimbsOut(prefix: string, version: string)
    requires '/' !in prefix && Literal(prefix) && !IsDots(prefix) && ValidVersion(version)
    ensures RequestedPath("/" + prefix + TarballPath(UP, version)) == Some("/-/" + TarballFile(UP, version))
  {
    hide TarballPath, TarballFile, RequestedPath, Segments, ValidVersion, SplitMetadataPath, Literal;
    var text, file := "/" + prefix + TarballPath(UP, version), TarballFile(UP, version);
    UpIsAName();
    FileIsOneSegment(UP, version);
    LiteralPath(prefix, UP, version);
    BelowRoot(prefix, UP, version);
    SegmentsAround(prefix, UP, file);
    assert [prefix] + ([UP] + (["-"] + [file])) == [prefix, UP, "-", file];
    ClimbsOut(text, prefix, file);
  }

  lemma UpFileAlone(file: string, version: string)
    requires ValidVersion(version) && file == TarballFile(UP, version)
    ensures SplitPrefix("/-/" + file) == ("-", "/" + file) && NormalizeRequest("/" + file).None?
  {
    FileIsOneSegment(UP, version);
    NoTarballAtRoot(file);
    RootPrefix(file);
    hide *;
  }

  lemma RootPrefix(file: string)
    ensures SplitPrefix("/-/" + file) == ("-", "/" + file)
  {
    hide SplitPrefix;
    assert "/-/" + file == "/" + "-" + ("/" + file);
    SplitPrefixIff("/-/" + file, "-", "/" + file);
  }

  lemma ClimbsOut(text: string, prefix: string, file: string)
    requires "/" <= text && Literal(text) && Segments(text[1..]) == [prefix, UP, "-", file]
    requires !IsDots(prefix) && |file| > 2
    ensures RequestedPath(text) == Some("/-/" + file)
  {
    hide CleanChars, RefPath, Unescape, Segments, PushAll, Remaining;
    CleanCharsSanitize(text);
    RefPathKeeps(text);
    ClimbsToRoot(prefix, file);
    FileIsLiteral(text, file);
    assert RemoveDotSegments(text) == "/-/" + file;
    UnescapeKeeps("/-/" + file);
  }

  lemma FileIsLiteral(text: string, file: string)
    requires "/" <= text && '%' !in text && |Segments(text[1..])| == 4 && Segments(text[1..])[3] == file
    ensures '%' !in "/-/" + file
  {
    SegmentIsPart(text[1..], 3);
    hide Segments;
  }

  lemma ClimbsToRoot(prefix: string, file: string)
    requires !IsDots(prefix) && |file| > 2
    ensures Remaining([prefix, UP, "-", file]) == ["-", file]
    ensures "/" + Joined(["-", file]) == "/-/" + file
  {
    PushesLeaveTheFile(prefix, file);
    PushPlain([], file, []);
    JoinedPair(["-"], [file]);
    assert ["-"] + [file] == ["-", file] && [prefix, UP, "-", file][3] == file;
    hide PushAll, IsDots;
  }

  lemma PushesLeaveTheFile(prefix: string, file: string)
    requires !IsDots(prefix) && |file| > 2
    ensures PushAll([], [prefix, UP, "-", file]) == ["-", file]
  {
    assert !IsDots("-");
    hide PushAll, IsDots;
    PushPlain([], prefix, [UP, "-", file]);
    assert [prefix] + [UP, "-", file] == [prefix, UP, "-", file] && [] + [prefix] == [prefix];
    PushUp(prefix, ["-", file]);
    assert [UP] + ["-", file] == [UP, "-", file];
    PushPlain([], "-", [file]);
    assert ["-"] + [file] == ["-", file] && [] + ["-"] == ["-"];
    PushPlain(["-"], file, []);
    assert [file] + [] == [file];
  }

  lemma PushPlain(stack: seq<string>, s: string, rest: seq<string>)
    requires |s| > 2 || !IsDots(s)
    ensures !IsDots(s)
    ensures PushAll(stack, [s] + rest) == PushAll(stack + [s], rest)
    ensures PushAll(stack + [s], []) == stack + [s]
  {
    assert ([s] + rest)[1..] == rest;
  }

  lemma PushUp(s: string, rest: seq<string>)
    ensures PushAll([s], [UP] + rest) == PushAll([], rest)
  {
    assert ([UP] + rest)[1..] == rest && [s][..0] == [];
  }

  lemma SegmentIsPart(s: string, i: nat)
    requires i < |Segments(s)|
    ensures forall c | c in Segments(s)[i] :: c in s
  {
    var p := Segments(s);
    JoinedSegments(s);
    PartOfJoined(p, i);
  }

  lemma {:induction false} PartOfJoined(p: seq<string>, i: nat)
    requires i < |p|
    ensures forall c | c in p[i] :: c in Joined(p)
  {
    if i > 0 {
      PartOfJoined(p[1..], i - 1);
    }
  }

  lemma NoTarballAtRoot(file: string)
    requires '/' !in file
    ensures NormalizeRequest("/" + file).None?
  {
    NoMarkerAtRoot(file);
    hide Index, ParseVersion;
  }

  lemma NoMarkerAtRoot(file: string)
    requires '/' !in file
    ensures Index("/" + file, TARBALLS).None?
  {
    var s := "/" + file;
    var found := Index(s, TARBALLS);
    hide IndexFrom;
    if found.Some? {
      assert s[found.value + 2] == file[found.value + 1];
      Mismatch(s, TARBALLS, found.value, 2);
      assert false;
    }
  }

  lemma NoNameIsLiteral()
    ensures Literal("") && NoDots(Segments(""))
  {
    SegmentsOfPlain("");
  }

  lemma LiteralPath(prefix: string, name: string, version: string)
    requires ValidVersion(version) && Literal(prefix)
    ensures Literal("/" + prefix + TarballPath(name, version)) <==> Literal(name)
  {
    var u := Unscoped(name);
    VersionIsLiteral(version);
    assert forall c | c in u :: c in name;
    hide Unscoped, ValidVersion;
    assert Literal("/") && Literal(TARBALLS) && Literal("-") && Literal(TGZ);
    LiteralPair("/", prefix);
    LiteralPair("/" + prefix, TarballPath(name, version));
    LiteralPair("/", name);
    LiteralPair("/" + name, TARBALLS);
    LiteralPair("/" + name + TARBALLS, TarballFile(name, version));
    LiteralPair(u, "-");
    LiteralPair(u + "-", version);
    LiteralPair(u + "-" + version, TGZ);
    LiteralPart(u, name);
    hide Literal;
  }

  lemma VersionIsLiteral(version: string)
    requires ValidVersion(version)
    ensures Literal(version) && '/' !in version
  {
  }

  lemma LiteralPair(a: string, b: string)
    ensures Literal(a + b) <==> (Literal(a) && Literal(b))
  {
    assert forall c :: c in a + b <==> c in a || c in b;
  }

  lemma LiteralPart(part: string, whole: string)
    requires forall c | c in part :: c in whole
    ensures Literal(whole) ==> Literal(part)
  {
  }

  /** Of a tarball's path below its prefix, only the name can hold dot segments. */
  lemma PathSegments(prefix: string, name: string, version: string)
    requires '/' !in prefix && !IsDots(prefix) && ValidVersion(version)
    ensures var text := "/" + prefix + TarballPath(name, version);
      NoDots(Segments(text[1..])) <==> NoDots(Segments(name))
  {
    var file := TarballFile(name, version);
    FileIsOneSegment(name, version);
    BelowRoot(prefix, name, version);
    SegmentsAround(prefix, name, file);
    hide Segments, TarballFile, TarballPath, NoDots;
    NoDotsPair([prefix], Segments(name) + (["-"] + [file]));
    NoDotsPair(Segments(name), ["-"] + [file]);
    NoDotsPair(["-"], [file]);
    NoDotsOne(prefix);
    NoDotsOne("-");
    NoDotsOne(file);
  }

  lemma FileIsOneSegment(name: string, version: string)
    requires ValidVersion(version)
    ensures '/' !in TarballFile(name, version) && |TarballFile(name, version)| > 2
  {
    VersionIsLiteral(version);
    hide ValidVersion;
  }

  lemma BelowRoot(prefix: string, name: string, version: string)
    ensures ("/" + prefix + TarballPath(name, version))[1..]
      == prefix + "/" + (name + "/" + ("-" + "/" + TarballFile(name, version)))
  {
    hide TarballFile;
    var file := TarballFile(name, version);
    assert TarballPath(name, version) == "/" + (name + "/" + ("-" + "/" + file));
    assert "/" + prefix + TarballPath(name, version) == "/" + (prefix + TarballPath(name, version));
  }

  lemma SegmentsAround(prefix: string, name: string, file: string)
    requires '/' !in prefix && '/' !in file
    ensures Segments(prefix + "/" + (name + "/" + ("-" + "/" + file)))
      == [prefix] + (Segments(name) + (["-"] + [file]))
  {
    hide Segments;
    SegmentsOfPair(prefix, name + "/" + ("-" + "/" + file));
    SegmentsOfPair(name, "-" + "/" + file);
    SegmentsOfPair("-", file);
    SegmentsOfPlain(prefix);
    SegmentsOfPlain("-");
    SegmentsOfPlain(file);
  }

  lemma NoDotsOne(segment: string)
    ensures NoDots([segment]) <==> !IsDots(segment)
  {
    assert [segment][0] == segment;
  }

  lemma NoDotsPair(p: seq<string>, q: seq<string>)
    ensures NoDots(p + q) <==> (NoDots(p) && NoDots(q))
  {
    assert forall i | 0 <= i < |p| :: (p + q)[i] == p[i];
    assert forall i | 0 <= i < |q| :: q[i] == (p + q)[|p| + i];
  }

  lemma TarballPathIsRooted(name: string, version: string)
    ensures "/" <= TarballPath(name, version) && TarballPath(name, version) != "/"
  {
  }

  lemma FollowedLiterally(prefix: string, name: string, version: string)
    requires '/' !in prefix
    requires var text := "/" + prefix + TarballPath(name, version); RequestedPath(text) == Some(text)
    ensures Followed("/" + prefix + TarballPath(name, version))
      == Some((prefix, NormalizeRequest(TarballPath(name, version))))
  {
    TarballPathIsRooted(name, version);
    SplitPrefixIff("/" + prefix + TarballPath(name, version), prefix, TarballPath(name, version));
    hide SplitPrefix, NormalizeRequest, TarballPath, RequestedPath;
  }

  /** Otherwise what arrives is not even the path of the link. */
  lemma NotFollowed(prefix: string, name: string, version: string)
    requires '/' !in prefix && name != ""
    requires var text := "/" + prefix + TarballPath(name, version); RequestedPath(text) != Some(text)
    ensures Followed("/" + prefix + TarballPath(name, version))
      != Some((prefix, Some(PackageRef("npm", name, version, ""))))
  {
    var text := "/" + prefix + TarballPath(name, version);
    RequestedIsTextIff(text);
    hide RequestedPath;
    var p := RequestedPath(text);
    if p.Some? {
      var rest := SplitPrefix(p.value).1;
      SplitPrefixRest(p.value);
      if NormalizeRequest(rest) == Some(PackageRef("npm", name, version, "")) && SplitPrefix(p.value).0 == prefix {
        NamedPathHasNoEarlyMarker(rest);
        NormalizedPathIsTarballPath(rest);
        TarballPathIsRooted(name, version);
        SplitPrefixIff(p.value, prefix, rest);
      }
    }
  }

  lemma SplitPrefixRest(path: string)
    ensures "/" <= SplitPrefix(path).1
  {
    var trimmed := TrimPrefix(path, "/");
    var idx := Index(trimmed, "/");
    if idx.Some? {
      assert trimmed[idx.value..idx.value + 1] == "/";
      assert trimmed[idx.value..][..1] == trimmed[idx.value..idx.value + 1];
    }
  }

  lemma NamedPathHasNoEarlyMarker(path: string)
    requires NormalizeRequest(path).Some? && NormalizeRequest(path).value.name != ""
    ensures !(TARBALLS <= path)
  {
    var i := Index(path, TARBALLS).value;
    assert path[..0] == "" && TrimPrefix("", "/") == "";
    hide NormalizeRequest, ParseVersion;
    assert i > 0 && !OccursAt(path, TARBALLS, 0);
    assert |path| >= |TARBALLS| ==> path[0..|TARBALLS|] == path[..|TARBALLS|];
  }
}
