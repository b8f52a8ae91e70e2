/** Go module paths: the proxy protocol writes an upper-case letter as '!' and its lower-case form. */
module GoPath {
  import opened Domain
  import opened Text

  function Prepend(c: char, r: Option<string>): Option<string> { if r.None? then None else Some([c] + r.value) }

  /** Undoes the case encoding; None for a '!' not followed by a lower-case letter. */
  function Decode(s: string): Option<string> {
    if s == "" then Some("")
    else if s[0] != '!' then Prepend(s[0], Decode(s[1..]))
    else if |s| < 2 || !LowerCase(s[1]) then None
    else Prepend(ToUpper(s[1]), Decode(s[2..]))
  }

  function Encode(s: string): string {
    if s == "" then ""
    else (if Upper(s[0]) then ['!', Lower(s[0])] else [s[0]]) + Encode(s[1..])
  }

  function PrependAll(b: string, r: Option<string>): Option<string> { if r.None? then None else Some(b + r.value) }

  method DecodeGoPath(s: string) returns (r: Option<string>)
    ensures r == Decode(s)
  {
    if '!' !in s {
      PlainDecodes(s);
      return Some(s);
    }
    var b, i := "", 0;
    assert s[0..] == s;
    assert Decode(s).Some? ==> "" + Decode(s).value == Decode(s).value;
    while i < |s|
      invariant 0 <= i <= |s| && Decode(s) == PrependAll(b, Decode(s[i..]))
    {
      var c := s[i];
      assert s[i..][0] == c && s[i..][1..] == s[i + 1..];
      if c != '!' {
        PrependAppends(b, c, Decode(s[i + 1..]));
        b, i := b + [c], i + 1;
        continue;
      }
      if i + 1 >= |s| {
        return None;
      }
      var n := s[i + 1];
      if !LowerCase(n) {
        return None;
      }
      assert s[i..][2..] == s[i + 2..];
      PrependAppends(b, ToUpper(n), Decode(s[i + 2..]));
      b, i := b + [ToUpper(n)], i + 2;
    }
    assert b + "" == b;
    r := Some(b);
  }

  method EncodeGoPath(s: string) returns (r: string)
    ensures r == Encode(s)
  {
    r := "";
    for i := 0 to |s|
      invariant Encode(s) == r + Encode(s[i..])
    {
      var c := s[i];
      assert s[i..][0] == c && s[i..][1..] == s[i + 1..];
      if Upper(c) {
        r := r + ['!', Lower(c)];
      } else {
        r := r + [c];
      }
    }
    assert s[|s|..] == "" && r + "" == r;
  }

  lemma PrependAppends(b: string, c: char, r: Option<string>)
    ensures PrependAll(b, Prepend(c, r)) == PrependAll(b + [c], r)
  {
    if r.Some? {
      assert b + ([c] + r.value) == b + [c] + r.value;
    }
  }

  lemma {:induction false} PlainDecodes(s: string)
    requires '!' !in s
    ensures Decode(s) == Some(s)
  {
    if s != "" {
      PlainDecodes(s[1..]);
      assert s == [s[0]] + s[1..];
    }
  }

  // ---------------------------------------------------------------- inverses

  lemma DecodeStep(c: char, rest: string)
    ensures c != '!' ==> Decode([c] + rest) == Prepend(c, Decode(rest))
    ensures LowerCase(c) ==> Decode(['!', c] + rest) == Prepend(ToUpper(c), Decode(rest))
    ensures c == '!' ==> Decode([c] + rest).None? || Upper(Decode([c] + rest).value[0])
  {
    assert ([c] + rest)[1..] == rest && (['!', c] + rest)[2..] == rest;
  }

  lemma PrependIs(c: char, r: Option<string>, s: string)
    requires s != ""
    ensures Prepend(c, r) == Some(s) <==> (c == s[0] && r == Some(s[1..]))
  {
    assert s == [s[0]] + s[1..];
    assert r.Some? ==> ([c] + r.value)[0] == c && ([c] + r.value)[1..] == r.value;
  }

  /** Decoding gives back what was encoded, for exactly the strings without '!'. */
  lemma {:induction false} DecodeInvertsEncode(s: string)
    ensures Decode(Encode(s)) == Some(s) <==> '!' !in s
  {
    if s != "" {
      var c, rest := s[0], Encode(s[1..]);
      DecodeInvertsEncode(s[1..]);
      assert Encode(s) == (if Upper(c) then ['!', Lower(c)] else [c]) + rest;
      assert '!' in s <==> c == '!' || '!' in s[1..];
      DecodeStep(if Upper(c) then Lower(c) else c, rest);
      PrependIs(c, Decode(rest), s);
      hide Decode, Encode, Prepend;
    }
  }

  /** Encoding gives back what was decoded, for exactly the decodable strings without upper-case letters. */
  lemma {:induction false} EncodeInvertsDecode(s: string)
    requires Decode(s).Some?
    ensures Encode(Decode(s).value) == s <==> NoUpper(s)
    ensures |Encode(Decode(s).value)| >= |s|
    decreases |s|
  {
    if s != "" {
      if s[0] != '!' {
        EncodeInvertsDecode(s[1..]);
        assert Decode(s).value[1..] == Decode(s[1..]).value;
        assert s == [s[0]] + s[1..];
      } else {
        EncodeInvertsDecode(s[2..]);
        assert Decode(s).value[1..] == Decode(s[2..]).value;
        assert s == ['!', s[1]] + s[2..];
      }
    }
  }

  lemma {:induction false} EncodedIsLower(s: string)
    ensures NoUpper(Encode(s)) && ('@' in Encode(s) <==> '@' in s) && (Encode(s) == "" <==> s == "")
  {
    if s != "" {
      EncodedIsLower(s[1..]);
    }
  }

  // ---------------------------------------------------------------- requests

  const VERSIONS := "/@v/"
  const ZIP := ".zip"
  const INFO := ".info"

  /** The module and version a zip download names, decoded; None when the path is not one. */
  function NormalizeRequest(path: string): Option<PackageRef> {
    if !Suffixed(path, ZIP) then None
    else
      var idx := Index(path, VERSIONS);
      if idx.None? then None
      else
        var encModule := TrimPrefix(path[..idx.value], "/");
        var encVersion := TrimSuffix(path[idx.value + |VERSIONS|..], ZIP);
        if encModule == "" || encVersion == "" then None
        else
          var name, version := Decode(encModule), Decode(encVersion);
          if name.None? || version.None? then None else Some(PackageRef("go", name.value, version.value, ""))
  }

  /** The encoded path of a zip. */
  function ZipPath(ref: PackageRef): string { "/" + Encode(ref.name) + VERSIONS + Encode(ref.version) + ZIP }

  /** What is asked of an upstream for the publish date. */
  function InfoPath(ref: PackageRef): string { "/" + Encode(ref.name) + VERSIONS + Encode(ref.version) + INFO }

  /** How an accepted path is put together. */
  lemma Parts(path: string) returns (m: string, v: string)
    requires "/" <= path && NormalizeRequest(path).Some?
    ensures path == "/" + m + VERSIONS + v + ZIP
    ensures Decode(m) == Some(NormalizeRequest(path).value.name)
      && Decode(v) == Some(NormalizeRequest(path).value.version)
  {
    var i := Index(path, VERSIONS).value;
    m, v := TrimPrefix(path[..i], "/"), TrimSuffix(path[i + |VERSIONS|..], ZIP);
    hide Decode, Index;
    SplitAtMarker(path, i);
  }

  lemma SplitAtMarker(path: string, i: nat)
    requires "/" <= path && Suffixed(path, ZIP) && OccursAt(path, VERSIONS, i) && TrimPrefix(path[..i], "/") != ""
    ensures path == "/" + TrimPrefix(path[..i], "/") + VERSIONS + TrimSuffix(path[i + |VERSIONS|..], ZIP) + ZIP
  {
    ZipClearsMarker(path, i);
    assert path[..i] != "";
    var rest := path[i + |VERSIONS|..];
    assert rest[|rest| - |ZIP|..] == path[|path| - |ZIP|..];
    assert rest == TrimSuffix(rest, ZIP) + ZIP;
    assert path[..i] == "/" + TrimPrefix(path[..i], "/");
    assert path == path[..i] + VERSIONS + rest;
  }

  lemma ZipClearsMarker(path: string, i: nat)
    requires Suffixed(path, ZIP) && OccursAt(path, VERSIONS, i)
    ensures i + |VERSIONS| + |ZIP| <= |path|
  {
    var n := |path|;
    assert path[n - 4] == ZIP[0] && path[n - 3] == ZIP[1] && path[n - 2] == ZIP[2] && path[n - 1] == ZIP[3];
    assert path[i + 3] == VERSIONS[3] && path[i] == VERSIONS[0];
  }

  /** A path is the encoded form of what it names exactly when it has no upper-case letter. */
  lemma LowerPathIsEncoded(path: string)
    requires "/" <= path && NormalizeRequest(path).Some?
    ensures path == ZipPath(NormalizeRequest(path).value) <==> NoUpper(path)
  {
    var ref := NormalizeRequest(path).value;
    var m, v := Parts(path);
    EncodeInvertsDecode(m);
    EncodeInvertsDecode(v);
    UpperInParts(path, m, v);
    hide Decode, Encode, NormalizeRequest, NoUpper;
    var a, b := Encode(ref.name), Encode(ref.version);
    if "/" + a + VERSIONS + b + ZIP == "/" + m + VERSIONS + v + ZIP {
      SameParts(a, b, m, v);
    }
  }

  /** The publish date is read from the client's own path with the suffix changed, exactly when the client wrote no
      upper-case letter. */
  lemma InfoIsTheClientsPath(path: string)
    requires "/" <= path && NormalizeRequest(path).Some?
    ensures InfoPath(NormalizeRequest(path).value) == path[..|path| - |ZIP|] + INFO <==> NoUpper(path)
  {
    var ref := NormalizeRequest(path).value;
    LowerPathIsEncoded(path);
    var stem, mine := path[..|path| - |ZIP|], "/" + Encode(ref.name) + VERSIONS + Encode(ref.version);
    assert path[|path| - |ZIP|..] == ZIP;
    hide NormalizeRequest, NoUpper, Encode;
    assert path == stem + ZIP && ZipPath(ref) == mine + ZIP && InfoPath(ref) == mine + INFO;
    assert stem == (stem + INFO)[..|stem + INFO| - |INFO|] && mine == (mine + INFO)[..|mine + INFO| - |INFO|];
    assert stem == (stem + ZIP)[..|stem + ZIP| - |ZIP|] && mine == (mine + ZIP)[..|mine + ZIP| - |ZIP|];
  }

  lemma UpperInParts(path: string, m: string, v: string)
    requires path == "/" + m + VERSIONS + v + ZIP
    ensures NoUpper(path) <==> NoUpper(m) && NoUpper(v)
  {
    assert NoUpper("/") && NoUpper(VERSIONS) && NoUpper(ZIP);
    assert forall c | c in m :: c in path;
    assert forall c | c in v :: c in path;
  }

  lemma SameParts(a: string, b: string, m: string, v: string)
    requires |a| >= |m| && |b| >= |v| && "/" + a + VERSIONS + b + ZIP == "/" + m + VERSIONS + v + ZIP
    ensures a == m && b == v
  {
    var x := "/" + a + VERSIONS + b + ZIP;
    assert |a| == |m| && |b| == |v|;
    assert a == x[1..1 + |a|] && b == x[5 + |a|..5 + |a| + |b|];
    assert m == x[1..1 + |a|] && v == x[5 + |a|..5 + |a| + |b|];
  }

  /** Lower-case request paths name the artifact: no two of them mean the same module and version. */
  lemma RequestsAreDistinct(p: string, q: string)
    requires "/" <= p && "/" <= q && NoUpper(p) && NoUpper(q)
    requires NormalizeRequest(p).Some? && NormalizeRequest(p) == NormalizeRequest(q)
    ensures p == q
  {
    LowerPathIsEncoded(p);
    LowerPathIsEncoded(q);
    hide *;
  }

  /** And every module and version free of the protocol's own characters is named by its encoded path. */
  lemma CanonicalPathNormalizes(name: string, version: string)
    requires name != "" && version != "" && '!' !in name && '!' !in version && '@' !in name
    ensures var ref := PackageRef("go", name, version, ""); NormalizeRequest(ZipPath(ref)) == Some(ref)
  {
    var m, v := Encode(name), Encode(version);
    DecodeInvertsEncode(name);
    DecodeInvertsEncode(version);
    EncodedIsLower(name);
    EncodedIsLower(version);
    hide Encode, Decode;
    var path := "/" + m + VERSIONS + v + ZIP;
    var i := 1 + |m|;
    assert path == ("/" + m) + VERSIONS + (v + ZIP);
    assert path[..i] == "/" + m && path[i + |VERSIONS|..] == v + ZIP && path[i..i + |VERSIONS|] == VERSIONS;
    forall j | 0 <= j < i
      ensures !OccursAt(path, VERSIONS, j)
    {
      assert path[j + 1] == if j + 1 < i then m[j] else '/';
      Mismatch(path, VERSIONS, j, 1);
    }
    IndexIs(path, VERSIONS, i);
    assert path[|path| - |ZIP|..] == ZIP && (v + ZIP)[|v|..] == ZIP && (v + ZIP)[..|v|] == v;
    assert ("/" + m)[1..] == m;
  }
}
