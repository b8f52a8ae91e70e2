/** The policy engine: denylist first, then allowlist, then the severity threshold. */
module Policy {
  import opened Domain
  import opened Text

  datatype Engine = Engine(blockOn: Severity, cveBlock: bool, allowlist: set<string>, denylist: set<string>)

  predicate Matches(index: set<string>, ref: PackageRef) {
    ref.ecosystem + "/" + ref.name in index || ref.ecosystem + "/" + ref.name + "@" + ref.version in index
  }

  function Blocking(findings: seq<Finding>, threshold: Severity): seq<Finding> {
    if findings == [] then []
    else
      var last := findings[|findings| - 1];
      Blocking(findings[..|findings| - 1], threshold) + (if last.severity.AtLeast(threshold) then [last] else [])
  }

  function Decide(e: Engine, ref: PackageRef, findings: seq<Finding>): Decision {
    if Matches(e.denylist, ref) then Decision(false, DENYLISTED, [])
    else if Matches(e.allowlist, ref) then Decision(true, "allowlisted_bypass", [])
    else if !e.cveBlock then Decision(true, "cve_block_disabled", [])
    else
      var blocked := Blocking(findings, e.blockOn);
      if |blocked| > 0 then Decision(false, CVE_FOUND, blocked) else Decision(true, "ok", [])
  }

  method Evaluate(e: Engine, ref: PackageRef, findings: seq<Finding>) returns (d: Decision)
    ensures d == Decide(e, ref, findings)
  {
    if Matches(e.denylist, ref) {
      return Decision(false, DENYLISTED, []);
    }
    if Matches(e.allowlist, ref) {
      return Decision(true, "allowlisted_bypass", []);
    }
    if !e.cveBlock {
      return Decision(true, "cve_block_disabled", []);
    }
    var blocked: seq<Finding> := [];
    for i := 0 to |findings|
      invariant blocked == Blocking(findings[..i], e.blockOn)
    {
      assert findings[..i + 1][..i] == findings[..i];
      if findings[i].severity.AtLeast(e.blockOn) {
        blocked := blocked + [findings[i]];
      }
    }
    assert findings[..|findings|] == findings;
    if |blocked| > 0 {
      return Decision(false, CVE_FOUND, blocked);
    }
    return Decision(true, "ok", []);
  }

  /** What an entry of a list says: a package with all its versions, or one version of it. */
  datatype ListEntry = EveryVersion(ecosystem: string, name: string)
                     | OneVersion(ecosystem: string, name: string, version: string)

  /** An entry reads `ecosystem/name` or `ecosystem/name@version`; an '@' that opens the name belongs to it. */
  function ReadEntry(text: string): Option<ListEntry> {
    var slash := Index(text, "/");
    if slash.None? then None else Some(ReadName(text[..slash.value], text[slash.value + 1..]))
  }

  function ReadName(ecosystem: string, rest: string): ListEntry {
    var at := IndexFrom(rest, "@", 1);
    if at.None? then EveryVersion(ecosystem, rest)
    else OneVersion(ecosystem, rest[..at.value], rest[at.value + 1..])
  }

  /** The entry `text` is about the reference. */
  predicate Names(text: string, ref: PackageRef) {
    var entry := ReadEntry(text);
    entry == Some(EveryVersion(ref.ecosystem, ref.name))
    || entry == Some(OneVersion(ref.ecosystem, ref.name, ref.version))
  }

  /** A reference whose parts cannot be mistaken for each other in an entry. */
  predicate Plain(ref: PackageRef) {
    '/' !in ref.ecosystem && ref.name != "" && '@' !in ref.name[1..]
  }

  function ByName(ref: PackageRef): string { ref.ecosystem + "/" + ref.name }
  function ByVersion(ref: PackageRef): string { ByName(ref) + "@" + ref.version }

  /** A list matches a reference exactly when one of its entries is about it, whatever the list: this is so of the plain
      references and of no others. */
  lemma MatchesIffNamed(ref: PackageRef)
    ensures Plain(ref)
       <==> forall index: set<string> :: Matches(index, ref) <==> exists text :: text in index && Names(text, ref)
  {
    if Plain(ref) {
      forall text
        ensures text in {ByName(ref), ByVersion(ref)} <==> Names(text, ref)
      {
        PlainEntries(ref);
        NamedEntries(text, ref);
      }
      forall index: set<string>
        ensures Matches(index, ref) <==> exists text :: text in index && Names(text, ref)
      {
        assert Matches(index, ref) <==> ByName(ref) in index || ByVersion(ref) in index;
      }
    } else {
      MistakenEntry(ref);
      var text := if ref.name == "" then ByVersion(ref) else ByName(ref);
      assert Matches({text}, ref);
      assert !exists t :: t in {text} && Names(t, ref);
    }
  }

  lemma SlashIsFirst(ecosystem: string, rest: string)
    requires '/' !in ecosystem
    ensures ReadEntry(ecosystem + "/" + rest) == Some(ReadName(ecosystem, rest))
  {
    var s := ecosystem + "/" + rest;
    assert s[|ecosystem|..][0] == '/' && s[..|ecosystem|] == ecosystem && s[|ecosystem| + 1..] == rest;
    assert OccursAt(s, "/", |ecosystem|);
    forall j | 0 <= j < |ecosystem|
      ensures !OccursAt(s, "/", j)
    {
      assert s[j] == ecosystem[j];
      Mismatch(s, "/", j, 0);
    }
    hide ReadName;
  }

  lemma NoAtFrom(name: string, rest: string, i: nat)
    requires name != "" && '@' !in name[1..] && 1 <= i <= |name| && name <= rest
    requires |name| < |rest| ==> rest[|name|] == '@'
    ensures IndexFrom(rest, "@", i) == if |name| < |rest| then Some(|name|) else None
    decreases |name| - i
  {
    if i < |name| {
      assert rest[i] == name[1..][i - 1];
      Mismatch(rest, "@", i, 0);
      NoAtFrom(name, rest, i + 1);
    }
  }

  /** Both texts looked up for a plain reference are about it. */
  lemma PlainEntries(ref: PackageRef)
    requires Plain(ref)
    ensures Names(ByName(ref), ref) && Names(ByVersion(ref), ref)
  {
    var rest := ref.name + "@" + ref.version;
    assert ByVersion(ref) == ref.ecosystem + "/" + rest;
    SlashIsFirst(ref.ecosystem, ref.name);
    SlashIsFirst(ref.ecosystem, rest);
    NoAtFrom(ref.name, ref.name, 1);
    NoAtFrom(ref.name, rest, 1);
    assert rest[..|ref.name|] == ref.name && rest[|ref.name| + 1..] == ref.version;
    hide ReadEntry, IndexFrom;
  }

  /** No other text is. */
  lemma NamedEntries(text: string, ref: PackageRef)
    ensures Names(text, ref) ==> text in {ByName(ref), ByVersion(ref)}
  {
    var slash := Index(text, "/");
    if slash.Some? {
      var rest := text[slash.value + 1..];
      AroundFirst(text, "/", slash.value);
      var at := IndexFrom(rest, "@", 1);
      if at.Some? {
        AroundFirst(rest, "@", at.value);
        var e, n, v := text[..slash.value], rest[..at.value], rest[at.value + 1..];
        assert e + "/" + (n + "@" + v) == e + "/" + n + "@" + v;
      }
    }
    hide Index, IndexFrom, OccursAt;
  }

  lemma AroundFirst(s: string, c: string, i: nat)
    requires |c| == 1 && OccursAt(s, c, i)
    ensures s == s[..i] + c + s[i + 1..]
  {
    assert s == s[..i] + s[i..i + 1] + s[i + 1..];
  }

  /** A reference that is not plain is matched by an entry about another one. */
  lemma MistakenEntry(ref: PackageRef)
    requires !Plain(ref)
    ensures !Names(if ref.name == "" then ByVersion(ref) else ByName(ref), ref)
  {
    var rest := if ref.name == "" then "@" + ref.version else ref.name;
    assert ref.name == "" ==> ByVersion(ref) == ref.ecosystem + "/" + rest;
    if '/' in ref.ecosystem {
      SlashComesEarly(ref.ecosystem, rest);
    } else {
      SlashIsFirst(ref.ecosystem, rest);
      if ref.name != "" {
        AtIsFound(ref.name);
      }
    }
    hide ReadEntry, IndexFrom;
  }

  lemma AtIsFound(name: string)
    requires name != "" && '@' in name[1..]
    ensures IndexFrom(name, "@", 1).Some?
  {
    var i :| 0 <= i < |name| - 1 && name[1..][i] == '@';
    assert name[i + 1..i + 2] == "@";
    assert OccursAt(name, "@", i + 1);
  }

  lemma SlashComesEarly(ecosystem: string, rest: string)
    requires '/' in ecosystem
    ensures var entry := ReadEntry(ecosystem + "/" + rest); entry.Some? && |entry.value.ecosystem| < |ecosystem|
  {
    var s := ecosystem + "/" + rest;
    var i :| 0 <= i < |ecosystem| && ecosystem[i] == '/';
    assert s[i] == '/' && s[i..i + 1] == "/";
    assert OccursAt(s, "/", i);
  }

  /** `Blocking` keeps exactly the findings that reach the threshold, as often as they occur. */
  lemma {:induction false} BlockingCounts(findings: seq<Finding>, threshold: Severity, f: Finding)
    ensures multiset(Blocking(findings, threshold))[f]
         == if f.severity.AtLeast(threshold) then multiset(findings)[f] else 0
  {
    if findings != [] {
      var n := |findings| - 1;
      BlockingCounts(findings[..n], threshold, f);
      assert findings == findings[..n] + [findings[n]];
    }
  }

  /** A refusal has one of two reasons: the reference is denylisted, or it is on neither list, blocking
      is on and some finding reaches the threshold; the findings reported are exactly those. */
  lemma RefusalReasons(e: Engine, ref: PackageRef, findings: seq<Finding>)
    ensures var d := Decide(e, ref, findings);
      && (d.reason == DENYLISTED <==> Matches(e.denylist, ref))
      && (d.reason == CVE_FOUND <==>
            && !Matches(e.denylist, ref) && !Matches(e.allowlist, ref) && e.cveBlock
            && exists f :: f in findings && f.severity.AtLeast(e.blockOn))
      && (!d.allowed <==> d.reason in {DENYLISTED, CVE_FOUND})
      && (d.reason == CVE_FOUND ==> forall f :: f in d.findings <==> f in findings && f.severity.AtLeast(e.blockOn))
  {
    var blocked := Blocking(findings, e.blockOn);
    forall f
      ensures f in blocked <==> f in findings && f.severity.AtLeast(e.blockOn)
    {
      BlockingCounts(findings, e.blockOn, f);
      assert f in blocked <==> f in multiset(blocked);
      assert f in findings <==> f in multiset(findings);
    }
    if |blocked| > 0 {
      assert blocked[0] in blocked;
    }
  }
}
