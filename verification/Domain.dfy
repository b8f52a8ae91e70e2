/** The vocabulary shared by every gate: package references and their cache keys,
    severities and findings, and the answers of scanners and filters. */
module Domain {

  datatype Option<+T> = None | Some(value: T)

  datatype PackageRef = PackageRef(ecosystem: string, name: string, version: string, classifier: string) {

    /** The string that names this reference on disk and in the re-check flights. */
    function Key(): string {
      ecosystem + "/" + name + "@" + version + ClassifierSuffix()
    }

    function ClassifierSuffix(): string {
      if classifier == "" then "" else "?classifier=" + classifier
    }

    /** What the separators of `Key` may not be found in. */
    predicate Separable() {
      '/' !in ecosystem && '@' !in version && '?' !in version && '@' !in classifier
    }
  }

  lemma CutAtFirst(c: char, a: string, x: string, b: string, y: string)
    requires c !in a && c !in b
    requires a + [c] + x == b + [c] + y
    ensures a == b && x == y
  {
    var s := a + [c] + x;
    assert s[|a|] == c && s[|b|] == c;
    assert forall i | 0 <= i < |a| :: s[i] == a[i];
    assert forall i | 0 <= i < |b| :: s[i] == b[i];
    assert |a| == |b|;
    assert a == s[..|a|] && b == s[..|a|];
    assert x == s[|a| + 1..] && y == s[|a| + 1..];
  }

  lemma CutAtLast(c: char, a: string, x: string, b: string, y: string)
    requires c !in x && c !in y
    requires a + [c] + x == b + [c] + y
    ensures a == b && x == y
  {
    var s := a + [c] + x;
    assert s[|a|] == c && s[|b|] == c;
    assert forall i | |a| < i < |s| :: s[i] == x[i - |a| - 1];
    assert forall i | |b| < i < |s| :: s[i] == y[i - |b| - 1];
    assert |a| == |b|;
    assert a == s[..|a|] && b == s[..|a|];
    assert x == s[|a| + 1..] && y == s[|a| + 1..];
  }

  lemma SuffixShowsClassifier(p: PackageRef)
    requires '?' !in p.version
    ensures '?' in p.version + p.ClassifierSuffix() <==> p.classifier != ""
  {
    if p.classifier != "" {
      assert (p.version + p.ClassifierSuffix())[|p.version|] == '?';
    }
  }

  lemma TailIsInjective(p: PackageRef, q: PackageRef)
    requires '?' !in p.version && '?' !in q.version
    requires p.version + p.ClassifierSuffix() == q.version + q.ClassifierSuffix()
    ensures p.version == q.version && p.classifier == q.classifier
  {
    SuffixShowsClassifier(p);
    SuffixShowsClassifier(q);
    if p.classifier == "" {
      assert p.version + p.ClassifierSuffix() == p.version;
      assert q.version + q.ClassifierSuffix() == q.version;
    } else {
      MarkedTail(p);
      MarkedTail(q);
      CutAtFirst('?', p.version, MARK + p.classifier, q.version, MARK + q.classifier);
      assert p.classifier == (MARK + p.classifier)[|MARK|..] && q.classifier == (MARK + q.classifier)[|MARK|..];
    }
  }

  const MARK := "classifier="

  lemma MarkedTail(p: PackageRef)
    requires p.classifier != ""
    ensures p.version + p.ClassifierSuffix() == p.version + ['?'] + (MARK + p.classifier)
  {
    assert p.ClassifierSuffix() == ['?'] + (MARK + p.classifier);
  }

  lemma NoAtInTail(p: PackageRef)
    requires p.Separable()
    ensures '@' !in KeyTail(p)
  {
    assert '@' !in "?classifier=";
  }

  /** What follows the '@' before the version. */
  function KeyTail(p: PackageRef): string { p.version + p.ClassifierSuffix() }

  lemma KeyPieces(p: PackageRef)
    ensures p.Key() == p.ecosystem + ['/'] + (p.name + ['@'] + KeyTail(p))
  {
    var v, c := p.version, p.ClassifierSuffix();
    assert p.ecosystem + "/" + p.name + "@" + v + c == p.ecosystem + ['/'] + (p.name + ['@'] + (v + c));
  }

  /** Two references whose parts keep clear of the separators never share a key. */
  lemma KeyIsInjective(p: PackageRef, q: PackageRef)
    requires p.Separable() && q.Separable()
    requires p.Key() == q.Key()
    ensures p == q
  {
    NoAtInTail(p);
    NoAtInTail(q);
    KeyPieces(p);
    KeyPieces(q);
    if KeyTail(p) == KeyTail(q) {
      TailIsInjective(p, q);
    }
    hide KeyTail;
    CutAtFirst('/', p.ecosystem, p.name + ['@'] + KeyTail(p), q.ecosystem, q.name + ['@'] + KeyTail(q));
    CutAtLast('@', p.name, KeyTail(p), q.name, KeyTail(q));
  }

  /** Each restriction of `Separable` is needed: a separator moved across its boundary leaves the key as it was. */
  lemma KeyCollides(e: string, f: string, n: string, v: string, w: string, c: string)
    requires c != ""
    ensures PackageRef(e + "/" + f, n, v, "").Key() == PackageRef(e, f + "/" + n, v, "").Key()
    ensures PackageRef(e, n, v + "@" + w, "").Key() == PackageRef(e, n + "@" + v, w, "").Key()
    ensures PackageRef(e, n, v + "?classifier=" + c, "").Key() == PackageRef(e, n, v, c).Key()
    ensures PackageRef(e, n, v, c + "@" + w).Key() == PackageRef(e, n + "@" + v + "?classifier=" + c, w, "").Key()
  {
    assert (e + "/" + f) + "/" + n == e + "/" + (f + "/" + n);
    assert e + "/" + n + "@" + (v + "@" + w) == e + "/" + (n + "@" + v) + "@" + w;
    assert e + "/" + n + "@" + (v + "?classifier=" + c) == e + "/" + n + "@" + v + ("?classifier=" + c);
    assert e + "/" + n + "@" + v + ("?classifier=" + (c + "@" + w))
      == e + "/" + (n + "@" + v + "?classifier=" + c) + "@" + w;
  }

  datatype Severity = Unknown | Low | Medium | High | Critical {
    function Rank(): nat {
      match this
      case Unknown => 0
      case Low => 1
      case Medium => 2
      case High => 3
      case Critical => 4
    }

    /** An unknown severity is never at least anything. */
    predicate AtLeast(threshold: Severity) {
      this != Unknown && this.Rank() >= threshold.Rank()
    }
  }

  /** The order of severities, level by level. */
  lemma SeveritiesReach(threshold: Severity)
    ensures !Unknown.AtLeast(threshold) && Critical.AtLeast(threshold)
    ensures High.AtLeast(threshold) <==> threshold != Critical
    ensures Medium.AtLeast(threshold) <==> threshold in {Unknown, Low, Medium}
    ensures Low.AtLeast(threshold) <==> threshold in {Unknown, Low}
  {
  }

  datatype Finding = Finding(id: string, severity: Severity)

  datatype Decision = Decision(allowed: bool, reason: string, findings: seq<Finding>)

  datatype FilterResult = FilterResult(allowed: bool, reason: string, publishedAt: int, blockUntil: int)

  /** An antivirus answer; `Failed` stands for an error return. */
  datatype AvAnswer = Failed | Scanned(clean: bool, incomplete: bool) {
    predicate Passes() { Scanned? && clean && !incomplete }
    predicate Detects() { Scanned? && !clean && !incomplete }
  }

  const DENYLISTED := "denylisted"
  const CVE_FOUND := "cve_found"
  const MALWARE_FOUND := "malware_found"
  const SCAN_INCOMPLETE := "scan_incomplete"
}
