/** Which versions of a packument the client is shown, and where their links point. */
module NpmFilter {
  import opened Domain
  import opened Text
  import opened Url
  import opened Npm

  /** One version object: not decodable, without a tarball link, or with one. `rest` is everything else in it. */
  datatype Manifest = Garbled | Unlinked(rest: string) | Linked(tarball: string, rest: string)

  /** The "time" member: absent, not an object, or raw entries and the dates that could be read from them. */
  datatype Times = NoTimes | Unreadable(raw: string) | Times(entries: map<string, string>, dates: map<string, int>)

  datatype Packument = Packument(versions: map<string, Manifest>, times: Times, rest: string)

  /** An absent publish date is passed on as such and mutes any rule on age. */
  type Decider = (string, Option<int>) -> bool

  datatype Filtered =
    | NoServableVersions
    | Shown(doc: Packument, removed: set<string>, unmappable: set<string>, allRejected: bool)

  function PublishDate(t: Times, v: string): Option<int> { if t.Times? && v in t.dates then Some(t.dates[v]) else None }

  /** The version object to serve; None when its link cannot be routed through the proxy. */
  function Rewrite(linkBase: string, name: string, version: string, m: Manifest): Option<Manifest> {
    match m
    case Garbled => None
    case Unlinked(_) => Some(m)
    case Linked(_, rest) =>
      var link := TarballUrl(linkBase, name, version);
      if link.None? then None else Some(Linked(link.value, rest))
  }

  function WithoutTimes(t: Times, gone: set<string>): Times { if t.Times? then t.(entries := t.entries - gone) else t }

  method FilterVersions(doc: Packument, name: string, decide: Decider, linkBase: string) returns (r: Filtered)
    ensures r == FilterSpec(doc, name, decide, linkBase)
  {
    var versions, unmappable := MapLinks(doc.versions, name, linkBase);
    if |doc.versions| > 0 && |versions| == 0 {
      return NoServableVersions;
    }
    hide Servable, Unroutable, WithoutTimes;
    var removed := Undecided(versions, doc.times, decide);
    SubsetOfSameSize(removed, versions.Keys);
    var allRejected := |removed| > 0 && |removed| == |versions|;
    if !allRejected {
      versions := versions - removed;
    }
    var times := WithoutTimes(doc.times, unmappable);
    if !allRejected {
      times := WithoutTimes(times, removed);
    }
    r := Shown(Packument(versions, times, doc.rest), removed, unmappable, allRejected);
  }

  /** Rewrites every version's link, taking out those whose link cannot be routed. */
  method MapLinks(all: map<string, Manifest>, name: string, linkBase: string)
      returns (versions: map<string, Manifest>, unmappable: set<string>)
    ensures versions == Servable(all, all.Keys, name, linkBase)
      && unmappable == Unroutable(all, all.Keys, name, linkBase)
  {
    versions, unmappable := all, {};
    ghost var done: set<string> := {};
    var left := all.Keys;
    while left != {}
      invariant left + done == all.Keys && left !! done
      invariant versions == Servable(all, done, name, linkBase) && unmappable == Unroutable(all, done, name, linkBase)
      decreases left
    {
      var v :| v in left;
      var rewritten := Rewrite(linkBase, name, v, all[v]);
      ServableStep(all, done, v, name, linkBase);
      left, done := left - {v}, done + {v};
      if rewritten.None? {
        unmappable, versions := unmappable + {v}, versions - {v};
      } else {
        versions := versions[v := rewritten.value];
      }
    }
    assert done == all.Keys;
  }

  /** The versions `decide` turns down. */
  method Undecided(versions: map<string, Manifest>, times: Times, decide: Decider) returns (removed: set<string>)
    ensures removed == set v | v in versions && !decide(v, PublishDate(times, v))
  {
    removed := {};
    var left := versions.Keys;
    while left != {}
      invariant left <= versions.Keys
      invariant removed == set v | v in versions.Keys - left && !decide(v, PublishDate(times, v))
      decreases left
    {
      var v :| v in left;
      left := left - {v};
      if !decide(v, PublishDate(times, v)) {
        removed := removed + {v};
      }
    }
  }

  lemma SubsetOfSameSize(a: set<string>, b: set<string>)
    requires a <= b
    ensures |a| == |b| <==> a == b
    ensures |a| > 0 <==> a != {}
  {
    if a != b {
      var x :| x in b && x !in a;
      SizeOfSubset(a, b - {x});
    }
  }

  lemma {:induction false} SizeOfSubset(a: set<string>, b: set<string>)
    requires a <= b
    ensures |a| <= |b|
  {
    if a != {} {
      var x :| x in a;
      SizeOfSubset(a - {x}, b - {x});
    }
  }

  // ---------------------------------------------------------------- what the result is

  /** The version map after the versions in `done` were rewritten or taken out. */
  function Servable(versions: map<string, Manifest>, done: set<string>, name: string, linkBase: string)
    : map<string, Manifest>
  {
    map v | v in versions && (v in done ==> Rewrite(linkBase, name, v, versions[v]).Some?) ::
      if v in done then Rewrite(linkBase, name, v, versions[v]).value else versions[v]
  }

  function Unroutable(versions: map<string, Manifest>, done: set<string>, name: string, linkBase: string): set<string> {
    set v | v in versions && v in done && Rewrite(linkBase, name, v, versions[v]).None?
  }

  lemma ServableStep(versions: map<string, Manifest>, done: set<string>, v: string, name: string, linkBase: string)
    requires v in versions && v !in done
    ensures var r := Rewrite(linkBase, name, v, versions[v]);
      && Servable(versions, done + {v}, name, linkBase)
        == (if r.None? then Servable(versions, done, name, linkBase) - {v}
            else Servable(versions, done, name, linkBase)[v := r.value])
      && Unroutable(versions, done + {v}, name, linkBase)
        == Unroutable(versions, done, name, linkBase) + (if r.None? then {v} else {})
  {
    hide Rewrite;
  }

  /** The client is shown the routable versions `decide` lets through, or all the routable ones when it lets through
      none; the links and dates of the others go with them. */
  function FilterSpec(doc: Packument, name: string, decide: Decider, linkBase: string): Filtered {
    var all := doc.versions.Keys;
    var routable := Servable(doc.versions, all, name, linkBase);
    var unmappable := Unroutable(doc.versions, all, name, linkBase);
    if all != {} && routable == map[] then NoServableVersions
    else
      var removed := set v | v in routable && !decide(v, PublishDate(doc.times, v));
      var allRejected := removed != {} && removed == routable.Keys;
      var hidden := if allRejected then {} else removed;
      Shown(Packument(routable - hidden, WithoutTimes(WithoutTimes(doc.times, unmappable), hidden), doc.rest),
            removed, unmappable, allRejected)
  }

  // ---------------------------------------------------------------- what it promises

  /** Shown, removed and unmappable versions together are the document's, and nothing else. Shown and removed ones are
      apart unless every routable one was turned down, and then they are the same. */
  lemma VersionsAreAccountedFor(doc: Packument, name: string, decide: Decider, linkBase: string)
    requires FilterSpec(doc, name, decide, linkBase).Shown?
    ensures var r := FilterSpec(doc, name, decide, linkBase);
      var shown := r.doc.versions.Keys;
      && shown + r.removed + r.unmappable == doc.versions.Keys
      && r.unmappable !! (shown + r.removed)
      && (if r.allRejected then shown == r.removed && shown != {} else shown !! r.removed)
      && (doc.versions != map[] ==> shown != {})
  {
    hide Rewrite, WithoutTimes;
    var all := doc.versions.Keys;
    var routable := Servable(doc.versions, all, name, linkBase);
    RoutableOrNot(doc.versions, name, linkBase);
    hide Servable, Unroutable;
    var r := FilterSpec(doc, name, decide, linkBase);
    assert r.removed <= routable.Keys;
    assert r.doc.versions.Keys == routable.Keys - (if r.allRejected then {} else r.removed);
    assert doc.versions != map[] ==> all != {};
  }

  lemma RoutableOrNot(versions: map<string, Manifest>, name: string, linkBase: string)
    ensures var a := Servable(versions, versions.Keys, name, linkBase).Keys;
      var b := Unroutable(versions, versions.Keys, name, linkBase);
      a + b == versions.Keys && a !! b
  {
    hide Rewrite;
  }

  /** Nothing is shown that was turned down, unless everything routable was; and a version `decide` lets through is
      hidden only because its link cannot be routed. */
  lemma ShownIffAllowed(doc: Packument, name: string, decide: Decider, linkBase: string, v: string)
    requires FilterSpec(doc, name, decide, linkBase).Shown? && v in doc.versions
    ensures var r := FilterSpec(doc, name, decide, linkBase);
      v in r.doc.versions <==>
        (Rewrite(linkBase, name, v, doc.versions[v]).Some? && (r.allRejected || decide(v, PublishDate(doc.times, v))))
    ensures var r := FilterSpec(doc, name, decide, linkBase);
      r.allRejected ==> !decide(v, PublishDate(doc.times, v)) || Rewrite(linkBase, name, v, doc.versions[v]).None?
  {
    hide Rewrite, WithoutTimes;
    var routable := Servable(doc.versions, doc.versions.Keys, name, linkBase);
    assert v in routable <==> Rewrite(linkBase, name, v, doc.versions[v]).Some?;
    var r := FilterSpec(doc, name, decide, linkBase);
    assert v in r.removed <==> v in routable && !decide(v, PublishDate(doc.times, v));
  }

  /** What is shown of a version differs from the document in its link only: a version without a link is routable as it
      is, one with a link when its version number is made of the characters of one. Everything else of the document
      stays. */
  lemma OnlyLinksChange(doc: Packument, name: string, decide: Decider, linkBase: string, v: string)
    requires FilterSpec(doc, name, decide, linkBase).Shown? && v in doc.versions
    ensures var r, m := FilterSpec(doc, name, decide, linkBase), doc.versions[v];
      && (v in r.unmappable <==> m.Garbled? || (m.Linked? && !ValidVersion(v)))
      && (v in r.doc.versions ==>
            var shown := r.doc.versions[v];
            if m.Unlinked? then shown == m else shown.Linked? && m.Linked? && shown.rest == m.rest)
      && r.doc.rest == doc.rest
      && (doc.times.Times? ==> r.doc.times.Times? && r.doc.times.dates == doc.times.dates)
  {
    LinkExistsIff(linkBase, name, v);
    var routable := Servable(doc.versions, doc.versions.Keys, name, linkBase);
    assert v in routable <==> Rewrite(linkBase, name, v, doc.versions[v]).Some?;
    assert v in FilterSpec(doc, name, decide, linkBase).doc.versions ==> v in routable;
    hide TarballUrl, ValidVersion;
  }

  /** Every shown link is the version's tarball path below the address asked for; followed, it asks this registry for
      exactly that version, as long as the name is linkable and not otherwise. */
  lemma ShownLinksLeadBack(doc: Packument, s: string, decide: Decider, origin: string, prefix: string, v: string)
    requires SplitMetadataPath(s).Some? && '/' !in prefix && Literal(prefix) && !IsDots(prefix)
    requires FilterSpec(doc, SplitMetadataPath(s).value.0, decide, origin + "/" + prefix).Shown?
    requires var r := FilterSpec(doc, SplitMetadataPath(s).value.0, decide, origin + "/" + prefix);
      v in r.doc.versions && r.doc.versions[v].Linked?
    ensures var name := SplitMetadataPath(s).value.0;
      var link := FilterSpec(doc, name, decide, origin + "/" + prefix).doc.versions[v].tarball;
      && origin <= link
      && (Followed(link[|origin|..]) == Some((prefix, Some(PackageRef("npm", name, v, "")))) <==> Linkable(name))
  {
    var name := SplitMetadataPath(s).value.0;
    var linkBase := origin + "/" + prefix;
    ShownLink(doc, name, decide, linkBase, v);
    LinkExistsIff(linkBase, name, v);
    hide FilterSpec;
    LinkLeadsBackIff(origin, prefix, s, v);
    hide *;
    var path := "/" + prefix + TarballPath(name, v);
    assert (origin + path)[|origin|..] == path;
  }

  lemma ShownLink(doc: Packument, name: string, decide: Decider, linkBase: string, v: string)
    requires var r := FilterSpec(doc, name, decide, linkBase);
      r.Shown? && v in r.doc.versions && r.doc.versions[v].Linked?
    ensures TarballUrl(linkBase, name, v) == Some(FilterSpec(doc, name, decide, linkBase).doc.versions[v].tarball)
  {
    hide WithoutTimes, TarballUrl;
    var routable := Servable(doc.versions, doc.versions.Keys, name, linkBase);
    assert v in routable && FilterSpec(doc, name, decide, linkBase).doc.versions[v] == routable[v];
  }

  /** A version's date is listed exactly as long as the version could be: hidden versions leave no dates. */
  lemma HiddenVersionsLeaveNoDates(doc: Packument, name: string, decide: Decider, linkBase: string, v: string)
    requires FilterSpec(doc, name, decide, linkBase).Shown? && doc.times.Times?
    ensures var r := FilterSpec(doc, name, decide, linkBase);
      r.doc.times.Times? && (v in r.doc.times.entries <==>
        (v in doc.times.entries && (v in doc.versions ==> v in r.doc.versions)))
  {
    hide Rewrite;
    VersionsAreAccountedFor(doc, name, decide, linkBase);
    hide Servable, Unroutable;
  }
}
