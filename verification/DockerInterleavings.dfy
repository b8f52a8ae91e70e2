/** Any number of Docker requests on one store of index rows and files. The single operations of their accesses are
    interleaved in any way, each may fail, rows and files are removed in between, and requests join the flights of
    others: nothing is assumed of what happens beside a request, nor that the content under a digest stays the same. */
module DockerInterleavings {
  import opened Domain
  import Policy
  import opened DockerGate
  import opened DockerGateLaws
  import opened DockerSteps
  import opened DockerTables

  // ---------------------------------------------------------------- what the two tables are evidence of

  /** Some request of the run had the grounds for this index row. */
  ghost predicate MetaSound(cfg: Config, h: iset<World>, key: PackageRef, meta: Meta) {
    key.ecosystem == "docker" ==>
      if key.name == "blobs" then
        if meta.clean then BlobPassed(cfg, h, key.version) else BlobCondemned(cfg, h, key.version)
      else exists w: World :: Decided(cfg, h, w, key.name, key.version, meta.clean, meta.reason)
  }

  /** What a scan of this blob in `w` writes. */
  predicate BlobWritten(cfg: Config, w: World, i: nat, digest: string, content: Content) {
    && w.fetched.Fetched? && i < |BlobsOf(w)| && BlobsOf(w)[i] == digest
    && Writable(cfg, w, i) && BlobContent(cfg, w, i) == content
  }

  /** Some request of the run was given this content under this digest. */
  ghost predicate FileSound(cfg: Config, h: iset<World>, key: PackageRef, content: Content) {
    key.ecosystem == "docker" ==>
      if key.name == "blobs" then exists w: World, i: nat :: w in h && BlobWritten(cfg, w, i, key.version, content)
      else FetchedUnder(h, key.name, key.version, content)
  }

  ghost predicate TablesSound(cfg: Config, h: iset<World>, t: Tables) {
    && (forall key | key in t.index :: MetaSound(cfg, h, key, t.index[key]))
    && (forall key | key in t.files :: FileSound(cfg, h, key, t.files[key]))
  }

  // ---------------------------------------------------------------- what a request knows

  ghost predicate StaleBacked(cfg: Config, h: iset<World>, w: World, stale: Option<Verdict>) {
    w.fetched.Fetched? && stale.Some? ==> Backed(cfg, h, w.repo, w.fetched.digest, stale.value)
  }

  /** The request has come to the scan, and its blobs before `i` have been found clean in this run. */
  ghost predicate ScannedUpTo(cfg: Config, h: iset<World>, w: World, i: nat) {
    && w.fetched.Fetched? && w.fetched.content.Doc? && ReachedScan(cfg, w) && cfg.avEnabled && i <= |BlobsOf(w)|
    && forall j | 0 <= j < i :: BlobPassed(cfg, h, BlobsOf(w)[j])
  }

  ghost predicate OutcomeKnown(cfg: Config, h: iset<World>, outcome: LayerOutcome, digest: string) {
    && (outcome.LayerClean? ==> BlobPassed(cfg, h, digest))
    && (outcome.LayerInfected? ==> BlobCondemned(cfg, h, digest))
  }

  ghost predicate BlockKnown(cfg: Config, h: iset<World>, w: World, v: Verdict) {
    && !v.allowed && v.blockedBy == BlockedByForReason(v.reason) && v.body.None?
    && Grounds(cfg, h, w, false, v.reason)
  }

  /** What is true whenever a request stands at this access, whatever has become of the store meanwhile. */
  ghost predicate Known(cfg: Config, h: iset<World>, w: World, l: Local)
    requires Meant(w, l)
  {
    match l
    case AtFast => true
    case AtFastBody(row) => MetaSound(cfg, h, ImageKey(w.repo, w.ref), MetaOf(row))
    case AtSlow => true
    case AtSlowBody(row) => MetaSound(cfg, h, ImageKey(w.repo, w.fetched.digest), MetaOf(row))
    case AtPass(reason) => IsPassthroughReason(reason) && Grounds(cfg, h, w, true, reason)
    case AtPassBody(reason) => Grounds(cfg, h, w, true, reason)
    case AtJoin(stale) => StaleBacked(cfg, h, w, stale)
    case AtLayerGet(i, stale) => StaleBacked(cfg, h, w, stale) && ScannedUpTo(cfg, h, w, i)
    case AtLayerPut(i, row, outcome, _, stale) =>
      && StaleBacked(cfg, h, w, stale) && ScannedUpTo(cfg, h, w, i)
      && MetaSound(cfg, h, BlobKey(BlobsOf(w)[i]), MetaOf(row))
      && Writable(cfg, w, i) && row.content == BlobContent(cfg, w, i)
      && OutcomeKnown(cfg, h, outcome, BlobsOf(w)[i])
    case AtAllow(stale) => StaleBacked(cfg, h, w, stale) && Passed(cfg, h, w)
    case AtAllowBody => Passed(cfg, h, w)
    case AtBlock(v, _) => BlockKnown(cfg, h, w, v)
    case AtEvict(_, v) => BlockKnown(cfg, h, w, v)
    case Finished(answer) => AnswerBacked(cfg, h, w.repo, answer)
  }

  lemma GroundsBack(cfg: Config, h: iset<World>, w: World, v: Verdict)
    requires w in h && w.fetched.Fetched? && Grounds(cfg, h, w, v.allowed, v.reason)
    requires v.blockedBy == if v.allowed then "" else BlockedByForReason(v.reason)
    requires v.body.Some? ==> FetchedUnder(h, w.repo, w.fetched.digest, v.body.value)
    ensures Backed(cfg, h, w.repo, w.fetched.digest, v)
  {
    assert Decided(cfg, h, w, w.repo, w.fetched.digest, v.allowed, v.reason);
  }

  lemma AfterFastKnown(cfg: Config, h: iset<World>, w: World, found: Lookup)
    requires LookupBacked(cfg, h, w.repo, w.ref, found)
    ensures Known(cfg, h, w, AfterFast(w, found))
  {
    hide Backed;
  }

  lemma EvictFromKnown(cfg: Config, h: iset<World>, w: World, k: nat, v: Verdict)
    requires w in h && w.fetched.Fetched? && k <= |BlobsOf(w)| && BlockKnown(cfg, h, w, v)
    ensures Known(cfg, h, w, EvictFrom(w, k, v))
    decreases |BlobsOf(w)| - k
  {
    GroundsBack(cfg, h, w, v);
    if k < |BlobsOf(w)| && BlobsOf(w)[k] == "" {
      EvictFromKnown(cfg, h, w, k + 1, v);
    }
    hide BlockKnown, Backed;
  }

  lemma ScanFromKnown(cfg: Config, h: iset<World>, w: World, i: nat, stale: Option<Verdict>)
    requires StaleBacked(cfg, h, w, stale) && ScannedUpTo(cfg, h, w, i)
    ensures Known(cfg, h, w, ScanFrom(w, i, stale))
  {
    if i == |BlobsOf(w)| {
      assert Passed(cfg, h, w) by {
        forall d | d in Blobs(w.fetched.content)
          ensures BlobPassed(cfg, h, d)
        {
          var j :| 0 <= j < |BlobsOf(w)| && BlobsOf(w)[j] == d;
        }
      }
    }
    hide StaleBacked, Passed;
  }

  lemma AfterLayerKnown(cfg: Config, h: iset<World>, w: World, i: nat, outcome: LayerOutcome, stale: Option<Verdict>)
    requires InRun(cfg, h, w) && StaleBacked(cfg, h, w, stale) && ScannedUpTo(cfg, h, w, i) && i < |BlobsOf(w)|
    requires OutcomeKnown(cfg, h, outcome, BlobsOf(w)[i])
    ensures Known(cfg, h, w, AfterLayer(w, i, outcome, stale))
  {
    assert w.fetched.Fetched? && w.created.Some?;
    hide *;
    AfterLayerIs(w, i, outcome, stale);
    OutcomeMeans(cfg, h, outcome, BlobsOf(w)[i]);
    if outcome.LayerClean? {
      OneMoreScanned(cfg, h, w, i);
      ScanFromKnown(cfg, h, w, i + 1, stale);
    } else if outcome.LayerInfected? {
      InfectedKnown(cfg, h, w, i, stale);
    } else if outcome.LayerError? {
      ConcludedKnown(cfg, h, w, stale);
    } else {
      IncompleteKnown(cfg, h, w);
    }
  }

  lemma AfterLayerIs(w: World, i: nat, outcome: LayerOutcome, stale: Option<Verdict>)
    requires w.fetched.Fetched? && w.created.Some? && i < |BlobsOf(w)|
    ensures AfterLayer(w, i, outcome, stale) ==
      if outcome.LayerClean? then ScanFrom(w, i + 1, stale)
      else if outcome.LayerError? then Finished(Concluded(w, stale, Broken))
      else if outcome.LayerIncomplete? then
        Finished(Served(w.fetched.digest, Blocked(SCAN_INCOMPLETE, SCAN_INCOMPLETE, [])))
      else AtBlock(Blocked(MALWARE_FOUND, "malware", []), stale)
  {
    hide ScanFrom, Concluded;
  }

  lemma OutcomeMeans(cfg: Config, h: iset<World>, outcome: LayerOutcome, digest: string)
    requires OutcomeKnown(cfg, h, outcome, digest)
    ensures outcome.LayerClean? ==> BlobPassed(cfg, h, digest)
    ensures outcome.LayerInfected? ==> BlobCondemned(cfg, h, digest)
  {
  }

  lemma IncompleteKnown(cfg: Config, h: iset<World>, w: World)
    requires w.fetched.Fetched?
    ensures Known(cfg, h, w, Finished(Served(w.fetched.digest, Blocked(SCAN_INCOMPLETE, SCAN_INCOMPLETE, []))))
  {
    IncompleteIsBacked(cfg, h, w.repo, w.fetched.digest);
    hide Backed;
  }

  lemma IncompleteIsBacked(cfg: Config, h: iset<World>, repo: string, digest: string)
    ensures Backed(cfg, h, repo, digest, Blocked(SCAN_INCOMPLETE, SCAN_INCOMPLETE, []))
  {
    hide Decided;
  }

  lemma OneMoreScanned(cfg: Config, h: iset<World>, w: World, i: nat)
    requires ScannedUpTo(cfg, h, w, i) && i < |BlobsOf(w)| && BlobPassed(cfg, h, BlobsOf(w)[i])
    ensures ScannedUpTo(cfg, h, w, i + 1)
  {
    hide BlobPassed, ReachedScan, Blobs;
  }

  lemma InfectedKnown(cfg: Config, h: iset<World>, w: World, i: nat, stale: Option<Verdict>)
    requires ScannedUpTo(cfg, h, w, i) && i < |BlobsOf(w)| && BlobCondemned(cfg, h, BlobsOf(w)[i])
    ensures Known(cfg, h, w, AtBlock(Blocked(MALWARE_FOUND, "malware", []), stale))
  {
    hide BlobCondemned, ReachedScan, BlobPassed, Blobs;
    assert BlobsOf(w)[i] in Blobs(w.fetched.content);
    assert MalwareFound(cfg, h, w);
  }

  lemma ScannedKnown(cfg: Config, h: iset<World>, w: World, i: nat, stale: Option<Verdict>)
    requires InRun(cfg, h, w) && StaleBacked(cfg, h, w, stale) && ScannedUpTo(cfg, h, w, i) && i < |BlobsOf(w)|
    ensures Known(cfg, h, w, ScanOf(cfg, w, i, stale))
  {
    assert w in h && w.fetched.Fetched? && w.created.Some?;
    hide *;
    ErrorIsKnown(cfg, h, BlobsOf(w)[i]);
    AfterLayerKnown(cfg, h, w, i, LayerError, stale);
    AfterLayerKnown(cfg, h, w, i, LayerIncomplete, stale);
    ScanOfIs(cfg, w, i, stale);
    if Oversized(cfg, w, i) {
      OversizedRow(cfg, h, w, i);
      PutKnown(cfg, h, w, i, NewRow(w, LayerPut(i), Bytes(""), false, ""), LayerInfected, false, stale);
    } else if Judged(w, i) {
      ScannedRow(cfg, h, w, i);
      PutKnown(cfg, h, w, i, NewRow(w, LayerPut(i), Bytes(w.blob(i).bytes), w.av(i).clean, ""),
               if w.av(i).clean then LayerClean else LayerInfected, true, stale);
    }
  }

  lemma ScanOfIs(cfg: Config, w: World, i: nat, stale: Option<Verdict>)
    requires w.fetched.Fetched? && w.created.Some? && i < |BlobsOf(w)|
    ensures var l := ScanOf(cfg, w, i, stale);
      || l == AfterLayer(w, i, LayerError, stale)
      || l == AfterLayer(w, i, LayerIncomplete, stale)
      || (Oversized(cfg, w, i)
          && l == AtLayerPut(i, NewRow(w, LayerPut(i), Bytes(""), false, ""), LayerInfected, false, stale))
      || (!Oversized(cfg, w, i) && Judged(w, i)
          && l == AtLayerPut(i, NewRow(w, LayerPut(i), Bytes(w.blob(i).bytes), w.av(i).clean, ""),
                             if w.av(i).clean then LayerClean else LayerInfected, true, stale))
  {
    hide AfterLayer, NewRow, Blobs;
  }

  lemma PutKnown(cfg: Config, h: iset<World>, w: World, i: nat, row: Row, outcome: LayerOutcome, mustStore: bool,
                 stale: Option<Verdict>)
    requires StaleBacked(cfg, h, w, stale) && ScannedUpTo(cfg, h, w, i) && i < |BlobsOf(w)| && w.created.Some?
    requires MetaSound(cfg, h, BlobKey(BlobsOf(w)[i]), MetaOf(row))
    requires Writable(cfg, w, i) && row.content == BlobContent(cfg, w, i)
    requires OutcomeKnown(cfg, h, outcome, BlobsOf(w)[i])
    ensures Known(cfg, h, w, AtLayerPut(i, row, outcome, mustStore, stale))
  {
    hide StaleBacked, MetaSound, OutcomeKnown, BlobContent, Blobs;
  }

  lemma OversizedRow(cfg: Config, h: iset<World>, w: World, i: nat)
    requires w in h && w.fetched.Fetched? && i < |BlobsOf(w)| && Oversized(cfg, w, i)
    ensures var row := NewRow(w, LayerPut(i), Bytes(""), false, "");
      MetaSound(cfg, h, BlobKey(BlobsOf(w)[i]), MetaOf(row)) && Writable(cfg, w, i)
        && row.content == BlobContent(cfg, w, i)
    ensures OutcomeKnown(cfg, h, LayerInfected, BlobsOf(w)[i])
  {
    assert Condemned(cfg, w, i, BlobsOf(w)[i]);
    hide Blobs, Condemned;
  }

  lemma ScannedRow(cfg: Config, h: iset<World>, w: World, i: nat)
    requires w in h && w.fetched.Fetched? && i < |BlobsOf(w)| && !Oversized(cfg, w, i)
    requires Judged(w, i)
    ensures var row := NewRow(w, LayerPut(i), Bytes(w.blob(i).bytes), w.av(i).clean, "");
      MetaSound(cfg, h, BlobKey(BlobsOf(w)[i]), MetaOf(row)) && Writable(cfg, w, i)
        && row.content == BlobContent(cfg, w, i)
    ensures OutcomeKnown(cfg, h, if w.av(i).clean then LayerClean else LayerInfected, BlobsOf(w)[i])
  {
    assert FetchedWhole(cfg, w, i, BlobsOf(w)[i]);
    assert w.av(i).clean ==> ScannedClean(cfg, w, i, BlobsOf(w)[i]);
    assert !w.av(i).clean ==> Condemned(cfg, w, i, BlobsOf(w)[i]);
    hide Blobs, Condemned, ScannedClean, FetchedWhole;
  }

  lemma PipelineFromKnown(cfg: Config, h: iset<World>, w: World, stale: Option<Verdict>)
    requires InRun(cfg, h, w) && StaleBacked(cfg, h, w, stale) && w.fetched.Fetched?
    ensures Known(cfg, h, w, PipelineFrom(cfg, w, stale))
  {
    if w.fetched.content.Bytes? || w.created.None? || !w.filter.allowed || w.trivy.None? {
      StoppedKnown(cfg, h, w, stale);
    } else if ReachedScan(cfg, w) {
      ReachedKnown(cfg, h, w, stale);
    } else {
      RefusedKnown(cfg, h, w, stale);
    }
    hide Known, PipelineFrom, StaleBacked;
  }

  lemma StoppedKnown(cfg: Config, h: iset<World>, w: World, stale: Option<Verdict>)
    requires StaleBacked(cfg, h, w, stale) && w.fetched.Fetched?
    requires w.fetched.content.Bytes? || w.created.None? || !w.filter.allowed || w.trivy.None?
    ensures Known(cfg, h, w, PipelineFrom(cfg, w, stale))
  {
    ConcludedKnown(cfg, h, w, stale);
    hide StaleBacked, Decided, Concluded;
  }

  lemma ReachedKnown(cfg: Config, h: iset<World>, w: World, stale: Option<Verdict>)
    requires StaleBacked(cfg, h, w, stale) && w.fetched.Fetched? && w.fetched.content.Doc? && ReachedScan(cfg, w)
    ensures Known(cfg, h, w, PipelineFrom(cfg, w, stale))
  {
    assert PipelineFrom(cfg, w, stale) == if cfg.avEnabled then ScanFrom(w, 0, stale) else AtAllow(stale) by {
      hide ScanFrom, Policy.Decide;
    }
    hide PipelineFrom, ScanFrom, StaleBacked, ReachedScan;
    if cfg.avEnabled {
      assert ScannedUpTo(cfg, h, w, 0);
      ScanFromKnown(cfg, h, w, 0, stale);
    } else {
      assert Passed(cfg, h, w);
    }
  }

  lemma RefusedKnown(cfg: Config, h: iset<World>, w: World, stale: Option<Verdict>)
    requires w.fetched.Fetched? && w.fetched.content.Doc? && w.created.Some? && w.filter.allowed && w.trivy.Some?
    requires !ReachedScan(cfg, w)
    ensures Known(cfg, h, w, PipelineFrom(cfg, w, stale))
  {
    hide ScanFrom, MalwareFound, Passed;
    RefusalNamesItsList(cfg, w);
    hide Policy.Decide;
  }

  lemma RefusalNamesItsList(cfg: Config, w: World)
    requires w.trivy.Some? && cfg.policy.Some?
    ensures var d := Policy.Decide(cfg.policy.value, ImageKey(w.repo, w.ref), w.trivy.value);
      d.allowed || d.reason == DENYLISTED || d.reason == CVE_FOUND
  {
  }

  lemma AfterSlowKnown(cfg: Config, h: iset<World>, w: World, found: Lookup)
    requires InRun(cfg, h, w) && w.fetched.Fetched? && LookupBacked(cfg, h, w.repo, w.fetched.digest, found)
    ensures Known(cfg, h, w, AfterSlow(cfg, w, found))
  {
    if found.Continue? {
      PipelineFromKnown(cfg, h, w, found.stale);
    }
    hide Backed, PipelineFrom;
  }

  lemma MetaBacksVerdict(cfg: Config, h: iset<World>, repo: string, digest: string, row: Row)
    requires repo != "blobs" && MetaSound(cfg, h, ImageKey(repo, digest), MetaOf(row))
    ensures !IsStaleSupplyBlock(row) && Recorded(FromRow(row))
    ensures Backed(cfg, h, repo, digest, FromRow(row))
  {
    var w: World :| Decided(cfg, h, w, repo, digest, row.clean, row.reason);
  }

  lemma FastLookupBacked(cfg: Config, h: iset<World>, w: World, row: Row, body: Option<Content>)
    requires w.repo != "blobs" && MetaSound(cfg, h, ImageKey(w.repo, w.ref), MetaOf(row))
    requires body.Some? ==> FetchedUnder(h, w.repo, w.ref, body.value)
    ensures LookupBacked(cfg, h, w.repo, w.ref, FastLookup(cfg, w, row, body))
  {
    MetaBacksVerdict(cfg, h, w.repo, w.ref, row);
    hide MetaSound, Decided, BlockedByForReason, MediaType, Fresh, FetchedUnder;
  }

  lemma SlowLookupBacked(cfg: Config, h: iset<World>, w: World, row: Row, body: Option<Content>)
    requires w.repo != "blobs" && w.fetched.Fetched?
      && MetaSound(cfg, h, ImageKey(w.repo, w.fetched.digest), MetaOf(row))
    requires body.Some? ==> FetchedUnder(h, w.repo, w.fetched.digest, body.value)
    ensures LookupBacked(cfg, h, w.repo, w.fetched.digest, SlowLookup(cfg, w, row, body))
  {
    MetaBacksVerdict(cfg, h, w.repo, w.fetched.digest, row);
    hide MetaSound, Decided, BlockedByForReason, Fresh, FetchedUnder;
  }

  // ---------------------------------------------------------------- what comes of an access

  ghost predicate FoundSound(cfg: Config, h: iset<World>, key: PackageRef, found: Option<Row>) {
    found.Some? ==> MetaSound(cfg, h, key, MetaOf(found.value)) && FileSound(cfg, h, key, found.value.content)
  }

  lemma BodyIsFetched(cfg: Config, h: iset<World>, repo: string, digest: string, found: Option<Row>)
    requires repo != "blobs" && FoundSound(cfg, h, ImageKey(repo, digest), found) && found.Some?
    ensures FetchedUnder(h, repo, digest, ContentOf(found).value)
  {
    hide FetchedUnder, MetaSound;
  }

  lemma ReadKnown(cfg: Config, h: iset<World>, w: World, l: Local, found: Option<Row>)
    requires InRun(cfg, h, w) && Meant(w, l) && Reads(l) && Known(cfg, h, w, l)
    requires FoundSound(cfg, h, KeyOf(w, l), found)
    ensures Known(cfg, h, w, AfterRead(cfg, w, l, found))
  {
    if l.AtFast? {
      FastReadKnown(cfg, h, w, found);
    } else if l.AtSlow? {
      SlowReadKnown(cfg, h, w, l, found);
    } else if l.AtLayerGet? {
      LayerReadKnown(cfg, h, w, l, found);
    } else if l.AtFastBody? {
      FastBodyKnown(cfg, h, w, l, found);
    } else if l.AtSlowBody? {
      SlowBodyKnown(cfg, h, w, l, found);
    } else {
      BodyKnown(cfg, h, w, l, found);
    }
    hide *;
  }

  lemma FastReadKnown(cfg: Config, h: iset<World>, w: World, found: Option<Row>)
    requires InRun(cfg, h, w) && FoundSound(cfg, h, KeyOf(w, AtFast), found)
    ensures Known(cfg, h, w, AfterRead(cfg, w, AtFast, found))
  {
    AfterFastKnown(cfg, h, w, Continue(None));
    if found.Some? {
      FastLookupBacked(cfg, h, w, found.value, None);
      AfterFastKnown(cfg, h, w, FastLookup(cfg, w, found.value, None));
    }
    hide AfterFast, FastLookup, MetaSound, LookupBacked, FileSound, InRun;
  }

  lemma SlowReadKnown(cfg: Config, h: iset<World>, w: World, l: Local, found: Option<Row>)
    requires InRun(cfg, h, w) && l.AtSlow? && Meant(w, l) && FoundSound(cfg, h, KeyOf(w, l), found)
    ensures Known(cfg, h, w, AfterRead(cfg, w, l, found))
  {
    AfterSlowKnown(cfg, h, w, Continue(None));
    if found.Some? {
      SlowLookupBacked(cfg, h, w, found.value, None);
      AfterSlowKnown(cfg, h, w, SlowLookup(cfg, w, found.value, None));
    }
    hide AfterSlow, SlowLookup, MetaSound, LookupBacked, FileSound, InRun;
  }

  lemma FastBodyKnown(cfg: Config, h: iset<World>, w: World, l: Local, found: Option<Row>)
    requires InRun(cfg, h, w) && l.AtFastBody? && Known(cfg, h, w, l) && FoundSound(cfg, h, KeyOf(w, l), found)
    ensures Known(cfg, h, w, AfterRead(cfg, w, l, found))
  {
    if found.Some? {
      BodyIsFetched(cfg, h, w.repo, w.ref, found);
    }
    FastLookupBacked(cfg, h, w, l.row, ContentOf(found));
    AfterFastKnown(cfg, h, w, FastLookup(cfg, w, l.row, ContentOf(found)));
    assert AfterRead(cfg, w, l, found) == AfterFast(w, FastLookup(cfg, w, l.row, ContentOf(found))) by {
      hide AfterFast, FastLookup;
    }
    hide *;
  }

  lemma SlowBodyKnown(cfg: Config, h: iset<World>, w: World, l: Local, found: Option<Row>)
    requires InRun(cfg, h, w) && l.AtSlowBody? && Meant(w, l) && Known(cfg, h, w, l)
    requires FoundSound(cfg, h, KeyOf(w, l), found)
    ensures Known(cfg, h, w, AfterRead(cfg, w, l, found))
  {
    if found.Some? {
      BodyIsFetched(cfg, h, w.repo, w.fetched.digest, found);
    }
    SlowLookupBacked(cfg, h, w, l.row, ContentOf(found));
    AfterSlowKnown(cfg, h, w, SlowLookup(cfg, w, l.row, ContentOf(found)));
    assert AfterRead(cfg, w, l, found) == AfterSlow(cfg, w, SlowLookup(cfg, w, l.row, ContentOf(found))) by {
      hide AfterSlow, SlowLookup;
    }
    hide *;
  }

  lemma LayerReadKnown(cfg: Config, h: iset<World>, w: World, l: Local, found: Option<Row>)
    requires InRun(cfg, h, w) && l.AtLayerGet? && Meant(w, l) && Known(cfg, h, w, l)
    requires FoundSound(cfg, h, KeyOf(w, l), found)
    ensures Known(cfg, h, w, AfterRead(cfg, w, l, found))
  {
    if found.Some? {
      var outcome := if found.value.clean then LayerClean else LayerInfected;
      assert OutcomeKnown(cfg, h, outcome, BlobsOf(w)[l.i]);
      AfterLayerKnown(cfg, h, w, l.i, outcome, l.stale);
    } else {
      ScannedKnown(cfg, h, w, l.i, l.stale);
    }
    hide AfterLayer, ScanOf, StaleBacked, ScannedUpTo, InRun, FileSound;
  }

  lemma BodyKnown(cfg: Config, h: iset<World>, w: World, l: Local, found: Option<Row>)
    requires InRun(cfg, h, w) && (l.AtPassBody? || l.AtAllowBody?) && Meant(w, l) && Known(cfg, h, w, l)
    requires FoundSound(cfg, h, KeyOf(w, l), found)
    ensures Known(cfg, h, w, AfterRead(cfg, w, l, found))
  {
    if found.Some? {
      BodyIsFetched(cfg, h, w.repo, w.fetched.digest, found);
    }
    assert found.None? ==> ContentOf(found).None?;
    BodyGrounds(cfg, h, w, l);
    AllowedKnown(cfg, h, w, ContentOf(found), if l.AtPassBody? then l.reason else "ok",
                 if l.AtPassBody? then 0 else w.created.value, l.AtPassBody?);
    hide Known, Grounds, FetchedUnder, FoundSound, Allowed, ContentOf;
  }

  lemma AllowedKnown(cfg: Config, h: iset<World>, w: World, body: Option<Content>, reason: string, publishedAt: int,
                     passthrough: bool)
    requires w in h && w.fetched.Fetched? && Grounds(cfg, h, w, true, reason)
    requires body.Some? ==> FetchedUnder(h, w.repo, w.fetched.digest, body.value)
    ensures Known(cfg, h, w, Finished(Allowed(w, body, reason, publishedAt, passthrough)))
  {
    GroundsBack(cfg, h, w, Allowed(w, body, reason, publishedAt, passthrough).verdict);
    hide Grounds, Backed, FetchedUnder;
  }

  lemma BodyGrounds(cfg: Config, h: iset<World>, w: World, l: Local)
    requires (l.AtPassBody? || l.AtAllowBody?) && Meant(w, l) && Known(cfg, h, w, l)
    ensures Grounds(cfg, h, w, true, if l.AtPassBody? then l.reason else "ok")
  {
    hide Passed;
  }

  lemma WriteKnown(cfg: Config, h: iset<World>, w: World, l: Local, stored: bool)
    requires InRun(cfg, h, w) && Meant(w, l) && Writes(l) && Known(cfg, h, w, l)
    ensures Known(cfg, h, w, AfterWrite(w, l, stored))
  {
    hide StaleBacked, ScannedUpTo, Passed, Grounds, Backed, MetaSound, OutcomeKnown, BlobContent;
    match l
    case AtLayerPut(i, _, outcome, mustStore, stale) =>
      hide AfterLayer;
      ErrorIsKnown(cfg, h, BlobsOf(w)[i]);
      AfterLayerKnown(cfg, h, w, i, LayerError, stale);
      AfterLayerKnown(cfg, h, w, i, outcome, stale);
    case AtAllow(stale) =>
      hide Concluded;
      ConcludedKnown(cfg, h, w, stale);
    case AtBlock(v, _) =>
      BlockIsBacked(cfg, h, w, v);
      EvictFromKnown(cfg, h, w, 0, v);
      hide EvictFrom, BlockKnown;
    case AtPass(_) =>
  }

  lemma ErrorIsKnown(cfg: Config, h: iset<World>, digest: string)
    ensures OutcomeKnown(cfg, h, LayerError, digest) && OutcomeKnown(cfg, h, LayerIncomplete, digest)
  {
  }

  lemma BlockIsBacked(cfg: Config, h: iset<World>, w: World, v: Verdict)
    requires w in h && w.fetched.Fetched? && BlockKnown(cfg, h, w, v)
    ensures Backed(cfg, h, w.repo, w.fetched.digest, v)
  {
    GroundsBack(cfg, h, w, v);
    hide Backed, Grounds;
  }

  lemma ConcludedKnown(cfg: Config, h: iset<World>, w: World, stale: Option<Verdict>)
    requires w.fetched.Fetched? && StaleBacked(cfg, h, w, stale)
    ensures Known(cfg, h, w, Finished(Concluded(w, stale, Broken)))
  {
    hide Backed;
  }

  /** What a request writes, it knows. */
  lemma WrittenIsSound(cfg: Config, h: iset<World>, w: World, l: Local)
    requires InRun(cfg, h, w) && Meant(w, l) && Writes(l) && Known(cfg, h, w, l)
    ensures var row := Written(w, l);
      MetaSound(cfg, h, KeyOf(w, l), MetaOf(row)) && FileSound(cfg, h, KeyOf(w, l), row.content)
  {
    if l.AtLayerPut? {
      assert BlobWritten(cfg, w, l.i, BlobsOf(w)[l.i], l.row.content);
      hide MetaSound, BlobContent, StaleBacked, ScannedUpTo, OutcomeKnown;
    } else {
      VerdictIsSound(cfg, h, w, l);
    }
  }

  lemma VerdictIsSound(cfg: Config, h: iset<World>, w: World, l: Local)
    requires InRun(cfg, h, w) && Meant(w, l) && (l.AtPass? || l.AtAllow? || l.AtBlock?) && Known(cfg, h, w, l)
    ensures var row := Written(w, l);
      MetaSound(cfg, h, KeyOf(w, l), MetaOf(row)) && FileSound(cfg, h, KeyOf(w, l), row.content)
  {
    var row := Written(w, l);
    assert Grounds(cfg, h, w, row.clean, row.reason);
    assert Decided(cfg, h, w, w.repo, w.fetched.digest, row.clean, row.reason);
    assert FetchedUnder(h, w.repo, w.fetched.digest, row.content);
    hide Grounds, Known, FetchedUnder;
  }

  lemma OtherKnown(cfg: Config, h: iset<World>, w: World, l: Local)
    requires InRun(cfg, h, w) && Meant(w, l) && (l.AtEvict? || l.AtJoin?) && Known(cfg, h, w, l)
    ensures Known(cfg, h, w, AfterOther(w, l))
  {
    if l.AtEvict? {
      EvictFromKnown(cfg, h, w, l.k + 1, l.verdict);
      hide EvictFrom, BlockKnown, InRun;
    } else {
      hide Backed;
    }
  }

  // ---------------------------------------------------------------- one operation

  /** What is true whenever a request stands at this place, whatever has become of index and files meanwhile. */
  ghost predicate PlaceKnown(cfg: Config, h: iset<World>, w: World, p: Place) {
    && Fits(w, p) && Known(cfg, h, w, p.at)
    && match p.stage
       case Checking(meta) => MetaSound(cfg, h, KeyOf(w, p.at), meta)
       case Opening(meta) => MetaSound(cfg, h, KeyOf(w, p.at), meta)
       case _ => true
  }

  lemma FoundIsSound(cfg: Config, h: iset<World>, key: PackageRef, meta: Meta, t: Tables)
    requires TablesSound(cfg, h, t) && MetaSound(cfg, h, key, meta)
    ensures key in t.files ==> FoundSound(cfg, h, key, Some(RowOf(meta, t.files[key])))
  {
    hide MetaSound, FileSound;
  }

  lemma NothingIsSound(cfg: Config, h: iset<World>, key: PackageRef)
    ensures FoundSound(cfg, h, key, None)
  {
  }

  lemma FilesKeepSound(cfg: Config, h: iset<World>, t: Tables, key: PackageRef, content: Content)
    requires TablesSound(cfg, h, t) && FileSound(cfg, h, key, content)
    ensures TablesSound(cfg, h, t.(files := t.files[key := content]))
  {
    hide MetaSound, FileSound;
  }

  lemma IndexKeepsSound(cfg: Config, h: iset<World>, t: Tables, key: PackageRef, meta: Meta)
    requires TablesSound(cfg, h, t) && MetaSound(cfg, h, key, meta)
    ensures TablesSound(cfg, h, t.(index := t.index[key := meta]))
  {
    hide MetaSound, FileSound;
  }

  lemma RemovalKeepsSound(cfg: Config, h: iset<World>, t: Tables, rows: set<PackageRef>, files: set<PackageRef>)
    requires TablesSound(cfg, h, t)
    ensures TablesSound(cfg, h, Tables(t.index - rows, t.files - files))
  {
    hide MetaSound, FileSound;
  }

  lemma ReadingKeepsSound(cfg: Config, h: iset<World>, w: World, p: Place, t: Tables, ok: bool)
    requires InRun(cfg, h, w) && TablesSound(cfg, h, t) && PlaceKnown(cfg, h, w, p) && Reads(p.at)
    ensures var (next, after) := ReadOp(cfg, w, p, t, ok);
      TablesSound(cfg, h, after) && PlaceKnown(cfg, h, w, next)
  {
    var key := KeyOf(w, p.at);
    assert key in t.index ==> MetaSound(cfg, h, key, t.index[key]);
    hide InRun, KeyOf, Known, AfterRead, WantsBody, MetaSound, FoundSound, TablesSound, RowOf;
    NothingIsSound(cfg, h, key);
    ReadKnown(cfg, h, w, p.at, None);
    if p.stage.Forgetting? {
      RemovalKeepsSound(cfg, h, t, {key}, {});
      assert t.files - {} == t.files;
    } else if p.stage.Checking? || p.stage.Opening? {
      FoundIsSound(cfg, h, key, p.stage.meta, t);
      if key in t.files {
        ReadKnown(cfg, h, w, p.at, Some(RowOf(p.stage.meta, t.files[key])));
      }
    }
  }

  lemma WritingKeepsSound(cfg: Config, h: iset<World>, w: World, p: Place, t: Tables, ok: bool)
    requires InRun(cfg, h, w) && TablesSound(cfg, h, t) && PlaceKnown(cfg, h, w, p) && Writes(p.at)
    ensures var (next, after) := WriteOp(w, p, t, ok);
      TablesSound(cfg, h, after) && PlaceKnown(cfg, h, w, next)
  {
    var l, key := p.at, KeyOf(w, p.at);
    hide InRun, KeyOf, Known, AfterWrite, Written, MetaOf, MetaSound, FileSound, TablesSound;
    WrittenIsSound(cfg, h, w, l);
    if p.stage.Begin? {
      WriteKnown(cfg, h, w, l, false);
      FilesKeepSound(cfg, h, t, key, Written(w, l).content);
    } else if p.stage.Renamed? {
      WriteKnown(cfg, h, w, l, true);
      IndexKeepsSound(cfg, h, t, key, MetaOf(Written(w, l)));
    } else {
      WriteKnown(cfg, h, w, l, false);
      RemovalKeepsSound(cfg, h, t, {}, {key});
      assert t.index - {} == t.index;
    }
  }

  lemma OtherKeepsSound(cfg: Config, h: iset<World>, w: World, p: Place, t: Tables, ok: bool)
    requires InRun(cfg, h, w) && TablesSound(cfg, h, t) && PlaceKnown(cfg, h, w, p) && (p.at.AtEvict? || p.at.AtJoin?)
    ensures var (next, after) := OtherOp(w, p, t, ok);
      TablesSound(cfg, h, after) && PlaceKnown(cfg, h, w, next)
  {
    var key := KeyOf(w, p.at);
    hide InRun, KeyOf, Known, AfterOther, TablesSound, MetaSound;
    OtherKnown(cfg, h, w, p.at);
    if p.stage.Unlinking? {
      RemovalKeepsSound(cfg, h, t, {}, {key});
      assert t.index - {} == t.index;
    } else if p.stage.Deleting? {
      RemovalKeepsSound(cfg, h, t, {key}, {});
      assert t.files - {} == t.files;
    }
  }

  /** One operation, on sound tables, leaves them sound, and the request knows what it needs for its next one. */
  lemma StepKeepsSound(cfg: Config, h: iset<World>, w: World, p: Place, t: Tables, ok: bool)
    requires InRun(cfg, h, w) && TablesSound(cfg, h, t) && PlaceKnown(cfg, h, w, p) && !p.at.Finished?
    ensures var (next, after) := Micro(cfg, w, p, t, ok);
      TablesSound(cfg, h, after) && PlaceKnown(cfg, h, w, next)
  {
    if Reads(p.at) {
      ReadingKeepsSound(cfg, h, w, p, t, ok);
    } else if Writes(p.at) {
      WritingKeepsSound(cfg, h, w, p, t, ok);
    } else {
      OtherKeepsSound(cfg, h, w, p, t, ok);
    }
    hide TablesSound, PlaceKnown, ReadOp, WriteOp, OtherOp, InRun;
  }

  // ---------------------------------------------------------------- any number of requests

  datatype Request = Request(world: World, place: Place)
  datatype System = System(tables: Tables, requests: seq<Request>)

  /** A request arrives, one of them makes its next operation, which may fail, request i is handed the ruling that
      request j came to, or rows and files are removed. */
  datatype Move =
    | Arrive(w: World)
    | Advance(i: nat, ok: bool)
    | Share(i: nat, j: nat)
    | Remove(rows: set<PackageRef>, files: set<PackageRef>)

  /** The request once the flight it waits for has ended this way. */
  function Joining(w: World, r: Ruling): World { w.(flight := Follow(r)) }

  /** It has come to a ruling of its own on this digest. */
  predicate Ruled(t: Request, repo: string, digest: string) {
    && t.place.at.Finished? && t.place.at.answer.Served? && t.world.repo == repo
    && t.place.at.answer.digest == digest && !t.place.at.answer.verdict.fromCache
  }

  /** Request i waits for a flight on the image that request j has ruled on. */
  predicate Shares(s: System, i: nat, j: nat) {
    && i < |s.requests| && j < |s.requests| && s.requests[i].place.at.AtJoin? && s.requests[i].world.fetched.Fetched?
    && Ruled(s.requests[j], s.requests[i].world.repo, s.requests[i].world.fetched.digest)
  }

  function Moved(cfg: Config, s: System, m: Move): System {
    match m
    case Arrive(w) => s.(requests := s.requests + [Request(w, Place(Start(w), Begin))])
    case Advance(i, ok) =>
      if i < |s.requests| && Fits(s.requests[i].world, s.requests[i].place) && !s.requests[i].place.at.Finished? then
        var t := s.requests[i];
        var (next, after) := Micro(cfg, t.world, t.place, s.tables, ok);
        System(after, s.requests[i := t.(place := next)])
      else s
    case Share(i, j) =>
      if Shares(s, i, j) then
        var t := s.requests[i];
        var r := Ruling.Ruled(s.requests[j].place.at.answer.verdict);
        s.(requests := s.requests[i := t.(world := Joining(t.world, r))])
      else s
    case Remove(rows, files) => s.(tables := Tables(s.tables.index - rows, s.tables.files - files))
  }

  function Reached(cfg: Config, moves: seq<Move>): System {
    if moves == [] then System(Tables(map[], map[]), [])
    else Moved(cfg, Reached(cfg, moves[..|moves| - 1]), moves[|moves| - 1])
  }

  ghost predicate RequestSound(cfg: Config, h: iset<World>, t: Request) {
    InRun(cfg, h, t.world) && PlaceKnown(cfg, h, t.world, t.place)
  }

  ghost predicate SystemSound(cfg: Config, h: iset<World>, s: System) {
    TablesSound(cfg, h, s.tables) && forall i | 0 <= i < |s.requests| :: RequestSound(cfg, h, s.requests[i])
  }

  /** A request of the run as it arrives: no ruling has been shared with it, so that a flight it waits for counts as
      broken until one is. */
  predicate Unshared(w: World) { w.repo != "blobs" && (w.flight.Follow? ==> w.flight.ruling.Broken?) }

  ghost predicate Arrival(h: iset<World>, w: World) { w in h && Unshared(w) }

  /** The run's requests are counted whatever flights they join. */
  ghost predicate Closed(h: iset<World>) { forall w, r :: w in h ==> Joining(w, r) in h }

  lemma ShareKeepsSound(cfg: Config, h: iset<World>, s: System, i: nat, j: nat)
    requires SystemSound(cfg, h, s) && Closed(h) && Shares(s, i, j)
    ensures RequestSound(cfg, h, Moved(cfg, s, Share(i, j)).requests[i])
  {
    var t := s.requests[i];
    var r := Ruling.Ruled(s.requests[j].place.at.answer.verdict);
    assert RequestSound(cfg, h, t) && RequestSound(cfg, h, s.requests[j]);
    assert RulingSound(cfg, h, t.world.repo, t.world.fetched.digest, r) by {
      hide InRun, TablesSound, Decided, FetchedUnder, MetaSound;
    }
    assert Joining(t.world, r) in h;
    hide TablesSound, Decided, RulingSound, Backed, MetaSound;
  }

  lemma ArrivalIsSound(cfg: Config, h: iset<World>, w: World)
    requires Arrival(h, w)
    ensures RequestSound(cfg, h, Request(w, Place(Start(w), Begin)))
  {
    AfterFastKnown(cfg, h, w, Continue(None));
    hide Backed;
  }

  lemma MoveKeepsSound(cfg: Config, h: iset<World>, s: System, m: Move)
    requires SystemSound(cfg, h, s) && Closed(h) && (m.Arrive? ==> Arrival(h, m.w))
    ensures SystemSound(cfg, h, Moved(cfg, s, m))
  {
    match m
    case Arrive(w) =>
      ArrivalIsSound(cfg, h, w);
      hide RequestSound, Start, TablesSound, Closed;
    case Advance(i, ok) =>
      if i < |s.requests| && !s.requests[i].place.at.Finished? {
        assert RequestSound(cfg, h, s.requests[i]);
        StepKeepsSound(cfg, h, s.requests[i].world, s.requests[i].place, s.tables, ok);
        var t := s.requests[i];
        assert RequestSound(cfg, h, t.(place := Micro(cfg, t.world, t.place, s.tables, ok).0));
      }
      hide Micro, PlaceKnown, TablesSound, InRun, Closed;
    case Share(i, j) =>
      if Shares(s, i, j) {
        ShareKeepsSound(cfg, h, s, i, j);
      }
      hide RequestSound, TablesSound, Shares, Closed;
    case Remove(rows, files) =>
      RemovalKeepsSound(cfg, h, s.tables, rows, files);
      hide RequestSound, TablesSound, Closed;
  }

  lemma {:induction false} ReachedIsSound(cfg: Config, h: iset<World>, moves: seq<Move>)
    requires Closed(h) && forall m | m in moves && m.Arrive? :: Arrival(h, m.w)
    ensures SystemSound(cfg, h, Reached(cfg, moves))
  {
    hide SystemSound, Moved, Arrival, Closed;
    if moves == [] {
      EmptyIsSound(cfg, h);
    } else {
      var n := |moves| - 1;
      assert moves[n] in moves && forall m | m in moves[..n] :: m in moves;
      ReachedIsSound(cfg, h, moves[..n]);
      MoveKeepsSound(cfg, h, Reached(cfg, moves[..n]), moves[n]);
    }
  }

  lemma EmptyIsSound(cfg: Config, h: iset<World>)
    ensures SystemSound(cfg, h, System(Tables(map[], map[]), []))
  {
  }

  lemma FinishedIsBacked(cfg: Config, h: iset<World>, s: System, i: nat)
    requires SystemSound(cfg, h, s) && i < |s.requests| && s.requests[i].place.at.Finished?
    ensures AnswerBacked(cfg, h, s.requests[i].world.repo, s.requests[i].place.at.answer)
  {
    assert RequestSound(cfg, h, s.requests[i]);
    hide TablesSound, InRun, AnswerBacked;
  }

  /** However the operations of any number of requests interleave with each other and with removals, whichever of them
      fail, and whichever requests join each other's flights: every index row ever reached has its grounds, every file
      was fetched under its digest, and so has and was every finished request's answer and the body in it. */
  lemma EveryInterleavingIsSound(cfg: Config, h: iset<World>, moves: seq<Move>)
    requires Closed(h) && forall m | m in moves && m.Arrive? :: Arrival(h, m.w)
    ensures var s := Reached(cfg, moves);
      && TablesSound(cfg, h, s.tables)
      && forall i | 0 <= i < |s.requests| && s.requests[i].place.at.Finished? ::
           AnswerBacked(cfg, h, s.requests[i].world.repo, s.requests[i].place.at.answer)
  {
    ReachedIsSound(cfg, h, moves);
    var s := Reached(cfg, moves);
    assert TablesSound(cfg, h, s.tables);
    hide *;
    forall i | 0 <= i < |s.requests| && s.requests[i].place.at.Finished?
      ensures AnswerBacked(cfg, h, s.requests[i].world.repo, s.requests[i].place.at.answer)
    {
      FinishedIsBacked(cfg, h, s, i);
    }
  }

  // ---------------------------------------------------------------- content that stays the same under its digest

  /** Under one digest of one repository the run was given one manifest. */
  ghost predicate ManifestsPinned(h: iset<World>) { forall w | w in h :: ManifestPinned(h, w) }

  /** Moreover what was ever scanned clean under a blob's digest is what every scan of it that comes to something
      writes; fetches that fail or break off do not matter. */
  ghost predicate Pinned(cfg: Config, h: iset<World>) {
    ManifestsPinned(h) && forall w, i: nat | w in h :: BlobPinned(cfg, h, w, i)
  }

  lemma PinnedImage(cfg: Config, h: iset<World>, key: PackageRef, meta: Meta, content: Content)
    requires Pinned(cfg, h) && key.ecosystem == "docker" && key.name != "blobs"
    requires MetaSound(cfg, h, key, meta) && FileSound(cfg, h, key, content)
    ensures RowSound(cfg, h, key, RowOf(meta, content))
  {
    var v: World :| Decided(cfg, h, v, key.name, key.version, meta.clean, meta.reason);
    var w: World :|
      w in h && w.repo == key.name && w.fetched.Fetched? && w.fetched.digest == key.version
        && w.fetched.content == content;
    assert ManifestPinned(h, v);
    assert v.fetched.content == content;
    hide Grounds;
  }

  lemma PinnedBlob(cfg: Config, h: iset<World>, key: PackageRef, meta: Meta, content: Content)
    requires Pinned(cfg, h) && key.ecosystem == "docker" && key.name == "blobs"
    requires MetaSound(cfg, h, key, meta) && FileSound(cfg, h, key, content)
    ensures RowSound(cfg, h, key, RowOf(meta, content))
  {
    if meta.clean {
      var v: World, j: nat :| v in h && ScannedClean(cfg, v, j, key.version);
      var w: World, i: nat :| w in h && BlobWritten(cfg, w, i, key.version, content);
      assert BlobPinned(cfg, h, w, i);
      assert Bytes(v.blob(j).bytes) == content;
      hide ScannedClean, BlobContent;
    }
  }

  /** Then every row a reader can find is sound, content and all. */
  lemma PinnedTablesAreSound(cfg: Config, h: iset<World>, t: Tables)
    requires TablesSound(cfg, h, t) && Pinned(cfg, h)
    ensures Sound(cfg, h, View(t))
  {
    hide MetaSound, FileSound, RowSound, Pinned;
    forall key | key in View(t)
      ensures RowSound(cfg, h, key, View(t)[key])
    {
      if key.ecosystem != "docker" {
        OtherRowIsSound(cfg, h, key, View(t)[key]);
      } else if key.name == "blobs" {
        PinnedBlob(cfg, h, key, t.index[key], t.files[key]);
      } else {
        PinnedImage(cfg, h, key, t.index[key], t.files[key]);
      }
    }
  }

  lemma OtherRowIsSound(cfg: Config, h: iset<World>, key: PackageRef, row: Row)
    requires key.ecosystem != "docker"
    ensures RowSound(cfg, h, key, row)
  {
  }

  /** And the body of an allowed answer is the very content that its grounds are about. */
  lemma PinnedBodyIsJudged(cfg: Config, h: iset<World>, repo: string, digest: string, v: Verdict)
    requires ManifestsPinned(h) && Backed(cfg, h, repo, digest, v) && v.allowed && v.body.Some?
    ensures exists w: World :: Decided(cfg, h, w, repo, digest, true, v.reason) && w.fetched.content == v.body.value
  {
    var w: World :| Decided(cfg, h, w, repo, digest, true, v.reason);
    assert ManifestPinned(h, w);
    hide Grounds;
  }

  /** A request whose blob fetches all come to nothing does not disturb that. */
  lemma FailedFetchesKeepPinned(cfg: Config, h: iset<World>, w: World, v: World)
    requires Pinned(cfg, h) && w in h && v.repo == w.repo && v.fetched == w.fetched
    requires forall i: nat :: !Writable(cfg, v, i)
    ensures Pinned(cfg, h + iset{v})
  {
    assert ManifestPinned(h, w);
    forall u | u in h + iset{v}
      ensures ManifestPinned(h + iset{v}, u)
    {
      assert u in h ==> ManifestPinned(h, u);
    }
    assert forall j: nat, d :: ScannedClean(cfg, v, j, d) ==> Writable(cfg, v, j);
    forall u, i: nat | u in h + iset{v}
      ensures BlobPinned(cfg, h + iset{v}, u, i)
    {
      assert u in h ==> BlobPinned(cfg, h, u, i);
    }
    hide Blobs, ScannedClean, BlobContent;
  }

  /** The bodies of every interleaving, with one manifest under each digest. */
  lemma EveryBodyIsJudged(cfg: Config, h: iset<World>, moves: seq<Move>)
    requires Closed(h) && ManifestsPinned(h) && forall m | m in moves && m.Arrive? :: Arrival(h, m.w)
    ensures var s := Reached(cfg, moves);
      forall i | 0 <= i < |s.requests| && s.requests[i].place.at.Finished? ::
        BodyJudged(cfg, h, s.requests[i].world.repo, s.requests[i].place.at.answer)
  {
    EveryInterleavingIsSound(cfg, h, moves);
    var s := Reached(cfg, moves);
    hide Reached, ManifestsPinned, TablesSound, Closed;
    forall i | 0 <= i < |s.requests| && s.requests[i].place.at.Finished?
      ensures BodyJudged(cfg, h, s.requests[i].world.repo, s.requests[i].place.at.answer)
    {
      AnswerIsJudged(cfg, h, s.requests[i].world.repo, s.requests[i].place.at.answer);
    }
  }

  /** With that, and pinned blobs, every row that a reader can find is sound, too. */
  lemma EveryPinnedInterleavingIsSound(cfg: Config, h: iset<World>, moves: seq<Move>)
    requires Closed(h) && Pinned(cfg, h) && forall m | m in moves && m.Arrive? :: Arrival(h, m.w)
    ensures var s := Reached(cfg, moves);
      && Sound(cfg, h, View(s.tables))
      && forall i | 0 <= i < |s.requests| && s.requests[i].place.at.Finished? ::
           BodyJudged(cfg, h, s.requests[i].world.repo, s.requests[i].place.at.answer)
  {
    EveryInterleavingIsSound(cfg, h, moves);
    EveryBodyIsJudged(cfg, h, moves);
    PinnedTablesAreSound(cfg, h, Reached(cfg, moves).tables);
    hide Reached, Sound, View, ManifestsPinned, TablesSound, Closed, BodyJudged;
  }

  ghost predicate BodyJudged(cfg: Config, h: iset<World>, repo: string, a: Answer) {
    a.Served? && a.verdict.allowed && a.verdict.body.Some? ==>
      exists w: World ::
        Decided(cfg, h, w, repo, a.digest, true, a.verdict.reason) && w.fetched.content == a.verdict.body.value
  }

  lemma AnswerIsJudged(cfg: Config, h: iset<World>, repo: string, a: Answer)
    requires ManifestsPinned(h) && AnswerBacked(cfg, h, repo, a)
    ensures BodyJudged(cfg, h, repo, a)
  {
    if a.Served? && a.verdict.allowed && a.verdict.body.Some? {
      PinnedBodyIsJudged(cfg, h, repo, a.digest, a.verdict);
    }
    hide ManifestsPinned, Decided, Backed;
  }
}
