/** What every reachable verdict store keeps, and what an answer of the Docker gate is worth. */
module DockerGateLaws {
  import opened Domain
  import Policy
  import opened DockerGate

  // ---------------------------------------------------------------- every row is evidence

  /** A write of a sound row keeps the store sound, exactly unless it fails with its clean-up and leaves an old row
      that is not sound over the new content. */
  lemma PutKeepsSoundIff(cfg: Config, h: iset<World>, rows: Rows, key: PackageRef, row: Row, answer: PutAnswer)
    requires Sound(cfg, h, rows) && RowSound(cfg, h, key, row)
    ensures Sound(cfg, h, PutRow(rows, key, row, answer))
      <==> (answer.Botched? ==>
              var there := Speaking(rows, key, answer.behind);
              there.Some? ==> RowSound(cfg, h, key, there.value.(content := row.content)))
  {
    hide RowSound;
    if answer.Botched? {
      var there := Speaking(rows, key, answer.behind);
      if there.Some? {
        assert PutRow(rows, key, row, answer)[key] == there.value.(content := row.content);
      }
    }
  }

  /** The write of an image verdict. */
  lemma PutImageKeepsSound(cfg: Config, h: iset<World>, w: World, rows: Rows, row: Row)
    requires Member(cfg, h, w) && Sound(cfg, h, rows) && w.fetched.Fetched?
    requires RowSound(cfg, h, ImageKey(w.repo, w.fetched.digest), row) && row.content == w.fetched.content
    ensures Sound(cfg, h, PutRow(rows, ImageKey(w.repo, w.fetched.digest), row, w.put(VerdictPut)))
  {
    var key, answer := ImageKey(w.repo, w.fetched.digest), w.put(VerdictPut);
    PutKeepsSoundIff(cfg, h, rows, key, row, answer);
    if answer.Botched? && Speaking(rows, key, answer.behind).Some? {
      var there := Speaking(rows, key, answer.behind).value;
      assert RowSound(cfg, h, key, there);
      var v: World :| Decided(cfg, h, v, w.repo, w.fetched.digest, there.clean, there.reason)
        && there.content == v.fetched.content;
      assert v.fetched.content == w.fetched.content;
      assert there.(content := row.content) == there;
    }
  }

  /** The write of a scanned blob. */
  lemma PutBlobKeepsSound(cfg: Config, h: iset<World>, w: World, i: nat, rows: Rows, row: Row)
    requires Member(cfg, h, w) && Sound(cfg, h, rows)
    requires w.fetched.Fetched? && i < |Blobs(w.fetched.content)| && Writable(cfg, w, i)
    requires RowSound(cfg, h, BlobKey(Blobs(w.fetched.content)[i]), row) && row.content == BlobContent(cfg, w, i)
    ensures Sound(cfg, h, PutRow(rows, BlobKey(Blobs(w.fetched.content)[i]), row, w.put(LayerPut(i))))
  {
    var digest := Blobs(w.fetched.content)[i];
    var key, answer := BlobKey(digest), w.put(LayerPut(i));
    PutKeepsSoundIff(cfg, h, rows, key, row, answer);
    if answer.Botched? && Speaking(rows, key, answer.behind).Some? {
      var there := Speaking(rows, key, answer.behind).value;
      assert RowSound(cfg, h, key, there);
      assert BlobRowSound(cfg, h, digest, there);
      if there.clean {
        var v: World, j: nat :| v in h && ScannedClean(cfg, v, j, digest) && there.content == Bytes(v.blob(j).bytes);
        assert Bytes(v.blob(j).bytes) == BlobContent(cfg, w, i);
        assert there.(content := row.content) == there;
      }
    }
  }

  lemma DropKeepsSound(cfg: Config, h: iset<World>, rows: Rows, key: PackageRef, answer: DropAnswer)
    requires Sound(cfg, h, rows)
    ensures Sound(cfg, h, DropRow(rows, key, answer))
  {
  }

  lemma ScanLayerIsSound(cfg: Config, h: iset<World>, w: World, i: nat, digest: string, rows: Rows)
    requires Admissible(cfg, h, w) && Sound(cfg, h, rows)
    requires w.fetched.Fetched? && i < |Blobs(w.fetched.content)| && Blobs(w.fetched.content)[i] == digest
    ensures var (outcome, after) := ScanLayer(cfg, w, i, digest, rows);
      && Sound(cfg, h, after)
      && (outcome.LayerClean? ==> BlobPassed(cfg, h, digest))
      && (outcome.LayerInfected? ==> BlobCondemned(cfg, h, digest))
  {
    var key := BlobKey(digest);
    var seen := w.interfere(LayerGet(i), rows);
    assert Sound(cfg, h, seen);
    if key in seen {
      assert RowSound(cfg, h, key, seen[key]);
    } else if w.blob(i).Stream? {
      var now := w.interfere(LayerPut(i), seen);
      assert Sound(cfg, h, now);
      var bad := NewRow(w, LayerPut(i), Bytes(""), false, "");
      if Oversized(cfg, w, i) {
        assert Condemned(cfg, w, i, digest);
        PutBlobKeepsSound(cfg, h, w, i, now, bad);
      }
      if Judged(w, i) && FetchedWhole(cfg, w, i, digest) {
        var row := NewRow(w, LayerPut(i), Bytes(w.blob(i).bytes), w.av(i).clean, "");
        assert row.clean ==> ScannedClean(cfg, w, i, digest);
        assert !row.clean ==> Condemned(cfg, w, i, digest);
        if !Oversized(cfg, w, i) {
          PutBlobKeepsSound(cfg, h, w, i, now, row);
        }
      }
      hide Sound, PutRow, BotchesPinned;
    }
  }

  ghost predicate OutcomeSound(cfg: Config, h: iset<World>, outcome: LayerOutcome, blobs: seq<string>, i: nat) {
    && (outcome.LayerClean? ==> forall j | i <= j < |blobs| :: BlobPassed(cfg, h, blobs[j]))
    && (outcome.LayerInfected? ==> exists j :: i <= j < |blobs| && BlobCondemned(cfg, h, blobs[j]))
  }

  lemma {:induction false} ScanBlobsIsSound(cfg: Config, h: iset<World>, w: World, blobs: seq<string>, i: nat,
                                            rows: Rows)
    requires Admissible(cfg, h, w) && Sound(cfg, h, rows)
    requires w.fetched.Fetched? && blobs == Blobs(w.fetched.content) && i <= |blobs|
    ensures Sound(cfg, h, ScanBlobs(cfg, w, blobs, i, rows).1)
    ensures OutcomeSound(cfg, h, ScanBlobs(cfg, w, blobs, i, rows).0, blobs, i)
    decreases |blobs| - i
  {
    if i < |blobs| {
      ScanLayerIsSound(cfg, h, w, i, blobs[i], rows);
      var step := ScanLayer(cfg, w, i, blobs[i], rows);
      if step.0.LayerClean? {
        ScanBlobsIsSound(cfg, h, w, blobs, i + 1, step.1);
        assert ScanBlobs(cfg, w, blobs, i, rows) == ScanBlobs(cfg, w, blobs, i + 1, step.1);
      } else {
        assert ScanBlobs(cfg, w, blobs, i, rows) == step;
      }
    }
  }

  lemma {:induction false} EvictKeepsSound(cfg: Config, h: iset<World>, w: World, blobs: seq<string>, k: nat,
                                           rows: Rows)
    requires Admissible(cfg, h, w) && Sound(cfg, h, rows) && k <= |blobs|
    ensures Sound(cfg, h, EvictBlobs(w, blobs, k, rows))
    decreases |blobs| - k
  {
    if k < |blobs| {
      if blobs[k] == "" {
        EvictKeepsSound(cfg, h, w, blobs, k + 1, rows);
      } else {
        var now := w.interfere(Cascade(k), rows);
        DropKeepsSound(cfg, h, now, BlobKey(blobs[k]), w.drop(Cascade(k)));
        EvictKeepsSound(cfg, h, w, blobs, k + 1, DropRow(now, BlobKey(blobs[k]), w.drop(Cascade(k))));
      }
    }
  }

  lemma CacheVerdictKeepsSound(cfg: Config, h: iset<World>, w: World, clean: bool, reason: string, rows: Rows)
    requires Admissible(cfg, h, w) && Sound(cfg, h, rows)
    requires w.fetched.Fetched? && Grounds(cfg, h, w, clean, reason)
    ensures Sound(cfg, h, CacheVerdict(w, w.fetched.digest, w.fetched.content, clean, reason, rows))
  {
    var row := NewRow(w, VerdictPut, w.fetched.content, clean, reason);
    assert Decided(cfg, h, w, w.repo, w.fetched.digest, clean, reason);
    PutImageKeepsSound(cfg, h, w, w.interfere(VerdictPut, rows), row);
  }

  /** One flight keeps the store sound and rules only on grounds it met itself. */
  lemma PipelineIsSound(cfg: Config, h: iset<World>, w: World, cascade: bool, rows: Rows)
    requires Admissible(cfg, h, w) && Sound(cfg, h, rows) && w.fetched.Fetched?
    ensures var (ruling, after) := Pipeline(cfg, w, w.fetched.digest, w.fetched.content, w.fetched.contentType,
                                            cascade, rows);
      && Sound(cfg, h, after)
      && RulingSound(cfg, h, w.repo, w.fetched.digest, ruling)
      && (ruling.Ruled? && Recorded(ruling.verdict)
          ==> Grounds(cfg, h, w, ruling.verdict.allowed, ruling.verdict.reason))
  {
    if w.fetched.content.Doc? && w.created.Some? && w.filter.allowed && w.trivy.Some? {
      if ReachedScan(cfg, w) {
        ReachedPipelineIsSound(cfg, h, w, cascade, rows);
        hide Pipeline, Sound, RulingSound, Grounds, Admissible;
      } else {
        var d := Policy.Decide(cfg.policy.value, ImageKey(w.repo, w.ref), w.trivy.value);
        var v := Blocked(d.reason, if d.reason == DENYLISTED then "denylist" else "cve", d.findings);
        BlockKeepsSound(cfg, h, w, v, cascade, rows);
        assert Decided(cfg, h, w, w.repo, w.fetched.digest, false, d.reason);
        hide Sound, CacheBlock, Admissible, MalwareFound, Passed;
      }
    }
  }

  /** The flight past Trivy and policy. */
  lemma ReachedPipelineIsSound(cfg: Config, h: iset<World>, w: World, cascade: bool, rows: Rows)
    requires Admissible(cfg, h, w) && Sound(cfg, h, rows) && w.fetched.Fetched? && w.fetched.content.Doc?
    requires ReachedScan(cfg, w)
    ensures var (ruling, after) := Pipeline(cfg, w, w.fetched.digest, w.fetched.content, w.fetched.contentType,
                                            cascade, rows);
      && Sound(cfg, h, after)
      && RulingSound(cfg, h, w.repo, w.fetched.digest, ruling)
      && (ruling.Ruled? && Recorded(ruling.verdict)
          ==> Grounds(cfg, h, w, ruling.verdict.allowed, ruling.verdict.reason))
  {
    var content, digest := w.fetched.content, w.fetched.digest;
    var (outcome, scanned) :=
      if cfg.avEnabled then ScanBlobs(cfg, w, Blobs(content), 0, rows) else (LayerClean, rows);
    if cfg.avEnabled {
      ScanBlobsIsSound(cfg, h, w, Blobs(content), 0, rows);
    }
    if outcome.LayerInfected? {
      assert MalwareFound(cfg, h, w);
      BlockKeepsSound(cfg, h, w, Blocked(MALWARE_FOUND, "malware", []), cascade, scanned);
      assert Decided(cfg, h, w, w.repo, digest, false, MALWARE_FOUND);
    } else if outcome.LayerClean? {
      assert Passed(cfg, h, w);
      CacheVerdictKeepsSound(cfg, h, w, true, "ok", scanned);
      assert Decided(cfg, h, w, w.repo, digest, true, "ok");
    }
    hide ScanBlobs, CacheBlock, CacheVerdict, Policy.Decide, Blobs, MalwareFound, Passed, BotchesPinned;
  }

  lemma BlockKeepsSound(cfg: Config, h: iset<World>, w: World, v: Verdict, cascade: bool, rows: Rows)
    requires Admissible(cfg, h, w) && Sound(cfg, h, rows)
    requires w.fetched.Fetched? && Grounds(cfg, h, w, false, v.reason)
    ensures Sound(cfg, h, CacheBlock(w, w.fetched.digest, w.fetched.content, v, cascade, rows))
  {
    CacheVerdictKeepsSound(cfg, h, w, false, v.reason, rows);
    EvictKeepsSound(cfg, h, w, Blobs(w.fetched.content), 0,
                    CacheVerdict(w, w.fetched.digest, w.fetched.content, false, v.reason, rows));
  }

  lemma PassthroughIsSound(cfg: Config, h: iset<World>, w: World, reason: string, rows: Rows)
    requires Admissible(cfg, h, w) && Sound(cfg, h, rows) && w.fetched.Fetched?
    requires IsPassthroughReason(reason) && Grounds(cfg, h, w, true, reason)
    ensures Sound(cfg, h, Passthrough(w, w.fetched.digest, w.fetched.content, w.fetched.contentType, reason, rows).1)
    ensures Decided(cfg, h, w, w.repo, w.fetched.digest, true, reason)
  {
    CacheVerdictKeepsSound(cfg, h, w, true, reason, rows);
  }

  lemma RowBacksVerdict(cfg: Config, h: iset<World>, repo: string, digest: string, row: Row)
    requires repo != "blobs" && RowSound(cfg, h, ImageKey(repo, digest), row)
    ensures !IsStaleSupplyBlock(row) && Recorded(FromRow(row))
    ensures Backed(cfg, h, repo, digest, FromRow(row))
  {
    assert ImageRowSound(cfg, h, repo, digest, row);
  }

  ghost predicate LookupBacked(cfg: Config, h: iset<World>, repo: string, digest: string, l: Lookup) {
    match l
    case Settled(v) => Recorded(v) && Backed(cfg, h, repo, digest, v)
    case Continue(stale) => stale.Some? ==> Recorded(stale.value) && Backed(cfg, h, repo, digest, stale.value)
  }

  lemma FastPathIsSound(cfg: Config, h: iset<World>, w: World, rows: Rows)
    requires Admissible(cfg, h, w) && Sound(cfg, h, rows)
    ensures Sound(cfg, h, FastPath(cfg, w, rows).1)
    ensures LookupBacked(cfg, h, w.repo, w.ref, FastPath(cfg, w, rows).0)
  {
    var seen := w.interfere(FastVerdict, rows);
    var key := ImageKey(w.repo, w.ref);
    assert Sound(cfg, h, seen) && Sound(cfg, h, w.interfere(FastBody, seen));
    if key in seen {
      RowBacksVerdict(cfg, h, w.repo, w.ref, seen[key]);
    }
  }

  lemma SlowPathIsSound(cfg: Config, h: iset<World>, w: World, digest: string, contentType: string, rows: Rows)
    requires Admissible(cfg, h, w) && Sound(cfg, h, rows)
    ensures Sound(cfg, h, SlowPath(cfg, w, digest, contentType, rows).1)
    ensures LookupBacked(cfg, h, w.repo, digest, SlowPath(cfg, w, digest, contentType, rows).0)
  {
    var seen := w.interfere(SlowVerdict, rows);
    var key := ImageKey(w.repo, digest);
    assert Sound(cfg, h, seen) && Sound(cfg, h, w.interfere(SlowBody, seen));
    if key in seen {
      RowBacksVerdict(cfg, h, w.repo, digest, seen[key]);
    }
  }

  ghost predicate AnswerBacked(cfg: Config, h: iset<World>, repo: string, a: Answer) {
    a.Served? ==> Backed(cfg, h, repo, a.digest, a.verdict)
  }

  lemma JudgeIsSound(cfg: Config, h: iset<World>, w: World, stale: Option<Verdict>, rows: Rows)
    requires Admissible(cfg, h, w) && Sound(cfg, h, rows) && w.fetched.Fetched?
    requires stale.Some? ==> Backed(cfg, h, w.repo, w.fetched.digest, stale.value)
    ensures var (answer, after) := Judge(cfg, w, w.fetched.digest, w.fetched.content, w.fetched.contentType, stale,
                                         rows);
      Sound(cfg, h, after) && AnswerBacked(cfg, h, w.repo, answer)
  {
    if IsIndex(w.fetched.contentType) {
      PassthroughIsSound(cfg, h, w, INDEX_PASSTHROUGH, rows);
    } else if IsAttestation(w.fetched.content) {
      PassthroughIsSound(cfg, h, w, ATTESTATION_PASSTHROUGH, rows);
    } else {
      PipelineIsSound(cfg, h, w, stale.Some?, rows);
      assert Sound(cfg, h, w.interfere(Joined, rows));
    }
    hide Pipeline, Passthrough, Sound, Decided, IsIndex, IsAttestation, BotchesPinned;
  }

  /** Every request leaves a sound store sound, and every stored kind of verdict it answers with was
      reached by some request of the run on the digest it names. */
  lemma EvaluateIsSound(cfg: Config, h: iset<World>, w: World, rows: Rows)
    requires Admissible(cfg, h, w) && Sound(cfg, h, rows)
    ensures Sound(cfg, h, Evaluate(cfg, w, rows).1)
    ensures AnswerBacked(cfg, h, w.repo, Evaluate(cfg, w, rows).0)
  {
    if IsDigestRef(w.ref) {
      FastPathIsSound(cfg, h, w, rows);
    }
    var (fast, seen) := if IsDigestRef(w.ref) then FastPath(cfg, w, rows) else (Continue(None), rows);
    if fast.Continue? && w.fetched.Fetched? {
      SlowPathIsSound(cfg, h, w, w.fetched.digest, w.fetched.contentType, seen);
      var (slow, looked) := SlowPath(cfg, w, w.fetched.digest, w.fetched.contentType, seen);
      if slow.Continue? {
        JudgeIsSound(cfg, h, w, slow.stale, looked);
      }
    }
  }

  /** Starting empty, every reachable store is sound, whatever the world answers. */
  lemma {:induction false} RunIsSound(cfg: Config, h: iset<World>, requests: seq<World>)
    requires forall w | w in requests :: Admissible(cfg, h, w)
    ensures Sound(cfg, h, Run(cfg, requests))
  {
    if requests != [] {
      var n := |requests| - 1;
      RunIsSound(cfg, h, requests[..n]);
      EvaluateIsSound(cfg, h, requests[n], Run(cfg, requests[..n]));
    }
  }

  /** What that says of the rows: a clean blob row holds the whole bytes of a clean scan within the limit; a
      clean "ok" image row comes from a request that passed every gate; a blocked image row carries one of three
      reasons, from which its blocker is recovered, and so is never set aside as an old supply-chain block. */
  lemma ReachableRows(cfg: Config, h: iset<World>, requests: seq<World>, key: PackageRef)
    requires forall w | w in requests :: Admissible(cfg, h, w)
    requires key.ecosystem == "docker" && key in Run(cfg, requests)
    ensures var row := Run(cfg, requests)[key];
      if key.name == "blobs" then
        row.clean ==> exists w: World, i: nat ::
          w in h && ScannedClean(cfg, w, i, key.version) && row.content == Bytes(w.blob(i).bytes)
      else if row.clean then
        exists w: World :: w in h && w.repo == key.name && w.fetched.Fetched? && w.fetched.digest == key.version
          && row.content == w.fetched.content
          && (|| (row.reason == "ok" && Passed(cfg, h, w))
              || (row.reason == INDEX_PASSTHROUGH && IsIndex(w.fetched.contentType))
              || (row.reason == ATTESTATION_PASSTHROUGH && IsAttestation(w.fetched.content)))
      else
        && row.reason in {CVE_FOUND, DENYLISTED, MALWARE_FOUND}
        && BlockedByForReason(row.reason) in {"cve", "denylist", "malware"}
        && !IsStaleSupplyBlock(row)
  {
    RunIsSound(cfg, h, requests);
    var row := Run(cfg, requests)[key];
    assert RowSound(cfg, h, key, row);
    if key.name != "blobs" {
      var w: World :| Decided(cfg, h, w, key.name, key.version, row.clean, row.reason)
        && row.content == w.fetched.content;
    }
  }

  // ---------------------------------------------------------------- failures and the two lookups

  predicate ReadFrom(v: Verdict, rows: Rows, key: PackageRef) {
    && key in rows
    && v.allowed == rows[key].clean && v.reason == rows[key].reason
    && v.blockedBy == if rows[key].clean then "" else BlockedByForReason(rows[key].reason)
  }

  function LookupVerdict(l: Lookup): Option<Verdict> {
    match l
    case Settled(v) => Some(v)
    case Continue(stale) => stale
  }

  lemma FastPathReads(cfg: Config, w: World, rows: Rows)
    ensures var v := LookupVerdict(FastPath(cfg, w, rows).0);
      v.Some? ==> ReadFrom(v.value, w.interfere(FastVerdict, rows), ImageKey(w.repo, w.ref))
  {
  }

  lemma SlowPathReads(cfg: Config, w: World, digest: string, contentType: string, rows: Rows)
    ensures var v := LookupVerdict(SlowPath(cfg, w, digest, contentType, rows).0);
      v.Some? ==> ReadFrom(v.value, w.interfere(SlowVerdict, rows), ImageKey(w.repo, digest))
  {
  }

  lemma JudgeReturnsStale(cfg: Config, w: World, digest: string, content: Content, contentType: string,
                          stale: Option<Verdict>, rows: Rows)
    requires w.flight.Follow? && w.flight.ruling.Ruled? ==> !w.flight.ruling.verdict.fromCache
    ensures var answer := Judge(cfg, w, digest, content, contentType, stale, rows).0;
      answer.Served? ==> answer.digest == digest && (answer.verdict.fromCache ==> stale == Some(answer.verdict))
  {
  }

  /** Where an answer from the cache was read: under the requested digest before the upstream was asked, or
      under the digest the upstream named. */
  predicate ReadInThisCall(cfg: Config, w: World, rows: Rows, answer: Answer)
    requires answer.Served?
  {
    var seen := if IsDigestRef(w.ref) then FastPath(cfg, w, rows).1 else rows;
    || (IsDigestRef(w.ref) && answer.digest == w.ref
        && ReadFrom(answer.verdict, w.interfere(FastVerdict, rows), ImageKey(w.repo, w.ref)))
    || (w.fetched.Fetched? && answer.digest == w.fetched.digest
        && ReadFrom(answer.verdict, w.interfere(SlowVerdict, seen), ImageKey(w.repo, w.fetched.digest)))
  }

  /** An answer from the cache has the flag, the reason and the blocker of a row read in this very call. */
  lemma CachedAnswerIsTheRowRead(cfg: Config, w: World, rows: Rows)
    requires w.flight.Follow? && w.flight.ruling.Ruled? ==> !w.flight.ruling.verdict.fromCache
    ensures var answer := Evaluate(cfg, w, rows).0;
      answer.Served? && answer.verdict.fromCache ==> ReadInThisCall(cfg, w, rows, answer)
  {
    FastPathReads(cfg, w, rows);
    var (fast, seen) := if IsDigestRef(w.ref) then FastPath(cfg, w, rows) else (Continue(None), rows);
    if fast.Continue? && w.fetched.Fetched? {
      var digest, contentType := w.fetched.digest, w.fetched.contentType;
      SlowPathReads(cfg, w, digest, contentType, seen);
      var (slow, looked) := SlowPath(cfg, w, digest, contentType, seen);
      if slow.Continue? {
        JudgeReturnsStale(cfg, w, digest, w.fetched.content, contentType, slow.stale, looked);
      }
    }
  }

  /** The content passes without the gates. */
  predicate Ungated(w: World) {
    w.fetched.Fetched? && (IsIndex(w.fetched.contentType) || IsAttestation(w.fetched.content))
  }

  /** `l` leads the flight that answers `w`: `w` itself, or the request for the same digest that `w` has joined, whose
      flight found the rows `before`. */
  ghost predicate LeadsFor(cfg: Config, l: World, w: World, cascade: bool, before: Rows) {
    if w.flight.Lead? then l == w
    else
      && l.fetched.Fetched? && w.fetched.Fetched? && l.repo == w.repo && l.fetched.digest == w.fetched.digest
      && w.flight.ruling
         == Pipeline(cfg, l, l.fetched.digest, l.fetched.content, l.fetched.contentType, cascade, before).0
  }

  /** No failure is answered with a fresh pass: with the manifest, or in the flight that answers, led or joined, the
      image config, Trivy or the verdict write failing, the answer is an error, a row read, or a block. */
  lemma FailureNeverPassesFresh(cfg: Config, w: World, l: World, cascade: bool, before: Rows, rows: Rows)
    requires w.fetched.FetchFailed? || LeadsFor(cfg, l, w, cascade, before)
    requires w.fetched.FetchFailed?
             || if Ungated(w) then !w.put(VerdictPut).Stored?
                else !l.put(VerdictPut).Stored? || l.created.None? || l.trivy.None?
    ensures var answer := Evaluate(cfg, w, rows).0;
      answer.Served? ==> answer.verdict.fromCache || !answer.verdict.allowed
  {
    if w.fetched.Fetched? && w.flight.Follow? && !Ungated(w) {
      FailingFlightNeverAllows(cfg, l, cascade, before);
    }
    hide ScanBlobs, ScanLayer, Blobs, CacheBlock, CacheVerdict, BodyAt, IsAttestation;
  }

  lemma FailingFlightNeverAllows(cfg: Config, l: World, cascade: bool, before: Rows)
    requires l.fetched.Fetched? && (!l.put(VerdictPut).Stored? || l.created.None? || l.trivy.None?)
    ensures var ruling :=
        Pipeline(cfg, l, l.fetched.digest, l.fetched.content, l.fetched.contentType, cascade, before).0;
      ruling.Ruled? ==> !ruling.verdict.allowed
  {
    hide ScanBlobs, ScanLayer, Blobs, CacheBlock, CacheVerdict, BodyAt;
  }

  /** Nor does a blob that is not cached and cannot be fetched, scanned or stored. */
  lemma {:induction false} UncheckedBlobNeverPasses(cfg: Config, w: World, blobs: seq<string>, i: nat, j: nat,
                                                    rows: Rows)
    requires i <= j < |blobs|
    requires forall r: Rows :: BlobKey(blobs[j]) !in w.interfere(LayerGet(j), r)
    requires Unchecked(w, j)
    ensures !ScanBlobs(cfg, w, blobs, i, rows).0.LayerClean?
    decreases j - i
  {
    var step := ScanLayer(cfg, w, i, blobs[i], rows);
    if step.0.LayerClean? && i < j {
      UncheckedBlobNeverPasses(cfg, w, blobs, i + 1, j, step.1);
    }
  }

  /** In the flight of `l` some blob is not cached and cannot be fetched, scanned or stored. */
  predicate Unchecked(l: World, j: nat) {
    l.blob(j).Unreachable? || l.blob(j).breaks || l.tempFails(j) || !l.av(j).Passes() || !l.put(LayerPut(j)).Stored?
  }

  /** So an image with such a blob is answered with an error, a row read, or a block, by a flight led or joined. */
  lemma UncheckedImageNeverPassesFresh(cfg: Config, w: World, l: World, cascade: bool, before: Rows, j: nat, rows: Rows)
    requires cfg.avEnabled && w.fetched.Fetched? && !Ungated(w) && LeadsFor(cfg, l, w, cascade, before)
    requires j < |Blobs(l.fetched.content)| && Unchecked(l, j)
    requires forall r: Rows :: BlobKey(Blobs(l.fetched.content)[j]) !in l.interfere(LayerGet(j), r)
    ensures var answer := Evaluate(cfg, w, rows).0;
      answer.Served? ==> answer.verdict.fromCache || !answer.verdict.allowed
  {
    forall r: Rows
      ensures !ScanBlobs(cfg, l, Blobs(l.fetched.content), 0, r).0.LayerClean?
    {
      UncheckedBlobNeverPasses(cfg, l, Blobs(l.fetched.content), 0, j, r);
    }
    hide ScanBlobs, ScanLayer, Blobs, IsAttestation, CacheBlock, CacheVerdict, BodyAt;
  }

  /** When nothing else touches the store, a fresh by-digest answer is the one the fetch path gives on that row. */
  lemma FastPathAgreesWithFetchPath(cfg: Config, w: World, contentType: string, rows: Rows)
    requires forall p, r :: w.interfere(p, r) == r
    requires w.clock(FastVerdict) == w.clock(SlowVerdict)
    requires FastPath(cfg, w, rows).0.Settled?
    ensures var fast, slow := FastPath(cfg, w, rows).0, SlowPath(cfg, w, w.ref, contentType, rows).0;
      && slow.Settled?
      && fast.verdict.(contentType := "") == slow.verdict.(contentType := "")
      && FastPath(cfg, w, rows).1 == SlowPath(cfg, w, w.ref, contentType, rows).1 == rows
  {
  }

  // ---------------------------------------------------------------- the cascade

  /** During the cascade every invalidation succeeds and other activity only removes rows. */
  ghost predicate CascadeSucceeds(w: World) {
    && (forall k :: !w.drop(Cascade(k)).Kept?)
    && (forall k, r: Rows :: w.interfere(Cascade(k), r).Keys <= r.Keys)
  }

  lemma {:induction false} EvictClears(w: World, blobs: seq<string>, k: nat, rows: Rows)
    requires CascadeSucceeds(w) && k <= |blobs|
    ensures var after := EvictBlobs(w, blobs, k, rows);
      after.Keys <= rows.Keys && forall j | k <= j < |blobs| && blobs[j] != "" :: BlobKey(blobs[j]) !in after
    decreases |blobs| - k
  {
    if k < |blobs| {
      if blobs[k] == "" {
        EvictClears(w, blobs, k + 1, rows);
      } else {
        var dropped := DropRow(w.interfere(Cascade(k), rows), BlobKey(blobs[k]), w.drop(Cascade(k)));
        assert dropped.Keys <= rows.Keys && BlobKey(blobs[k]) !in dropped;
        EvictClears(w, blobs, k + 1, dropped);
      }
    }
  }

  /** A re-run that turns an expired verdict into a CVE, denylist or malware block leaves no blob row of the image
      behind, not even one this same run has just added. */
  lemma BlockOnRecheckClearsBlobs(cfg: Config, w: World, digest: string, content: Content, contentType: string,
                                  rows: Rows)
    requires CascadeSucceeds(w)
    ensures var (ruling, after) := Pipeline(cfg, w, digest, content, contentType, true, rows);
      ruling.Ruled? && ruling.verdict.blockedBy in {"cve", "denylist", "malware"} ==>
        forall d | d in Blobs(content) && d != "" :: BlobKey(d) !in after
  {
    var blobs := Blobs(content);
    forall r: Rows
      ensures forall d | d in blobs && d != "" :: BlobKey(d) !in EvictBlobs(w, blobs, 0, r)
    {
      EvictClears(w, blobs, 0, r);
    }
  }

  /** The same for a whole request: its cached verdict was found expired and the flight it led ruled a block. */
  lemma ExpiredVerdictBlockClearsBlobs(cfg: Config, w: World, rows: Rows)
    requires CascadeSucceeds(w) && w.flight.Lead? && w.fetched.Fetched?
    requires var seen := if IsDigestRef(w.ref) then FastPath(cfg, w, rows).1 else rows;
      SlowPath(cfg, w, w.fetched.digest, w.fetched.contentType, seen).0.Continue?
      && SlowPath(cfg, w, w.fetched.digest, w.fetched.contentType, seen).0.stale.Some?
    ensures var (answer, after) := Evaluate(cfg, w, rows);
      answer.Served? && !answer.verdict.fromCache && answer.verdict.blockedBy in {"cve", "denylist", "malware"} ==>
        forall d | d in Blobs(w.fetched.content) && d != "" :: BlobKey(d) !in after
  {
    var (fast, seen) := if IsDigestRef(w.ref) then FastPath(cfg, w, rows) else (Continue(None), rows);
    if fast.Continue? {
      var looked := SlowPath(cfg, w, w.fetched.digest, w.fetched.contentType, seen).1;
      BlockOnRecheckClearsBlobs(cfg, w, w.fetched.digest, w.fetched.content, w.fetched.contentType, looked);
    }
  }

  /** Nothing else touches the store, and its writes and invalidations succeed. */
  ghost predicate Quiet(w: World) {
    && (forall p, r: Rows :: w.interfere(p, r) == r)
    && (forall p :: w.put(p).Stored?)
    && (forall p :: w.drop(p).Dropped?)
  }

  function BlobKeysOf(blobs: seq<string>): set<PackageRef> {
    set d | d in blobs && d != "" :: BlobKey(d)
  }

  /** Undisturbed, the cascade removes the rows of the non-empty digests and no others. */
  lemma {:induction false} EvictExactly(w: World, blobs: seq<string>, k: nat, rows: Rows)
    requires Quiet(w) && k <= |blobs|
    ensures EvictBlobs(w, blobs, k, rows) == rows - BlobKeysOf(blobs[k..])
    decreases |blobs| - k
  {
    if k < |blobs| {
      assert blobs[k..] == [blobs[k]] + blobs[k + 1..];
      var next := if blobs[k] == "" then rows else rows - {BlobKey(blobs[k])};
      EvictExactly(w, blobs, k + 1, next);
      assert BlobKeysOf(blobs[k..]) == BlobKeysOf(blobs[k + 1..])
        + (if blobs[k] == "" then {} else {BlobKey(blobs[k])});
    }
  }

  lemma {:induction false} ScanOnlyAdds(cfg: Config, w: World, blobs: seq<string>, i: nat, rows: Rows)
    requires Quiet(w) && i <= |blobs|
    ensures rows.Keys <= ScanBlobs(cfg, w, blobs, i, rows).1.Keys
    decreases |blobs| - i
  {
    if i < |blobs| {
      var step := ScanLayer(cfg, w, i, blobs[i], rows);
      assert rows.Keys <= step.1.Keys;
      if step.0.LayerClean? {
        ScanOnlyAdds(cfg, w, blobs, i + 1, step.1);
      }
      hide ScanLayer;
    }
  }

  /** Without a cascade a flight takes out no row. */
  lemma NoCascadeOnlyAdds(cfg: Config, w: World, digest: string, content: Content, contentType: string, rows: Rows)
    requires Quiet(w)
    ensures rows.Keys <= Pipeline(cfg, w, digest, content, contentType, false, rows).1.Keys
  {
    ScanOnlyAdds(cfg, w, Blobs(content), 0, rows);
    hide ScanBlobs, Blobs;
  }

  /** Two requests for the digest of one manifest: `l` leads, alone with the store, and found `looked` in its own
      lookup; `f` has joined its flight, which ruled `v`, a CVE, denylist or malware block. */
  ghost predicate JoinedBlock(cfg: Config, f: World, l: World, looked: Lookup, v: Verdict, rows: Rows, rowsOfF: Rows) {
    && l.flight.Lead? && Quiet(l) && l.fetched.Fetched? && f.fetched == l.fetched && !Ungated(l)
    && (IsDigestRef(l.ref) ==> FastPath(cfg, l, rows).0.Continue?)
    && SlowPath(cfg, l, l.fetched.digest, l.fetched.contentType, rows).0 == looked && looked.Continue?
    && f.flight == Follow(Ruled(v)) && v.blockedBy in {"cve", "denylist", "malware"}
    && Pipeline(cfg, l, l.fetched.digest, l.fetched.content, l.fetched.contentType, looked.stale.Some?, rows).0
         == Ruled(v)
    && (forall p, r: Rows :: f.interfere(p, r) == if p.Joined? then Evaluate(cfg, l, rows).1 else r)
    && (IsDigestRef(f.ref) ==> FastPath(cfg, f, rowsOfF).0.Continue?)
    && SlowPath(cfg, f, f.fetched.digest, f.fetched.contentType, rowsOfF).0.Continue?
  }

  /** Then both are answered with that block, and of the image's blobs, one of which had a row, none has one left
      exactly when the lookup of the leader had found an expired verdict. Whether that of `f` had found one, on the rows
      that it saw, plays no part. */
  lemma JoinedBlockClearsBlobsIff(cfg: Config, f: World, l: World, looked: Lookup, v: Verdict, rows: Rows,
                                  rowsOfF: Rows, d: string)
    requires JoinedBlock(cfg, f, l, looked, v, rows, rowsOfF)
    requires d in Blobs(l.fetched.content) && d != "" && BlobKey(d) in rows
    ensures var (answer, after) := Evaluate(cfg, f, rowsOfF);
      && answer == Served(l.fetched.digest, v) == Evaluate(cfg, l, rows).0
      && after == Evaluate(cfg, l, rows).1
      && ((forall e | e in Blobs(l.fetched.content) && e != "" :: BlobKey(e) !in after) <==> looked.stale.Some?)
  {
    QuietLookups(cfg, l, rows);
    var flight :=
      Pipeline(cfg, l, l.fetched.digest, l.fetched.content, l.fetched.contentType, looked.stale.Some?, rows);
    if looked.stale.Some? {
      BlockOnRecheckClearsBlobs(cfg, l, l.fetched.digest, l.fetched.content, l.fetched.contentType, rows);
    } else {
      NoCascadeOnlyAdds(cfg, l, l.fetched.digest, l.fetched.content, l.fetched.contentType, rows);
    }
    assert Evaluate(cfg, l, rows) == (Served(l.fetched.digest, v), flight.1) by {
      hide Pipeline, Blobs, FastPath, SlowPath, IsIndex, IsAttestation;
    }
    assert Evaluate(cfg, f, rowsOfF) == (Served(l.fetched.digest, v), flight.1) by {
      hide Pipeline, Blobs, FastPath, SlowPath, IsIndex, IsAttestation;
    }
    hide *;
  }

  lemma QuietLookups(cfg: Config, w: World, rows: Rows)
    requires Quiet(w)
    ensures FastPath(cfg, w, rows).1 == rows
    ensures w.fetched.Fetched? ==> SlowPath(cfg, w, w.fetched.digest, w.fetched.contentType, rows).1 == rows
  {
  }

  /** A verdict of the kinds the store remembers is written under the image's key; a supply-chain hold or an
      incomplete scan leaves that key as it was. */
  lemma StoreRemembersRulings(cfg: Config, w: World, digest: string, content: Content, contentType: string,
                              cascade: bool, rows: Rows)
    requires Quiet(w) && w.repo != "blobs"
    ensures var (ruling, after) := Pipeline(cfg, w, digest, content, contentType, cascade, rows);
      var key := ImageKey(w.repo, digest);
      ruling.Ruled? ==>
        if Recorded(ruling.verdict) then
          key in after && after[key] == NewRow(w, VerdictPut, content, ruling.verdict.allowed, ruling.verdict.reason)
        else
          (key in after <==> key in rows) && (key in rows ==> after[key] == rows[key])
  {
    var blobs, key := Blobs(content), ImageKey(w.repo, digest);
    ScanLeavesImages(cfg, w, blobs, 0, rows, key);
    forall r: Rows
      ensures EvictBlobs(w, blobs, 0, r) == r - BlobKeysOf(blobs)
    {
      EvictExactly(w, blobs, 0, r);
      assert blobs[0..] == blobs;
    }
    assert key !in BlobKeysOf(blobs);
  }

  lemma {:induction false} ScanLeavesImages(cfg: Config, w: World, blobs: seq<string>, i: nat, rows: Rows,
                                            key: PackageRef)
    requires Quiet(w) && i <= |blobs| && key.name != "blobs"
    ensures var after := ScanBlobs(cfg, w, blobs, i, rows).1;
      (key in after <==> key in rows) && (key in rows ==> after[key] == rows[key])
    decreases |blobs| - i
  {
    if i < |blobs| {
      var step := ScanLayer(cfg, w, i, blobs[i], rows);
      if step.0.LayerClean? {
        ScanLeavesImages(cfg, w, blobs, i + 1, step.1, key);
      }
    }
  }

  /** A remembered ruling answers the next request for that digest, unchanged, until its whole-second stamp is
      older than the TTL; from then on the gate runs again. */
  lemma RulingHoldsUntilTtl(cfg: Config, w: World, next: World, digest: string, content: Content, contentType: string,
                            cascade: bool, rows: Rows)
    requires Quiet(w) && Quiet(next) && w.repo == next.repo != "blobs"
    ensures var (ruling, after) := Pipeline(cfg, w, digest, content, contentType, cascade, rows);
      ruling.Ruled? && Recorded(ruling.verdict) ==>
        var again := SlowPath(cfg, next, digest, contentType, after).0;
        && LookupVerdict(again).Some?
        && (again.Settled? <==>
              || cfg.recheckTtl <= 0
              || next.clock(SlowVerdict) - WholeSeconds(w.clock(VerdictPut)) <= cfg.recheckTtl)
        && LookupVerdict(again).value.allowed == ruling.verdict.allowed
        && LookupVerdict(again).value.reason == ruling.verdict.reason
        && (!ruling.verdict.allowed ==> LookupVerdict(again).value.blockedBy == ruling.verdict.blockedBy)
  {
    StoreRemembersRulings(cfg, w, digest, content, contentType, cascade, rows);
    RulingNamesItsGate(cfg, w, digest, content, contentType, cascade, rows);
    var (ruling, after) := Pipeline(cfg, w, digest, content, contentType, cascade, rows);
    if ruling.Ruled? && Recorded(ruling.verdict) {
      RowAnswers(cfg, next, digest, contentType, after);
    }
    hide Pipeline, SlowPath;
  }

  lemma RulingNamesItsGate(cfg: Config, w: World, digest: string, content: Content, contentType: string,
                           cascade: bool, rows: Rows)
    ensures var ruling := Pipeline(cfg, w, digest, content, contentType, cascade, rows).0;
      ruling.Ruled? && Recorded(ruling.verdict) && !ruling.verdict.allowed ==>
        ruling.verdict.blockedBy == BlockedByForReason(ruling.verdict.reason) != "supply_chain"
  {
    hide ScanBlobs, CacheBlock, CacheVerdict, Blobs;
  }

  lemma RowAnswers(cfg: Config, w: World, digest: string, contentType: string, rows: Rows)
    requires Quiet(w) && ImageKey(w.repo, digest) in rows && !IsStaleSupplyBlock(rows[ImageKey(w.repo, digest)])
    ensures var row, found := rows[ImageKey(w.repo, digest)], SlowPath(cfg, w, digest, contentType, rows).0;
      && LookupVerdict(found).Some?
      && (found.Settled? <==> Fresh(cfg, w, SlowVerdict, row))
      && LookupVerdict(found).value.allowed == row.clean
      && LookupVerdict(found).value.reason == row.reason
      && (!row.clean ==> LookupVerdict(found).value.blockedBy == BlockedByForReason(row.reason))
  {
  }

  // ---------------------------------------------------------------- what does not hold

  function Answers(repo: string, content: Content, contentType: string, av: nat -> AvAnswer): World {
    World(repo, "latest", Fetched(content, contentType, "sha256:d"), Some(0), FilterResult(true, "ok", 0, 0), Some([]),
          (i: nat) => Stream(1, "x", false), (i: nat) => false, av,
          (p: Point) => Stored, (p: Point) => Dropped, (p: Point) => 0, Lead, (p: Point, r: Rows) => r)
  }

  /** A repository called "blobs" shares its keys with the blobs: passing an index through then leaves a clean blob
      row that no scan stands behind. */
  lemma RepositoryNamedBlobsIsUnsound(cfg: Config, h: iset<World>)
    ensures var rows := Run(cfg, [Answers("blobs", Doc(Manifest("", "", [])), OCI_INDEX, (i: nat) => Failed)]);
      BlobKey("sha256:d") in rows && !RowSound(cfg, h, BlobKey("sha256:d"), rows[BlobKey("sha256:d")])
  {
    var w := Answers("blobs", Doc(Manifest("", "", [])), OCI_INDEX, (i: nat) => Failed);
    assert [w][..0] == [];
    assert Run(cfg, []) == map[];
    assert Run(cfg, [w]) == Evaluate(cfg, w, map[]).1;
  }

  /** The cascade skips an empty layer digest although the scan does not: its clean row survives the block. */
  lemma EmptyDigestSurvivesCascade()
    ensures
      var content := Doc(Manifest("", "", [Layer("", false), Layer("sha256:bad", false)]));
      var w := Answers("app", content, "", (i: nat) => Scanned(i == 0, false));
      var (ruling, after) := Pipeline(Config(0, 1, true, None), w, "sha256:d", content, "", true, map[]);
      && Blobs(content) == ["", "sha256:bad"]
      && ruling == Ruled(Blocked(MALWARE_FOUND, "malware", []))
      && BlobKey("") in after && after[BlobKey("")].clean && BlobKey("sha256:bad") !in after
  {
    var content := Doc(Manifest("", "", [Layer("", false), Layer("sha256:bad", false)]));
    var w := Answers("app", content, "", (i: nat) => Scanned(i == 0, false));
    var cfg := Config(0, 1, true, None);
    var blobs := Blobs(content);
    assert blobs == ["", "sha256:bad"];
    var first := ScanLayer(cfg, w, 0, "", map[]);
    var second := ScanLayer(cfg, w, 1, "sha256:bad", first.1);
    assert ScanBlobs(cfg, w, blobs, 1, first.1) == second;
    assert ScanBlobs(cfg, w, blobs, 0, map[]) == second;
    var cached := CacheVerdict(w, "sha256:d", content, false, MALWARE_FOUND, second.1);
    EvictExactly(w, blobs, 0, cached);
    assert blobs[0..] == blobs;
  }

  /** A first image under a digest, and another one served later under the same digest with a bad layer, whose block
      verdict is written with index and clean-up failing. */
  function FirstImage(): World { Answers("app", Doc(Manifest("", "", [])), "", (i: nat) => Scanned(true, false)) }

  function BadImage(): World {
    Answers("app", Doc(Manifest("", "", [Layer("sha256:bad", false)])), "", (i: nat) => Scanned(false, false))
      .(put := (p: Point) => if p.VerdictPut? then Botched(None) else Stored, clock := (p: Point) => 2 * SECOND)
  }

  /** Without pinned digests, such a write leaves the first image's clean row over the bad one. */
  lemma UnpinnedBotchIsUnsound()
    ensures var cfg, h := Config(0, 1, true, None), iset{FirstImage(), BadImage()};
      !Sound(cfg, h, Run(cfg, [FirstImage(), BadImage()])) && !ManifestPinned(h, BadImage())
  {
    var cfg, h := Config(0, 1, true, None), iset{FirstImage(), BadImage()};
    var v, w := FirstImage(), BadImage();
    var key := ImageKey("app", "sha256:d");
    var good := NewRow(v, VerdictPut, v.fetched.content, true, "ok");
    FirstRun(cfg);
    assert [v, w][..1] == [v];
    SecondRun(cfg, map[key := good]);
    var after := Run(cfg, [v, w]);
    assert after == Evaluate(cfg, w, map[key := good]).1;
    var row := after[key];
    assert row.clean && row.reason == "ok" && row.content == w.fetched.content;
    hide Evaluate, Run;
    assert Blobs(v.fetched.content) == [] && Blobs(w.fetched.content) == ["sha256:bad"];
    assert forall u: World, i: nat | u in h :: !ScannedClean(cfg, u, i, "sha256:bad");
    assert !BlobPassed(cfg, h, "sha256:bad");
    assert !Passed(cfg, h, w) by {
      assert "sha256:bad" in Blobs(w.fetched.content);
    }
    assert !RowSound(cfg, h, key, row);
  }

  lemma FirstRun(cfg: Config)
    requires cfg == Config(0, 1, true, None)
    ensures var v := FirstImage();
      Run(cfg, [v]) == map[ImageKey("app", "sha256:d") := NewRow(v, VerdictPut, v.fetched.content, true, "ok")]
  {
    var v := FirstImage();
    assert [v][..0] == [] && Run(cfg, []) == map[];
    assert Blobs(v.fetched.content) == [];
    assert Run(cfg, [v]) == Evaluate(cfg, v, map[]).1;
  }

  lemma SecondRun(cfg: Config, rows: Rows)
    requires cfg == Config(0, 1, true, None)
    requires var v := FirstImage();
      rows == map[ImageKey("app", "sha256:d") := NewRow(v, VerdictPut, v.fetched.content, true, "ok")]
    ensures var w, key := BadImage(), ImageKey("app", "sha256:d");
      var after := Evaluate(cfg, w, rows).1;
      key in after && after[key] == rows[key].(content := w.fetched.content)
  {
    var w, key := BadImage(), ImageKey("app", "sha256:d");
    var content := w.fetched.content;
    var blobs := Blobs(content);
    assert blobs == ["sha256:bad"];
    var scanned := ScanLayer(cfg, w, 0, "sha256:bad", rows);
    assert scanned == (LayerInfected, rows[BlobKey("sha256:bad") := NewRow(w, LayerPut(0), Bytes("x"), false, "")]);
    assert ScanBlobs(cfg, w, blobs, 0, rows) == scanned;
    var cached := CacheVerdict(w, "sha256:d", content, false, MALWARE_FOUND, scanned.1);
    assert cached[key] == rows[key].(content := content);
    assert EvictBlobs(w, blobs, 1, cached - {BlobKey("sha256:bad")}) == cached - {BlobKey("sha256:bad")};
    assert EvictBlobs(w, blobs, 0, cached) == cached - {BlobKey("sha256:bad")};
    assert SlowPath(cfg, w, "sha256:d", "", rows).0.Continue?;
  }

  /** An image with one cached layer, whose repository the policy has come to deny. */
  function DeniedNow(): World {
    Answers("app", Doc(Manifest("", "", [Layer("sha256:l", false)])), "", (i: nat) => Failed)
      .(clock := (p: Point) => 10 * SECOND)
  }

  function LayerRows(): Rows { map[BlobKey("sha256:l") := Row(Bytes("x"), true, "", 0, 0)] }

  /** The request that joins saw the image's expired verdict before it was evicted. */
  function ExpiredRows(): Rows {
    LayerRows()[ImageKey("app", "sha256:d") := Row(DeniedNow().fetched.content, true, "ok", 0, 0)]
  }

  /** Its leader looked after that. The joining request's verdict had expired and it is answered with the block, but the
      layer stays cached. Had the leader seen the expired verdict, too, it would be gone. */
  lemma JoinedBlockLeavesBlobs()
    ensures
      var cfg := Config(0, 1, false, Some(Policy.Engine(Critical, false, {}, {"docker/app"})));
      var l, rows := DeniedNow(), LayerRows();
      var v := Blocked(DENYLISTED, "denylist", []);
      var f := l.(flight := Follow(Ruled(v)),
                  interfere := (p: Point, r: Rows) => if p.Joined? then Evaluate(cfg, l, rows).1 else r);
      && SlowPath(cfg, f, "sha256:d", "", ExpiredRows()).0.stale.Some?
      && SlowPath(cfg, l, "sha256:d", "", rows).0.stale.None?
      && Evaluate(cfg, f, ExpiredRows()).0 == Served("sha256:d", v)
      && BlobKey("sha256:l") in Evaluate(cfg, f, ExpiredRows()).1
      && BlobKey("sha256:l") !in Evaluate(cfg, l, ExpiredRows()).1
  {
    var cfg := Config(0, 1, false, Some(Policy.Engine(Critical, false, {}, {"docker/app"})));
    var l, rows := DeniedNow(), LayerRows();
    var v := Blocked(DENYLISTED, "denylist", []);
    DeniedByName(cfg);
    assert Blobs(l.fetched.content) == ["sha256:l"];
    assert Evaluate(cfg, l, rows).0 == Served("sha256:d", v);
  }

  lemma DeniedByName(cfg: Config)
    requires cfg.policy == Some(Policy.Engine(Critical, false, {}, {"docker/app"}))
    ensures Policy.Decide(cfg.policy.value, ImageKey("app", "latest"), []) == Decision(false, DENYLISTED, [])
  {
    assert "docker" + "/" + "app" == "docker/app";
  }
}
