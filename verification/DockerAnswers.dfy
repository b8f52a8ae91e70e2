/** When a Docker request is answered how: the conditions, over everything it is told from outside, of each kind of
    answer. */
module DockerAnswers {
  import opened Domain
  import Policy
  import opened DockerGate
  import opened DockerGateLaws

  // ---------------------------------------------------------------- one blob

  /** The blob is in the store with this verdict. */
  predicate Stored(rows: Rows, digest: string, clean: bool) {
    BlobKey(digest) in rows && rows[BlobKey(digest)].clean == clean
  }

  /** The blob has been read in full within the limit. */
  predicate ReadInFull(cfg: Config, w: World, i: nat) {
    w.blob(i).Stream? && !Oversized(cfg, w, i) && !w.tempFails(i) && !w.blob(i).breaks
  }

  /** It is found oversized: by its declared size, or by what was read of it. */
  predicate FoundOversized(cfg: Config, w: World, i: nat) {
    && w.blob(i).Stream? && cfg.maxLayerBytes > 0
    && (w.blob(i).declared > cfg.maxLayerBytes
        || (!w.tempFails(i) && |w.blob(i).bytes| > cfg.maxLayerBytes))
  }

  /** What the scan of one blob comes to, and when. */
  lemma LayerOutcomeIff(cfg: Config, w: World, i: nat, digest: string, rows: Rows)
    ensures var seen, put := w.interfere(LayerGet(i), rows), w.put(LayerPut(i));
      var outcome := ScanLayer(cfg, w, i, digest, rows).0;
      var absent, judged := BlobKey(digest) !in seen, ReadInFull(cfg, w, i) && w.av(i).Scanned?;
      && (outcome.LayerClean? <==>
            Stored(seen, digest, true) || (absent && judged && w.av(i).Passes() && put.Stored?))
      && (outcome.LayerInfected? <==>
            || Stored(seen, digest, false)
            || (absent && (FoundOversized(cfg, w, i) || (judged && w.av(i).Detects() && put.Stored?))))
      && (outcome.LayerIncomplete? <==> absent && judged && w.av(i).incomplete)
  {
    hide PutRow, NewRow;
  }

  /** Alone with the store, a scan that comes to a verdict on a blob it did not find there stores that verdict, with the
      bytes it read or without any when they are too many; every other scan leaves the store alone. */
  lemma LayerIsCached(cfg: Config, w: World, i: nat, digest: string, rows: Rows)
    requires Quiet(w)
    ensures var (outcome, after) := ScanLayer(cfg, w, i, digest, rows);
      if BlobKey(digest) in rows || outcome.LayerError? || outcome.LayerIncomplete? then after == rows
      else
        var bytes := if FoundOversized(cfg, w, i) then "" else w.blob(i).bytes;
        after == rows[BlobKey(digest) := NewRow(w, LayerPut(i), Bytes(bytes), outcome.LayerClean?, "")]
  {
  }

  /** Alone with the store, blob `k` gets past the scan: it is cached clean, or scanned clean here, now or as an earlier
      blob of the same digest. */
  predicate GetsPast(cfg: Config, w: World, blobs: seq<string>, k: nat, rows: Rows)
    requires k < |blobs|
  {
    ScanLayer(cfg, w, k, blobs[k], rows).0.LayerClean? || exists j :: 0 <= j < k && blobs[j] == blobs[k]
  }

  /** The scan of the blobs comes to the outcome of the first one that does not get past, or else to clean. */
  lemma {:induction false} ScanStopsAtTheFirst(cfg: Config, w: World, blobs: seq<string>, rows: Rows, i: nat, now: Rows)
    returns (first: nat)
    requires Quiet(w) && i <= |blobs|
    requires forall k | 0 <= k < i :: GetsPast(cfg, w, blobs, k, rows) && Stored(now, blobs[k], true)
    requires forall d | d !in blobs[..i] :: BlobKey(d) in now <==> BlobKey(d) in rows
    requires forall d | d !in blobs[..i] && BlobKey(d) in rows :: now[BlobKey(d)] == rows[BlobKey(d)]
    ensures i <= first <= |blobs| && forall k | 0 <= k < first :: GetsPast(cfg, w, blobs, k, rows)
    ensures var outcome := ScanBlobs(cfg, w, blobs, i, now).0;
      if first == |blobs| then outcome.LayerClean?
      else
        && !GetsPast(cfg, w, blobs, first, rows)
        && outcome == ScanLayer(cfg, w, first, blobs[first], rows).0 != LayerClean
    decreases |blobs| - i
  {
    hide GetsPast, Stored;
    first := i;
    if i < |blobs| {
      var (outcome, next) := ScanLayer(cfg, w, i, blobs[i], now);
      OneBlobOn(cfg, w, blobs, rows, i, now);
      if outcome.LayerClean? {
        first := ScanStopsAtTheFirst(cfg, w, blobs, rows, i + 1, next);
      }
      hide ScanLayer;
    }
  }

  lemma OneBlobOn(cfg: Config, w: World, blobs: seq<string>, rows: Rows, i: nat, now: Rows)
    requires Quiet(w) && i < |blobs|
    requires forall k | 0 <= k < i :: GetsPast(cfg, w, blobs, k, rows) && Stored(now, blobs[k], true)
    requires forall d | d !in blobs[..i] :: BlobKey(d) in now <==> BlobKey(d) in rows
    requires forall d | d !in blobs[..i] && BlobKey(d) in rows :: now[BlobKey(d)] == rows[BlobKey(d)]
    ensures var (outcome, next) := ScanLayer(cfg, w, i, blobs[i], now);
      && (outcome.LayerClean? <==> GetsPast(cfg, w, blobs, i, rows))
      && (!outcome.LayerClean? ==> outcome == ScanLayer(cfg, w, i, blobs[i], rows).0)
      && (outcome.LayerClean? ==>
            && (forall k | 0 <= k <= i :: Stored(next, blobs[k], true))
            && (forall d | d !in blobs[..i + 1] :: BlobKey(d) in next <==> BlobKey(d) in rows)
            && (forall d | d !in blobs[..i + 1] && BlobKey(d) in rows :: next[BlobKey(d)] == rows[BlobKey(d)]))
  {
    var d := blobs[i];
    assert blobs[..i + 1] == blobs[..i] + [d];
    ScanTouchesItsBlob(cfg, w, i, d, now);
    if d in blobs[..i] {
      var j :| 0 <= j < i && blobs[..i][j] == d;
      assert Stored(now, blobs[j], true);
    } else {
      assert forall j | 0 <= j < i :: blobs[..i][j] != d;
      ScanSeesItsBlob(cfg, w, i, d, now, rows);
    }
    hide ScanLayer;
  }

  lemma ScanTouchesItsBlob(cfg: Config, w: World, i: nat, d: string, now: Rows)
    requires Quiet(w)
    ensures var (outcome, next) := ScanLayer(cfg, w, i, d, now);
      && (forall e | e != d :: BlobKey(e) in next <==> BlobKey(e) in now)
      && (forall e | e != d && BlobKey(e) in now :: next[BlobKey(e)] == now[BlobKey(e)])
      && (outcome.LayerClean? ==> Stored(next, d, true))
      && (Stored(now, d, true) ==> outcome.LayerClean?)
  {
  }

  lemma ScanSeesItsBlob(cfg: Config, w: World, i: nat, d: string, now: Rows, rows: Rows)
    requires Quiet(w)
    requires BlobKey(d) in now <==> BlobKey(d) in rows
    requires BlobKey(d) in rows ==> now[BlobKey(d)] == rows[BlobKey(d)]
    ensures ScanLayer(cfg, w, i, d, now).0 == ScanLayer(cfg, w, i, d, rows).0
  {
    hide PutRow, NewRow;
  }

  /** The whole scan, of a request alone with the store. */
  lemma ScanOutcomeIsTheFirst(cfg: Config, w: World, blobs: seq<string>, rows: Rows) returns (first: nat)
    requires Quiet(w)
    ensures first <= |blobs| && forall k | 0 <= k < first :: GetsPast(cfg, w, blobs, k, rows)
    ensures var outcome := ScanBlobs(cfg, w, blobs, 0, rows).0;
      if first == |blobs| then outcome.LayerClean?
      else
        && !GetsPast(cfg, w, blobs, first, rows)
        && outcome == ScanLayer(cfg, w, first, blobs[first], rows).0 != LayerClean
  {
    first := ScanStopsAtTheFirst(cfg, w, blobs, rows, 0, rows);
  }

  // ---------------------------------------------------------------- a request that leads its flight

  /** The request is for a gated image, and neither lookup settles it: it goes on to its flight with the rows `looked`
      and, if its verdict had expired, with `stale`. */
  predicate Flies(cfg: Config, w: World, rows: Rows, stale: Option<Verdict>, looked: Rows) {
    && w.flight.Lead? && w.fetched.Fetched? && !Ungated(w)
    && (IsDigestRef(w.ref) ==> FastPath(cfg, w, rows).0.Continue?)
    && SlowPath(cfg, w, w.fetched.digest, w.fetched.contentType, if IsDigestRef(w.ref) then FastPath(cfg, w, rows).1
                else rows)
       == (Continue(stale), looked)
  }

  /** What the scan in the flight comes to; without antivirus it is clean. */
  function ScanOutcome(cfg: Config, w: World, looked: Rows): LayerOutcome
    requires w.fetched.Fetched?
  {
    if cfg.avEnabled then ScanBlobs(cfg, w, Blobs(w.fetched.content), 0, looked).0 else LayerClean
  }

  /** The image can be looked into: its manifest decodes and its config names a date. */
  predicate Readable(w: World) { w.fetched.Fetched? && w.fetched.content.Doc? && w.created.Some? }

  /** A dependency of the flight fails: the manifest or config, Trivy, a blob, or the write of a clean verdict. */
  predicate Fails(cfg: Config, w: World, looked: Rows) {
    w.fetched.Fetched? &&
    (|| !Readable(w)
     || (w.filter.allowed && w.trivy.None?)
     || (ReachedScan(cfg, w) && ScanOutcome(cfg, w, looked).LayerError?)
     || (ReachedScan(cfg, w) && ScanOutcome(cfg, w, looked).LayerClean? && !w.put(VerdictPut).Stored?))
  }

  lemma FlightIsPipeline(cfg: Config, w: World, rows: Rows, stale: Option<Verdict>, looked: Rows)
    requires Flies(cfg, w, rows, stale, looked)
    ensures var (ruling, after) := Pipeline(cfg, w, w.fetched.digest, w.fetched.content, w.fetched.contentType,
                                            stale.Some?, looked);
      Evaluate(cfg, w, rows)
      == (match ruling
          case Ruled(v) => Served(w.fetched.digest, v)
          case Broken => if stale.Some? then Served(w.fetched.digest, stale.value) else Failure(false),
          after)
    ensures stale.Some? ==> stale.value.fromCache
  {
    hide Pipeline, FastPath, IsIndex, IsAttestation, MediaType;
  }

  /** A failing dependency, and nothing else, makes the answer the expired verdict, or an error without one. */
  lemma StaleServedIff(cfg: Config, w: World, rows: Rows, stale: Option<Verdict>, looked: Rows)
    requires Flies(cfg, w, rows, stale, looked)
    ensures var answer := Evaluate(cfg, w, rows).0;
      && (Fails(cfg, w, looked) <==> answer.Failure? || answer.verdict.fromCache)
      && (Fails(cfg, w, looked) ==>
            answer == if stale.Some? then Served(w.fetched.digest, stale.value) else Failure(false))
  {
    FlightIsPipeline(cfg, w, rows, stale, looked);
    BrokenIff(cfg, w, stale.Some?, looked);
    hide Pipeline, Fails, Flies, Evaluate;
  }

  lemma BrokenIff(cfg: Config, w: World, cascade: bool, looked: Rows)
    requires w.fetched.Fetched?
    ensures var ruling := Pipeline(cfg, w, w.fetched.digest, w.fetched.content, w.fetched.contentType, cascade,
                                   looked).0;
      (ruling.Broken? <==> Fails(cfg, w, looked)) && (ruling.Ruled? ==> !ruling.verdict.fromCache)
  {
    hide ScanBlobs, CacheBlock, CacheVerdict, BodyAt, Policy.Decide;
  }

  /** A hold: exactly an image that can be looked into and that the filter does not let through is answered with a
      supply-chain block, which has the filter's reason and dates; whatever verdict had expired. Nothing is stored. */
  lemma HeldIff(cfg: Config, w: World, rows: Rows, stale: Option<Verdict>, looked: Rows)
    requires Flies(cfg, w, rows, stale, looked)
    ensures var (answer, after) := Evaluate(cfg, w, rows);
      var held := answer.Served? && !answer.verdict.fromCache && answer.verdict.blockedBy == "supply_chain";
      && (held <==> Readable(w) && !w.filter.allowed)
      && (held ==>
            && answer.digest == w.fetched.digest && !answer.verdict.allowed
            && answer.verdict.reason == w.filter.reason && answer.verdict.publishedAt == w.filter.publishedAt
            && answer.verdict.blockUntil == w.filter.blockUntil
            && after == looked)
  {
    FlightIsPipeline(cfg, w, rows, stale, looked);
    HoldRules(cfg, w, stale.Some?, looked);
    hide Pipeline, Flies, Evaluate, Readable;
  }

  lemma HoldRules(cfg: Config, w: World, cascade: bool, looked: Rows)
    requires w.fetched.Fetched?
    ensures var (ruling, after) := Pipeline(cfg, w, w.fetched.digest, w.fetched.content, w.fetched.contentType,
                                            cascade, looked);
      var held := ruling.Ruled? && ruling.verdict.blockedBy == "supply_chain";
      && (ruling.Ruled? ==> !ruling.verdict.fromCache)
      && (held <==> Readable(w) && !w.filter.allowed)
      && (held ==>
            && !ruling.verdict.allowed
            && ruling.verdict.reason == w.filter.reason && ruling.verdict.publishedAt == w.filter.publishedAt
            && ruling.verdict.blockUntil == w.filter.blockUntil && after == looked)
  {
    hide ScanBlobs, CacheBlock, CacheVerdict, BodyAt, Policy.Decide;
  }

  /** The policy's decision on what Trivy found. */
  function PolicyDecision(cfg: Config, w: World): Decision
    requires cfg.policy.Some? && w.trivy.Some?
  {
    Policy.Decide(cfg.policy.value, ImageKey(w.repo, w.ref), w.trivy.value)
  }

  /** Every other kind of fresh answer, each with exactly its cause: allowed, refused by the policy with its findings,
      malware, a scan that could not be finished. */
  lemma FreshVerdictIff(cfg: Config, w: World, rows: Rows, stale: Option<Verdict>, looked: Rows)
    requires Flies(cfg, w, rows, stale, looked) && Readable(w) && w.filter.allowed && !Fails(cfg, w, looked)
    ensures var answer := Evaluate(cfg, w, rows).0;
      answer.Served? && answer.digest == w.fetched.digest && VerdictHasItsCause(cfg, w, looked, answer.verdict)
  {
    FlightIsPipeline(cfg, w, rows, stale, looked);
    BrokenIff(cfg, w, stale.Some?, looked);
    RulingHasItsCause(cfg, w, stale.Some?, looked);
    hide Pipeline, Flies, Evaluate, Fails, VerdictHasItsCause;
  }

  predicate VerdictHasItsCause(cfg: Config, w: World, looked: Rows, v: Verdict)
    requires w.fetched.Fetched? && w.trivy.Some?
  {
    var refused := cfg.policy.Some? && !PolicyDecision(cfg, w).allowed;
    && !v.fromCache
    && (v.allowed <==> !refused && ScanOutcome(cfg, w, looked).LayerClean?)
    && (v.allowed ==>
          && v.reason == "ok" && v.contentType == w.fetched.contentType && w.created == Some(v.publishedAt)
          && !v.passthrough)
    && (v.blockedBy in {"cve", "denylist"} <==> refused)
    && (refused ==>
          && v.reason == PolicyDecision(cfg, w).reason && v.findings == PolicyDecision(cfg, w).findings
          && (v.blockedBy == "denylist" <==> v.reason == DENYLISTED))
    && (v.blockedBy == "malware" <==> !refused && ScanOutcome(cfg, w, looked).LayerInfected?)
    && (v.blockedBy == "malware" ==> v.reason == MALWARE_FOUND)
    && (v.blockedBy == SCAN_INCOMPLETE <==> !refused && ScanOutcome(cfg, w, looked).LayerIncomplete?)
    && (v.blockedBy == SCAN_INCOMPLETE ==> v.reason == SCAN_INCOMPLETE)
  }

  lemma RulingHasItsCause(cfg: Config, w: World, cascade: bool, looked: Rows)
    requires Readable(w) && w.filter.allowed && w.trivy.Some?
    ensures var ruling := Pipeline(cfg, w, w.fetched.digest, w.fetched.content, w.fetched.contentType, cascade,
                                   looked).0;
      ruling.Ruled? ==> VerdictHasItsCause(cfg, w, looked, ruling.verdict)
  {
    hide ScanBlobs, CacheBlock, CacheVerdict, BodyAt, Policy.Decide;
  }

  /** A scan that could not be finished, too, leaves the image's row as it was. */
  lemma UnfinishedScanStoresNothing(cfg: Config, w: World, rows: Rows, stale: Option<Verdict>, looked: Rows)
    requires Flies(cfg, w, rows, stale, looked) && Quiet(w) && w.repo != "blobs"
    ensures var (answer, after) := Evaluate(cfg, w, rows);
      var key := ImageKey(w.repo, w.fetched.digest);
      answer.Served? && !answer.verdict.fromCache && !Recorded(answer.verdict) ==>
        (key in after <==> key in looked) && (key in looked ==> after[key] == looked[key])
  {
    FlightIsPipeline(cfg, w, rows, stale, looked);
    StoreRemembersRulings(cfg, w, w.fetched.digest, w.fetched.content, w.fetched.contentType, stale.Some?, looked);
    hide Pipeline, Flies, Evaluate, Recorded;
  }

  // ---------------------------------------------------------------- answers without a flight

  /** By-digest, there is a row to answer with that needs no upstream: a block of a kind that is stored, or a clean
      verdict with a body that names its type. */
  predicate Servable(w: World, rows: Rows) {
    var seen, key := w.interfere(FastVerdict, rows), ImageKey(w.repo, w.ref);
    && IsDigestRef(w.ref) && key in seen && !IsStaleSupplyBlock(seen[key])
    && (seen[key].clean ==>
          var body := BodyAt(w, FastBody, key, seen); body.Some? && MediaType(body.value) != "")
  }

  /** The verdict is the one of this row, marked as read from the store. */
  predicate OfRow(v: Verdict, row: Row) {
    && v.fromCache && v.allowed == row.clean && v.reason == row.reason && v.findings == []
    && v.passthrough == IsPassthroughReason(row.reason)
    && v.blockedBy == if row.clean then "" else BlockedByForReason(row.reason)
  }

  /** With the upstream out, exactly a request with such a row is answered, fresh or expired, with that row's verdict
      and body; every other one fails, as not found when every mirror said so. */
  lemma OutageServesIff(cfg: Config, w: World, rows: Rows)
    requires w.fetched.FetchFailed?
    ensures var answer, seen, key := Evaluate(cfg, w, rows).0, w.interfere(FastVerdict, rows), ImageKey(w.repo, w.ref);
      if Servable(w, rows) then
        && answer.Served? && answer.digest == w.ref && OfRow(answer.verdict, seen[key])
        && (seen[key].clean ==>
              && answer.verdict.body == BodyAt(w, FastBody, key, seen)
              && answer.verdict.contentType == MediaType(answer.verdict.body.value))
      else answer == Failure(w.fetched.allNotFound)
  {
    hide MediaType, BlockedByForReason;
  }

  /** While the upstream answers, such a row is the answer exactly as long as it is fresh. */
  lemma FastAnswerIff(cfg: Config, w: World, rows: Rows)
    requires IsDigestRef(w.ref)
    ensures var (found, after) := FastPath(cfg, w, rows);
      var seen, key := w.interfere(FastVerdict, rows), ImageKey(w.repo, w.ref);
      && (found.Settled? <==> Servable(w, rows) && Fresh(cfg, w, FastVerdict, seen[key]))
      && (found.Settled? ==>
            && key in seen && OfRow(found.verdict, seen[key])
            && Evaluate(cfg, w, rows) == (Served(w.ref, found.verdict), after))
  {
  }

  /** Once the upstream has named the digest, its row is the answer exactly as long as it is fresh, with the body if it
      is there; an expired one is what the flight falls back on. */
  lemma SlowLookupIff(cfg: Config, w: World, digest: string, contentType: string, rows: Rows)
    ensures var (found, after) := SlowPath(cfg, w, digest, contentType, rows);
      var seen, key := w.interfere(SlowVerdict, rows), ImageKey(w.repo, digest);
      var there := key in seen && !IsStaleSupplyBlock(seen[key]);
      && (found.Settled? <==> there && Fresh(cfg, w, SlowVerdict, seen[key]))
      && (LookupVerdict(found).Some? <==> there)
      && (there ==>
            && OfRow(LookupVerdict(found).value, seen[key])
            && LookupVerdict(found).value.body == (if seen[key].clean then BodyAt(w, SlowBody, key, seen) else None)
            && (LookupVerdict(found).value.body.Some? ==> LookupVerdict(found).value.contentType == contentType))
  {
  }

  /** An index or an attestation that no lookup settles is passed through exactly when it can be stored: with its body,
      its own content type and the reason that tells which it is. */
  lemma PassedThroughIff(cfg: Config, w: World, rows: Rows)
    requires Ungated(w) && (IsDigestRef(w.ref) ==> FastPath(cfg, w, rows).0.Continue?)
    requires SlowPath(cfg, w, w.fetched.digest, w.fetched.contentType,
                      if IsDigestRef(w.ref) then FastPath(cfg, w, rows).1 else rows).0.Continue?
    ensures var (answer, after) := Evaluate(cfg, w, rows);
      if !w.put(VerdictPut).Stored? then answer == Failure(false)
      else
        && answer.Served? && answer.digest == w.fetched.digest && answer.verdict.allowed && answer.verdict.passthrough
        && !answer.verdict.fromCache && answer.verdict.contentType == w.fetched.contentType
        && answer.verdict.reason
           == if IsIndex(w.fetched.contentType) then INDEX_PASSTHROUGH else ATTESTATION_PASSTHROUGH
    ensures Quiet(w) ==>
      var (answer, after) := Evaluate(cfg, w, rows);
      && answer.Served? && answer.verdict.body == Some(w.fetched.content)
      && after == rows[ImageKey(w.repo, w.fetched.digest)
                       := NewRow(w, VerdictPut, w.fetched.content, true, answer.verdict.reason)]
  {
    if Quiet(w) {
      QuietLookups(cfg, w, rows);
    }
    hide FastPath, SlowPath, IsIndex, IsAttestation;
  }

  /** A fresh pass, alone with the store, carries the manifest. */
  lemma FreshPassHasItsBody(cfg: Config, w: World, rows: Rows, stale: Option<Verdict>, looked: Rows)
    requires Flies(cfg, w, rows, stale, looked) && Quiet(w)
    ensures var answer := Evaluate(cfg, w, rows).0;
      answer.Served? && !answer.verdict.fromCache && answer.verdict.allowed ==>
        answer.verdict.body == Some(w.fetched.content)
  {
    FlightIsPipeline(cfg, w, rows, stale, looked);
    PassHasItsBody(cfg, w, stale.Some?, looked);
    hide Pipeline, Flies, Evaluate;
  }

  lemma PassHasItsBody(cfg: Config, w: World, cascade: bool, looked: Rows)
    requires Quiet(w) && w.fetched.Fetched?
    ensures var ruling := Pipeline(cfg, w, w.fetched.digest, w.fetched.content, w.fetched.contentType, cascade,
                                   looked).0;
      ruling.Ruled? && ruling.verdict.allowed ==> ruling.verdict.body == Some(w.fetched.content)
  {
    hide ScanBlobs, CacheBlock, Blobs, Policy.Decide;
  }
}
