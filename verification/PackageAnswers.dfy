/** When a package request is answered how: the conditions, over everything it is told from outside, of an admission, a
    refusal and a re-check's effect on the cache. */
module PackageAnswers {
  import opened Domain
  import Policy
  import U = Upstream
  import opened PackageGate
  import opened PackageGateLaws

  // ---------------------------------------------------------------- the walk over the mirrors

  /** The attempts at the first `n` mirrors. */
  function AttemptsOf(mirrors: seq<Mirror>, n: nat): seq<U.Attempt>
    requires n <= |mirrors| && forall i | 0 <= i < n :: mirrors[i].NotServed?
  {
    seq(n, i requires 0 <= i < n => mirrors[i].attempt)
  }

  /** The walk ends at the first mirror that delivers or has too much to deliver; past none it collects all. */
  lemma {:induction false} FetchEndsAtTheFirst(mirrors: seq<Mirror>, atts: seq<U.Attempt>) returns (first: nat)
    ensures first <= |mirrors| && forall i | 0 <= i < first :: mirrors[i].NotServed?
    ensures if first == |mirrors| then
              Fetch(mirrors, atts) == Nowhere(atts + AttemptsOf(mirrors, first))
            else
              && !mirrors[first].NotServed?
              && Fetch(mirrors, atts) == (if mirrors[first].TooLarge? then Oversized
                                          else Got(mirrors[first].bytes, mirrors[first].publishedAt))
    decreases |mirrors|
  {
    if mirrors == [] || !mirrors[0].NotServed? {
      first := 0;
      assert atts + AttemptsOf(mirrors, first) == atts;
    } else {
      var next := FetchEndsAtTheFirst(mirrors[1..], atts + [mirrors[0].attempt]);
      first := next + 1;
      if first == |mirrors| {
        assert atts + [mirrors[0].attempt] + AttemptsOf(mirrors[1..], next) == atts + AttemptsOf(mirrors, first);
      }
    }
  }

  // ---------------------------------------------------------------- admission

  /** The gates let what the mirrors deliver pass: the supply-chain filter on the date it judges, CVE scan and policy,
      antivirus. */
  predicate EveryGatePasses(cfg: Config, w: World, d: Download)
    requires d.Got?
  {
    && (cfg.deferred || w.metadata.Published?)
    && w.filter(JudgedDate(cfg, w, d)).allowed
    && (cfg.cveEnabled ==> CvePassed(cfg, w))
    && (cfg.avEnabled ==> w.av.Passes())
  }

  /** A package that is not cached is admitted exactly when a mirror delivers and every gate passes: with the bytes
      delivered and the filter's reason. */
  lemma AdmittedIff(cfg: Config, w: World)
    ensures var d := Fetch(w.mirrors, []);
      && (Vet(cfg, w).Admitted? <==> d.Got? && EveryGatePasses(cfg, w, d))
      && (Vet(cfg, w).Admitted? ==> Vet(cfg, w) == Admitted(d.bytes, w.filter(JudgedDate(cfg, w, d)).reason))
  {
  }

  /** It is served exactly when it was also stored, found again and its file opened, with status 200, the gate it
      cleared last and the filter's reason. */
  lemma MissIsServedIff(cfg: Config, w: World, store: Store)
    ensures var (r, after) := Miss(cfg, w, store);
      var d := Fetch(w.mirrors, []);
      var stored := if d.Got? then w.interfere(ServeGet, StoreEntry(w, d.bytes, store)) else store;
      && (r.body.Some? <==>
            d.Got? && EveryGatePasses(cfg, w, d) && w.put.Stored? && w.ref in stored && w.opens)
      && (r.body.Some? ==>
            && r.status == 200 && r.verdict == "PASS"
            && r.reason == w.filter(JudgedDate(cfg, w, d)).reason
            && r.gate == if cfg.avEnabled then "malware"
                         else if cfg.cveEnabled && cfg.policy.Some? then "cve" else "supply")
  {
    AdmittedIff(cfg, w);
    RefusalHasNoBody(cfg, w);
    hide Vet, Fetch, EveryGatePasses;
  }

  lemma RefusalHasNoBody(cfg: Config, w: World)
    ensures Vet(cfg, w).Turned? ==> Vet(cfg, w).response.body.None?
  {
    hide Fetch;
  }

  /** Undisturbed, an admitted package is cached clean, with its bytes and both check times at the second of the write,
      and served from there. */
  lemma AdmittedIsCached(cfg: Config, w: World, store: Store)
    requires forall p, s: Store :: w.interfere(p, s) == s
    requires w.ref !in store && w.put.Stored? && w.opens
    requires var d := Fetch(w.mirrors, []); d.Got? && EveryGatePasses(cfg, w, d)
    ensures var (r, after) := Handle(cfg, w, store);
      var bytes, t := Fetch(w.mirrors, []).bytes, WholeSeconds(w.clock(StorePut));
      r.body == Some(bytes) && after == store[w.ref := Entry(bytes, true, t, t)]
  {
    AdmittedIff(cfg, w);
    hide Vet, Fetch, EveryGatePasses;
  }

  // ---------------------------------------------------------------- refusal

  /** The supply chain refuses the date that it judges. */
  predicate Held(cfg: Config, w: World, d: Download) {
    if !cfg.deferred then w.metadata.Published? && !w.filter(w.metadata.at).allowed
    else d.Got? && !w.filter(d.publishedAt).allowed
  }

  predicate PolicyRefuses(cfg: Config, w: World) {
    cfg.cveEnabled && cfg.policy.Some? && w.cve.Some? && !Policy.Decide(cfg.policy.value, w.ref, w.cve.value).allowed
  }

  predicate MalwareRefuses(cfg: Config, w: World) { cfg.avEnabled && w.av.Scanned? && !w.av.Passes() }

  /** A refused request is a block exactly of a gate that refuses: held by the supply chain with the filter's reason,
      refused by the policy with its reason, malware or an unfinished scan. */
  lemma BlockNamesItsGate(cfg: Config, w: World)
    requires Vet(cfg, w).Turned? && Vet(cfg, w).response.verdict == "BLOCK"
    ensures var r, d := Vet(cfg, w).response, Fetch(w.mirrors, []);
      && (r.gate == "supply" ==>
            && r.status == 423 && Held(cfg, w, d)
            && r.reason == w.filter(if cfg.deferred then d.publishedAt else w.metadata.at).reason)
      && (r.gate == "cve" ==>
            && r.status == 403 && PolicyRefuses(cfg, w)
            && r.reason == Policy.Decide(cfg.policy.value, w.ref, w.cve.value).reason)
      && (r.gate == "malware" ==>
            && r.status == 403 && MalwareRefuses(cfg, w)
            && r.reason == if w.av.incomplete then SCAN_INCOMPLETE else MALWARE_FOUND)
      && r.gate in {"supply", "cve", "malware"}
  {
    hide Fetch, Policy.Decide;
  }

  /** Nothing fails that the gates depend on. */
  predicate NothingFails(cfg: Config, w: World) {
    && (cfg.deferred || w.metadata.Published?)
    && (cfg.cveEnabled ==> w.cve.Some?) && (cfg.avEnabled ==> w.av.Scanned?)
    && Fetch(w.mirrors, []).Got?
  }

  /** With nothing failing, a request is blocked exactly when some gate refuses. */
  lemma BlockedIff(cfg: Config, w: World)
    requires NothingFails(cfg, w)
    ensures var d := Fetch(w.mirrors, []);
      (Vet(cfg, w).Turned? && Vet(cfg, w).response.verdict == "BLOCK")
      <==> (Held(cfg, w, d) || PolicyRefuses(cfg, w) || MalwareRefuses(cfg, w))
  {
    FetchFindsMirror(w.mirrors, []);
    hide Fetch, Policy.Decide;
  }

  /** When no mirror delivers: an oversized artifact is refused, one that is nowhere is not found, a throttled walk is
      answered as the throttles say, and anything else is a bad gateway. */
  lemma DownloadFailureMeans(cfg: Config, w: World, d: Download)
    requires !d.Got? && U.Faithful(w.throttles)
    ensures var r := DownloadFailure(w, d);
      && r.verdict == "ERROR" && r.body.None?
      && (r.status == 403 <==> d.Oversized?)
      && (r.status == 404 <==> d.Nowhere? && d.atts != [] && forall a | a in d.atts :: U.IsNotFound(a))
      && (r.status == 502 <==>
            d.Nowhere? && (d.atts == [] || exists a :: a in d.atts && !U.IsNotFound(a) && !U.IsThrottled(a)))
      && (r.status !in {403, 404, 502} ==>
            d.Nowhere? && r.status == U.VerdictOf(d.atts, w.throttles).status
            && r.retryAfter == U.VerdictOf(d.atts, w.throttles).retryAfter)
  {
    if d.Nowhere? {
      U.ClassesExclude(d.atts, w.throttles);
    }
    hide U.VerdictOf, U.IsThrottled, U.IsNotFound;
  }

  // ---------------------------------------------------------------- re-checks

  /** The CVE re-check of this row is due in the flight of `w`, and the policy refuses. */
  predicate CveRefuses(cfg: Config, w: World, e: Entry) {
    CveDue(cfg, e, w.clock(Recheck)) && w.cve.Some? && !Policy.Decide(cfg.policy.value, w.ref, w.cve.value).allowed
  }

  /** The antivirus re-check is due in it, and malware is detected. */
  predicate AvRefuses(cfg: Config, w: World, e: Entry) { AvDue(cfg, e, w.clock(Recheck)) && w.av.Detects() }

  /** The request hits this row, clean and with a gate due, and leads the re-check flight. */
  predicate LeadsRecheck(cfg: Config, w: World, e: Entry, store: Store) {
    && w.flight.Lead? && w.ref in w.interfere(HitGet, store) && w.interfere(HitGet, store)[w.ref] == e
    && e.clean && !Fresh(cfg, e, w.clock(HitGet))
  }

  /** A re-check that refuses, and no other, is answered 403 without bytes and with the refusing gate's reason; and the
      row is gone from the cache, whatever others did meanwhile, unless the invalidation failed. */
  lemma RefusedRecheckEvicts(cfg: Config, w: World, e: Entry, store: Store)
    requires LeadsRecheck(cfg, w, e, store)
    ensures var (r, after) := Handle(cfg, w, store);
      && (r.status == 403 <==> CveRefuses(cfg, w, e) || AvRefuses(cfg, w, e))
      && (r.status == 403 ==>
            && r.body.None? && r.verdict == "BLOCK"
            && (if CveRefuses(cfg, w, e) then
                  r.gate == "cve" && r.reason == Policy.Decide(cfg.policy.value, w.ref, w.cve.value).reason
                else r.gate == "malware" && r.reason == MALWARE_FOUND)
            && (!w.drop.Kept? ==> w.ref !in after))
  {
    hide Policy.Decide;
  }

  /** Undisturbed, a re-check that does not refuse changes nothing in the cache but the times of the gates that were due
      and passed, to the second of the flight; one that failed, was incomplete or could not be marked leaves them. */
  lemma PassedRecheckMovesItsStamp(cfg: Config, w: World, e: Entry, store: Store)
    requires LeadsRecheck(cfg, w, e, store) && forall p, s: Store :: w.interfere(p, s) == s
    requires !CveRefuses(cfg, w, e) && !AvRefuses(cfg, w, e)
    ensures var t := w.clock(Recheck);
      var cveMoves := CveDue(cfg, e, t) && w.cve.Some? && !w.cveMarkFails;
      var avMoves := AvDue(cfg, e, t) && w.av.Passes() && !w.avMarkFails;
      Handle(cfg, w, store).1
      == store[w.ref := e.(cveCheck := if cveMoves then WholeSeconds(t) else e.cveCheck,
                           avCheck := if avMoves then WholeSeconds(t) else e.avCheck)]
  {
    hide Policy.Decide;
  }

  /** So after a pass the gate is not due again until its TTL has run out, counted from that second. */
  lemma PassedGateRests(cfg: Config, w: World, e: Entry, store: Store, later: int)
    requires LeadsRecheck(cfg, w, e, store) && forall p, s: Store :: w.interfere(p, s) == s
    requires !CveRefuses(cfg, w, e) && !AvRefuses(cfg, w, e)
    ensures var t, after := w.clock(Recheck), Handle(cfg, w, store).1;
      && w.ref in after
      && (CveDue(cfg, e, t) && w.cve.Some? && !w.cveMarkFails ==>
            (CveDue(cfg, after[w.ref], later) <==> later - WholeSeconds(t) > cfg.cveTtl))
      && (AvDue(cfg, e, t) && w.av.Passes() && !w.avMarkFails ==>
            (AvDue(cfg, after[w.ref], later) <==> later - WholeSeconds(t) > cfg.avTtl))
  {
    PassedRecheckMovesItsStamp(cfg, w, e, store);
    hide Handle;
  }

  /** A hit on a row that is not clean is refused, and one with no gate due leaves the cache alone. */
  lemma OtherHits(cfg: Config, w: World, store: Store)
    requires w.ref in w.interfere(HitGet, store)
    ensures var e := w.interfere(HitGet, store)[w.ref];
      var (r, after) := Handle(cfg, w, store);
      && (!e.clean ==> r == Block(403, "cache", "scan_failed") && after == w.interfere(HitGet, store))
      && (e.clean && Fresh(cfg, e, w.clock(HitGet)) ==> after == w.interfere(OpenHit, w.interfere(HitGet, store)))
  {
  }

  /** Bytes served are those in the cache under this reference when the answer is given, as long as it is still there; a
      hit says that it comes from the cache. */
  lemma ServedBytesAreTheCached(cfg: Config, w: World, store: Store)
    ensures var (r, after) := Handle(cfg, w, store);
      r.body.Some? ==>
        && (w.ref in after ==> r.body.value == after[w.ref].bytes)
        && (w.ref in w.interfere(HitGet, store) ==>
              r.verdict == "CACHE" && r.gate == "cache" && r.reason == "cache_hit")
  {
    RefusalHasNoBody(cfg, w);
    hide Vet, RunRechecks;
  }

  /** The supply chain lets the date pass that is known before the download. */
  predicate EarlyPass(cfg: Config, w: World) {
    cfg.deferred || (w.metadata.Published? && w.filter(w.metadata.at).allowed)
  }

  /** What failed decides how a request that is not cached fails, in the order of the gates. */
  lemma FailuresHaveTheirStatus(cfg: Config, w: World, store: Store)
    requires w.ref !in w.interfere(HitGet, store)
    ensures var r, d := Handle(cfg, w, store).0, Fetch(w.mirrors, []);
      var cvePass := EarlyPass(cfg, w) && (cfg.cveEnabled ==> CvePassed(cfg, w));
      && (!cfg.deferred && w.metadata.Unpublished? ==>
            var v := U.VerdictOf(w.metadata.atts, w.throttles);
            r.verdict == "ERROR" && r.status == (if v.ok then v.status else 502))
      && (EarlyPass(cfg, w) && cfg.cveEnabled && w.cve.None? ==> r == Error(503, "cve", "cve_scan_error"))
      && (cvePass && w.mirrors == [] ==> r == Error(500, "supply", "no_upstream_configured"))
      && (cvePass && w.mirrors != [] && !d.Got? ==> r == DownloadFailure(w, d))
      && (cvePass && d.Got? && !Held(cfg, w, d) && cfg.avEnabled && w.av.Failed? ==>
            r == Error(503, "malware", "av_scan_error"))
      && (d.Got? && EveryGatePasses(cfg, w, d) && r.body.None? ==> r.verdict == "ERROR" && r.status == 500)
  {
    VettedFailures(cfg, w);
    AdmittedIff(cfg, w);
    hide Vet, Fetch, EveryGatePasses, U.VerdictOf, CvePassed, DownloadFailure, Held;
  }

  lemma VettedFailures(cfg: Config, w: World)
    ensures var v, d := Vet(cfg, w), Fetch(w.mirrors, []);
      var cvePass := EarlyPass(cfg, w) && (cfg.cveEnabled ==> CvePassed(cfg, w));
      && (!cfg.deferred && w.metadata.Unpublished? ==>
            var t := U.VerdictOf(w.metadata.atts, w.throttles);
            v.Turned? && v.response.verdict == "ERROR" && v.response.status == (if t.ok then t.status else 502))
      && (EarlyPass(cfg, w) && cfg.cveEnabled && w.cve.None? ==> v == Turned(Error(503, "cve", "cve_scan_error")))
      && (cvePass && w.mirrors == [] ==> v == Turned(Error(500, "supply", "no_upstream_configured")))
      && (cvePass && w.mirrors != [] && !d.Got? ==> v == Turned(DownloadFailure(w, d)))
      && (cvePass && d.Got? && !Held(cfg, w, d) && cfg.avEnabled && w.av.Failed? ==>
            v == Turned(Error(503, "malware", "av_scan_error")))
  {
    FetchFindsMirror(w.mirrors, []);
    hide Fetch, U.VerdictOf, Policy.Decide, DownloadFailure;
  }
}
