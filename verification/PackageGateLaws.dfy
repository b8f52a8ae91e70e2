/** What every run of the package handler keeps in its cache, and what it takes to be served. */
module PackageGateLaws {
  import opened Domain
  import Policy
  import U = Upstream
  import opened PackageGate

  // ---------------------------------------------------------------- every row was admitted

  /** In this request the bytes cleared every configured gate, whichever way round they ran. */
  predicate Cleared(cfg: Config, w: World, ref: PackageRef, bytes: string) {
    && w.ref == ref
    && (cfg.deferred || w.metadata.Published?)
    && (exists m :: m in w.mirrors && m.Whole? && m.bytes == bytes
          && w.filter(if cfg.deferred then m.publishedAt else w.metadata.at).allowed)
    && (cfg.cveEnabled ==> CvePassed(cfg, w))
    && (cfg.avEnabled ==> w.av.Passes())
  }

  predicate CvePassed(cfg: Config, w: World) {
    w.cve.Some? && (cfg.policy.Some? ==> Policy.Decide(cfg.policy.value, w.ref, w.cve.value).allowed)
  }

  ghost predicate WasCleared(cfg: Config, h: iset<World>, ref: PackageRef, bytes: string) {
    exists w: World :: w in h && Cleared(cfg, w, ref, bytes)
  }

  ghost predicate PutAt(cfg: Config, w: World, ref: PackageRef, t: int) {
    w.ref == ref && WholeSeconds(w.clock(StorePut)) == t && exists bytes :: Cleared(cfg, w, ref, bytes)
  }

  predicate CveRecheckedAt(cfg: Config, w: World, ref: PackageRef, t: int) {
    w.ref == ref && WholeSeconds(w.clock(Recheck)) == t && CvePassed(cfg, w)
  }

  predicate AvRecheckedAt(w: World, ref: PackageRef, t: int) {
    w.ref == ref && WholeSeconds(w.clock(Recheck)) == t && w.av.Passes()
  }

  /** A check time is the second of an admitting write, or of a re-check that passed. */
  ghost predicate CveStampSound(cfg: Config, h: iset<World>, ref: PackageRef, t: int) {
    exists w: World :: w in h && (PutAt(cfg, w, ref, t) || CveRecheckedAt(cfg, w, ref, t))
  }

  ghost predicate AvStampSound(cfg: Config, h: iset<World>, ref: PackageRef, t: int) {
    exists w: World :: w in h && (PutAt(cfg, w, ref, t) || AvRecheckedAt(w, ref, t))
  }

  ghost predicate EntrySound(cfg: Config, h: iset<World>, ref: PackageRef, e: Entry) {
    && e.clean && WasCleared(cfg, h, ref, e.bytes)
    && CveStampSound(cfg, h, ref, e.cveCheck) && AvStampSound(cfg, h, ref, e.avCheck)
  }

  ghost predicate Sound(cfg: Config, h: iset<World>, store: Store) {
    forall ref | ref in store :: EntrySound(cfg, h, ref, store[ref])
  }

  /** A request of the run whose neighbours keep the store sound; a row that a botched write brings back was a sound
      one. */
  ghost predicate Admissible(cfg: Config, h: iset<World>, w: World) {
    && w in h
    && (forall p, s :: Sound(cfg, h, s) ==> Sound(cfg, h, w.interfere(p, s)))
    && (w.put.Botched? && w.put.behind.Some? ==> EntrySound(cfg, h, w.ref, w.put.behind.value))
  }

  lemma {:induction false} FetchFindsMirror(mirrors: seq<Mirror>, atts: seq<U.Attempt>)
    ensures var d := Fetch(mirrors, atts);
      d.Got? ==> Whole(d.bytes, d.publishedAt) in mirrors
    decreases |mirrors|
  {
    if mirrors != [] {
      assert mirrors == [mirrors[0]] + mirrors[1..];
      if mirrors[0].NotServed? {
        FetchFindsMirror(mirrors[1..], atts + [mirrors[0].attempt]);
      }
    }
  }

  lemma VettedIsCleared(cfg: Config, w: World)
    ensures var r := Vet(cfg, w);
      r.Admitted? ==> Cleared(cfg, w, w.ref, r.bytes)
  {
    FetchFindsMirror(w.mirrors, []);
  }

  lemma MarksKeepSound(cfg: Config, h: iset<World>, w: World, store: Store)
    requires Admissible(cfg, h, w) && Sound(cfg, h, store)
    ensures CvePassed(cfg, w) ==> Sound(cfg, h, MarkCveEntry(w, store))
    ensures w.av.Passes() ==> Sound(cfg, h, MarkAvEntry(w, store))
    ensures Sound(cfg, h, DropEntry(w, store))
  {
    assert Sound(cfg, h, w.interfere(MarkCve, store)) && Sound(cfg, h, w.interfere(MarkAv, store));
    assert Sound(cfg, h, w.interfere(Evict, store));
    var t := WholeSeconds(w.clock(Recheck));
    if CvePassed(cfg, w) {
      assert CveRecheckedAt(cfg, w, w.ref, t);
    }
    if w.av.Passes() {
      assert AvRecheckedAt(w, w.ref, t);
    }
  }

  lemma RechecksKeepSound(cfg: Config, h: iset<World>, w: World, e: Entry, store: Store)
    requires Admissible(cfg, h, w) && Sound(cfg, h, store)
    ensures Sound(cfg, h, RunRechecks(cfg, w, e, store).1)
  {
    MarksKeepSound(cfg, h, w, store);
    var next := RecheckCve(cfg, w, e, store).1;
    assert Sound(cfg, h, next);
    MarksKeepSound(cfg, h, w, next);
  }

  lemma StoreKeepsSound(cfg: Config, h: iset<World>, w: World, bytes: string, store: Store)
    requires Admissible(cfg, h, w) && Sound(cfg, h, store) && Cleared(cfg, w, w.ref, bytes)
    ensures Sound(cfg, h, StoreEntry(w, bytes, store))
  {
    var now := w.interfere(StorePut, store);
    assert Sound(cfg, h, now);
    assert WasCleared(cfg, h, w.ref, bytes);
    PutIsSound(cfg, h, w, bytes);
    var behind := if w.put.Botched? then w.put.behind else None;
    var there := if w.ref in now then Some(now[w.ref]) else behind;
    assert there.Some? ==> EntrySound(cfg, h, w.ref, there.value);
    hide Sound, EntrySound, WasCleared, Cleared, Admissible;
    match w.put
    case Stored =>
      var t := WholeSeconds(w.clock(StorePut));
      OneMoreIsSound(cfg, h, now, w.ref, Entry(bytes, true, t, t));
    case Botched(_) =>
      if there.Some? {
        OtherBytesAreSound(cfg, h, w.ref, there.value, bytes);
        OneMoreIsSound(cfg, h, now, w.ref, there.value.(bytes := bytes));
      }
    case Lost => OneLessIsSound(cfg, h, now, w.ref);
    case Refused =>
  }

  lemma OneMoreIsSound(cfg: Config, h: iset<World>, store: Store, ref: PackageRef, e: Entry)
    requires Sound(cfg, h, store) && EntrySound(cfg, h, ref, e)
    ensures Sound(cfg, h, store[ref := e])
  {
    hide EntrySound;
  }

  lemma OneLessIsSound(cfg: Config, h: iset<World>, store: Store, ref: PackageRef)
    requires Sound(cfg, h, store)
    ensures Sound(cfg, h, store - {ref})
  {
    hide EntrySound;
  }

  lemma OtherBytesAreSound(cfg: Config, h: iset<World>, ref: PackageRef, e: Entry, bytes: string)
    requires EntrySound(cfg, h, ref, e) && WasCleared(cfg, h, ref, bytes)
    ensures EntrySound(cfg, h, ref, e.(bytes := bytes))
  {
    hide WasCleared, CveStampSound, AvStampSound;
  }

  lemma PutIsSound(cfg: Config, h: iset<World>, w: World, bytes: string)
    requires w in h && Cleared(cfg, w, w.ref, bytes)
    ensures var t := WholeSeconds(w.clock(StorePut)); EntrySound(cfg, h, w.ref, Entry(bytes, true, t, t))
  {
    assert PutAt(cfg, w, w.ref, WholeSeconds(w.clock(StorePut)));
    hide Cleared;
  }

  lemma HitIsSound(cfg: Config, h: iset<World>, w: World, e: Entry, store: Store)
    requires Admissible(cfg, h, w) && Sound(cfg, h, store) && EntrySound(cfg, h, w.ref, e)
    ensures var (r, after) := Hit(cfg, w, e, store);
      Sound(cfg, h, after) && (r.body.Some? ==> WasCleared(cfg, h, w.ref, r.body.value))
  {
    RechecksKeepSound(cfg, h, w, e, store);
    assert Sound(cfg, h, w.interfere(Waited, store));
    ServingIsSound(cfg, h, w, OpenHit, e, CACHE_HIT, store);
    ServingIsSound(cfg, h, w, OpenHit, e, CACHE_HIT, RunRechecks(cfg, w, e, store).1);
    ServingIsSound(cfg, h, w, OpenHit, e, CACHE_HIT, w.interfere(Waited, store));
    hide Serve, RunRechecks, Sound;
  }

  lemma ServingIsSound(cfg: Config, h: iset<World>, w: World, p: Point, e: Entry, pass: Response, store: Store)
    requires Admissible(cfg, h, w) && Sound(cfg, h, store) && EntrySound(cfg, h, w.ref, e)
    ensures var (r, after) := Serve(w, p, e, pass, store);
      Sound(cfg, h, after) && (r.body.Some? ==> WasCleared(cfg, h, w.ref, r.body.value))
  {
    var now := w.interfere(p, store);
    assert Sound(cfg, h, now);
    assert w.ref in now ==> EntrySound(cfg, h, w.ref, now[w.ref]);
    hide WasCleared, CveStampSound, AvStampSound;
  }

  lemma MissIsSound(cfg: Config, h: iset<World>, w: World, store: Store)
    requires Admissible(cfg, h, w) && Sound(cfg, h, store)
    ensures var (r, after) := Miss(cfg, w, store);
      Sound(cfg, h, after) && (r.body.Some? ==> WasCleared(cfg, h, w.ref, r.body.value))
  {
    VettedIsCleared(cfg, w);
    var r := Vet(cfg, w);
    if r.Admitted? {
      StoreKeepsSound(cfg, h, w, r.bytes, store);
      var after := w.interfere(ServeGet, StoreEntry(w, r.bytes, store));
      assert Sound(cfg, h, after);
      assert w.ref in after ==> EntrySound(cfg, h, w.ref, after[w.ref]);
      if w.ref in after {
        ServingIsSound(cfg, h, w, OpenMiss, after[w.ref], Response(200, "PASS", DeepestGate(cfg), r.reason, None, 0),
                       after);
      }
      hide Serve, StoreEntry, EntrySound, Sound;
    }
  }

  /** One request keeps the cache sound, and the bytes it serves were cleared by some request of the run. */
  lemma HandleIsSound(cfg: Config, h: iset<World>, w: World, store: Store)
    requires Admissible(cfg, h, w) && Sound(cfg, h, store)
    ensures Sound(cfg, h, Handle(cfg, w, store).1)
    ensures var r := Handle(cfg, w, store).0;
      r.body.Some? ==> WasCleared(cfg, h, w.ref, r.body.value)
  {
    var seen := w.interfere(HitGet, store);
    assert Sound(cfg, h, seen);
    if w.ref in seen {
      assert EntrySound(cfg, h, w.ref, seen[w.ref]);
      HitIsSound(cfg, h, w, seen[w.ref], seen);
      hide Hit, CveStampSound, AvStampSound;
    } else {
      MissIsSound(cfg, h, w, seen);
      hide Miss;
    }
  }

  /** Over every run from an empty cache, each row was put after every configured gate passed on its bytes,
      and each check time is that of such a put or of a passed re-check. */
  lemma {:induction false} RunIsSound(cfg: Config, h: iset<World>, requests: seq<World>)
    requires forall w | w in requests :: Admissible(cfg, h, w)
    ensures Sound(cfg, h, Run(cfg, requests))
  {
    if requests != [] {
      var n := |requests| - 1;
      RunIsSound(cfg, h, requests[..n]);
      HandleIsSound(cfg, h, requests[n], Run(cfg, requests[..n]));
    }
  }

  // ---------------------------------------------------------------- hits

  /** The CVE gate is satisfied at this moment: not due, or re-run in this flight without a refusal. */
  predicate CveSatisfied(cfg: Config, w: World, e: Entry, now: int) {
    !CveDue(cfg, e, now) || w.cve.None? || Policy.Decide(cfg.policy.value, w.ref, w.cve.value).allowed
  }

  predicate AvSatisfied(cfg: Config, w: World, e: Entry, now: int) {
    !AvDue(cfg, e, now) || w.av.Failed? || w.av.incomplete || w.av.clean
  }

  predicate Fresh(cfg: Config, e: Entry, now: int) { !CveDue(cfg, e, now) && !AvDue(cfg, e, now) }

  predicate Settled(cfg: Config, w: World, e: Entry, now: int) {
    CveSatisfied(cfg, w, e, now) && AvSatisfied(cfg, w, e, now)
  }

  /** The re-check flight lets the row be served: led by this request it finds each gate within its TTL, or its
      re-check passed, failed or was incomplete; joined, it ended so for its leader. */
  predicate FlightLetsServe(cfg: Config, w: World, e: Entry) {
    match w.flight
    case Lead => Settled(cfg, w, e, w.clock(Recheck))
    case Follow(outcome) => outcome.None?
  }

  /** A hit is answered from the cache exactly when the row is clean and readable and either no gate was due or the
      flight lets it be served. */
  lemma HitIsServedIff(cfg: Config, w: World, e: Entry, store: Store)
    ensures var r := Hit(cfg, w, e, store).0;
      && (r.body.Some? <==> (e.clean && w.opens && (Fresh(cfg, e, w.clock(HitGet)) || FlightLetsServe(cfg, w, e))))
      && (r.body.Some? ==> r.status == 200)
  {
  }

  /** In the flight that `l` led, each gate that is due on `e` at `now` was run, and did not refuse. */
  predicate RanWithoutRefusal(cfg: Config, l: World, led: Entry, e: Entry, now: int) {
    && (CveDue(cfg, e, now) ==> CveDue(cfg, led, l.clock(Recheck)) && CveSatisfied(cfg, l, led, l.clock(Recheck)))
    && (AvDue(cfg, e, now) ==> AvDue(cfg, led, l.clock(Recheck)) && AvSatisfied(cfg, l, led, l.clock(Recheck)))
  }

  /** Each gate that is due on `e` at `now` was due for the flight. */
  predicate DueInFlight(cfg: Config, l: World, led: Entry, e: Entry, now: int) {
    && (CveDue(cfg, e, now) ==> CveDue(cfg, led, l.clock(Recheck)))
    && (AvDue(cfg, e, now) ==> AvDue(cfg, led, l.clock(Recheck)))
  }

  /** What a hit promises beyond being served: each gate that was due at the hit has been run and did not refuse. A
      request that leads the flight keeps this promise, as time passing until the flight only makes more gates due. */
  lemma LeaderRunsItsGates(cfg: Config, w: World, e: Entry, store: Store)
    requires w.clock(HitGet) <= w.clock(Recheck) && w.flight.Lead?
    ensures Hit(cfg, w, e, store).0.body.Some? ==> RanWithoutRefusal(cfg, w, e, e, w.clock(HitGet))
  {
  }

  /** One that joins, on the row `e` it read itself, a flight that `l` leads on the row `led`, keeps it exactly when
      each gate due at its hit was due when that flight began. */
  lemma JoinedHitRunsItsGatesIff(cfg: Config, f: World, l: World, e: Entry, led: Entry, store: Store, others: Store)
    requires f.ref == l.ref && f.flight == Follow(RunRechecks(cfg, l, led, others).0)
    requires !Fresh(cfg, e, f.clock(HitGet)) && Hit(cfg, f, e, store).0.body.Some?
    ensures RanWithoutRefusal(cfg, l, led, e, f.clock(HitGet)) <==> DueInFlight(cfg, l, led, e, f.clock(HitGet))
  {
  }

  /** On one row that is: no TTL runs out between the start of the flight and the joining hit; joining late is not
      enough to break the promise. */
  lemma JoinedInTime(cfg: Config, f: World, l: World, e: Entry)
    ensures f.clock(HitGet) <= l.clock(Recheck) ==> DueInFlight(cfg, l, e, e, f.clock(HitGet))
    ensures DueInFlight(cfg, l, e, e, f.clock(HitGet)) <==>
      && !(CveDue(cfg, e, f.clock(HitGet)) && l.clock(Recheck) - e.cveCheck <= cfg.cveTtl)
      && !(AvDue(cfg, e, f.clock(HitGet)) && l.clock(Recheck) - e.avCheck <= cfg.avTtl)
  {
  }

  function Asking(flight: Flight, av: AvAnswer, hit: int, recheck: int): World {
    World(PackageRef("npm", "a", "1", ""), Published(0), (t: int) => FilterResult(true, "ok", 0, 0), Some([]), [], av,
          Stored, Dropped, false, false, true, None, (p: Point) => if p.HitGet? then hit else recheck, flight,
          (p: Point, s: Store) => s)
  }

  /** The CVE re-check is due for the leader and passes. The antivirus TTL runs out while it is under way, another
      request joins and is served, and nobody scans the bytes, which hold what the engine would have detected. */
  lemma JoinedHitSkipsAGate(cfg: Config, e: Entry)
    requires cfg == Config(false, true, Some(Policy.Engine(Critical, true, {}, {})), true, 10, 20)
    requires e == Entry("x", true, 0, 0)
    ensures var l := Asking(Lead, Scanned(false, false), 15, 15);
      var store := map[l.ref := e];
      var f := Asking(Follow(RunRechecks(cfg, l, e, store).0), Scanned(false, false), 21, 21);
      && Hit(cfg, l, e, store).0.body == Some("x") && Hit(cfg, f, e, store).0.body == Some("x")
      && AvDue(cfg, e, f.clock(HitGet)) && !AvDue(cfg, e, l.clock(Recheck)) && f.av.Detects()
      && !RanWithoutRefusal(cfg, l, e, e, f.clock(HitGet))
  {
  }

  // ---------------------------------------------------------------- eager and deferred order

  /** With one publish date the two orders of the supply-chain check admit the same bytes, and refuse the same
      requests; only which refusal is reported may differ. */
  lemma OrderDoesNotMatter(cfg: Config, w: World)
    requires var d := Fetch(w.mirrors, []); w.metadata.Published? && (d.Got? ==> d.publishedAt == w.metadata.at)
    ensures var eager, late := Vet(cfg.(deferred := false), w), Vet(cfg.(deferred := true), w);
      (eager.Admitted? <==> late.Admitted?) && (eager.Admitted? ==> eager == late)
  {
  }

  lemma RefusalsAreErrors(cfg: Config, w: World)
    requires U.Faithful(w.throttles) && Vet(cfg, w).Turned?
    ensures Vet(cfg, w).response.body.None? && Vet(cfg, w).response.status >= 403
  {
    if w.metadata.Unpublished? {
      U.ClassesExclude(w.metadata.atts, w.throttles);
    }
    if Fetch(w.mirrors, []).Nowhere? {
      U.ClassesExclude(Fetch(w.mirrors, []).atts, w.throttles);
    }
  }

  /** A failing dependency is never answered with bytes: no metadata, no scan answer, no mirror, no cache write. */
  lemma FailsClosed(cfg: Config, w: World, store: Store)
    requires U.Faithful(w.throttles)
    requires w.ref !in w.interfere(HitGet, store)
    requires (!cfg.deferred && w.metadata.Unpublished?) || (cfg.cveEnabled && w.cve.None?)
             || (cfg.avEnabled && !w.av.Passes()) || !w.put.Stored? || !Fetch(w.mirrors, []).Got?
    ensures var r := Handle(cfg, w, store).0;
      r.body.None? && r.status >= 403
  {
    if Vet(cfg, w).Turned? {
      RefusalsAreErrors(cfg, w);
    }
  }
}
