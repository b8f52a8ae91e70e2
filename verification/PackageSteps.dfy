/** The package gate one store access at a time: where a request stands, what its next access does, and that run by
    itself it is the request of `PackageGate.Handle`. */
module PackageSteps {
  import opened Domain
  import Policy
  import opened PackageGate

  /** The access a request makes next, with what it has learnt so far. */
  datatype Local =
    | AtHit
    | AtMarkCve(e: Entry)
    | AtMarkAv(e: Entry)
    | AtEvict(e: Entry, outcome: Outcome)
    | AtWait(e: Entry)
    | AtOpen(point: Point, e: Entry, pass: Response)
    | AtPut(bytes: string, reason: string)
    | AtGet(reason: string)
    | Answered(response: Response)

  function PointOf(l: Local): Point
    requires !l.Answered?
  {
    match l
    case AtHit => HitGet
    case AtMarkCve(_) => MarkCve
    case AtMarkAv(_) => MarkAv
    case AtEvict(_, _) => Evict
    case AtWait(_) => Waited
    case AtOpen(p, _, _) => p
    case AtPut(_, _) => StorePut
    case AtGet(_) => ServeGet
  }

  /** How many accesses are left, at most. */
  function Left(l: Local): nat {
    match l
    case AtHit => 4
    case AtMarkCve(_) => 3
    case AtMarkAv(_) => 2
    case AtEvict(_, _) => 1
    case AtWait(_) => 2
    case AtOpen(_, _, _) => 1
    case AtPut(_, _) => 3
    case AtGet(_) => 2
    case Answered(_) => 0
  }

  // ---------------------------------------------------------------- what is decided between accesses

  function OpenCached(e: Entry): Local { AtOpen(OpenHit, e, CACHE_HIT) }

  function AvFrom(cfg: Config, w: World, e: Entry): (l: Local)
    ensures Left(l) <= 2
  {
    if !AvDue(cfg, e, w.clock(Recheck)) || w.av.Failed? || w.av.incomplete then OpenCached(e)
    else if w.av.clean then AtMarkAv(e)
    else AtEvict(e, MalwareBlock)
  }

  function CveFrom(cfg: Config, w: World, e: Entry): (l: Local)
    ensures Left(l) <= 3
  {
    if !CveDue(cfg, e, w.clock(Recheck)) || w.cve.None? then AvFrom(cfg, w, e)
    else
      var d := Policy.Decide(cfg.policy.value, w.ref, w.cve.value);
      if d.allowed then AtMarkCve(e) else AtEvict(e, CveBlock(d))
  }

  function AfterVet(cfg: Config, w: World): (l: Local)
    ensures Left(l) <= 3
  {
    match Vet(cfg, w)
    case Turned(r) => Answered(r)
    case Admitted(bytes, reason) => AtPut(bytes, reason)
  }

  predicate Due(cfg: Config, w: World, e: Entry) { CveDue(cfg, e, w.clock(HitGet)) || AvDue(cfg, e, w.clock(HitGet)) }

  /** The way on from the cache lookup. */
  function AfterHit(cfg: Config, w: World, found: Option<Entry>): (l: Local)
    ensures Left(l) <= 3
  {
    match found
    case None => AfterVet(cfg, w)
    case Some(e) =>
      if !e.clean then Answered(Block(403, "cache", "scan_failed"))
      else if !Due(cfg, w, e) then OpenCached(e)
      else if w.flight.Lead? then CveFrom(cfg, w, e)
      else AtWait(e)
  }

  /** The way on from a flight that has ended. */
  function AfterFlight(e: Entry, outcome: Option<Outcome>): (l: Local)
    ensures Left(l) <= 1
  {
    if outcome.Some? then Answered(OutcomeResponse(outcome.value)) else OpenCached(e)
  }

  function AfterPut(l: Local, stored: bool): Local
    requires l.AtPut?
  {
    if stored then AtGet(l.reason) else Answered(Error(500, "cache", "cache_error"))
  }

  function AfterGet(cfg: Config, l: Local, found: Option<Entry>): Local
    requires l.AtGet?
  {
    if found.None? then Answered(Error(500, "cache", "cache_error"))
    else AtOpen(OpenMiss, found.value, Response(200, "PASS", DeepestGate(cfg), l.reason, None, 0))
  }

  function AfterOpen(l: Local, bytes: Option<string>): Local
    requires l.AtOpen?
  {
    Answered(if bytes.Some? then l.pass.(body := bytes) else Error(500, "cache", "cache_read_error"))
  }

  /** The row that a write is to leave. */
  function Written(w: World, bytes: string): Entry {
    Entry(bytes, true, WholeSeconds(w.clock(StorePut)), WholeSeconds(w.clock(StorePut)))
  }

  // ---------------------------------------------------------------- one access

  function PutStore(store: Store, ref: PackageRef, e: Entry, answer: PutAnswer): Store {
    match answer
    case Stored => store[ref := e]
    case Refused => store
    case Lost => store - {ref}
    case Botched(behind) =>
      if ref in store then store[ref := store[ref].(bytes := e.bytes)]
      else if behind.Some? then store[ref := behind.value.(bytes := e.bytes)]
      else store
  }

  function Next(cfg: Config, w: World, l: Local, store: Store): (r: (Local, Store))
    requires !l.Answered?
    ensures Left(r.0) < Left(l)
  {
    var found := if w.ref in store then Some(store[w.ref]) else None;
    var t := WholeSeconds(w.clock(Recheck));
    match l
    case AtHit => (AfterHit(cfg, w, found), store)
    case AtMarkCve(e) =>
      (AvFrom(cfg, w, e),
       if w.cveMarkFails || found.None? then store else store[w.ref := found.value.(cveCheck := t)])
    case AtMarkAv(e) =>
      (OpenCached(e), if w.avMarkFails || found.None? then store else store[w.ref := found.value.(avCheck := t)])
    case AtEvict(_, o) => (Answered(OutcomeResponse(o)), if w.drop.Kept? then store else store - {w.ref})
    case AtWait(e) => (AfterFlight(e, if w.flight.Follow? then w.flight.outcome else None), store)
    case AtOpen(_, e, _) =>
      (AfterOpen(l, if !w.opens then None else Some(if found.Some? then found.value.bytes else e.bytes)), store)
    case AtPut(bytes, _) => (AfterPut(l, w.put.Stored?), PutStore(store, w.ref, Written(w, bytes), w.put))
    case AtGet(_) => (AfterGet(cfg, l, found), store)
  }

  // ---------------------------------------------------------------- one request alone is Handle

  /** The request from here on, others acting before each of its accesses. */
  function Drive(cfg: Config, w: World, l: Local, store: Store): (Response, Store)
    decreases Left(l)
  {
    if l.Answered? then (l.response, store)
    else
      var (next, after) := Next(cfg, w, l, w.interfere(PointOf(l), store));
      Drive(cfg, w, next, after)
  }

  lemma DriveOnce(cfg: Config, w: World, l: Local, store: Store)
    requires !l.Answered?
    ensures Drive(cfg, w, l, store)
      == var (next, after) := Next(cfg, w, l, w.interfere(PointOf(l), store));
           Drive(cfg, w, next, after)
  {
    hide Next;
  }

  lemma DriveAnswered(cfg: Config, w: World, r: Response, store: Store)
    ensures Drive(cfg, w, Answered(r), store) == (r, store)
  {
  }

  lemma DriveOpen(cfg: Config, w: World, p: Point, e: Entry, pass: Response, store: Store)
    ensures Drive(cfg, w, AtOpen(p, e, pass), store) == Serve(w, p, e, pass, store)
  {
    DriveOnce(cfg, w, AtOpen(p, e, pass), store);
    hide Drive;
    var (r, after) := Serve(w, p, e, pass, store);
    DriveAnswered(cfg, w, r, after);
  }

  /** What a request does with the outcome of a flight. */
  function AfterOutcome(w: World, e: Entry, r: (Option<Outcome>, Store)): (Response, Store) {
    if r.0.Some? then (OutcomeResponse(r.0.value), r.1) else Serve(w, OpenHit, e, CACHE_HIT, r.1)
  }

  lemma DriveEvict(cfg: Config, w: World, e: Entry, o: Outcome, store: Store)
    ensures Drive(cfg, w, AtEvict(e, o), store) == (OutcomeResponse(o), DropEntry(w, store))
  {
    DriveOnce(cfg, w, AtEvict(e, o), store);
    DriveAnswered(cfg, w, OutcomeResponse(o), DropEntry(w, store));
    hide Drive;
  }

  lemma DriveAv(cfg: Config, w: World, e: Entry, store: Store)
    ensures Drive(cfg, w, AvFrom(cfg, w, e), store) == AfterOutcome(w, e, RecheckAv(cfg, w, e, store))
  {
    hide Drive, Serve, OutcomeResponse, DropEntry;
    DriveEvict(cfg, w, e, MalwareBlock, store);
    DriveOpen(cfg, w, OpenHit, e, CACHE_HIT, store);
    DriveOnce(cfg, w, AtMarkAv(e), store);
    DriveOpen(cfg, w, OpenHit, e, CACHE_HIT, MarkAvEntry(w, store));
  }

  lemma DriveCve(cfg: Config, w: World, e: Entry, store: Store)
    ensures Drive(cfg, w, CveFrom(cfg, w, e), store) == AfterOutcome(w, e, RunRechecks(cfg, w, e, store))
  {
    hide Drive, Serve, OutcomeResponse, DropEntry, RecheckAv, AvFrom;
    DriveAv(cfg, w, e, store);
    DriveOnce(cfg, w, AtMarkCve(e), store);
    DriveAv(cfg, w, e, MarkCveEntry(w, store));
    if w.cve.Some? && cfg.policy.Some? {
      DriveEvict(cfg, w, e, CveBlock(Policy.Decide(cfg.policy.value, w.ref, w.cve.value)), store);
    }
  }

  lemma DriveHit(cfg: Config, w: World, e: Entry, store: Store)
    ensures Drive(cfg, w, AfterHit(cfg, w, Some(e)), store) == Hit(cfg, w, e, store)
  {
    hide Drive, Serve, RunRechecks, OutcomeResponse, CveFrom, CveDue, AvDue;
    DriveAnswered(cfg, w, Block(403, "cache", "scan_failed"), store);
    DriveOpen(cfg, w, OpenHit, e, CACHE_HIT, store);
    DriveCve(cfg, w, e, store);
    if w.flight.Follow? {
      var after := w.interfere(Waited, store);
      DriveOnce(cfg, w, AtWait(e), store);
      DriveOpen(cfg, w, OpenHit, e, CACHE_HIT, after);
      if w.flight.outcome.Some? {
        DriveAnswered(cfg, w, OutcomeResponse(w.flight.outcome.value), after);
      }
    }
  }

  lemma DriveMiss(cfg: Config, w: World, store: Store)
    ensures Drive(cfg, w, AfterHit(cfg, w, None), store) == Miss(cfg, w, store)
  {
    hide Drive, Serve, Vet;
    var r := Vet(cfg, w);
    if r.Turned? {
      DriveAnswered(cfg, w, r.response, store);
    } else {
      var stored := StoreEntry(w, r.bytes, store);
      DriveOnce(cfg, w, AtPut(r.bytes, r.reason), store);
      assert Next(cfg, w, AtPut(r.bytes, r.reason), w.interfere(StorePut, store)).1 == stored;
      hide StoreEntry, PutStore;
      DriveGet(cfg, w, r.reason, stored);
      DriveAnswered(cfg, w, Error(500, "cache", "cache_error"), stored);
    }
  }

  lemma DriveGet(cfg: Config, w: World, reason: string, stored: Store)
    ensures var after := w.interfere(ServeGet, stored);
      Drive(cfg, w, AtGet(reason), stored)
      == if w.ref !in after then (Error(500, "cache", "cache_error"), after)
         else Serve(w, OpenMiss, after[w.ref], Response(200, "PASS", DeepestGate(cfg), reason, None, 0), after)
  {
    hide Drive, Serve;
    var after := w.interfere(ServeGet, stored);
    DriveOnce(cfg, w, AtGet(reason), stored);
    DriveAnswered(cfg, w, Error(500, "cache", "cache_error"), after);
    if w.ref in after {
      DriveOpen(cfg, w, OpenMiss, after[w.ref], Response(200, "PASS", DeepestGate(cfg), reason, None, 0), after);
    }
  }

  /** Taken access by access, with others acting in between, a request is `Handle`. */
  lemma DriveIsHandle(cfg: Config, w: World, store: Store)
    ensures Drive(cfg, w, AtHit, store) == Handle(cfg, w, store)
  {
    var seen := w.interfere(HitGet, store);
    DriveOnce(cfg, w, AtHit, store);
    DriveMiss(cfg, w, seen);
    if w.ref in seen {
      DriveHit(cfg, w, seen[w.ref], seen);
    }
    hide Drive, Hit, Miss, AfterHit;
  }
}
