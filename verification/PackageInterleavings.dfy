/** Any number of package requests on one cache of index rows and files. The single operations of their accesses are
    interleaved in any way, each may fail, rows and files are removed in between, and requests join the re-check flights
    of others: nothing is assumed of what happens beside a request. */
module PackageInterleavings {
  import opened Domain
  import Policy
  import opened PackageGate
  import opened PackageGateLaws
  import opened PackageSteps
  import opened PackageTables

  // ---------------------------------------------------------------- what the two tables are evidence of

  ghost predicate StampSound(cfg: Config, h: iset<World>, ref: PackageRef, s: Stamp) {
    s.clean && CveStampSound(cfg, h, ref, s.cveCheck) && AvStampSound(cfg, h, ref, s.avCheck)
  }

  ghost predicate TablesSound(cfg: Config, h: iset<World>, t: Tables) {
    && (forall ref | ref in t.index :: StampSound(cfg, h, ref, t.index[ref]))
    && (forall ref | ref in t.files :: WasCleared(cfg, h, ref, t.files[ref]))
  }

  // ---------------------------------------------------------------- what a request knows

  /** In this flight neither gate refused the row. */
  predicate Unrefused(cfg: Config, l: World, led: Entry) { Settled(cfg, l, led, l.clock(Recheck)) }

  /** The outcome of the flight that `l` leads on this row; the cache plays no part in it. */
  function OutcomeOf(cfg: Config, l: World, led: Entry): Option<Outcome> { RunRechecks(cfg, l, led, map[]).0 }

  /** A request led a flight on a row of which some gate was due, and this was its outcome. */
  predicate Led(cfg: Config, w: World, led: Entry, outcome: Option<Outcome>) {
    w.flight.Lead? && Due(cfg, w, led) && OutcomeOf(cfg, w, led) == outcome
  }

  /** What is true whenever a request stands at this access, whatever has become of the cache meanwhile. */
  ghost predicate Known(cfg: Config, h: iset<World>, w: World, l: Local) {
    match l
    case AtMarkCve(e) =>
      w.flight.Lead? && Due(cfg, w, e) && CvePassed(cfg, w) && OutcomeOf(cfg, w, e) == RecheckAv(cfg, w, e, map[]).0
    case AtMarkAv(e) => w.av.Passes() && Led(cfg, w, e, None)
    case AtEvict(e, o) => Led(cfg, w, e, Some(o))
    case AtWait(e) => w.flight.Follow? && Due(cfg, w, e)
    case AtOpen(p, e, pass) =>
      pass.body.None? && (p == OpenHit && Due(cfg, w, e) && w.flight.Lead? ==> Led(cfg, w, e, None))
    case AtPut(bytes, _) => Cleared(cfg, w, w.ref, bytes)
    case Answered(r) => r.body.Some? ==> WasCleared(cfg, h, w.ref, r.body.value)
    case _ => true
  }

  ghost predicate FlownKnown(cfg: Config, w: World, flown: Option<Flown>) {
    flown.Some? ==> Led(cfg, w, flown.value.led, flown.value.outcome)
  }

  /** A flight that ended in a refusal has answered the request that led it. */
  predicate RefusalAnswers(p: Place) {
    p.flown.Some? && p.flown.value.outcome.Some? ==> p.at == Answered(OutcomeResponse(p.flown.value.outcome.value))
  }

  ghost predicate PlaceKnown(cfg: Config, h: iset<World>, w: World, p: Place) {
    && Fits(p) && Known(cfg, h, w, p.at) && FlownKnown(cfg, w, p.flown) && RefusalAnswers(p)
    && (p.stage.Checking? ==> StampSound(cfg, h, w.ref, p.stage.stamp))
  }

  lemma OutcomeIgnoresStore(cfg: Config, l: World, led: Entry, store: Store)
    ensures RunRechecks(cfg, l, led, store).0 == OutcomeOf(cfg, l, led)
    ensures RecheckAv(cfg, l, led, store).0 == RecheckAv(cfg, l, led, map[]).0
  {
    hide MarkCveEntry, MarkAvEntry, DropEntry, CveDue, AvDue;
  }

  lemma UnrefusedIff(cfg: Config, l: World, led: Entry)
    ensures OutcomeOf(cfg, l, led).None? <==> Unrefused(cfg, l, led)
  {
    hide MarkCveEntry, MarkAvEntry, DropEntry;
  }

  lemma OnwardKnown(cfg: Config, h: iset<World>, w: World, p: Place, next: Local)
    requires FlownKnown(cfg, w, p.flown) && Known(cfg, h, w, next) && (p.at.AtEvict? ==> Known(cfg, h, w, p.at))
    requires RefusalAnswers(p) && !p.at.Answered? && (p.at.AtEvict? ==> next == Answered(OutcomeResponse(p.at.outcome)))
    ensures PlaceKnown(cfg, h, w, Onward(cfg, w, p, next))
  {
    hide WasCleared, Cleared, Due, OutcomeOf;
  }

  lemma AvFromKnown(cfg: Config, h: iset<World>, w: World, e: Entry)
    requires w.flight.Lead? && Due(cfg, w, e) && OutcomeOf(cfg, w, e) == RecheckAv(cfg, w, e, map[]).0
    ensures Known(cfg, h, w, AvFrom(cfg, w, e))
  {
    hide OutcomeOf, Due, MarkAvEntry, DropEntry;
  }

  lemma CveFromKnown(cfg: Config, h: iset<World>, w: World, e: Entry)
    requires w.flight.Lead? && Due(cfg, w, e)
    ensures Known(cfg, h, w, CveFrom(cfg, w, e))
  {
    OutcomeIgnoresStore(cfg, w, e, MarkCveEntry(w, map[]));
    if !CveDue(cfg, e, w.clock(Recheck)) || w.cve.None? {
      AvFromKnown(cfg, h, w, e);
    }
    hide AvFrom, RecheckAv, MarkCveEntry, DropEntry, Due;
  }

  lemma AfterHitKnown(cfg: Config, h: iset<World>, w: World, found: Option<Entry>)
    requires w in h
    ensures Known(cfg, h, w, AfterHit(cfg, w, found))
  {
    match found
    case None =>
      VettedIsCleared(cfg, w);
      ResponsesHaveNoBody(cfg, w);
      hide Vet, Cleared, WasCleared;
    case Some(e) =>
      if w.flight.Lead? && Due(cfg, w, e) {
        CveFromKnown(cfg, h, w, e);
      }
      hide CveFrom, Due, OutcomeOf;
  }

  lemma ResponsesHaveNoBody(cfg: Config, w: World)
    ensures Vet(cfg, w).Turned? ==> Vet(cfg, w).response.body.None?
  {
    hide Fetch;
  }

  // ---------------------------------------------------------------- one operation

  lemma RowKeepsSound(cfg: Config, h: iset<World>, t: Tables, ref: PackageRef, s: Stamp)
    requires TablesSound(cfg, h, t) && StampSound(cfg, h, ref, s)
    ensures TablesSound(cfg, h, t.(index := t.index[ref := s]))
  {
    hide StampSound, WasCleared;
  }

  lemma FileKeepsSound(cfg: Config, h: iset<World>, t: Tables, ref: PackageRef, bytes: string)
    requires TablesSound(cfg, h, t) && WasCleared(cfg, h, ref, bytes)
    ensures TablesSound(cfg, h, t.(files := t.files[ref := bytes]))
  {
    hide StampSound, WasCleared;
  }

  lemma RemovalKeepsSound(cfg: Config, h: iset<World>, t: Tables, rows: set<PackageRef>, files: set<PackageRef>)
    requires TablesSound(cfg, h, t)
    ensures TablesSound(cfg, h, Tables(t.index - rows, t.files - files))
  {
    hide StampSound, WasCleared;
  }

  lemma RemovedOne(cfg: Config, h: iset<World>, t: Tables, ref: PackageRef)
    requires TablesSound(cfg, h, t)
    ensures TablesSound(cfg, h, Removed(t, ref)) && TablesSound(cfg, h, Deleted(t, ref))
  {
    RemovalKeepsSound(cfg, h, t, {}, {ref});
    RemovalKeepsSound(cfg, h, t, {ref}, {});
    assert t.index - {} == t.index && t.files - {} == t.files;
    hide TablesSound;
  }

  lemma LookKeepsSound(cfg: Config, h: iset<World>, w: World, p: Place, t: Tables, ok: bool)
    requires w in h && TablesSound(cfg, h, t) && PlaceKnown(cfg, h, w, p) && Looks(p.at)
    ensures var (next, after) := LookOp(cfg, w, p, t, ok);
      TablesSound(cfg, h, after) && PlaceKnown(cfg, h, w, next)
  {
    assert w.ref in t.index ==> StampSound(cfg, h, w.ref, t.index[w.ref]);
    hide StampSound, TablesSound, FlownKnown, Known, AfterLook, Onward;
    RemovedOne(cfg, h, t, w.ref);
    LookedKnown(cfg, h, w, p, None);
    if p.stage.Checking? && w.ref in t.files {
      LookedKnown(cfg, h, w, p, Some(EntryOf(p.stage.stamp, t.files[w.ref])));
    }
  }

  lemma LookedKnown(cfg: Config, h: iset<World>, w: World, p: Place, found: Option<Entry>)
    requires w in h && FlownKnown(cfg, w, p.flown) && RefusalAnswers(p) && Looks(p.at)
    ensures PlaceKnown(cfg, h, w, Onward(cfg, w, p, AfterLook(cfg, w, p.at, found)))
  {
    AfterHitKnown(cfg, h, w, found);
    hide AfterHit, FlownKnown, OutcomeOf, WasCleared;
    OnwardKnown(cfg, h, w, p, AfterLook(cfg, w, p.at, found));
  }

  lemma PutKeepsSound(cfg: Config, h: iset<World>, w: World, p: Place, t: Tables, ok: bool)
    requires w in h && TablesSound(cfg, h, t) && PlaceKnown(cfg, h, w, p) && p.at.AtPut?
    ensures var (next, after) := PutOp(cfg, w, p, t, ok);
      TablesSound(cfg, h, after) && PlaceKnown(cfg, h, w, next)
  {
    WrittenIsSound(cfg, h, w, p.at.bytes);
    var e := Written(w, p.at.bytes);
    hide StampSound, TablesSound, FlownKnown, Onward, Cleared, WasCleared, OutcomeOf, Written;
    RowKeepsSound(cfg, h, t, w.ref, StampOf(e));
    FileKeepsSound(cfg, h, t, w.ref, e.bytes);
    RemovedOne(cfg, h, t, w.ref);
    OnwardKnown(cfg, h, w, p, AfterPut(p.at, true));
    OnwardKnown(cfg, h, w, p, AfterPut(p.at, false));
  }

  lemma WrittenIsSound(cfg: Config, h: iset<World>, w: World, bytes: string)
    requires w in h && Cleared(cfg, w, w.ref, bytes)
    ensures WasCleared(cfg, h, w.ref, Written(w, bytes).bytes) && StampSound(cfg, h, w.ref, StampOf(Written(w, bytes)))
  {
    assert PutAt(cfg, w, w.ref, WholeSeconds(w.clock(StorePut)));
    hide Cleared;
  }

  lemma EvictKeepsSound(cfg: Config, h: iset<World>, w: World, p: Place, t: Tables, ok: bool)
    requires TablesSound(cfg, h, t) && PlaceKnown(cfg, h, w, p) && p.at.AtEvict?
    ensures var (next, after) := EvictOp(cfg, w, p, t, ok);
      TablesSound(cfg, h, after) && PlaceKnown(cfg, h, w, next)
  {
    assert OutcomeResponse(p.at.outcome).body.None?;
    hide TablesSound, FlownKnown, Onward, OutcomeResponse;
    RemovedOne(cfg, h, t, w.ref);
    OnwardKnown(cfg, h, w, p, Answered(OutcomeResponse(p.at.outcome)));
  }

  lemma OpenKeepsSound(cfg: Config, h: iset<World>, w: World, p: Place, t: Tables, ok: bool)
    requires TablesSound(cfg, h, t) && PlaceKnown(cfg, h, w, p) && p.at.AtOpen?
    ensures var (next, after) := MarkOp(cfg, w, p, t, ok);
      TablesSound(cfg, h, after) && PlaceKnown(cfg, h, w, next)
  {
    var bytes := if ok && w.ref in t.files then Some(t.files[w.ref]) else None;
    assert Known(cfg, h, w, AfterOpen(p.at, bytes)) by {
      hide WasCleared, StampSound, OutcomeOf, FlownKnown;
    }
    hide TablesSound, FlownKnown, Onward, Known, AfterOpen;
    OnwardKnown(cfg, h, w, p, AfterOpen(p.at, bytes));
  }

  lemma MarkCveKeepsSound(cfg: Config, h: iset<World>, w: World, p: Place, t: Tables, ok: bool)
    requires w in h && TablesSound(cfg, h, t) && PlaceKnown(cfg, h, w, p) && p.at.AtMarkCve?
    ensures var (next, after) := MarkOp(cfg, w, p, t, ok);
      TablesSound(cfg, h, after) && PlaceKnown(cfg, h, w, next)
  {
    var now := WholeSeconds(w.clock(Recheck));
    assert CvePassed(cfg, w);
    assert CveRecheckedAt(cfg, w, w.ref, now);
    AvFromKnown(cfg, h, w, p.at.e);
    if w.ref in t.index {
      CveStampKept(cfg, h, w.ref, t.index[w.ref], w, now);
      RowKeepsSound(cfg, h, t, w.ref, t.index[w.ref].(cveCheck := now));
    }
    hide TablesSound, FlownKnown, Onward, Known, AvFrom, StampSound;
    OnwardKnown(cfg, h, w, p, AvFrom(cfg, w, p.at.e));
  }

  lemma CveStampKept(cfg: Config, h: iset<World>, ref: PackageRef, s: Stamp, w: World, now: int)
    requires w in h && StampSound(cfg, h, ref, s) && CveRecheckedAt(cfg, w, ref, now)
    ensures StampSound(cfg, h, ref, s.(cveCheck := now))
  {
    hide AvStampSound, CveRecheckedAt, PutAt;
  }

  lemma MarkAvKeepsSound(cfg: Config, h: iset<World>, w: World, p: Place, t: Tables, ok: bool)
    requires w in h && TablesSound(cfg, h, t) && PlaceKnown(cfg, h, w, p) && p.at.AtMarkAv?
    ensures var (next, after) := MarkOp(cfg, w, p, t, ok);
      TablesSound(cfg, h, after) && PlaceKnown(cfg, h, w, next)
  {
    var now := WholeSeconds(w.clock(Recheck));
    assert AvRecheckedAt(w, w.ref, now);
    MarkedAvKnown(cfg, h, w, p.at.e);
    if w.ref in t.index {
      AvStampKept(cfg, h, w.ref, t.index[w.ref], w, now);
      RowKeepsSound(cfg, h, t, w.ref, t.index[w.ref].(avCheck := now));
    }
    hide TablesSound, FlownKnown, Onward, Known, OpenCached, StampSound;
    OnwardKnown(cfg, h, w, p, OpenCached(p.at.e));
  }

  lemma MarkedAvKnown(cfg: Config, h: iset<World>, w: World, e: Entry)
    requires Known(cfg, h, w, AtMarkAv(e))
    ensures Known(cfg, h, w, OpenCached(e))
  {
    hide Led;
  }

  lemma AvStampKept(cfg: Config, h: iset<World>, ref: PackageRef, s: Stamp, w: World, now: int)
    requires w in h && StampSound(cfg, h, ref, s) && AvRecheckedAt(w, ref, now)
    ensures StampSound(cfg, h, ref, s.(avCheck := now))
  {
    hide CveStampSound, AvRecheckedAt, PutAt;
  }

  /** One operation, on sound tables, leaves them sound, and the request knows what it needs for its next one. */
  lemma StepKeepsSound(cfg: Config, h: iset<World>, w: World, p: Place, t: Tables, ok: bool)
    requires w in h && TablesSound(cfg, h, t) && PlaceKnown(cfg, h, w, p) && Moves(p)
    ensures var (next, after) := Micro(cfg, w, p, t, ok);
      TablesSound(cfg, h, after) && PlaceKnown(cfg, h, w, next)
  {
    if Looks(p.at) {
      LookKeepsSound(cfg, h, w, p, t, ok);
    } else if p.at.AtPut? {
      PutKeepsSound(cfg, h, w, p, t, ok);
    } else if p.at.AtEvict? {
      EvictKeepsSound(cfg, h, w, p, t, ok);
    } else if p.at.AtMarkCve? {
      MarkCveKeepsSound(cfg, h, w, p, t, ok);
    } else if p.at.AtMarkAv? {
      MarkAvKeepsSound(cfg, h, w, p, t, ok);
    } else {
      OpenKeepsSound(cfg, h, w, p, t, ok);
    }
    hide TablesSound, PlaceKnown, LookOp, PutOp, EvictOp, MarkOp;
  }

  // ---------------------------------------------------------------- any number of requests

  datatype Request = Request(world: World, place: Place)
  datatype System = System(tables: Tables, requests: seq<Request>)

  /** A request arrives, one of them makes its next operation, which may fail, request i is handed the outcome of the
      flight that request j led, or rows and files are removed. */
  datatype Move =
    | Arrive(w: World)
    | Advance(i: nat, ok: bool)
    | Share(i: nat, j: nat)
    | Remove(rows: set<PackageRef>, files: set<PackageRef>)

  /** Request i waits for a flight on the package of which j has led one to its end. */
  predicate Shares(s: System, i: nat, j: nat) {
    && i < |s.requests| && j < |s.requests| && s.requests[i].place.at.AtWait?
    && s.requests[j].place.flown.Some? && s.requests[j].world.ref == s.requests[i].world.ref
  }

  /** The request once it has been handed the outcome of the flight of request `j`. */
  function Landed(cfg: Config, t: Request, j: nat, outcome: Option<Outcome>): Request
    requires t.place.at.AtWait?
  {
    var p := Onward(cfg, t.world, t.place, AfterFlight(t.place.at.e, outcome));
    t.(place := p.(joined := Some(Joined(t.place.at.e, j))))
  }

  function Moved(cfg: Config, s: System, m: Move): System {
    match m
    case Arrive(w) => s.(requests := s.requests + [Request(w, Place(AtHit, Begin, None, None))])
    case Advance(i, ok) =>
      if i < |s.requests| && Fits(s.requests[i].place) && Moves(s.requests[i].place) then
        var t := s.requests[i];
        var (next, after) := Micro(cfg, t.world, t.place, s.tables, ok);
        System(after, s.requests[i := t.(place := next)])
      else s
    case Share(i, j) =>
      if Shares(s, i, j) then
        s.(requests := s.requests[i := Landed(cfg, s.requests[i], j, s.requests[j].place.flown.value.outcome)])
      else s
    case Remove(rows, files) => s.(tables := Tables(s.tables.index - rows, s.tables.files - files))
  }

  function Reached(cfg: Config, moves: seq<Move>): System {
    if moves == [] then System(Tables(map[], map[]), [])
    else Moved(cfg, Reached(cfg, moves[..|moves| - 1]), moves[|moves| - 1])
  }

  ghost predicate RequestSound(cfg: Config, h: iset<World>, t: Request) {
    t.world in h && PlaceKnown(cfg, h, t.world, t.place)
  }

  /** What there is to a request that does not lead: before it opens the cached file for a hit with a due gate it has
      been handed the outcome of a flight on that very row of its own; and that flight was led by a request for the same
      package to that outcome, which, when it is a refusal, is the answer. */
  predicate JoinSound(rs: seq<Request>, t: Request, cfg: Config) {
    && (t.place.at.AtOpen? && t.place.at.point == OpenHit && t.world.flight.Follow?
        && Due(cfg, t.world, t.place.at.e) ==>
          t.place.joined.Some? && t.place.joined.value.e == t.place.at.e)
    && (t.place.joined.Some? ==>
          var j := t.place.joined.value.leader;
          && Due(cfg, t.world, t.place.joined.value.e)
          && j < |rs| && rs[j].world.ref == t.world.ref && rs[j].place.flown.Some?
          && var outcome := rs[j].place.flown.value.outcome;
             outcome.Some? ==> t.place.at == Answered(OutcomeResponse(outcome.value)))
  }

  ghost predicate SystemSound(cfg: Config, h: iset<World>, s: System) {
    && TablesSound(cfg, h, s.tables)
    && (forall i | 0 <= i < |s.requests| :: RequestSound(cfg, h, s.requests[i]))
    && (forall i | 0 <= i < |s.requests| :: JoinSound(s.requests, s.requests[i], cfg))
  }

  /** An operation forgets neither the flight a request led nor the one it joined, and no request that does not lead
      gets by it to the cached file while a gate is due. */
  lemma StepKeepsHistory(cfg: Config, h: iset<World>, w: World, p: Place, t: Tables, ok: bool)
    requires PlaceKnown(cfg, h, w, p) && Moves(p)
    ensures var next := Micro(cfg, w, p, t, ok).0;
      && next.joined == p.joined && (p.flown.Some? ==> next.flown == p.flown)
      && (next.at.AtOpen? && next.at.point == OpenHit && w.flight.Follow? ==>
            next.at == p.at || !Due(cfg, w, next.at.e))
  {
    hide OutcomeOf, StampSound, FlownKnown, Vet, Due, RecheckAv;
  }

  /** Other requests only gain history. */
  ghost predicate Grown(rs: seq<Request>, later: seq<Request>) {
    |rs| <= |later| && forall j | 0 <= j < |rs| ::
      later[j].world == rs[j].world && (rs[j].place.flown.Some? ==> later[j].place.flown == rs[j].place.flown)
  }

  lemma GrownKeepsJoin(cfg: Config, rs: seq<Request>, later: seq<Request>, t: Request)
    requires Grown(rs, later) && JoinSound(rs, t, cfg)
    ensures JoinSound(later, t, cfg)
  {
    hide Due, OutcomeResponse;
  }

  lemma StepKeepsJoin(cfg: Config, h: iset<World>, rs: seq<Request>, t: Request, tables: Tables, ok: bool)
    requires RequestSound(cfg, h, t) && Moves(t.place) && JoinSound(rs, t, cfg)
    ensures JoinSound(rs, t.(place := Micro(cfg, t.world, t.place, tables, ok).0), cfg)
  {
    StepKeepsHistory(cfg, h, t.world, t.place, tables, ok);
    hide Micro, Due, OutcomeResponse, PlaceKnown;
  }

  lemma LandedIsSound(cfg: Config, h: iset<World>, s: System, i: nat, j: nat)
    requires SystemSound(cfg, h, s) && Shares(s, i, j)
    ensures var t := Landed(cfg, s.requests[i], j, s.requests[j].place.flown.value.outcome);
      RequestSound(cfg, h, t) && JoinSound(s.requests, t, cfg)
  {
    var f, outcome := s.requests[i], s.requests[j].place.flown.value.outcome;
    assert RequestSound(cfg, h, f);
    assert Known(cfg, h, f.world, AfterFlight(f.place.at.e, outcome)) by {
      hide TablesSound, Due, FlownKnown, JoinSound;
    }
    OnwardKnown(cfg, h, f.world, f.place, AfterFlight(f.place.at.e, outcome));
    hide TablesSound, Due, FlownKnown, Known, OutcomeResponse;
  }

  lemma ReplacedGrows(rs: seq<Request>, i: nat, t: Request)
    requires i < |rs| && t.world == rs[i].world && (rs[i].place.flown.Some? ==> t.place.flown == rs[i].place.flown)
    ensures Grown(rs, rs[i := t])
  {
  }

  lemma AddedGrows(rs: seq<Request>, t: Request)
    ensures Grown(rs, rs + [t])
  {
  }

  lemma ReplacedIsSound(cfg: Config, h: iset<World>, s: System, tables: Tables, i: nat, t: Request)
    requires SystemSound(cfg, h, s) && TablesSound(cfg, h, tables) && i < |s.requests|
    requires t.world == s.requests[i].world
    requires s.requests[i].place.flown.Some? ==> t.place.flown == s.requests[i].place.flown
    requires RequestSound(cfg, h, t) && JoinSound(s.requests, t, cfg)
    ensures SystemSound(cfg, h, System(tables, s.requests[i := t]))
  {
    ReplacedGrows(s.requests, i, t);
    hide TablesSound, RequestSound, JoinSound, Grown;
    var later := s.requests[i := t];
    forall k | 0 <= k < |later|
      ensures JoinSound(later, later[k], cfg)
    {
      GrownKeepsJoin(cfg, s.requests, later, later[k]);
    }
  }

  lemma ArrivedIsSound(cfg: Config, h: iset<World>, s: System, w: World)
    requires SystemSound(cfg, h, s) && w in h
    ensures SystemSound(cfg, h, Moved(cfg, s, Arrive(w)))
  {
    var t := Request(w, Place(AtHit, Begin, None, None));
    assert RequestSound(cfg, h, t) && JoinSound(s.requests, t, cfg);
    AddedGrows(s.requests, t);
    hide TablesSound, RequestSound, JoinSound, Grown;
    var later := s.requests + [t];
    forall k | 0 <= k < |later|
      ensures JoinSound(later, later[k], cfg)
    {
      GrownKeepsJoin(cfg, s.requests, later, later[k]);
    }
  }

  lemma AdvancedIsSound(cfg: Config, h: iset<World>, s: System, i: nat, ok: bool)
    requires SystemSound(cfg, h, s) && i < |s.requests| && Moves(s.requests[i].place)
    ensures SystemSound(cfg, h, Moved(cfg, s, Advance(i, ok)))
  {
    var t := s.requests[i];
    assert RequestSound(cfg, h, t) && JoinSound(s.requests, t, cfg);
    assert PlaceKnown(cfg, h, t.world, t.place) && Fits(t.place);
    StepKeepsSound(cfg, h, t.world, t.place, s.tables, ok);
    StepKeepsHistory(cfg, h, t.world, t.place, s.tables, ok);
    StepKeepsJoin(cfg, h, s.requests, t, s.tables, ok);
    var (next, after) := Micro(cfg, t.world, t.place, s.tables, ok);
    assert RequestSound(cfg, h, t.(place := next));
    hide Micro, PlaceKnown, TablesSound, JoinSound, SystemSound, Fits, Moves, RequestSound;
    ReplacedIsSound(cfg, h, s, after, i, t.(place := next));
  }

  lemma SharedIsSound(cfg: Config, h: iset<World>, s: System, i: nat, j: nat)
    requires SystemSound(cfg, h, s) && Shares(s, i, j)
    ensures SystemSound(cfg, h, Moved(cfg, s, Share(i, j)))
  {
    LandedIsSound(cfg, h, s, i, j);
    var t := Landed(cfg, s.requests[i], j, s.requests[j].place.flown.value.outcome);
    assert s.requests[i].place.flown.Some? ==> t.place.flown == s.requests[i].place.flown;
    assert TablesSound(cfg, h, s.tables);
    hide TablesSound, JoinSound, SystemSound, RequestSound;
    ReplacedIsSound(cfg, h, s, s.tables, i, t);
  }

  lemma MoveKeepsSound(cfg: Config, h: iset<World>, s: System, m: Move)
    requires SystemSound(cfg, h, s) && (m.Arrive? ==> m.w in h)
    ensures SystemSound(cfg, h, Moved(cfg, s, m))
  {
    match m
    case Arrive(w) => ArrivedIsSound(cfg, h, s, w);
    case Advance(i, ok) =>
      if i < |s.requests| && Moves(s.requests[i].place) {
        AdvancedIsSound(cfg, h, s, i, ok);
      }
      hide SystemSound, Micro;
    case Share(i, j) =>
      if Shares(s, i, j) {
        SharedIsSound(cfg, h, s, i, j);
      }
      hide SystemSound, Shares, Landed;
    case Remove(rows, files) =>
      RemovalKeepsSound(cfg, h, s.tables, rows, files);
      hide RequestSound, TablesSound, JoinSound;
  }

  lemma {:induction false} ReachedIsSound(cfg: Config, h: iset<World>, moves: seq<Move>)
    requires forall m | m in moves && m.Arrive? :: m.w in h
    ensures SystemSound(cfg, h, Reached(cfg, moves))
  {
    hide SystemSound, Moved;
    if moves == [] {
      EmptyIsSound(cfg, h);
    } else {
      var n := |moves| - 1;
      assert moves[n] in moves && forall m | m in moves[..n] :: m in moves;
      ReachedIsSound(cfg, h, moves[..n]);
      MoveKeepsSound(cfg, h, Reached(cfg, moves[..n]), moves[n]);
    }
  }

  lemma EmptyIsSound(cfg: Config, h: iset<World>)
    ensures SystemSound(cfg, h, System(Tables(map[], map[]), []))
  {
  }

  lemma ViewIsSound(cfg: Config, h: iset<World>, t: Tables)
    requires TablesSound(cfg, h, t)
    ensures Sound(cfg, h, View(t))
  {
    hide WasCleared, CveStampSound, AvStampSound;
  }

  // ---------------------------------------------------------------- what is said of every request

  /** A flight that a request led to its end without a refusal has run each gate due at its own hit. */
  ghost predicate FlightKept(cfg: Config, l: Request) {
    l.place.flown.Some? ==>
      && Led(cfg, l.world, l.place.flown.value.led, l.place.flown.value.outcome)
      && (l.place.flown.value.outcome.Some? ==>
            l.place.at == Answered(OutcomeResponse(l.place.flown.value.outcome.value)))
      && (l.place.flown.value.outcome.None? && l.world.clock(HitGet) <= l.world.clock(Recheck) ==>
            RanWithoutRefusal(cfg, l.world, l.place.flown.value.led, l.place.flown.value.led, l.world.clock(HitGet)))
  }

  /** A request `t` that joined a flight, on the row `e` that it had read, was handed the outcome which `l`, a request
      for the same package, had led it to. A refusal is its answer. Otherwise the flight has run each gate that was due
      at the joining hit exactly when each was due when the flight began. */
  ghost predicate JoinKept(cfg: Config, t: Request, e: Entry, l: Request) {
    && t.world.ref == l.world.ref && Due(cfg, t.world, e) && l.place.flown.Some?
    && var led, outcome := l.place.flown.value.led, l.place.flown.value.outcome;
       && Led(cfg, l.world, led, outcome)
       && if outcome.Some? then t.place.at == Answered(OutcomeResponse(outcome.value))
          else RanWithoutRefusal(cfg, l.world, led, e, t.world.clock(HitGet))
               <==> DueInFlight(cfg, l.world, led, e, t.world.clock(HitGet))
  }

  /** Bytes in an answer were cleared by a request of the run. A request opens the cached file for a hit only when no
      gate was due, or it has led its flight on that row, or joined one, without a refusal. */
  ghost predicate Vouched(cfg: Config, h: iset<World>, rs: seq<Request>, t: Request) {
    && (t.place.at.Answered? && t.place.at.response.body.Some? ==>
          WasCleared(cfg, h, t.world.ref, t.place.at.response.body.value))
    && (t.place.at.AtOpen? && t.place.at.point == OpenHit && Due(cfg, t.world, t.place.at.e) ==>
          if t.world.flight.Lead? then Led(cfg, t.world, t.place.at.e, None)
          else t.place.joined.Some? && t.place.joined.value.e == t.place.at.e)
    && FlightKept(cfg, t)
    && (t.place.joined.Some? ==>
          var j := t.place.joined.value; j.leader < |rs| && JoinKept(cfg, t, j.e, rs[j.leader]))
  }

  lemma FlightIsKept(cfg: Config, h: iset<World>, l: Request)
    requires RequestSound(cfg, h, l)
    ensures FlightKept(cfg, l)
  {
    if l.place.flown.Some? {
      UnrefusedIff(cfg, l.world, l.place.flown.value.led);
    }
    hide OutcomeOf, Known;
  }

  lemma JoinIsKept(cfg: Config, h: iset<World>, t: Request, l: Request)
    requires RequestSound(cfg, h, l) && t.place.joined.Some?
    requires l.world.ref == t.world.ref && Due(cfg, t.world, t.place.joined.value.e) && l.place.flown.Some?
    requires var o := l.place.flown.value.outcome; o.Some? ==> t.place.at == Answered(OutcomeResponse(o.value))
    ensures JoinKept(cfg, t, t.place.joined.value.e, l)
  {
    UnrefusedIff(cfg, l.world, l.place.flown.value.led);
    hide OutcomeOf, Known, Due;
  }

  lemma RequestIsVouched(cfg: Config, h: iset<World>, s: System, i: nat)
    requires SystemSound(cfg, h, s) && i < |s.requests|
    ensures Vouched(cfg, h, s.requests, s.requests[i])
  {
    var t := s.requests[i];
    assert RequestSound(cfg, h, t) && JoinSound(s.requests, t, cfg);
    FlightIsKept(cfg, h, t);
    if t.place.joined.Some? {
      var l := s.requests[t.place.joined.value.leader];
      assert RequestSound(cfg, h, l);
      JoinIsKept(cfg, h, t, l);
    }
    hide TablesSound, FlightKept, JoinKept, Led, WasCleared, Due, FlownKnown;
  }

  /** With the last of these moves request i was answered with the refusal of the flight it led: the move was its own,
      it tried to delete the row, and unless that failed no row is left. */
  ghost predicate RefusalDeletes(cfg: Config, moves: seq<Move>, i: nat)
    requires moves != []
  {
    var n := |moves| - 1;
    var before, after := Reached(cfg, moves[..n]), Reached(cfg, moves);
    i < |before.requests| && i < |after.requests| && !before.requests[i].place.at.Answered?
    && after.requests[i].place.at.Answered?
    && after.requests[i].place.flown.Some? && after.requests[i].place.flown.value.outcome.Some? ==>
      && moves[n].Advance? && moves[n].i == i
      && before.requests[i].place.at.AtEvict? && before.requests[i].place.stage.Deleting?
      && (moves[n].ok ==> after.requests[i].world.ref !in after.tables.index)
  }

  lemma StepDeletes(cfg: Config, h: iset<World>, w: World, p: Place, t: Tables, ok: bool)
    requires PlaceKnown(cfg, h, w, p) && Moves(p)
    ensures var (next, after) := Micro(cfg, w, p, t, ok);
      next.flown.Some? && next.flown.value.outcome.Some? ==>
        p.at.AtEvict? && p.stage.Deleting? && (ok ==> w.ref !in after.index)
  {
    hide OutcomeOf, StampSound, FlownKnown, Vet, Due, RecheckAv, OutcomeResponse;
  }

  /** So it is in every interleaving. */
  lemma RefusalsDelete(cfg: Config, h: iset<World>, moves: seq<Move>, i: nat)
    requires moves != [] && forall m | m in moves && m.Arrive? :: m.w in h
    ensures RefusalDeletes(cfg, moves, i)
  {
    var n := |moves| - 1;
    assert forall m | m in moves[..n] :: m in moves;
    ReachedIsSound(cfg, h, moves[..n]);
    var s, m := Reached(cfg, moves[..n]), moves[n];
    assert Reached(cfg, moves) == Moved(cfg, s, m);
    if i < |s.requests| && !s.requests[i].place.at.Answered? {
      assert RequestSound(cfg, h, s.requests[i]);
      MoveDeletes(cfg, h, s, m, i);
    }
    hide Reached, Moved, SystemSound, RequestSound;
  }

  lemma MoveDeletes(cfg: Config, h: iset<World>, s: System, m: Move, i: nat)
    requires i < |s.requests| && RequestSound(cfg, h, s.requests[i]) && !s.requests[i].place.at.Answered?
    ensures var after := Moved(cfg, s, m);
      i < |after.requests| &&
      var p := after.requests[i].place;
      p.at.Answered? && p.flown.Some? && p.flown.value.outcome.Some? ==>
        && m.Advance? && m.i == i && s.requests[i].place.at.AtEvict? && s.requests[i].place.stage.Deleting?
        && (m.ok ==> after.requests[i].world.ref !in after.tables.index)
  {
    if m.Advance? && m.i == i && Moves(s.requests[i].place) {
      StepDeletes(cfg, h, s.requests[i].world, s.requests[i].place, s.tables, m.ok);
    }
    hide Micro, Known, FlownKnown, StampSound, OutcomeResponse, Due;
  }

  /** However the operations of any number of requests interleave with each other and with removals, whichever of them
      fail, and whichever requests join each other's flights: the rows that can be found are sound, and every request is
      vouched for. */
  lemma EveryInterleavingIsSound(cfg: Config, h: iset<World>, moves: seq<Move>)
    requires forall m | m in moves && m.Arrive? :: m.w in h
    ensures var s := Reached(cfg, moves);
      && Sound(cfg, h, View(s.tables))
      && forall i | 0 <= i < |s.requests| :: Vouched(cfg, h, s.requests, s.requests[i])
  {
    ReachedIsSound(cfg, h, moves);
    var s := Reached(cfg, moves);
    ViewIsSound(cfg, h, s.tables);
    hide *;
    forall i | 0 <= i < |s.requests|
      ensures Vouched(cfg, h, s.requests, s.requests[i])
    {
      RequestIsVouched(cfg, h, s, i);
    }
  }
}
