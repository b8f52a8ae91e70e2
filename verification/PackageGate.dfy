/** The package download gate: the cache-hit path with its lazy re-checks, and the pipeline that admits a
    package on a miss. A `World` holds everything one request is told from outside. */
module PackageGate {
  import opened Domain
  import Policy
  import U = Upstream

  const SECOND := 1_000_000_000

  /** A cached artifact; check times are whole seconds, in nanoseconds. */
  datatype Entry = Entry(bytes: string, clean: bool, cveCheck: int, avCheck: int)
  type Store = map<PackageRef, Entry>

  /** `deferred`: the publish date comes with the download, so the supply-chain check runs after it. */
  datatype Config = Config(deferred: bool, cveEnabled: bool, policy: Option<Policy.Engine>, avEnabled: bool,
                           cveTtl: int, avTtl: int)

  datatype Point = HitGet | Recheck | Evict | MarkCve | MarkAv | Waited | OpenHit | StorePut | ServeGet | OpenMiss

  /** What one mirror answers a download with; `NotServed` covers every other status and transport failure. */
  datatype Mirror = NotServed(attempt: U.Attempt) | TooLarge | Whole(bytes: string, publishedAt: int)
  datatype Download = Got(bytes: string, publishedAt: int) | Oversized | Nowhere(atts: seq<U.Attempt>)
  datatype Metadata = Published(at: int) | Unpublished(atts: seq<U.Attempt>)

  /** How a cache write ends; `Botched` leaves the new file under an old row, which may be one (`behind`) that had gone
      out of sight with its own file. */
  datatype PutAnswer = Stored | Refused | Lost | Botched(behind: Option<Entry>)
  datatype DropAnswer = Dropped | Kept | DroppedWithError
  datatype Outcome = CveBlock(decision: Decision) | MalwareBlock
  datatype Flight = Lead | Follow(outcome: Option<Outcome>)

  datatype World = World(
    ref: PackageRef,
    metadata: Metadata,
    filter: int -> FilterResult,
    cve: Option<seq<Finding>>,
    mirrors: seq<Mirror>,
    av: AvAnswer,
    put: PutAnswer, drop: DropAnswer, cveMarkFails: bool, avMarkFails: bool, opens: bool,
    throttles: Option<U.Lookup>,
    clock: Point -> int,
    flight: Flight,
    interfere: (Point, Store) -> Store)

  datatype Response = Response(status: int, verdict: string, gate: string, reason: string, body: Option<string>,
                               retryAfter: int)

  function Error(status: int, gate: string, reason: string): Response {
    Response(status, "ERROR", gate, reason, None, 0)
  }
  function Block(status: int, gate: string, reason: string): Response {
    Response(status, "BLOCK", gate, reason, None, 0)
  }

  function WholeSeconds(t: int): int { t / SECOND * SECOND }

  // ---------------------------------------------------------------- cache hit

  predicate CveDue(cfg: Config, e: Entry, now: int) {
    cfg.cveTtl > 0 && cfg.cveEnabled && cfg.policy.Some? && now - e.cveCheck > cfg.cveTtl
  }

  predicate AvDue(cfg: Config, e: Entry, now: int) {
    cfg.avTtl > 0 && cfg.avEnabled && now - e.avCheck > cfg.avTtl
  }

  function DropEntry(w: World, store: Store): Store {
    var now := w.interfere(Evict, store);
    if w.drop.Kept? then now else now - {w.ref}
  }

  function MarkCveEntry(w: World, store: Store): Store {
    var now := w.interfere(MarkCve, store);
    if w.cveMarkFails || w.ref !in now then now
    else now[w.ref := now[w.ref].(cveCheck := WholeSeconds(w.clock(Recheck)))]
  }

  function MarkAvEntry(w: World, store: Store): Store {
    var now := w.interfere(MarkAv, store);
    if w.avMarkFails || w.ref !in now then now
    else now[w.ref := now[w.ref].(avCheck := WholeSeconds(w.clock(Recheck)))]
  }

  function RecheckCve(cfg: Config, w: World, e: Entry, store: Store): (Option<Outcome>, Store) {
    if !CveDue(cfg, e, w.clock(Recheck)) || w.cve.None? then (None, store)
    else
      var d := Policy.Decide(cfg.policy.value, w.ref, w.cve.value);
      if d.allowed then (None, MarkCveEntry(w, store)) else (Some(CveBlock(d)), DropEntry(w, store))
  }

  function RecheckAv(cfg: Config, w: World, e: Entry, store: Store): (Option<Outcome>, Store) {
    if !AvDue(cfg, e, w.clock(Recheck)) then (None, store)
    else
      match w.av
      case Failed => (None, store)
      case Scanned(clean, incomplete) =>
        if incomplete then (None, store)
        else if clean then (None, MarkAvEntry(w, store))
        else (Some(MalwareBlock), DropEntry(w, store))
  }

  function RunRechecks(cfg: Config, w: World, e: Entry, store: Store): (Option<Outcome>, Store) {
    var (cve, next) := RecheckCve(cfg, w, e, store);
    if cve.Some? then (cve, next) else RecheckAv(cfg, w, e, next)
  }

  function OutcomeResponse(o: Outcome): Response {
    match o
    case CveBlock(d) => Block(403, "cve", d.reason)
    case MalwareBlock => Block(403, "malware", MALWARE_FOUND)
  }

  /** The artifact is opened some time after its row was read; a write in between has replaced the file. */
  function Serve(w: World, p: Point, e: Entry, pass: Response, store: Store): (Response, Store) {
    var now := w.interfere(p, store);
    var bytes := if w.ref in now then now[w.ref].bytes else e.bytes;
    (if w.opens then pass.(body := Some(bytes)) else Error(500, "cache", "cache_read_error"), now)
  }

  const CACHE_HIT := Response(200, "CACHE", "cache", "cache_hit", None, 0)

  function Hit(cfg: Config, w: World, e: Entry, store: Store): (Response, Store) {
    if !e.clean then (Block(403, "cache", "scan_failed"), store)
    else if !CveDue(cfg, e, w.clock(HitGet)) && !AvDue(cfg, e, w.clock(HitGet)) then
      Serve(w, OpenHit, e, CACHE_HIT, store)
    else
      var (outcome, after) :=
        match w.flight
        case Lead => RunRechecks(cfg, w, e, store)
        case Follow(o) => (o, w.interfere(Waited, store));
      if outcome.Some? then (OutcomeResponse(outcome.value), after) else Serve(w, OpenHit, e, CACHE_HIT, after)
  }

  // ---------------------------------------------------------------- cache miss

  function Fetch(mirrors: seq<Mirror>, atts: seq<U.Attempt>): Download
    decreases |mirrors|
  {
    if mirrors == [] then Nowhere(atts)
    else
      match mirrors[0]
      case Whole(bytes, publishedAt) => Got(bytes, publishedAt)
      case TooLarge => Oversized
      case NotServed(attempt) => Fetch(mirrors[1..], atts + [attempt])
  }

  function SupplyHold(w: World, publishedAt: int): Option<Response> {
    var r := w.filter(publishedAt);
    if r.allowed then None else Some(Block(423, "supply", r.reason))
  }

  function MetadataCheck(cfg: Config, w: World): Option<Response> {
    if cfg.deferred then None
    else
      match w.metadata
      case Published(at) => SupplyHold(w, at)
      case Unpublished(atts) =>
        var v := U.VerdictOf(atts, w.throttles);
        Some(if v.ok then Response(v.status, "ERROR", "supply", "upstream_throttled", None, v.retryAfter)
             else Error(502, "supply", "upstream_metadata_unavailable"))
  }

  function CveCheck(cfg: Config, w: World): Option<Response> {
    if !cfg.cveEnabled then None
    else if w.cve.None? then Some(Error(503, "cve", "cve_scan_error"))
    else if cfg.policy.None? then None
    else
      var d := Policy.Decide(cfg.policy.value, w.ref, w.cve.value);
      if d.allowed then None else Some(Block(403, "cve", d.reason))
  }

  function DownloadFailure(w: World, d: Download): Response
    requires !d.Got?
  {
    if d.Oversized? then Error(403, "cache", "artifact_too_large")
    else if d.atts != [] && (forall a | a in d.atts :: U.IsNotFound(a)) then Error(404, "supply", "artifact_not_found")
    else
      var v := U.VerdictOf(d.atts, w.throttles);
      if v.ok then Response(v.status, "ERROR", "supply", "upstream_throttled", None, v.retryAfter)
      else Error(502, "supply", "upstream_unavailable")
  }

  function AvCheck(cfg: Config, w: World): Option<Response> {
    if !cfg.avEnabled then None
    else
      match w.av
      case Failed => Some(Error(503, "malware", "av_scan_error"))
      case Scanned(clean, incomplete) =>
        if incomplete then Some(Block(403, "malware", SCAN_INCOMPLETE))
        else if clean then None
        else Some(Block(403, "malware", MALWARE_FOUND))
  }

  /** The date the supply-chain filter judged. */
  function JudgedDate(cfg: Config, w: World, d: Download): int
    requires d.Got?
  {
    if cfg.deferred || w.metadata.Unpublished? then d.publishedAt else w.metadata.at
  }

  function DeepestGate(cfg: Config): string {
    if cfg.avEnabled then "malware" else if cfg.cveEnabled && cfg.policy.Some? then "cve" else "supply"
  }

  /** Everything up to the cache write: the refusal, or the bytes to admit. */
  function Vet(cfg: Config, w: World): Result {
    var early := MetadataCheck(cfg, w);
    if early.Some? then Turned(early.value)
    else
      var cve := CveCheck(cfg, w);
      if cve.Some? then Turned(cve.value)
      else if w.mirrors == [] then Turned(Error(500, "supply", "no_upstream_configured"))
      else
        var d := Fetch(w.mirrors, []);
        if !d.Got? then Turned(DownloadFailure(w, d))
        else
          var late := if cfg.deferred then SupplyHold(w, d.publishedAt) else None;
          if late.Some? then Turned(late.value)
          else
            var av := AvCheck(cfg, w);
            if av.Some? then Turned(av.value) else Admitted(d.bytes, w.filter(JudgedDate(cfg, w, d)).reason)
  }

  datatype Result = Turned(response: Response) | Admitted(bytes: string, reason: string)

  function StoreEntry(w: World, bytes: string, store: Store): Store {
    var now := w.interfere(StorePut, store);
    match w.put
    case Stored => now[w.ref := Entry(bytes, true, WholeSeconds(w.clock(StorePut)), WholeSeconds(w.clock(StorePut)))]
    case Refused => now
    case Lost => now - {w.ref}
    case Botched(behind) =>
      if w.ref in now then now[w.ref := now[w.ref].(bytes := bytes)]
      else if behind.Some? then now[w.ref := behind.value.(bytes := bytes)]
      else now
  }

  function Miss(cfg: Config, w: World, store: Store): (Response, Store) {
    match Vet(cfg, w)
    case Turned(r) => (r, store)
    case Admitted(bytes, reason) =>
      var stored := StoreEntry(w, bytes, store);
      if !w.put.Stored? then (Error(500, "cache", "cache_error"), stored)
      else
        var after := w.interfere(ServeGet, stored);
        if w.ref !in after then (Error(500, "cache", "cache_error"), after)
        else Serve(w, OpenMiss, after[w.ref], Response(200, "PASS", DeepestGate(cfg), reason, None, 0), after)
  }

  function Handle(cfg: Config, w: World, store: Store): (Response, Store) {
    var seen := w.interfere(HitGet, store);
    if w.ref in seen then Hit(cfg, w, seen[w.ref], seen) else Miss(cfg, w, seen)
  }

  function Run(cfg: Config, requests: seq<World>): Store {
    if requests == [] then map[]
    else
      var n := |requests| - 1;
      Handle(cfg, requests[n], Run(cfg, requests[..n])).1
  }

  // ---------------------------------------------------------------- the handler

  class Handler {
    const cfg: Config
    var store: Store

    constructor (cfg: Config)
      ensures this.cfg == cfg && store == map[]
    {
      this.cfg := cfg;
      store := map[];
    }

    method DownloadFromUpstreams(mirrors: seq<Mirror>) returns (d: Download)
      ensures d == Fetch(mirrors, [])
    {
      var atts: seq<U.Attempt> := [];
      for i := 0 to |mirrors|
        invariant Fetch(mirrors[i..], atts) == Fetch(mirrors, [])
      {
        match mirrors[i] {
          case Whole(bytes, publishedAt) => return Got(bytes, publishedAt);
          case TooLarge => return Oversized;
          case NotServed(attempt) => atts := atts + [attempt];
        }
        assert mirrors[i..][1..] == mirrors[i + 1..];
      }
      return Nowhere(atts);
    }

    method EvictRechecked(w: World)
      modifies this`store
      ensures store == DropEntry(w, old(store))
    {
      store := w.interfere(Evict, store);
      if !w.drop.Kept? {
        store := store - {w.ref};
      }
    }

    method RecheckFlight(w: World, e: Entry) returns (o: Option<Outcome>)
      modifies this`store
      ensures (o, store) == RunRechecks(cfg, w, e, old(store))
    {
      var now := w.clock(Recheck);
      if cfg.cveTtl > 0 && cfg.cveEnabled && cfg.policy.Some? && now - e.cveCheck > cfg.cveTtl {
        if w.cve.Some? {
          var d := Policy.Evaluate(cfg.policy.value, w.ref, w.cve.value);
          if !d.allowed {
            EvictRechecked(w);
            return Some(CveBlock(d));
          }
          store := w.interfere(MarkCve, store);
          if !w.cveMarkFails && w.ref in store {
            store := store[w.ref := store[w.ref].(cveCheck := WholeSeconds(now))];
          }
        }
      }
      if cfg.avTtl > 0 && cfg.avEnabled && now - e.avCheck > cfg.avTtl {
        if w.av.Scanned? && !w.av.incomplete {
          if !w.av.clean {
            EvictRechecked(w);
            return Some(MalwareBlock);
          }
          store := w.interfere(MarkAv, store);
          if !w.avMarkFails && w.ref in store {
            store := store[w.ref := store[w.ref].(avCheck := WholeSeconds(now))];
          }
        }
      }
      return None;
    }

    method ServeHit(w: World, e: Entry) returns (r: Response)
      modifies this`store
      ensures (r, store) == Hit(cfg, w, e, old(store))
    {
      if !e.clean {
        return Block(403, "cache", "scan_failed");
      }
      if CveDue(cfg, e, w.clock(HitGet)) || AvDue(cfg, e, w.clock(HitGet)) {
        var outcome: Option<Outcome>;
        match w.flight {
          case Lead => outcome := RecheckFlight(w, e);
          case Follow(o) =>
            store := w.interfere(Waited, store);
            outcome := o;
        }
        if outcome.Some? {
          return OutcomeResponse(outcome.value);
        }
      }
      r := ServeFromCache(w, OpenHit, e, CACHE_HIT);
    }

    method ServeFromCache(w: World, p: Point, e: Entry, pass: Response) returns (r: Response)
      modifies this`store
      ensures (r, store) == Serve(w, p, e, pass, old(store))
    {
      store := w.interfere(p, store);
      if !w.opens {
        return Error(500, "cache", "cache_read_error");
      }
      return pass.(body := Some(if w.ref in store then store[w.ref].bytes else e.bytes));
    }

    method ServeHttp(w: World) returns (r: Response)
      modifies this`store
      ensures (r, store) == Handle(cfg, w, old(store))
    {
      store := w.interfere(HitGet, store);
      if w.ref in store {
        r := ServeHit(w, store[w.ref]);
        return;
      }
      var refusal := MetadataCheck(cfg, w);
      if refusal.Some? {
        return refusal.value;
      }
      if cfg.cveEnabled {
        if w.cve.None? {
          return Error(503, "cve", "cve_scan_error");
        }
        if cfg.policy.Some? {
          var d := Policy.Evaluate(cfg.policy.value, w.ref, w.cve.value);
          if !d.allowed {
            return Block(403, "cve", d.reason);
          }
        }
      }
      if |w.mirrors| == 0 {
        return Error(500, "supply", "no_upstream_configured");
      }
      var d := DownloadFromUpstreams(w.mirrors);
      if !d.Got? {
        return DownloadFailure(w, d);
      }
      if cfg.deferred {
        refusal := SupplyHold(w, d.publishedAt);
        if refusal.Some? {
          return refusal.value;
        }
      }
      refusal := AvCheck(cfg, w);
      if refusal.Some? {
        return refusal.value;
      }
      r := PutAndServe(w, d.bytes, w.filter(JudgedDate(cfg, w, d)).reason);
    }

    method PutAndServe(w: World, bytes: string, reason: string) returns (r: Response)
      requires Vet(cfg, w) == Admitted(bytes, reason)
      modifies this`store
      ensures (r, store) == Miss(cfg, w, old(store))
    {
      store := StoreEntry(w, bytes, store);
      if !w.put.Stored? {
        return Error(500, "cache", "cache_error");
      }
      store := w.interfere(ServeGet, store);
      if w.ref !in store {
        return Error(500, "cache", "cache_error");
      }
      r := ServeFromCache(w, OpenMiss, store[w.ref], Response(200, "PASS", DeepestGate(cfg), reason, None, 0));
    }
  }
}
