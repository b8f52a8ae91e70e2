/** The Docker gate one store access at a time: where a request stands, what its next access does, and that run by
    itself it is the request of `DockerGate.Evaluate`. */
module DockerSteps {
  import opened Domain
  import Policy
  import opened DockerGate

  /** The access a request makes next, with what it has learnt so far. */
  datatype Local =
    | AtFast
    | AtFastBody(row: Row)
    | AtSlow
    | AtSlowBody(row: Row)
    | AtPass(reason: string)
    | AtPassBody(reason: string)
    | AtJoin(stale: Option<Verdict>)
    | AtLayerGet(i: nat, stale: Option<Verdict>)
    | AtLayerPut(i: nat, row: Row, outcome: LayerOutcome, mustStore: bool, stale: Option<Verdict>)
    | AtAllow(stale: Option<Verdict>)
    | AtAllowBody
    | AtBlock(verdict: Verdict, stale: Option<Verdict>)
    | AtEvict(k: nat, verdict: Verdict)
    | Finished(answer: Answer)

  function BlobsOf(w: World): seq<string> { if w.fetched.Fetched? then Blobs(w.fetched.content) else [] }

  /** The place is one that this request can be at. */
  predicate Meant(w: World, l: Local) {
    match l
    case AtFast => true
    case AtFastBody(_) => true
    case Finished(_) => true
    case AtLayerGet(i, _) => w.fetched.Fetched? && w.created.Some? && i < |BlobsOf(w)|
    case AtLayerPut(i, _, _, _, _) => w.fetched.Fetched? && w.created.Some? && i < |BlobsOf(w)|
    case AtEvict(k, _) => w.fetched.Fetched? && k < |BlobsOf(w)| && BlobsOf(w)[k] != ""
    case AtAllow(_) => w.fetched.Fetched? && w.created.Some?
    case AtAllowBody => w.fetched.Fetched? && w.created.Some?
    case AtJoin(_) => w.fetched.Fetched? && w.flight.Follow?
    case _ => w.fetched.Fetched?
  }

  function PointOf(l: Local): Point
    requires !l.Finished?
  {
    match l
    case AtFast => FastVerdict
    case AtFastBody(_) => FastBody
    case AtSlow => SlowVerdict
    case AtSlowBody(_) => SlowBody
    case AtPass(_) => VerdictPut
    case AtPassBody(_) => ServeBody
    case AtJoin(_) => Joined
    case AtLayerGet(i, _) => LayerGet(i)
    case AtLayerPut(i, _, _, _, _) => LayerPut(i)
    case AtAllow(_) => VerdictPut
    case AtAllowBody => ServeBody
    case AtBlock(_, _) => VerdictPut
    case AtEvict(k, _) => Cascade(k)
  }

  /** How many accesses are left, at most. */
  function Left(w: World, l: Local): nat
    requires Meant(w, l)
  {
    var n := |BlobsOf(w)|;
    match l
    case AtFast => 4 * n + 10
    case AtFastBody(_) => 4 * n + 9
    case AtSlow => 4 * n + 8
    case AtSlowBody(_) => 4 * n + 7
    case AtPass(_) => 2
    case AtPassBody(_) => 1
    case AtJoin(_) => 1
    case AtLayerGet(i, _) => 2 * (n - i) + n + 4
    case AtLayerPut(i, _, _, _, _) => 2 * (n - i) + n + 3
    case AtAllow(_) => n + 2
    case AtAllowBody => 1
    case AtBlock(_, _) => n + 2
    case AtEvict(k, _) => n - k
    case Finished(_) => 0
  }

  // ---------------------------------------------------------------- what is decided between accesses

  function FastLookup(cfg: Config, w: World, row: Row, body: Option<Content>): Lookup {
    var typed := body.Some? && MediaType(body.value) != "";
    var v := if typed then FromRow(row).(body := body, contentType := MediaType(body.value)) else FromRow(row);
    var servable := !v.allowed || v.body.Some?;
    if Fresh(cfg, w, FastVerdict, row) && servable then Settled(v) else Continue(if servable then Some(v) else None)
  }

  function SlowLookup(cfg: Config, w: World, row: Row, body: Option<Content>): Lookup
    requires w.fetched.Fetched?
  {
    var v := if body.Some? then FromRow(row).(body := body, contentType := w.fetched.contentType) else FromRow(row);
    if Fresh(cfg, w, SlowVerdict, row) then Settled(v) else Continue(Some(v))
  }

  function AfterFast(w: World, found: Lookup): (l: Local)
    ensures Meant(w, l) && Left(w, l) < 4 * |BlobsOf(w)| + 9
  {
    match found
    case Settled(v) => Finished(Served(w.ref, v))
    case Continue(offline) =>
      match w.fetched
      case FetchFailed(allNotFound) =>
        Finished(if offline.Some? then Served(w.ref, offline.value) else Failure(allNotFound))
      case Fetched(_, _, _) => AtSlow
  }

  function Start(w: World): (l: Local)
    ensures Meant(w, l)
  {
    if IsDigestRef(w.ref) then AtFast else AfterFast(w, Continue(None))
  }

  function Concluded(w: World, stale: Option<Verdict>, r: Ruling): Answer
    requires w.fetched.Fetched?
  {
    match r
    case Ruled(v) => Served(w.fetched.digest, v)
    case Broken => if stale.Some? then Served(w.fetched.digest, stale.value) else Failure(false)
  }

  function AfterSlow(cfg: Config, w: World, found: Lookup): (l: Local)
    requires w.fetched.Fetched?
    ensures Meant(w, l) && Left(w, l) < 4 * |BlobsOf(w)| + 7
  {
    match found
    case Settled(v) => Finished(Served(w.fetched.digest, v))
    case Continue(stale) =>
      if IsIndex(w.fetched.contentType) then AtPass(INDEX_PASSTHROUGH)
      else if IsAttestation(w.fetched.content) then AtPass(ATTESTATION_PASSTHROUGH)
      else if w.flight.Follow? then AtJoin(stale)
      else PipelineFrom(cfg, w, stale)
  }

  function PipelineFrom(cfg: Config, w: World, stale: Option<Verdict>): (l: Local)
    requires w.fetched.Fetched?
    ensures Meant(w, l) && Left(w, l) < 4 * |BlobsOf(w)| + 7
  {
    if w.fetched.content.Bytes? || w.created.None? then Finished(Concluded(w, stale, Broken))
    else if !w.filter.allowed then
      Finished(Served(w.fetched.digest, Blocked(w.filter.reason, "supply_chain", [])
                                          .(publishedAt := w.filter.publishedAt, blockUntil := w.filter.blockUntil)))
    else if w.trivy.None? then Finished(Concluded(w, stale, Broken))
    else
      var d := if cfg.policy.None? then Decision(true, "", [])
               else Policy.Decide(cfg.policy.value, ImageKey(w.repo, w.ref), w.trivy.value);
      if !d.allowed then
        AtBlock(Blocked(d.reason, if d.reason == DENYLISTED then "denylist" else "cve", d.findings), stale)
      else if cfg.avEnabled then ScanFrom(w, 0, stale)
      else AtAllow(stale)
  }

  function ScanFrom(w: World, i: nat, stale: Option<Verdict>): (l: Local)
    requires w.fetched.Fetched? && w.created.Some? && i <= |BlobsOf(w)|
    ensures Meant(w, l) && Left(w, l) <= 2 * (|BlobsOf(w)| - i) + |BlobsOf(w)| + 4
  {
    if i == |BlobsOf(w)| then AtAllow(stale) else AtLayerGet(i, stale)
  }

  function AfterLayer(w: World, i: nat, outcome: LayerOutcome, stale: Option<Verdict>): (l: Local)
    requires w.fetched.Fetched? && w.created.Some? && i < |BlobsOf(w)|
    ensures Meant(w, l) && Left(w, l) < 2 * (|BlobsOf(w)| - i) + |BlobsOf(w)| + 3
  {
    match outcome
    case LayerClean => ScanFrom(w, i + 1, stale)
    case LayerError => Finished(Concluded(w, stale, Broken))
    case LayerIncomplete => Finished(Served(w.fetched.digest, Blocked(SCAN_INCOMPLETE, SCAN_INCOMPLETE, [])))
    case LayerInfected => AtBlock(Blocked(MALWARE_FOUND, "malware", []), stale)
  }

  /** What a blob that is not cached comes to: an outcome at once, or a row to write first. */
  function ScanOf(cfg: Config, w: World, i: nat, stale: Option<Verdict>): (l: Local)
    requires w.fetched.Fetched? && w.created.Some? && i < |BlobsOf(w)|
    ensures Meant(w, l) && Left(w, l) < 2 * (|BlobsOf(w)| - i) + |BlobsOf(w)| + 4
  {
    var bad := NewRow(w, LayerPut(i), Bytes(""), false, "");
    match w.blob(i)
    case Unreachable => AfterLayer(w, i, LayerError, stale)
    case Stream(declared, bytes, breaks) =>
      if cfg.maxLayerBytes > 0 && declared > cfg.maxLayerBytes then AtLayerPut(i, bad, LayerInfected, false, stale)
      else if w.tempFails(i) then AfterLayer(w, i, LayerError, stale)
      else if cfg.maxLayerBytes > 0 && |bytes| > cfg.maxLayerBytes then AtLayerPut(i, bad, LayerInfected, false, stale)
      else if breaks then AfterLayer(w, i, LayerError, stale)
      else
        match w.av(i)
        case Failed => AfterLayer(w, i, LayerError, stale)
        case Scanned(clean, incomplete) =>
          if incomplete then AfterLayer(w, i, LayerIncomplete, stale)
          else
            AtLayerPut(i, NewRow(w, LayerPut(i), Bytes(bytes), clean, ""),
                       if clean then LayerClean else LayerInfected, true, stale)
  }

  function EvictFrom(w: World, k: nat, v: Verdict): (l: Local)
    requires w.fetched.Fetched? && k <= |BlobsOf(w)|
    ensures Meant(w, l) && Left(w, l) <= |BlobsOf(w)| - k
    decreases |BlobsOf(w)| - k
  {
    if k == |BlobsOf(w)| then Finished(Served(w.fetched.digest, v))
    else if BlobsOf(w)[k] == "" then EvictFrom(w, k + 1, v)
    else AtEvict(k, v)
  }

  // ---------------------------------------------------------------- one access

  predicate Reads(l: Local) {
    l.AtFast? || l.AtFastBody? || l.AtSlow? || l.AtSlowBody? || l.AtPassBody? || l.AtLayerGet? || l.AtAllowBody?
  }

  predicate Writes(l: Local) { l.AtPass? || l.AtLayerPut? || l.AtAllow? || l.AtBlock? }

  /** The key that the access is about. */
  function KeyOf(w: World, l: Local): PackageRef
    requires Meant(w, l) && !l.Finished?
  {
    if l.AtFast? || l.AtFastBody? then ImageKey(w.repo, w.ref)
    else if l.AtLayerGet? || l.AtLayerPut? then BlobKey(BlobsOf(w)[l.i])
    else if l.AtEvict? then BlobKey(BlobsOf(w)[l.k])
    else ImageKey(w.repo, w.fetched.digest)
  }

  function ContentOf(found: Option<Row>): Option<Content> { if found.Some? then Some(found.value.content) else None }

  /** The answer with the body as it was read back. */
  function Allowed(w: World, body: Option<Content>, reason: string, publishedAt: int, passthrough: bool): Answer
    requires w.fetched.Fetched?
  {
    Served(w.fetched.digest,
           Verdict(true, reason, "", [], body, w.fetched.contentType, publishedAt, 0, passthrough, false))
  }

  /** The way on from a read, with what it found. */
  function AfterRead(cfg: Config, w: World, l: Local, found: Option<Row>): (r: Local)
    requires Meant(w, l) && Reads(l)
    ensures Meant(w, r) && Left(w, r) < Left(w, l)
  {
    match l
    case AtFast =>
      if found.None? || IsStaleSupplyBlock(found.value) then AfterFast(w, Continue(None))
      else if found.value.clean then AtFastBody(found.value)
      else AfterFast(w, FastLookup(cfg, w, found.value, None))
    case AtFastBody(row) => AfterFast(w, FastLookup(cfg, w, row, ContentOf(found)))
    case AtSlow =>
      if found.None? || IsStaleSupplyBlock(found.value) then AfterSlow(cfg, w, Continue(None))
      else if found.value.clean then AtSlowBody(found.value)
      else AfterSlow(cfg, w, SlowLookup(cfg, w, found.value, None))
    case AtSlowBody(row) => AfterSlow(cfg, w, SlowLookup(cfg, w, row, ContentOf(found)))
    case AtPassBody(reason) => Finished(Allowed(w, ContentOf(found), reason, 0, true))
    case AtAllowBody => Finished(Allowed(w, ContentOf(found), "ok", w.created.value, false))
    case AtLayerGet(i, stale) =>
      if found.None? then ScanOf(cfg, w, i, stale)
      else AfterLayer(w, i, if found.value.clean then LayerClean else LayerInfected, stale)
  }

  /** The row that a write is to leave. */
  function Written(w: World, l: Local): Row
    requires Meant(w, l) && Writes(l)
  {
    match l
    case AtLayerPut(_, row, _, _, _) => row
    case AtPass(reason) => NewRow(w, VerdictPut, w.fetched.content, true, reason)
    case AtAllow(_) => NewRow(w, VerdictPut, w.fetched.content, true, "ok")
    case AtBlock(v, _) => NewRow(w, VerdictPut, w.fetched.content, false, v.reason)
  }

  /** The way on from a write that went through or failed. */
  function AfterWrite(w: World, l: Local, stored: bool): (r: Local)
    requires Meant(w, l) && Writes(l)
    ensures Meant(w, r) && Left(w, r) < Left(w, l)
  {
    match l
    case AtPass(reason) => if stored then AtPassBody(reason) else Finished(Failure(false))
    case AtAllow(stale) => if stored then AtAllowBody else Finished(Concluded(w, stale, Broken))
    case AtBlock(v, stale) => if stale.Some? then EvictFrom(w, 0, v) else Finished(Served(w.fetched.digest, v))
    case AtLayerPut(i, _, outcome, mustStore, stale) =>
      AfterLayer(w, i, if mustStore && !stored then LayerError else outcome, stale)
  }

  /** The way on from an invalidation, or from a flight that has ended. */
  function AfterOther(w: World, l: Local): (r: Local)
    requires Meant(w, l) && (l.AtEvict? || l.AtJoin?)
    ensures Meant(w, r) && Left(w, r) < Left(w, l)
  {
    if l.AtEvict? then EvictFrom(w, l.k + 1, l.verdict) else Finished(Concluded(w, l.stale, w.flight.ruling))
  }

  /** One access to the store, and the way to the next. */
  function Next(cfg: Config, w: World, l: Local, rows: Rows): (r: (Local, Rows))
    requires Meant(w, l) && !l.Finished?
    ensures Meant(w, r.0) && Left(w, r.0) < Left(w, l)
  {
    var key := KeyOf(w, l);
    if Reads(l) then (AfterRead(cfg, w, l, if key in rows then Some(rows[key]) else None), rows)
    else if Writes(l) then
      var answer := w.put(PointOf(l));
      (AfterWrite(w, l, answer.Stored?), PutRow(rows, key, Written(w, l), answer))
    else (AfterOther(w, l), if l.AtEvict? then DropRow(rows, key, w.drop(PointOf(l))) else rows)
  }

  // ---------------------------------------------------------------- one request alone is Evaluate

  /** The request from here on, others acting before each of its accesses. */
  function Drive(cfg: Config, w: World, l: Local, rows: Rows): (Answer, Rows)
    requires Meant(w, l)
    decreases Left(w, l)
  {
    if l.Finished? then (l.answer, rows)
    else
      var (next, after) := Next(cfg, w, l, w.interfere(PointOf(l), rows));
      Drive(cfg, w, next, after)
  }

  /** What comes of a ruling. */
  function Outcome(w: World, stale: Option<Verdict>, r: (Ruling, Rows)): (Answer, Rows)
    requires w.fetched.Fetched?
  {
    (Concluded(w, stale, r.0), r.1)
  }

  lemma DriveOnce(cfg: Config, w: World, l: Local, rows: Rows)
    requires Meant(w, l) && !l.Finished?
    ensures Drive(cfg, w, l, rows)
      == var (next, after) := Next(cfg, w, l, w.interfere(PointOf(l), rows));
           Drive(cfg, w, next, after)
  {
    hide Next;
  }

  lemma {:induction false} DriveEvict(cfg: Config, w: World, k: nat, v: Verdict, rows: Rows)
    requires w.fetched.Fetched? && k <= |BlobsOf(w)|
    ensures Drive(cfg, w, EvictFrom(w, k, v), rows) == (Served(w.fetched.digest, v), EvictBlobs(w, BlobsOf(w), k, rows))
    decreases |BlobsOf(w)| - k
  {
    if k < |BlobsOf(w)| {
      if BlobsOf(w)[k] == "" {
        DriveEvict(cfg, w, k + 1, v, rows);
      } else {
        DriveEvictStep(cfg, w, k, v, rows);
        var dropped := DropRow(w.interfere(Cascade(k), rows), BlobKey(BlobsOf(w)[k]), w.drop(Cascade(k)));
        DriveEvict(cfg, w, k + 1, v, dropped);
        hide Next, Drive, DropRow;
      }
    }
  }

  lemma DriveEvictStep(cfg: Config, w: World, k: nat, v: Verdict, rows: Rows)
    requires w.fetched.Fetched? && k < |BlobsOf(w)| && BlobsOf(w)[k] != ""
    ensures Drive(cfg, w, AtEvict(k, v), rows)
      == Drive(cfg, w, EvictFrom(w, k + 1, v),
               DropRow(w.interfere(Cascade(k), rows), BlobKey(BlobsOf(w)[k]), w.drop(Cascade(k))))
  {
    hide EvictFrom, DropRow, Blobs;
  }

  lemma DriveBlock(cfg: Config, w: World, v: Verdict, stale: Option<Verdict>, rows: Rows)
    requires w.fetched.Fetched?
    ensures Drive(cfg, w, AtBlock(v, stale), rows)
      == (Served(w.fetched.digest, v), CacheBlock(w, w.fetched.digest, w.fetched.content, v, stale.Some?, rows))
  {
    var cached := CacheVerdict(w, w.fetched.digest, w.fetched.content, false, v.reason, rows);
    assert Next(cfg, w, AtBlock(v, stale), w.interfere(VerdictPut, rows)).1 == cached;
    if stale.Some? {
      DriveEvict(cfg, w, 0, v, cached);
    }
    hide EvictBlobs, CacheVerdict, PutRow;
  }

  /** The end of the pipeline once the scan of the blobs has come to an outcome. */
  function Ending(w: World, outcome: LayerOutcome, cascade: bool, scanned: Rows): (Ruling, Rows)
    requires w.fetched.Fetched? && w.created.Some?
  {
    var digest, content := w.fetched.digest, w.fetched.content;
    match outcome
    case LayerError => (Broken, scanned)
    case LayerIncomplete => (Ruled(Blocked(SCAN_INCOMPLETE, SCAN_INCOMPLETE, [])), scanned)
    case LayerInfected =>
      var v := Blocked(MALWARE_FOUND, "malware", []);
      (Ruled(v), CacheBlock(w, digest, content, v, cascade, scanned))
    case LayerClean =>
      var cached := CacheVerdict(w, digest, content, true, "ok", scanned);
      if !w.put(VerdictPut).Stored? then (Broken, cached)
      else
        (Ruled(Verdict(true, "ok", "", [], BodyAt(w, ServeBody, ImageKey(w.repo, digest), cached),
                       w.fetched.contentType, w.created.value, 0, false, false)),
         w.interfere(ServeBody, cached))
  }

  lemma DriveAllow(cfg: Config, w: World, stale: Option<Verdict>, rows: Rows)
    requires w.fetched.Fetched? && w.created.Some?
    ensures Drive(cfg, w, AtAllow(stale), rows) == Outcome(w, stale, Ending(w, LayerClean, stale.Some?, rows))
  {
    var cached := CacheVerdict(w, w.fetched.digest, w.fetched.content, true, "ok", rows);
    assert Next(cfg, w, AtAllow(stale), w.interfere(VerdictPut, rows)).1 == cached;
    hide CacheVerdict, PutRow;
    if w.put(VerdictPut).Stored? {
      assert Drive(cfg, w, AtAllowBody, cached)
        == var (next, after) := Next(cfg, w, AtAllowBody, w.interfere(ServeBody, cached)); (next.answer, after);
    }
  }

  lemma DriveAfterLayer(cfg: Config, w: World, i: nat, outcome: LayerOutcome, stale: Option<Verdict>, rows: Rows)
    requires w.fetched.Fetched? && w.created.Some? && i < |BlobsOf(w)| && !outcome.LayerClean?
    ensures Drive(cfg, w, AfterLayer(w, i, outcome, stale), rows)
      == Outcome(w, stale, Ending(w, outcome, stale.Some?, rows))
  {
    if outcome.LayerInfected? {
      DriveBlock(cfg, w, Blocked(MALWARE_FOUND, "malware", []), stale, rows);
    }
    hide CacheBlock;
  }

  /** The accesses for one blob are those of the scan of one blob. */
  lemma DriveLayer(cfg: Config, w: World, i: nat, stale: Option<Verdict>, rows: Rows)
    requires w.fetched.Fetched? && w.created.Some? && i < |BlobsOf(w)|
    ensures var (outcome, after) := ScanLayer(cfg, w, i, BlobsOf(w)[i], rows);
      Drive(cfg, w, AtLayerGet(i, stale), rows) == Drive(cfg, w, AfterLayer(w, i, outcome, stale), after)
  {
    hide Drive, AfterLayer, PutRow, Blobs;
    var seen := w.interfere(LayerGet(i), rows);
    var (next, same) := Next(cfg, w, AtLayerGet(i, stale), seen);
    DriveOnce(cfg, w, AtLayerGet(i, stale), rows);
    assert same == seen;
    if next.AtLayerPut? {
      DriveOnce(cfg, w, next, seen);
    }
  }

  lemma {:induction false} DriveScan(cfg: Config, w: World, i: nat, stale: Option<Verdict>, rows: Rows)
    requires w.fetched.Fetched? && w.created.Some? && i <= |BlobsOf(w)|
    ensures var (outcome, scanned) := ScanBlobs(cfg, w, BlobsOf(w), i, rows);
      Drive(cfg, w, ScanFrom(w, i, stale), rows) == Outcome(w, stale, Ending(w, outcome, stale.Some?, scanned))
    decreases |BlobsOf(w)| - i
  {
    hide Drive, Ending, ScanLayer, Blobs, Outcome;
    if i == |BlobsOf(w)| {
      DriveAllow(cfg, w, stale, rows);
    } else {
      DriveLayer(cfg, w, i, stale, rows);
      var (outcome, after) := ScanLayer(cfg, w, i, BlobsOf(w)[i], rows);
      assert ScanBlobs(cfg, w, BlobsOf(w), i, rows)
        == if outcome.LayerClean? then ScanBlobs(cfg, w, BlobsOf(w), i + 1, after) else (outcome, after);
      hide ScanBlobs;
      if outcome.LayerClean? {
        DriveScan(cfg, w, i + 1, stale, after);
      } else {
        DriveAfterLayer(cfg, w, i, outcome, stale, after);
      }
    }
  }

  lemma DrivePipeline(cfg: Config, w: World, stale: Option<Verdict>, rows: Rows)
    requires w.fetched.Fetched?
    ensures Drive(cfg, w, PipelineFrom(cfg, w, stale), rows)
      == Outcome(w, stale,
                 Pipeline(cfg, w, w.fetched.digest, w.fetched.content, w.fetched.contentType, stale.Some?, rows))
  {
    if w.fetched.content.Bytes? || w.created.None? || !w.filter.allowed || w.trivy.None? {
      DrivePipelineStops(cfg, w, stale, rows);
    } else if cfg.policy.Some? && !Policy.Decide(cfg.policy.value, ImageKey(w.repo, w.ref), w.trivy.value).allowed {
      DrivePipelineRefuses(cfg, w, stale, rows);
    } else {
      DrivePipelineScans(cfg, w, stale, rows);
    }
    hide *;
  }

  lemma DrivePipelineStops(cfg: Config, w: World, stale: Option<Verdict>, rows: Rows)
    requires w.fetched.Fetched?
    requires w.fetched.content.Bytes? || w.created.None? || !w.filter.allowed || w.trivy.None?
    ensures Drive(cfg, w, PipelineFrom(cfg, w, stale), rows)
      == Outcome(w, stale,
                 Pipeline(cfg, w, w.fetched.digest, w.fetched.content, w.fetched.contentType, stale.Some?, rows))
  {
    DriveFinished(cfg, w, PipelineFrom(cfg, w, stale), rows);
    hide Drive;
  }

  lemma DrivePipelineRefuses(cfg: Config, w: World, stale: Option<Verdict>, rows: Rows)
    requires w.fetched.Fetched? && w.fetched.content.Doc? && w.created.Some? && w.filter.allowed && w.trivy.Some?
    requires cfg.policy.Some? && !Policy.Decide(cfg.policy.value, ImageKey(w.repo, w.ref), w.trivy.value).allowed
    ensures Drive(cfg, w, PipelineFrom(cfg, w, stale), rows)
      == Outcome(w, stale,
                 Pipeline(cfg, w, w.fetched.digest, w.fetched.content, w.fetched.contentType, stale.Some?, rows))
  {
    hide Drive, CacheBlock, Policy.Decide;
    var d := Policy.Decide(cfg.policy.value, ImageKey(w.repo, w.ref), w.trivy.value);
    var v := Blocked(d.reason, if d.reason == DENYLISTED then "denylist" else "cve", d.findings);
    DriveBlock(cfg, w, v, stale, rows);
  }

  lemma DrivePipelineScans(cfg: Config, w: World, stale: Option<Verdict>, rows: Rows)
    requires w.fetched.Fetched? && w.fetched.content.Doc? && w.created.Some? && w.filter.allowed && w.trivy.Some?
    requires cfg.policy.Some? ==> Policy.Decide(cfg.policy.value, ImageKey(w.repo, w.ref), w.trivy.value).allowed
    ensures Drive(cfg, w, PipelineFrom(cfg, w, stale), rows)
      == Outcome(w, stale,
                 Pipeline(cfg, w, w.fetched.digest, w.fetched.content, w.fetched.contentType, stale.Some?, rows))
  {
    hide Drive, ScanBlobs, CacheBlock, CacheVerdict, BodyAt, Policy.Decide;
    assert PipelineFrom(cfg, w, stale) == if cfg.avEnabled then ScanFrom(w, 0, stale) else AtAllow(stale);
    var (outcome, scanned) := if cfg.avEnabled then ScanBlobs(cfg, w, BlobsOf(w), 0, rows) else (LayerClean, rows);
    assert Pipeline(cfg, w, w.fetched.digest, w.fetched.content, w.fetched.contentType, stale.Some?, rows)
      == Ending(w, outcome, stale.Some?, scanned);
    hide PipelineFrom, Pipeline, Ending, ScanFrom;
    if cfg.avEnabled {
      DriveScan(cfg, w, 0, stale, rows);
    } else {
      DriveAllow(cfg, w, stale, rows);
    }
  }

  lemma DriveFinished(cfg: Config, w: World, l: Local, rows: Rows)
    requires Meant(w, l)
    ensures l.Finished? ==> Drive(cfg, w, l, rows) == (l.answer, rows)
  {
  }

  lemma DrivePass(cfg: Config, w: World, reason: string, rows: Rows)
    requires w.fetched.Fetched?
    ensures Drive(cfg, w, AtPass(reason), rows)
      == var (a, after) := Passthrough(w, w.fetched.digest, w.fetched.content, w.fetched.contentType, reason, rows);
           (a, after)
  {
    var cached := CacheVerdict(w, w.fetched.digest, w.fetched.content, true, reason, rows);
    assert Next(cfg, w, AtPass(reason), w.interfere(VerdictPut, rows)).1 == cached;
    hide CacheVerdict, PutRow;
    if w.put(VerdictPut).Stored? {
      assert Drive(cfg, w, AtPassBody(reason), cached)
        == var (next, after) := Next(cfg, w, AtPassBody(reason), w.interfere(ServeBody, cached)); (next.answer, after);
    }
  }

  lemma DriveJoin(cfg: Config, w: World, stale: Option<Verdict>, rows: Rows)
    requires w.fetched.Fetched? && w.flight.Follow?
    ensures Drive(cfg, w, AtJoin(stale), rows) == Outcome(w, stale, (w.flight.ruling, w.interfere(Joined, rows)))
  {
  }

  /** What a request does with a lookup by the fetched digest. */
  function AfterLookup(cfg: Config, w: World, found: (Lookup, Rows)): (Answer, Rows)
    requires w.fetched.Fetched?
  {
    match found.0
    case Settled(v) => (Served(w.fetched.digest, v), found.1)
    case Continue(stale) => Judge(cfg, w, w.fetched.digest, w.fetched.content, w.fetched.contentType, stale, found.1)
  }

  lemma DriveAfterSlow(cfg: Config, w: World, found: Lookup, rows: Rows)
    requires w.fetched.Fetched?
    ensures Drive(cfg, w, AfterSlow(cfg, w, found), rows) == AfterLookup(cfg, w, (found, rows))
  {
    if found.Continue? {
      DrivePass(cfg, w, INDEX_PASSTHROUGH, rows);
      DrivePass(cfg, w, ATTESTATION_PASSTHROUGH, rows);
      if w.flight.Follow? {
        DriveJoin(cfg, w, found.stale, rows);
      }
      DrivePipeline(cfg, w, found.stale, rows);
      hide Pipeline, Passthrough, PipelineFrom, IsAttestation, IsIndex, Drive;
    }
  }

  lemma DriveSlow(cfg: Config, w: World, rows: Rows)
    requires w.fetched.Fetched?
    ensures Drive(cfg, w, AtSlow, rows)
      == AfterLookup(cfg, w, SlowPath(cfg, w, w.fetched.digest, w.fetched.contentType, rows))
  {
    var seen := w.interfere(SlowVerdict, rows);
    var (next, same) := Next(cfg, w, AtSlow, seen);
    assert same == seen && Drive(cfg, w, AtSlow, rows) == Drive(cfg, w, next, seen);
    var (found, looked) := SlowPath(cfg, w, w.fetched.digest, w.fetched.contentType, rows);
    if next.AtSlowBody? {
      var now := w.interfere(SlowBody, seen);
      var (last, after) := Next(cfg, w, next, now);
      assert Drive(cfg, w, next, seen) == Drive(cfg, w, last, after);
      assert after == now == looked && last == AfterSlow(cfg, w, found);
    } else {
      assert seen == looked && next == AfterSlow(cfg, w, found);
    }
    hide Drive, AfterSlow, SlowPath, AfterLookup;
    DriveAfterSlow(cfg, w, found, looked);
  }

  /** What a request does with the lookup made before the upstream is touched. */
  function Fetching(cfg: Config, w: World, found: (Lookup, Rows)): (Answer, Rows) {
    match found.0
    case Settled(v) => (Served(w.ref, v), found.1)
    case Continue(offline) =>
      match w.fetched
      case FetchFailed(allNotFound) =>
        (if offline.Some? then Served(w.ref, offline.value) else Failure(allNotFound), found.1)
      case Fetched(_, _, _) => AfterLookup(cfg, w, SlowPath(cfg, w, w.fetched.digest, w.fetched.contentType, found.1))
  }

  lemma DriveAfterFast(cfg: Config, w: World, found: Lookup, rows: Rows)
    ensures Drive(cfg, w, AfterFast(w, found), rows) == Fetching(cfg, w, (found, rows))
  {
    if found.Continue? && w.fetched.Fetched? {
      DriveSlow(cfg, w, rows);
      hide Drive, AfterLookup, SlowPath;
    }
  }

  lemma DriveFast(cfg: Config, w: World, rows: Rows)
    ensures Drive(cfg, w, AtFast, rows) == Fetching(cfg, w, FastPath(cfg, w, rows))
  {
    var seen := w.interfere(FastVerdict, rows);
    var (next, same) := Next(cfg, w, AtFast, seen);
    assert same == seen && Drive(cfg, w, AtFast, rows) == Drive(cfg, w, next, seen);
    var (found, looked) := FastPath(cfg, w, rows);
    if next.AtFastBody? {
      var now := w.interfere(FastBody, seen);
      var (last, after) := Next(cfg, w, next, now);
      assert Drive(cfg, w, next, seen) == Drive(cfg, w, last, after);
      assert after == now == looked && last == AfterFast(w, found);
    } else {
      assert seen == looked && next == AfterFast(w, found);
    }
    hide Drive, AfterFast, FastPath, Fetching;
    DriveAfterFast(cfg, w, found, looked);
  }

  /** Taken access by access, with others acting in between, a request is `Evaluate`. */
  lemma DriveIsEvaluate(cfg: Config, w: World, rows: Rows)
    ensures Drive(cfg, w, Start(w), rows) == Evaluate(cfg, w, rows)
  {
    DriveFast(cfg, w, rows);
    DriveAfterFast(cfg, w, Continue(None), rows);
    hide Drive, FastPath, SlowPath, Judge;
  }
}
