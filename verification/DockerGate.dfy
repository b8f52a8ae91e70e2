/** The Docker manifest gate: the verdict store it remembers decisions in, the scan pipeline that
    makes them, and the paths of `Evaluate` that trust, re-run or fall back on them.

    Everything outside the gate (registry, Trivy, antivirus, supply-chain filter, clock, disk, the
    eviction worker and other requests on the same store) is a `World`: the answers one request gets. */
module DockerGate {
  import opened Domain
  import Policy

  const INDEX_PASSTHROUGH := "index_passthrough"
  const ATTESTATION_PASSTHROUGH := "attestation_passthrough"
  const MAX_ATTESTATION_LAYERS := 64
  const OCI_INDEX := "application/vnd.oci.image.index.v1+json"
  const SCHEMA2_LIST := "application/vnd.docker.distribution.manifest.list.v2+json"
  const SECOND := 1_000_000_000

  /** A decoded layer entry; `inToto` says its media type names an in-toto statement. */
  datatype Layer = Layer(digest: string, inToto: bool)
  datatype Manifest = Manifest(mediaType: string, configDigest: string, layers: seq<Layer>)

  /** File contents: bytes, or a document that decodes as a manifest. */
  datatype Content = Bytes(bytes: string) | Doc(manifest: Manifest)

  /** One row of the verdict store; the check times are whole seconds, in nanoseconds. */
  datatype Row = Row(content: Content, clean: bool, reason: string, cveCheck: int, avCheck: int) {
    function CheckedAt(): int { if avCheck < cveCheck then avCheck else cveCheck }
  }
  type Rows = map<PackageRef, Row>

  datatype Verdict = Verdict(
    allowed: bool, reason: string, blockedBy: string, findings: seq<Finding>,
    body: Option<Content>, contentType: string, publishedAt: int, blockUntil: int,
    passthrough: bool, fromCache: bool)

  datatype LayerOutcome = LayerError | LayerClean | LayerInfected | LayerIncomplete
  datatype Ruling = Broken | Ruled(verdict: Verdict)
  datatype Lookup = Settled(verdict: Verdict) | Continue(stale: Option<Verdict>)
  datatype Answer = Failure(notFound: bool) | Served(digest: string, verdict: Verdict)

  datatype Config = Config(maxLayerBytes: int, recheckTtl: int, avEnabled: bool, policy: Option<Policy.Engine>)

  /** The moments at which one request touches the shared store. */
  datatype Point =
    | FastVerdict | FastBody | SlowVerdict | SlowBody
    | LayerGet(i: nat) | LayerPut(i: nat) | VerdictPut | ServeBody | Cascade(k: nat) | Joined

  datatype ManifestAnswer =
    | FetchFailed(allNotFound: bool)
    | Fetched(content: Content, contentType: string, digest: string)
  datatype BlobAnswer = Unreachable | Stream(declared: int, bytes: string, breaks: bool)

  /** How a store write ends: done, refused with nothing changed, failed after the old file was replaced and removed,
      or failed with the new file left in place, where the old row now speaks for it. That row may be one (`behind`)
      that had gone out of sight with its own file. An invalidation that fails may still have removed the file. */
  datatype PutAnswer = Stored | Refused | Lost | Botched(behind: Option<Row>)
  datatype DropAnswer = Dropped | Kept | DroppedWithError
  datatype Flight = Lead | Follow(ruling: Ruling)

  datatype World = World(
    repo: string, ref: string,
    fetched: ManifestAnswer,
    created: Option<int>,
    filter: FilterResult,
    trivy: Option<seq<Finding>>,
    blob: nat -> BlobAnswer,
    tempFails: nat -> bool,
    av: nat -> AvAnswer,
    put: Point -> PutAnswer,
    drop: Point -> DropAnswer,
    clock: Point -> int,
    flight: Flight,
    interfere: (Point, Rows) -> Rows)

  function BlobKey(digest: string): PackageRef { PackageRef("docker", "blobs", digest, "") }
  function ImageKey(repo: string, digest: string): PackageRef { PackageRef("docker", repo, digest, "") }

  predicate IsDigestRef(ref: string) { ':' in ref }
  predicate IsIndex(contentType: string) { contentType == OCI_INDEX || contentType == SCHEMA2_LIST }
  predicate IsPassthroughReason(reason: string) { reason == INDEX_PASSTHROUGH || reason == ATTESTATION_PASSTHROUGH }

  predicate IsAttestation(c: Content) {
    c.Doc? && 0 < |c.manifest.layers| <= MAX_ATTESTATION_LAYERS && forall l | l in c.manifest.layers :: l.inToto
  }

  function BlockedByForReason(reason: string): string {
    if reason == MALWARE_FOUND then "malware"
    else if reason == DENYLISTED then "denylist"
    else if reason == CVE_FOUND then "cve"
    else "supply_chain"
  }

  predicate IsStaleSupplyBlock(row: Row) { !row.clean && BlockedByForReason(row.reason) == "supply_chain" }

  function MediaType(c: Content): string { if c.Doc? then c.manifest.mediaType else "" }

  /** The config digest, when there is one, and every layer digest. */
  function Blobs(c: Content): seq<string> {
    if c.Bytes? then []
    else
      (if c.manifest.configDigest == "" then [] else [c.manifest.configDigest])
      + seq(|c.manifest.layers|, i requires 0 <= i < |c.manifest.layers| => c.manifest.layers[i].digest)
  }

  function WholeSeconds(t: int): int { t / SECOND * SECOND }

  function NewRow(w: World, p: Point, content: Content, clean: bool, reason: string): Row {
    Row(content, clean, reason, WholeSeconds(w.clock(p)), WholeSeconds(w.clock(p)))
  }

  function PutRow(rows: Rows, key: PackageRef, row: Row, answer: PutAnswer): Rows {
    match answer
    case Stored => rows[key := row]
    case Refused => rows
    case Lost => rows - {key}
    case Botched(behind) =>
      var there := Speaking(rows, key, behind);
      if there.None? then rows else rows[key := there.value.(content := row.content)]
  }

  /** The row that is there to speak for the file of `key`. */
  function Speaking(rows: Rows, key: PackageRef, behind: Option<Row>): Option<Row> {
    if key in rows then Some(rows[key]) else behind
  }

  function DropRow(rows: Rows, key: PackageRef, answer: DropAnswer): Rows {
    if answer.Kept? then rows else rows - {key}
  }

  // ---------------------------------------------------------------- specification

  function ScanLayer(cfg: Config, w: World, i: nat, digest: string, rows: Rows): (LayerOutcome, Rows) {
    var seen := w.interfere(LayerGet(i), rows);
    if BlobKey(digest) in seen then
      (if seen[BlobKey(digest)].clean then LayerClean else LayerInfected, seen)
    else
      match w.blob(i)
      case Unreachable => (LayerError, seen)
      case Stream(declared, bytes, breaks) =>
        var now := w.interfere(LayerPut(i), seen);
        var condemned := PutRow(now, BlobKey(digest), NewRow(w, LayerPut(i), Bytes(""), false, ""), w.put(LayerPut(i)));
        if cfg.maxLayerBytes > 0 && declared > cfg.maxLayerBytes then (LayerInfected, condemned)
        else if w.tempFails(i) then (LayerError, seen)
        else if cfg.maxLayerBytes > 0 && |bytes| > cfg.maxLayerBytes then (LayerInfected, condemned)
        else if breaks then (LayerError, seen)
        else
          match w.av(i)
          case Failed => (LayerError, seen)
          case Scanned(clean, incomplete) =>
            if incomplete then (LayerIncomplete, seen)
            else
              var scanned := PutRow(now, BlobKey(digest), NewRow(w, LayerPut(i), Bytes(bytes), clean, ""),
                                    w.put(LayerPut(i)));
              (if !w.put(LayerPut(i)).Stored? then LayerError else if clean then LayerClean else LayerInfected, scanned)
  }

  function ScanBlobs(cfg: Config, w: World, blobs: seq<string>, i: nat, rows: Rows): (LayerOutcome, Rows)
    requires i <= |blobs|
    decreases |blobs| - i
  {
    if i == |blobs| then (LayerClean, rows)
    else
      var (outcome, next) := ScanLayer(cfg, w, i, blobs[i], rows);
      if outcome.LayerClean? then ScanBlobs(cfg, w, blobs, i + 1, next) else (outcome, next)
  }

  function EvictBlobs(w: World, blobs: seq<string>, k: nat, rows: Rows): Rows
    requires k <= |blobs|
    decreases |blobs| - k
  {
    if k == |blobs| then rows
    else if blobs[k] == "" then EvictBlobs(w, blobs, k + 1, rows)
    else EvictBlobs(w, blobs, k + 1, DropRow(w.interfere(Cascade(k), rows), BlobKey(blobs[k]), w.drop(Cascade(k))))
  }

  function CacheVerdict(w: World, digest: string, content: Content, clean: bool, reason: string, rows: Rows): Rows {
    PutRow(w.interfere(VerdictPut, rows), ImageKey(w.repo, digest),
           NewRow(w, VerdictPut, content, clean, reason), w.put(VerdictPut))
  }

  function Blocked(reason: string, blocker: string, findings: seq<Finding>): Verdict {
    Verdict(false, reason, blocker, findings, None, "", 0, 0, false, false)
  }

  function CacheBlock(w: World, digest: string, content: Content, v: Verdict, cascade: bool, rows: Rows): Rows {
    var cached := CacheVerdict(w, digest, content, false, v.reason, rows);
    if cascade then EvictBlobs(w, Blobs(content), 0, cached) else cached
  }

  function BodyAt(w: World, p: Point, key: PackageRef, rows: Rows): Option<Content> {
    var now := w.interfere(p, rows);
    if key in now then Some(now[key].content) else None
  }

  function Pipeline(cfg: Config, w: World, digest: string, content: Content, contentType: string, cascade: bool,
                    rows: Rows)
    : (Ruling, Rows)
  {
    if content.Bytes? || w.created.None? then (Broken, rows)
    else if !w.filter.allowed then
      (Ruled(Verdict(false, w.filter.reason, "supply_chain", [], None, "", w.filter.publishedAt, w.filter.blockUntil,
                     false, false)),
       rows)
    else if w.trivy.None? then (Broken, rows)
    else
      var d := if cfg.policy.None? then Decision(true, "", [])
               else Policy.Decide(cfg.policy.value, ImageKey(w.repo, w.ref), w.trivy.value);
      if !d.allowed then
        var v := Blocked(d.reason, if d.reason == DENYLISTED then "denylist" else "cve", d.findings);
        (Ruled(v), CacheBlock(w, digest, content, v, cascade, rows))
      else
        var (outcome, scanned) :=
          if cfg.avEnabled then ScanBlobs(cfg, w, Blobs(content), 0, rows) else (LayerClean, rows);
        match outcome
        case LayerError => (Broken, scanned)
        case LayerIncomplete => (Ruled(Blocked(SCAN_INCOMPLETE, SCAN_INCOMPLETE, [])), scanned)
        case LayerInfected =>
          var v := Blocked(MALWARE_FOUND, "malware", []);
          (Ruled(v), CacheBlock(w, digest, content, v, cascade, scanned))
        case LayerClean =>
          var cached := CacheVerdict(w, digest, content, true, "ok", scanned);
          if !w.put(VerdictPut).Stored? then (Broken, cached)
          else
            (Ruled(Verdict(true, "ok", "", [], BodyAt(w, ServeBody, ImageKey(w.repo, digest), cached), contentType,
                           w.created.value, 0, false, false)),
             w.interfere(ServeBody, cached))
  }

  function FromRow(row: Row): Verdict {
    Verdict(row.clean, row.reason, if row.clean then "" else BlockedByForReason(row.reason), [], None, "", 0, 0,
            IsPassthroughReason(row.reason), true)
  }

  predicate Fresh(cfg: Config, w: World, p: Point, row: Row) {
    cfg.recheckTtl <= 0 || w.clock(p) - row.CheckedAt() <= cfg.recheckTtl
  }

  /** The by-digest lookup made before the upstream is touched. */
  function FastPath(cfg: Config, w: World, rows: Rows): (Lookup, Rows) {
    var key := ImageKey(w.repo, w.ref);
    var seen := w.interfere(FastVerdict, rows);
    if key !in seen || IsStaleSupplyBlock(seen[key]) then (Continue(None), seen)
    else
      var row := seen[key];
      var body := if row.clean then BodyAt(w, FastBody, key, seen) else None;
      var after := if row.clean then w.interfere(FastBody, seen) else seen;
      var typed := body.Some? && MediaType(body.value) != "";
      var v := if typed then FromRow(row).(body := body, contentType := MediaType(body.value)) else FromRow(row);
      var servable := !v.allowed || v.body.Some?;
      if Fresh(cfg, w, FastVerdict, row) && servable then (Settled(v), after)
      else (Continue(if servable then Some(v) else None), after)
  }

  /** The lookup made once the upstream has named the digest. */
  function SlowPath(cfg: Config, w: World, digest: string, contentType: string, rows: Rows): (Lookup, Rows) {
    var key := ImageKey(w.repo, digest);
    var seen := w.interfere(SlowVerdict, rows);
    if key !in seen || IsStaleSupplyBlock(seen[key]) then (Continue(None), seen)
    else
      var row := seen[key];
      var body := if row.clean then BodyAt(w, SlowBody, key, seen) else None;
      var after := if row.clean then w.interfere(SlowBody, seen) else seen;
      var v := if body.Some? then FromRow(row).(body := body, contentType := contentType) else FromRow(row);
      (if Fresh(cfg, w, SlowVerdict, row) then Settled(v) else Continue(Some(v)), after)
  }

  function Passthrough(w: World, digest: string, content: Content, contentType: string, reason: string,
                       rows: Rows): (Answer, Rows) {
    var cached := CacheVerdict(w, digest, content, true, reason, rows);
    if !w.put(VerdictPut).Stored? then (Failure(false), cached)
    else
      (Served(digest, Verdict(true, reason, "", [], BodyAt(w, ServeBody, ImageKey(w.repo, digest), cached), contentType,
                              0, 0, true, false)),
       w.interfere(ServeBody, cached))
  }

  function Judge(cfg: Config, w: World, digest: string, content: Content, contentType: string, stale: Option<Verdict>,
                 rows: Rows)
    : (Answer, Rows)
  {
    if IsIndex(contentType) then Passthrough(w, digest, content, contentType, INDEX_PASSTHROUGH, rows)
    else if IsAttestation(content) then Passthrough(w, digest, content, contentType, ATTESTATION_PASSTHROUGH, rows)
    else
      var (ruling, after) :=
        match w.flight
        case Lead => Pipeline(cfg, w, digest, content, contentType, stale.Some?, rows)
        case Follow(r) => (r, w.interfere(Joined, rows));
      match ruling
      case Ruled(v) => (Served(digest, v), after)
      case Broken => (if stale.Some? then Served(digest, stale.value) else Failure(false), after)
  }

  function Evaluate(cfg: Config, w: World, rows: Rows): (Answer, Rows) {
    var (fast, seen) := if IsDigestRef(w.ref) then FastPath(cfg, w, rows) else (Continue(None), rows);
    match fast
    case Settled(v) => (Served(w.ref, v), seen)
    case Continue(offline) =>
      match w.fetched
      case FetchFailed(allNotFound) =>
        (if offline.Some? then Served(w.ref, offline.value) else Failure(allNotFound), seen)
      case Fetched(content, contentType, digest) =>
        var (slow, looked) := SlowPath(cfg, w, digest, contentType, seen);
        match slow
        case Settled(v) => (Served(digest, v), looked)
        case Continue(stale) => Judge(cfg, w, digest, content, contentType, stale, looked)
  }

  /** The store after a sequence of requests, starting empty. */
  function Run(cfg: Config, requests: seq<World>): Rows {
    if requests == [] then map[]
    else
      var n := |requests| - 1;
      Evaluate(cfg, requests[n], Run(cfg, requests[..n])).1
  }

  // ---------------------------------------------------------------- what a row is evidence of

  /** In `w` the blob `digest` was fetched complete, within the size limit. */
  predicate FetchedWhole(cfg: Config, w: World, i: nat, digest: string) {
    && w.fetched.Fetched?
    && i < |Blobs(w.fetched.content)| && Blobs(w.fetched.content)[i] == digest
    && w.blob(i).Stream? && !w.blob(i).breaks
    && (cfg.maxLayerBytes > 0 ==> |w.blob(i).bytes| <= cfg.maxLayerBytes)
  }

  predicate ScannedClean(cfg: Config, w: World, i: nat, digest: string) {
    FetchedWhole(cfg, w, i, digest) && w.av(i).Passes()
  }

  /** In `w` the blob was oversized, or the antivirus engine detected malware in all of it. */
  predicate Condemned(cfg: Config, w: World, i: nat, digest: string) {
    && w.fetched.Fetched?
    && i < |Blobs(w.fetched.content)| && Blobs(w.fetched.content)[i] == digest
    && w.blob(i).Stream?
    && (|| (cfg.maxLayerBytes > 0 && (w.blob(i).declared > cfg.maxLayerBytes || |w.blob(i).bytes| > cfg.maxLayerBytes))
        || (FetchedWhole(cfg, w, i, digest) && w.av(i).Detects()))
  }

  ghost predicate BlobPassed(cfg: Config, h: iset<World>, digest: string) {
    exists w: World, i: nat :: w in h && ScannedClean(cfg, w, i, digest)
  }

  ghost predicate BlobCondemned(cfg: Config, h: iset<World>, digest: string) {
    exists w: World, i: nat :: w in h && Condemned(cfg, w, i, digest)
  }

  ghost predicate BlobRowSound(cfg: Config, h: iset<World>, digest: string, row: Row) {
    if row.clean then
      exists w: World, i: nat :: w in h && ScannedClean(cfg, w, i, digest) && row.content == Bytes(w.blob(i).bytes)
    else BlobCondemned(cfg, h, digest)
  }

  /** Filter, Trivy and policy let this request's image through to the antivirus scan. */
  predicate ReachedScan(cfg: Config, w: World) {
    && w.created.Some? && w.filter.allowed && w.trivy.Some?
    && (cfg.policy.Some? ==> Policy.Decide(cfg.policy.value, ImageKey(w.repo, w.ref), w.trivy.value).allowed)
  }

  ghost predicate Passed(cfg: Config, h: iset<World>, w: World) {
    && w.fetched.Fetched? && w.fetched.content.Doc? && ReachedScan(cfg, w)
    && (cfg.avEnabled ==> forall d | d in Blobs(w.fetched.content) :: BlobPassed(cfg, h, d))
  }

  predicate PolicyRefused(cfg: Config, w: World, reason: string) {
    && w.created.Some? && w.filter.allowed && w.trivy.Some? && cfg.policy.Some?
    && var d := Policy.Decide(cfg.policy.value, ImageKey(w.repo, w.ref), w.trivy.value);
       !d.allowed && d.reason == reason
  }

  ghost predicate MalwareFound(cfg: Config, h: iset<World>, w: World) {
    && w.fetched.Fetched? && ReachedScan(cfg, w) && cfg.avEnabled
    && exists d :: d in Blobs(w.fetched.content) && BlobCondemned(cfg, h, d)
  }

  /** What has to have happened in `w` for a verdict with this flag and reason. */
  ghost predicate Grounds(cfg: Config, h: iset<World>, w: World, clean: bool, reason: string) {
    w.fetched.Fetched? &&
    if clean then
      || (reason == INDEX_PASSTHROUGH && IsIndex(w.fetched.contentType))
      || (reason == ATTESTATION_PASSTHROUGH && IsAttestation(w.fetched.content))
      || (reason == "ok" && Passed(cfg, h, w))
    else
      || (reason in {CVE_FOUND, DENYLISTED} && PolicyRefused(cfg, w, reason))
      || (reason == MALWARE_FOUND && MalwareFound(cfg, h, w))
  }

  ghost predicate Decided(cfg: Config, h: iset<World>, w: World, repo: string, digest: string, clean: bool,
                          reason: string) {
    w in h && w.repo == repo && Grounds(cfg, h, w, clean, reason) && w.fetched.digest == digest
  }

  ghost predicate ImageRowSound(cfg: Config, h: iset<World>, repo: string, digest: string, row: Row) {
    exists w: World :: Decided(cfg, h, w, repo, digest, row.clean, row.reason) && row.content == w.fetched.content
  }

  ghost predicate RowSound(cfg: Config, h: iset<World>, key: PackageRef, row: Row) {
    key.ecosystem == "docker" ==>
      if key.name == "blobs" then BlobRowSound(cfg, h, key.version, row)
      else ImageRowSound(cfg, h, key.name, key.version, row)
  }

  ghost predicate Sound(cfg: Config, h: iset<World>, rows: Rows) {
    forall key | key in rows :: RowSound(cfg, h, key, rows[key])
  }

  /** A verdict of the kinds the store remembers: holds and incomplete scans are never stored. */
  predicate Recorded(v: Verdict) { v.allowed || v.blockedBy in {"cve", "denylist", "malware"} }

  /** Some request of the run was given this content under this digest. */
  ghost predicate FetchedUnder(h: iset<World>, repo: string, digest: string, content: Content) {
    exists w: World ::
      w in h && w.repo == repo && w.fetched.Fetched? && w.fetched.digest == digest && w.fetched.content == content
  }

  /** A verdict is backed when some request of the run met its grounds on that digest, and a body that it carries was
      fetched under that digest. */
  ghost predicate Backed(cfg: Config, h: iset<World>, repo: string, digest: string, v: Verdict) {
    && (Recorded(v) ==>
          && (exists w: World :: Decided(cfg, h, w, repo, digest, v.allowed, v.reason))
          && v.blockedBy == if v.allowed then "" else BlockedByForReason(v.reason))
    && (v.body.Some? ==> FetchedUnder(h, repo, digest, v.body.value))
  }

  /** What a shared ruling must be for its waiters: fresh, and one some flight of the run came to. */
  ghost predicate RulingSound(cfg: Config, h: iset<World>, repo: string, digest: string, r: Ruling) {
    r.Ruled? ==> !r.verdict.fromCache && Backed(cfg, h, repo, digest, r.verdict)
  }

  /** The blob is larger than allowed, or said to be. */
  predicate Oversized(cfg: Config, w: World, i: nat) {
    w.blob(i).Stream? && cfg.maxLayerBytes > 0
    && (w.blob(i).declared > cfg.maxLayerBytes || |w.blob(i).bytes| > cfg.maxLayerBytes)
  }

  /** The blob has been scanned to the end. */
  predicate Judged(w: World, i: nat) {
    w.blob(i).Stream? && !w.blob(i).breaks && w.av(i).Scanned? && !w.av(i).incomplete
  }

  /** The scan of blob `i` comes to something to write. */
  predicate Writable(cfg: Config, w: World, i: nat) { Oversized(cfg, w, i) || Judged(w, i) }

  /** What it then writes as the content: the blob's bytes, or nothing when it is oversized. */
  function BlobContent(cfg: Config, w: World, i: nat): Content
    requires Writable(cfg, w, i)
  {
    if Oversized(cfg, w, i) then Bytes("") else Bytes(w.blob(i).bytes)
  }

  /** What the run was served under this manifest's digest is this manifest. */
  ghost predicate ManifestPinned(h: iset<World>, w: World) {
    w.fetched.Fetched? ==>
      forall v | v in h && v.fetched.Fetched? && v.repo == w.repo && v.fetched.digest == w.fetched.digest ::
        v.fetched.content == w.fetched.content
  }

  /** What the run scanned clean under the digest of blob `i` is what is written now, if anything is. */
  ghost predicate BlobPinned(cfg: Config, h: iset<World>, w: World, i: nat) {
    w.fetched.Fetched? && i < |Blobs(w.fetched.content)| && Writable(cfg, w, i) ==>
      forall v, j: nat | v in h && ScannedClean(cfg, v, j, Blobs(w.fetched.content)[i]) ::
        Bytes(v.blob(j).bytes) == BlobContent(cfg, w, i)
  }

  /** A write that fails together with its clean-up leaves an old row over the same content as before, and a row out of
      sight was a sound one. */
  ghost predicate BotchesPinned(cfg: Config, h: iset<World>, w: World) {
    && (w.put(VerdictPut).Botched? ==>
          && ManifestPinned(h, w)
          && (w.put(VerdictPut).behind.Some? && w.fetched.Fetched? ==>
                RowSound(cfg, h, ImageKey(w.repo, w.fetched.digest), w.put(VerdictPut).behind.value)))
    && (forall i: nat | w.put(LayerPut(i)).Botched? ::
          && BlobPinned(cfg, h, w, i)
          && (w.put(LayerPut(i)).behind.Some? && w.fetched.Fetched? && i < |Blobs(w.fetched.content)|
                && Writable(cfg, w, i) ==>
                RowSound(cfg, h, BlobKey(Blobs(w.fetched.content)[i]), w.put(LayerPut(i)).behind.value)))
  }

  /** A request of the run `h`: its repository is not called "blobs", and a flight it joins is one of the run. */
  ghost predicate InRun(cfg: Config, h: iset<World>, w: World) {
    && w in h && w.repo != "blobs"
    && (w.flight.Follow? && w.fetched.Fetched? ==> RulingSound(cfg, h, w.repo, w.fetched.digest, w.flight.ruling))
  }

  /** One whose botched writes leave pinned content. */
  ghost predicate Member(cfg: Config, h: iset<World>, w: World) { InRun(cfg, h, w) && BotchesPinned(cfg, h, w) }

  /** One beside which the store is only touched in ways that keep it sound. */
  ghost predicate Admissible(cfg: Config, h: iset<World>, w: World) {
    Member(cfg, h, w) && forall p, rows :: Sound(cfg, h, rows) ==> Sound(cfg, h, w.interfere(p, rows))
  }
}
