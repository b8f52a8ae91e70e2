/** The gate as the program runs it: an object over the shared verdict store, step by step. */
module ManifestGates {
  import opened Domain
  import Policy
  import opened DockerGate

  class ManifestGate {
    const cfg: Config
    var rows: Rows

    constructor (cfg: Config)
      ensures this.cfg == cfg && rows == map[]
    {
      this.cfg := cfg;
      rows := map[];
    }

    /** Other requests and the eviction worker get their turn. */
    method Await(w: World, p: Point)
      modifies this`rows
      ensures rows == w.interfere(p, old(rows))
    {
      rows := w.interfere(p, rows);
    }

    method Put(w: World, p: Point, key: PackageRef, content: Content, clean: bool, reason: string) returns (ok: bool)
      modifies this`rows
      ensures ok == w.put(p).Stored?
      ensures rows == PutRow(w.interfere(p, old(rows)), key, NewRow(w, p, content, clean, reason), w.put(p))
    {
      Await(w, p);
      match w.put(p) {
        case Stored => rows := rows[key := NewRow(w, p, content, clean, reason)];
        case Refused =>
        case Lost => rows := rows - {key};
        case Botched(behind) =>
          var there := if key in rows then Some(rows[key]) else behind;
          if there.Some? {
            rows := rows[key := there.value.(content := content)];
          }
      }
      ok := w.put(p).Stored?;
    }

    method ScanLayer(w: World, i: nat, digest: string) returns (outcome: LayerOutcome)
      modifies this`rows
      ensures (outcome, rows) == DockerGate.ScanLayer(cfg, w, i, digest, old(rows))
    {
      Await(w, LayerGet(i));
      if BlobKey(digest) in rows {
        if rows[BlobKey(digest)].clean {
          return LayerClean;
        }
        return LayerInfected;
      }
      var limit := cfg.maxLayerBytes;
      match w.blob(i) {
        case Unreachable => return LayerError;
        case Stream(declared, bytes, breaks) =>
          if limit > 0 && declared > limit {
            var _ := Put(w, LayerPut(i), BlobKey(digest), Bytes(""), false, "");
            return LayerInfected;
          }
          if w.tempFails(i) {
            return LayerError;
          }
          if limit > 0 && |bytes| > limit {
            var _ := Put(w, LayerPut(i), BlobKey(digest), Bytes(""), false, "");
            return LayerInfected;
          }
          if breaks {
            return LayerError;
          }
          match w.av(i) {
            case Failed => return LayerError;
            case Scanned(clean, incomplete) =>
              if incomplete {
                return LayerIncomplete;
              }
              var ok := Put(w, LayerPut(i), BlobKey(digest), Bytes(bytes), clean, "");
              if !ok {
                return LayerError;
              }
              return if clean then LayerClean else LayerInfected;
          }
      }
    }

    method EvictBlobs(w: World, content: Content)
      modifies this`rows
      ensures rows == DockerGate.EvictBlobs(w, Blobs(content), 0, old(rows))
    {
      var blobs := Blobs(content);
      for k := 0 to |blobs|
        invariant DockerGate.EvictBlobs(w, blobs, k, rows) == DockerGate.EvictBlobs(w, blobs, 0, old(rows))
      {
        if blobs[k] != "" {
          Await(w, Cascade(k));
          rows := DropRow(rows, BlobKey(blobs[k]), w.drop(Cascade(k)));
        }
      }
    }

    method CacheBlock(w: World, digest: string, content: Content, v: Verdict, cascade: bool)
      modifies this`rows
      ensures rows == DockerGate.CacheBlock(w, digest, content, v, cascade, old(rows))
    {
      var _ := Put(w, VerdictPut, ImageKey(w.repo, digest), content, false, v.reason);
      if cascade {
        EvictBlobs(w, content);
      }
    }

    method RunPipeline(w: World, digest: string, content: Content, contentType: string, cascade: bool)
        returns (ruling: Ruling)
      modifies this`rows
      ensures (ruling, rows) == Pipeline(cfg, w, digest, content, contentType, cascade, old(rows))
    {
      if content.Bytes? || w.created.None? {
        return Broken;
      }
      if !w.filter.allowed {
        var v := Blocked(w.filter.reason, "supply_chain", []);
        return Ruled(v.(publishedAt := w.filter.publishedAt, blockUntil := w.filter.blockUntil));
      }
      if w.trivy.None? {
        return Broken;
      }
      if cfg.policy.Some? {
        var d := Policy.Evaluate(cfg.policy.value, ImageKey(w.repo, w.ref), w.trivy.value);
        if !d.allowed {
          var v := Blocked(d.reason, if d.reason == DENYLISTED then "denylist" else "cve", d.findings);
          CacheBlock(w, digest, content, v, cascade);
          return Ruled(v);
        }
      }
      if cfg.avEnabled {
        var blobs := Blobs(content);
        for i := 0 to |blobs|
          invariant ScanBlobs(cfg, w, blobs, i, rows) == ScanBlobs(cfg, w, blobs, 0, old(rows))
        {
          var outcome := ScanLayer(w, i, blobs[i]);
          match outcome {
            case LayerError => return Broken;
            case LayerIncomplete => return Ruled(Blocked(SCAN_INCOMPLETE, SCAN_INCOMPLETE, []));
            case LayerInfected =>
              var v := Blocked(MALWARE_FOUND, "malware", []);
              CacheBlock(w, digest, content, v, cascade);
              return Ruled(v);
            case LayerClean =>
          }
        }
      }
      var ok := Put(w, VerdictPut, ImageKey(w.repo, digest), content, true, "ok");
      if !ok {
        return Broken;
      }
      var body := GetBody(w, ServeBody, digest);
      return Ruled(Verdict(true, "ok", "", [], body, contentType, w.created.value, 0, false, false));
    }

    method GetBody(w: World, p: Point, digest: string) returns (body: Option<Content>)
      modifies this`rows
      ensures rows == w.interfere(p, old(rows))
      ensures body == BodyAt(w, p, ImageKey(w.repo, digest), old(rows))
    {
      Await(w, p);
      var key := ImageKey(w.repo, digest);
      body := if key in rows then Some(rows[key].content) else None;
    }

    method PassThrough(w: World, digest: string, content: Content, contentType: string, reason: string)
        returns (answer: Answer)
      modifies this`rows
      ensures (answer, rows) == Passthrough(w, digest, content, contentType, reason, old(rows))
    {
      var ok := Put(w, VerdictPut, ImageKey(w.repo, digest), content, true, reason);
      if !ok {
        return Failure(false);
      }
      var body := GetBody(w, ServeBody, digest);
      return Served(digest, Verdict(true, reason, "", [], body, contentType, 0, 0, true, false));
    }

    method LookUpByDigest(w: World) returns (found: Lookup)
      modifies this`rows
      ensures (found, rows) == FastPath(cfg, w, old(rows))
    {
      Await(w, FastVerdict);
      var key := ImageKey(w.repo, w.ref);
      if key !in rows || IsStaleSupplyBlock(rows[key]) {
        return Continue(None);
      }
      var row := rows[key];
      var v := FromRow(row);
      if row.clean {
        var body := GetBody(w, FastBody, w.ref);
        if body.Some? && MediaType(body.value) != "" {
          v := v.(body := body, contentType := MediaType(body.value));
        }
      }
      var servable := !v.allowed || v.body.Some?;
      if Fresh(cfg, w, FastVerdict, row) && servable {
        return Settled(v);
      }
      return Continue(if servable then Some(v) else None);
    }

    method LookUpFetched(w: World, digest: string, contentType: string) returns (found: Lookup)
      modifies this`rows
      ensures (found, rows) == SlowPath(cfg, w, digest, contentType, old(rows))
    {
      Await(w, SlowVerdict);
      var key := ImageKey(w.repo, digest);
      if key !in rows || IsStaleSupplyBlock(rows[key]) {
        return Continue(None);
      }
      var row := rows[key];
      var v := FromRow(row);
      if row.clean {
        var body := GetBody(w, SlowBody, digest);
        if body.Some? {
          v := v.(body := body, contentType := contentType);
        }
      }
      return if Fresh(cfg, w, SlowVerdict, row) then Settled(v) else Continue(Some(v));
    }

    method Evaluate(w: World) returns (answer: Answer)
      modifies this`rows
      ensures (answer, rows) == DockerGate.Evaluate(cfg, w, old(rows))
    {
      var offline: Option<Verdict> := None;
      if IsDigestRef(w.ref) {
        var found := LookUpByDigest(w);
        if found.Settled? {
          return Served(w.ref, found.verdict);
        }
        offline := found.stale;
      }
      match w.fetched {
        case FetchFailed(allNotFound) =>
          return if offline.Some? then Served(w.ref, offline.value) else Failure(allNotFound);
        case Fetched(content, contentType, digest) =>
          var found := LookUpFetched(w, digest, contentType);
          if found.Settled? {
            return Served(digest, found.verdict);
          }
          answer := Judge(w, digest, content, contentType, found.stale);
      }
    }

    method Judge(w: World, digest: string, content: Content, contentType: string, stale: Option<Verdict>)
        returns (answer: Answer)
      modifies this`rows
      ensures (answer, rows) == DockerGate.Judge(cfg, w, digest, content, contentType, stale, old(rows))
    {
      if IsIndex(contentType) {
        answer := PassThrough(w, digest, content, contentType, INDEX_PASSTHROUGH);
        return;
      }
      if IsAttestation(content) {
        answer := PassThrough(w, digest, content, contentType, ATTESTATION_PASSTHROUGH);
        return;
      }
      var ruling;
      match w.flight {
        case Lead => ruling := RunPipeline(w, digest, content, contentType, stale.Some?);
        case Follow(r) =>
          Await(w, Joined);
          ruling := r;
      }
      match ruling {
        case Ruled(v) => answer := Served(digest, v);
        case Broken => answer := if stale.Some? then Served(digest, stale.value) else Failure(false);
      }
    }
  }
}
