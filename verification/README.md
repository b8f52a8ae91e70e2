# Jō-ei: a verified model

Jō-ei is a proxy in front of package and image registries. It decides which artifacts may be served, remembers that
decision and re-checks it later. This project models the parts where a remembered decision must stay true to the check
behind it, or where one thing is written down in two forms that must agree, and proves what they promise.

`dafny verify dfyconfig.toml` checks everything.

How it is built:

- Code that changes state is a class whose methods are proved against specification functions (`ManifestGates`,
  `LocalCaches`, `PackageGate`, `Telemetry`, `TelemetryStore`, `RateLimit`, `LoginLimit`, `Upstream`, `Users`,
  `PypiLink`); loops that only compute are methods with invariants. The laws are then proved about the functions.
- Everything outside a component (registries, scanners, filter, clock, disk, failing writes) is a parameter: one
  request's answers are a `World`, and the laws hold for all of them.
- Other requests, the eviction worker and removed rows are a function that may rewrite the store at every named point
  where a request touches it. The laws of a single request rely on it to keep the invariant that requests are proved to
  keep, and on a flight another request leads to end in a ruling of the run. Both are discharged: `DockerSteps` and
  `PackageSteps` cut a request into its accesses, `DockerTables` and `PackageTables` an access into single operations on
  index rows and files, and `DockerInterleavings` and `PackageInterleavings` let those of any number of requests
  interleave, fail and join.
- What may be answered is in the `Laws` modules; when each answer is given, as conditions on a `World`, in
  `DockerAnswers` and `PackageAnswers`.
- Times are integers in nanoseconds (reals in the token bucket). SHA-256 is injective and the token MAC ideal. Strings
  are bytes, one per character.

Where the code does less than is promised for it, the model follows the code, a lemma gives an input, and another one
the exact condition:

- A repository called "blobs" shares its keys with the blobs (`RepositoryNamedBlobsIsUnsound`).
- An empty layer digest is scanned and stored but not evicted (`EmptyDigestSurvivesCascade`).
- A Retry-After whose nanoseconds do not fit 63 bits wraps (`HugeRetryAfterOpensNothing`): when it still opens the
  circuit is `TripExtends`, when it is honoured `RetryAfterIsHonoured`.
- The text of a cursor whose time is not positive is refused (`CursorRoundTrip`), so a client's walk stops there: when it
  still shows everything is `OverIsEndedIff` and `ConsoleShowsAllIff`.
- A page path with a trailing empty directory segment gets links one level short (`TrailingSlashMisses`,
  `KeptLinkLandsIff`).
- A rewritten link that ends in a space changes when rewritten again (`RewritingTwiceIsOnceIff`).
- npm names that are or end in a dot segment (`UpNameLeadsAway`), that hold a character URLs give a meaning to or strip,
  or that are of the form "@scope/-", get links that do not lead back: exactly those (`LinkLeadsBackIff`).
- A request that joins a re-check flight is served although a gate that came due after the flight began was run by
  nobody (`JoinedHitSkipsAGate`). Joining leads to this exactly when a TTL ran out since the flight began
  (`JoinedHitRunsItsGatesIff`, `JoinedInTime`).
- A request whose verdict had expired and that joins a Docker flight can be answered with a block and the image's blobs
  stay (`JoinedBlockLeavesBlobs`): they are evicted exactly when the leader's lookup had found an expired verdict
  (`JoinedBlockClearsBlobsIff`).
- Recreating an account within the nanosecond that is its old version would revive its tokens (`RecreationAcceptsIff`).
- When a cache write fails and its clean-up fails too, the old row vouches for the new bytes
  (`BotchedPutKeepsOldVerdict`); this does harm exactly when a row is there and the bytes differ or were missing
  (`FailedPutIsSafeIff`, `StepRefinesIff`). In the verdict store it takes a registry that serves two contents under one
  digest to leave an unbacked row (`UnpinnedBotchIsUnsound`, `PutKeepsSoundIff`).
- With such a registry two writes that cross do so without any failure (`CrossedWritesAreUnsound`); with one manifest per
  digest, and no blob found both clean and different or oversized, nothing does (`EveryPinnedInterleavingIsSound`).

## Model

| member | source | states |
|---|---|---|
| Domain.KeyIsInjective | internal/gate/gate.go:32-38 | two references with equal keys are equal, given no "/" in the ecosystem, no "@" or "?" in the version and no "@" in the classifier |
| Domain.KeyCollides | internal/gate/gate.go:32-38 | each of those four restrictions is needed: a family of distinct references with one key for every one of them |
| Policy.Evaluate | internal/policy/engine.go:37-65 | the finding loop returns the decision of the specification: denylist, then allowlist, then severity |
| Policy.RefusalReasons | internal/policy/engine.go:37-65 | a refusal is `denylisted` exactly for references on the denylist, `cve_found` exactly for those on neither list with blocking on and a finding at or above the threshold, and the findings reported are exactly those |
| Policy.BlockingCounts | internal/policy/engine.go:37-65 | the findings reported are the findings at or above the threshold, each as often as it was found |
| Policy.MatchesIffNamed | internal/policy/engine.go:67-83 | an allow- or denylist, whatever is on it, matches a reference exactly when one of its entries, read as "ecosystem/name" or "ecosystem/name@version", is about it: this is so exactly of the references without "/" in the ecosystem, with a name, and without "@" in the name but at its start |
| Domain.SeveritiesReach | internal/gate/gate.go:217-224 | which severities reach which threshold, level by level; an unknown one reaches none |
| ManifestGates.ManifestGate.Evaluate | internal/proxy/dockerproxy/gate.go:113-238 | a request changes the store and answers as the specification says: by-digest fast path, fetch, second lookup, passthrough, flight, stale fallback |
| ManifestGates.ManifestGate.RunPipeline | internal/proxy/dockerproxy/gate.go:244-334 | one flight: config, filter, Trivy and policy, antivirus over config and layers, the verdict write and the cascade, in that order |
| ManifestGates.ManifestGate.ScanLayer | internal/proxy/dockerproxy/gate.go:363-419 | one blob: cached answer, declared size, size read, broken stream, scan, in that order, and what is written under its digest |
| ManifestGates.ManifestGate.EvictBlobs | internal/proxy/dockerproxy/gate.go:463-489 | the cascade drops the config and layer rows one by one, others acting in between |
| ManifestGates.ManifestGate.CacheBlock | internal/proxy/dockerproxy/gate.go:279-322 | a CVE, denylist or malware block is written, then cascaded when an expired verdict was being re-run |
| ManifestGates.ManifestGate.PassThrough | internal/proxy/dockerproxy/gate.go:339-358 | an index or attestation is stored as clean and served; a failing write is an error |
| ManifestGates.ManifestGate.LookUpByDigest | internal/proxy/dockerproxy/gate.go:119-145 | the lookup before the upstream is touched: served when fresh and servable, remembered when only servable |
| ManifestGates.ManifestGate.LookUpFetched | internal/proxy/dockerproxy/gate.go:186-199 | the lookup by the fetched digest: served when fresh, remembered as stale otherwise |
| ManifestGates.ManifestGate.Judge | internal/proxy/dockerproxy/gate.go:204-237 | passthrough, or the ruling of the flight, or the stale verdict when the flight breaks |
| ManifestGates.ManifestGate.Put | internal/proxy/dockerproxy/blobcache.go:38-61 | what a write to the verdict store leaves: the new row, the old one, none, or, when its clean-up fails too, an old row over the new content |
| DockerGateLaws.RunIsSound | internal/proxy/dockerproxy/gate.go:244-438 | from the empty store, whatever registry, Trivy, antivirus, filter and clock answer, whichever of the four ways each write ends (in the fourth, an old row over new content, the digest's content must be the same as before) and whatever sound writes others make between any two steps, every reachable row is backed: a clean blob by a complete scan of those bytes within the limit, an image row by the check its reason names |
| DockerGateLaws.ReachableRows | internal/proxy/dockerproxy/gate.go:244-438 | the same spelled out per kind of row, under the same condition on botched writes: clean "ok" rows had filter, Trivy, policy and every config and layer blob pass; blocked rows carry one of three reasons, from which the blocker is recovered |
| DockerGateLaws.EvaluateIsSound | internal/proxy/dockerproxy/gate.go:113-238 | one request, its botched writes leaving content as it was under that digest, keeps the store sound; a verdict of the stored kinds that it answers with was reached by some request of the run on the digest named, and a body in the answer was fetched by one under that digest |
| DockerGateLaws.PipelineIsSound | internal/proxy/dockerproxy/gate.go:244-334 | one flight, under the same condition, keeps the store sound and rules only on grounds it met itself |
| DockerGateLaws.ScanLayerIsSound | internal/proxy/dockerproxy/gate.go:363-419 | a blob reported clean has been scanned clean and complete by some request, one reported infected was oversized or detected, and the store stays sound under the same condition |
| DockerGateLaws.PutKeepsSoundIff | internal/cache/local.go:88-145 | writing a sound row keeps the store sound in every way a write can end, exactly unless it is botched and the old row is not sound over the new content |
| DockerGateLaws.UnpinnedBotchIsUnsound | internal/cache/local.go:88-145 | two concrete requests whose registry serves two images under one digest: the second one's botched write leaves the clean "ok" row over the image that antivirus refused |
| DockerSteps.DriveIsEvaluate | internal/proxy/dockerproxy/gate.go:113-489 | taken access by access, with others acting before each, a request is the one of the specification: same answer, same store |
| DockerInterleavings.StepKeepsSound | internal/proxy/dockerproxy/gate.go:113-489 | one operation on sound tables, failing or not, leaves them sound, and what the request needs to know for its next one holds, whatever has become of index and files since its last one |
| DockerInterleavings.EveryInterleavingIsSound | internal/proxy/dockerproxy/gate.go:113-489 | however the single operations on index rows and files of any number of requests interleave with each other and with removals, the file move and the index write of one put included, whichever of them fail and whichever requests share flights: every index row has its grounds in the run, every file is what a request of the run fetched under its digest, or empty for a blob one found oversized, and every finished request's verdict has its grounds and the body in it was fetched so; no condition but the repository's name |
| DockerInterleavings.EveryPinnedInterleavingIsSound | internal/proxy/dockerproxy/gate.go:113-489 | if moreover the run was given one manifest under each digest, and no scan writes under a blob's digest anything but what another scanned clean there, every row that a reader can find is sound, content included, and the body of an allowed answer is the very content its grounds are about |
| DockerInterleavings.PinnedBodyIsJudged | internal/proxy/dockerproxy/gate.go:119-199 | with one manifest under each digest an allowed verdict's body, read in another access than the verdict, is the content of a request that had the verdict's grounds |
| DockerInterleavings.EveryBodyIsJudged | internal/proxy/dockerproxy/gate.go:119-199 | so is that of every finished request of every interleaving |
| DockerInterleavings.FailedFetchesKeepPinned | internal/proxy/dockerproxy/gate.go:363-400 | requests whose blob fetches fail, break off or are not scanned to the end do not disturb the condition on blobs |
| DockerTables.AccessAloneIsNext | internal/cache/local.go:71-163 | operation by operation with nothing in between, an access ends as one access of the request to the rows does, whichever way its put or invalidation fails |
| DockerCrossing.CrossedWritesAreUnsound | internal/cache/local.go:88-136 | what the one content per digest is needed for: a run of two requests, nothing failing or removed, whose file moves and index writes cross and leave the clean verdict of one image over the denied other one |
| DockerGateLaws.CachedAnswerIsTheRowRead | internal/proxy/dockerproxy/gate.go:123-237 | an answer marked as cached has exactly the flag, reason and blocker of a row read in this very call |
| DockerGateLaws.FailureNeverPassesFresh | internal/proxy/dockerproxy/gate.go:148-237 | with the fetch failing, or the image config, Trivy or the verdict write in the flight that answers, led or joined, the answer is an error, a row read or a block |
| DockerGateLaws.UncheckedBlobNeverPasses | internal/proxy/dockerproxy/gate.go:363-419 | nor does a blob pass that is not cached and cannot be fetched, scanned or stored |
| DockerGateLaws.UncheckedImageNeverPassesFresh | internal/proxy/dockerproxy/gate.go:204-419 | an image with such a blob in the flight that answers, led or joined, is answered with an error, a row read or a block |
| DockerGateLaws.FastPathAgreesWithFetchPath | internal/proxy/dockerproxy/gate.go:123-199 | undisturbed, a fresh by-digest answer is the answer of the fetch path on that row, content type aside |
| DockerAnswers.HeldIff | internal/proxy/dockerproxy/gate.go:255-266 | a request that leads its flight is answered with a supply-chain block exactly when manifest and config can be read and the filter refuses: not allowed, fresh, with the filter's reason and dates, whatever verdict had expired, and the store stays as the lookups left it |
| DockerAnswers.FreshVerdictIff | internal/proxy/dockerproxy/gate.go:244-334 | with nothing failing and the filter satisfied, each kind of answer has exactly its cause: allowed, policy block with its findings, malware, unfinished scan |
| DockerAnswers.StaleServedIff | internal/proxy/dockerproxy/gate.go:216-237 | the answer of such a request is the expired verdict, or an error without one, exactly when manifest, config, Trivy, a blob or the clean verdict's write fails |
| DockerAnswers.UnfinishedScanStoresNothing | internal/proxy/dockerproxy/gate.go:304-322 | undisturbed, neither a hold nor an unfinished scan changes the image's row |
| DockerAnswers.LayerOutcomeIff | internal/proxy/dockerproxy/gate.go:363-419 | when a blob comes out clean, infected or incomplete, in terms of the stored answer, the sizes, the stream and the scan |
| DockerAnswers.LayerIsCached | internal/proxy/dockerproxy/gate.go:363-419 | undisturbed, a verdict on a blob that was not in the store is written with what was read, or empty for an oversized one; any other outcome writes nothing |
| DockerAnswers.ScanOutcomeIsTheFirst | internal/proxy/dockerproxy/gate.go:297-322 | undisturbed, the scan of config and layers comes to the outcome of the first one that does not get past, else to clean |
| DockerAnswers.OutageServesIff | internal/proxy/dockerproxy/gate.go:148-163 | with the upstream out, exactly a request by digest that has a row which needs no upstream, fresh or expired, is answered, with that row's verdict and body; every other one fails, as not found when every mirror said so |
| DockerAnswers.FastAnswerIff | internal/proxy/dockerproxy/gate.go:119-145 | while the upstream answers, such a row is the answer exactly as long as it is fresh |
| DockerAnswers.SlowLookupIff | internal/proxy/dockerproxy/gate.go:186-199 | the row of the fetched digest is the answer exactly while fresh, with its body and the fetched content type; an expired one is what the flight falls back on |
| DockerAnswers.PassedThroughIff | internal/proxy/dockerproxy/gate.go:204-214 | an index or attestation no lookup settles is passed through exactly when it can be stored, with its own content type and the reason that tells which it is |
| DockerAnswers.FreshPassHasItsBody | internal/proxy/dockerproxy/gate.go:324-334 | undisturbed, a fresh pass carries the manifest fetched |
| DockerGateLaws.ExpiredVerdictBlockClearsBlobs | internal/proxy/dockerproxy/gate.go:225-231 | a request that re-runs an expired verdict into a CVE, denylist or malware block leaves no row for any non-empty config or layer digest, when the invalidations succeed |
| DockerGateLaws.BlockOnRecheckClearsBlobs | internal/proxy/dockerproxy/gate.go:279-322 | the same of the pipeline alone, including rows this very run has just added |
| DockerGateLaws.JoinedBlockClearsBlobsIff | internal/proxy/dockerproxy/gate.go:216-232 | a request that joined a flight and is answered with its block finds the image's blob rows cleared exactly when the leader's own lookup had found an expired verdict; what its own lookup had found plays no part |
| DockerGateLaws.JoinedBlockLeavesBlobs | internal/proxy/dockerproxy/gate.go:216-232 | a concrete leader and joining request, the latter with an expired verdict: it is answered with the block and the layer stays cached |
| DockerGateLaws.EvictExactly | internal/proxy/dockerproxy/gate.go:463-489 | undisturbed, the cascade removes exactly the rows of the non-empty digests |
| DockerGateLaws.StoreRemembersRulings | internal/proxy/dockerproxy/gate.go:424-438 | an allow or a CVE, denylist or malware block is written under the image; a supply-chain hold or an incomplete scan leaves its row as it was |
| DockerGateLaws.RulingHoldsUntilTtl | internal/proxy/dockerproxy/gate.go:186-199 | a remembered ruling is the next answer, unchanged, until its whole-second stamp is older than the TTL, and not after |
| DockerGateLaws.RepositoryNamedBlobsIsUnsound | internal/proxy/dockerproxy/blobcache.go:20-26 | a concrete run on a repository called "blobs" that leaves an unscanned clean blob row: why the run lemmas exclude that name |
| DockerGateLaws.EmptyDigestSurvivesCascade | internal/proxy/dockerproxy/gate.go:463-489 | a concrete manifest whose empty layer digest is scanned and stored but skipped by the cascade: why the cascade lemmas say "non-empty" |
| LocalCaches.LocalCache.Get | internal/cache/local.go:71-86 | a read returns the row of the table and counts the hit, or drops the row of a file that is missing or cannot be looked at |
| LocalCaches.LocalCache.Put | internal/cache/local.go:88-145 | a write moves the file, then writes the row; each way of failing leaves the tables as specified |
| LocalCaches.LocalCache.Invalidate | internal/cache/local.go:147-163 | the row and the file go, each unless its own deletion fails; reports whether a row was there |
| CacheModel.GetRefines | internal/cache/local.go:71-86 | seen as a map from reference to entry, a read answers from the map and changes nothing in it, except that a failing look at the file removes the reference |
| CacheModel.PutRefines | internal/cache/local.go:88-145 | seen as a map, a write updates the one reference; one that fails leaves the map as it was or without the reference; one that fails with its clean-up leaves it as it was exactly when no row speaks for the file or the bytes are the same |
| CacheModel.InvalidateRefines | internal/cache/local.go:147-163 | an invalidation removes the one reference, or nothing when both deletions fail |
| CacheModel.ReplayRefines | internal/cache/local.go:64-162 | over any sequence of operations with any of them failing, rows and hashed files behave as one map, as long as no write fails together with its clean-up while a row speaks for other bytes or for a missing file |
| CacheModel.ReplayKeepsSized | internal/cache/local.go:118-136 | over any sequence of operations, under the same condition, each row gives the size of its file |
| CacheModel.UseSetsLastHit | internal/cache/local.go:71-145 | a write that goes through or a counted read sets the last hit to its time, a counted read counts one hit, only such a write sets the time of storing, and nothing else moves any of the three |
| CacheModel.LastHitIsTheLastUse | internal/cache/local.go:71-145 | in every history the last hit of a row is the time of the last such use of its reference |
| CacheModel.SizesCoverBytes | internal/cache/local.go:245-270 | where rows give the sizes of their files, the total of the sizes covers the bytes in files, and equals it when no file is missing |
| CacheModel.StepRefinesIff | internal/cache/local.go:64-162 | one operation does to rows and files what it does to the map exactly under that condition on the state before it |
| CacheModel.FailedPutIsSafeIff | internal/cache/local.go:88-145 | a failing write leaves the map as it was or without the reference exactly when it is not the double failure, or no row speaks for the file, or the same bytes were there |
| CacheModel.SeparableRefsKeepApart | internal/cache/local.go:64-69 | different separable references have different files |
| CacheModel.PutDisturbsCollidingRefs | internal/cache/local.go:64-69 | a write under one reference changes another one exactly when their keys coincide and the stored bytes differ |
| CacheModel.BotchedPutKeepsOldVerdict | internal/cache/local.go:88-145 | what the double failure leaves: nothing new without a row; with one, the old verdict over the new bytes, also when the row's own file had gone |
| LocalCaches.LocalCache.OldestOf | internal/cache/index.go:307-334 | the candidates are the rows hit longest ago, in order, as many as asked for or all |
| LocalCaches.LocalCache.TotalSizeBytes | internal/cache/index.go:358-364 | the total is the sum of all rows' sizes |
| LocalCaches.LocalCache.EvictToSize | internal/cache/local.go:245-270 | ends whatever deletions fail; with none failing it removes a set of rows closed downward in last hit, brings the sizes within the limit, and so the bytes in files where rows give the sizes of their files; the last batch of at most ten was needed |
| LocalCaches.LocalCache.EvictBatch | internal/cache/local.go:249-266 | one batch removes the ten rows hit longest ago, less those whose deletion fails |
| LocalCaches.EvictionTakesLeastRecentlyUsed | internal/cache/local.go:245-270 | in a cache with a history, no reference that such an eviction keeps was used before one that it takes |
| LocalCaches.LocalCache.PurgeStale | internal/cache/local.go:194-224 | ends whatever deletions fail and counts the rows and bytes it removed; when it reports done, the rows left are exactly those hit at or after the cut-off |
| LocalCaches.LocalCache.StaleSizeBytes | internal/cache/index.go:366-372 | the reclaimable size is the sum over exactly the rows the purge would remove |
| LocalCaches.LocalCache.InvalidateAll | internal/cache/local.go:200-224 | one batch: skips what cannot be deleted, counts rows and bytes of the rest, and reports progress only if something went |
| LocalCaches.WithoutRefines | internal/cache/local.go:194-270 | seen as a map, a sweep removes the swept references and changes no other |
| PackageGate.Handler.ServeHttp | internal/proxy/handler.go:163-379 | a download request: cached row with its re-checks, or the gates in the adapter's order, the download and the write |
| PackageGate.Handler.RecheckFlight | internal/proxy/handler.go:444-510 | one re-check flight: due gates run in order, a pass is stamped, a refusal evicts and ends it |
| PackageGate.Handler.DownloadFromUpstreams | internal/proxy/handler.go:670-687 | the first mirror that delivers wins, an oversized artifact ends the walk, the other outcomes are collected |
| PackageGate.Handler.ServeHit | internal/proxy/handler.go:164-180 | a cached row: refused when not clean, re-checked when due, else served with the bytes that are there when the file is opened |
| PackageGateLaws.RunIsSound | internal/proxy/handler.go:163-379 | over every run, each row was put after every configured gate passed on its bytes, and each check time is that of such a put or of a passed re-check |
| PackageGateLaws.HandleIsSound | internal/proxy/handler.go:163-379 | one request keeps the cache so, and the bytes it serves were cleared by some request of the run |
| PackageGateLaws.HitIsServedIff | internal/proxy/handler.go:386-490 | a hit is served from the cache exactly when the row is clean, its file opens, and no gate was due at the hit or the flight, led or joined, ended without a refusal |
| PackageGateLaws.LeaderRunsItsGates | internal/proxy/handler.go:386-490 | a served request that led its flight has had each gate that was due at its hit run without a refusal |
| PackageGateLaws.JoinedHitRunsItsGatesIff | internal/proxy/handler.go:386-490 | one that joined a flight has, exactly when each gate due at its hit was due when that flight began |
| PackageGateLaws.JoinedInTime | internal/proxy/handler.go:386-445 | on one row that is: no TTL ran out between the start of the flight and the joining hit |
| PackageGateLaws.JoinedHitSkipsAGate | internal/proxy/handler.go:386-490 | a concrete leader and joining request, both served, where the joining one's antivirus re-check was due and nobody ran it |
| PackageAnswers.RefusedRecheckEvicts | internal/proxy/handler.go:444-510 | a hit that leads its re-check is answered 403, with the refusing gate's name and reason, exactly when CVE policy or antivirus refuse it; then the row is gone, whatever others did meanwhile, unless the invalidation failed |
| PackageAnswers.PassedRecheckMovesItsStamp | internal/proxy/handler.go:444-490 | undisturbed, one that is not refused changes exactly the times of the gates that were due, passed and could be marked, to the second of the flight; a failed or incomplete check leaves its time |
| PackageAnswers.PassedGateRests | internal/proxy/handler.go:386-490 | such a gate is due again exactly when its TTL has run out since that second |
| PackageAnswers.AdmittedIff | internal/proxy/handler.go:188-348 | a package that is not cached is admitted exactly when a mirror delivers and every configured gate passes, with the bytes delivered and the filter's reason |
| PackageAnswers.MissIsServedIff | internal/proxy/handler.go:339-379 | it is served exactly when it was also stored, found again and opened, as a pass of the last gate it cleared |
| PackageAnswers.AdmittedIsCached | internal/proxy/handler.go:339-379 | undisturbed, an admitted package is cached clean with its bytes, both check times at the second of the write, and served from there |
| PackageAnswers.BlockedIff | internal/proxy/handler.go:188-348 | with nothing failing, a request is blocked exactly when the supply chain, the policy or the antivirus refuse |
| PackageAnswers.BlockNamesItsGate | internal/proxy/handler.go:188-348 | a block has the status, gate and reason of a gate that refused |
| PackageAnswers.FailuresHaveTheirStatus | internal/proxy/handler.go:188-379 | what failed first in the order of the gates decides the error of a request that is not cached |
| PackageAnswers.DownloadFailureMeans | internal/proxy/handler.go:263-312 | without a delivery: 403 exactly for an oversized artifact, 404 for one absent everywhere, the throttle's verdict, and 502 for anything else |
| PackageAnswers.FetchEndsAtTheFirst | internal/proxy/handler.go:670-687 | the walk ends at the first mirror that delivers or has too much; past none it has every attempt, in order |
| PackageAnswers.ServedBytesAreTheCached | internal/proxy/handler.go:689-709 | bytes served are those in the cache under the reference when the answer is given, if it is still there |
| PackageSteps.DriveIsHandle | internal/proxy/handler.go:163-379 | taken access by access, with others acting before each, a request is the one of the specification: same response, same cache |
| PackageTables.AccessAloneIsNext | internal/cache/local.go:71-163 | operation by operation with nothing in between, an access ends as one access of the request to the cache does |
| PackageInterleavings.StepKeepsSound | internal/proxy/handler.go:163-490 | one operation on sound tables, failing or not, leaves them sound, and what the request needs to know for its next one holds, the outcome of the flight it leads included |
| PackageInterleavings.EveryInterleavingIsSound | internal/proxy/handler.go:163-490 | however the single operations on index rows and files of any number of requests interleave with each other and with removals, whichever fail and whichever requests join flights: every row that can be found was admitted, and every served body was cleared by a request of the run; a request opens the cached file while a gate is due only after leading its flight on that row without a refusal, or being handed such an outcome; whoever was handed one got that of the flight the request named led on the same package, a refusal being its answer, and otherwise each gate due at its hit has been run there exactly when each was due when that flight began; under no condition |
| PackageInterleavings.RefusalsDelete | internal/proxy/handler.go:444-510 | in every interleaving, a request becomes answered with the refusal of a flight it led only by trying to delete the row, and no row is left by that move unless it failed |
| PackageGateLaws.OrderDoesNotMatter | internal/proxy/handler.go:188-339 | with one publish date, checking the supply chain before or after the download admits the same bytes |
| PackageGateLaws.FailsClosed | internal/proxy/handler.go:214-348 | no metadata, scan answer, mirror or cache write: no bytes and an error status |
| PackageGateLaws.RefusalsAreErrors | internal/proxy/handler.go:182-348 | every answer other than an admission has no body and a status of at least 403 |
| Telemetry.Tally.RecordEvent | internal/telemetry/aggregate.go:40-83 | recording in place is the specification's one-event update |
| Telemetry.Tally.AddTally | internal/telemetry/aggregate.go:86-104 | adding in place is pointwise addition, gates unknown to either side included |
| Telemetry.FoldCounts | internal/telemetry/aggregate.go:40-83 | each counter of the fold is the number of logged events it is meant to count |
| Telemetry.FoldCountsGates | internal/telemetry/aggregate.go:40-83 | each gate's pass and block tallies are the numbers of events that show the gate cleared or blocking |
| Telemetry.TalliesAreConsistent | internal/telemetry/aggregate.go:40-83 | supply passes cover all CVE tallies, CVE passes all malware tallies, blocks the four buckets, requests the verdicts |
| Telemetry.RecordIsAddingDelta | internal/telemetry/aggregate.go:40-104 | recording an event is adding its one-event delta |
| TelemetryStore.Repo.DoRecord | internal/telemetry/sqlite.go:123-169 | one transaction adds the row, the counters' delta and the day's delta, or nothing at all |
| TelemetryStore.Repo.DoPrune | internal/telemetry/sqlite.go:431-442 | removes exactly the events and days before their cut-offs and leaves the counters |
| TelemetryStore.CountersFoldTheLog | internal/telemetry/sqlite.go:123-169 | over any run of commits, failures and prunings the lifetime counters are the fold over the committed events |
| TelemetryStore.RowsAreTheCommits | internal/telemetry/sqlite.go:123-169 | in every run the event rows are exactly those of the committed records that no later pruning cut off, with what was recorded, and with the number of commits as id |
| TelemetryStore.DayFoldsItsLog | internal/telemetry/sqlite.go:123-169 | in every run a day has a row exactly when events were filed under it since a pruning last cut it off, and the row is the fold over them |
| TelemetryStore.DaysAndPrunedSumToCounters | internal/telemetry/sqlite.go:123-169 | in every run the daily rows and all that prunings took out of them are together the lifetime counters |
| TelemetryStore.DaysSumToCounters | internal/telemetry/sqlite.go:123-169 | the daily rows alone sum to the lifetime counters exactly as long as no pruning has taken out a daily row |
| TelemetryStore.RunKeepsValid | internal/telemetry/sqlite.go:123-169 | row ids stay unique and at least 1, tallies complete |
| Paging.Page | internal/telemetry/sqlite.go:287-363 | a page holds the newest wanted rows in order, full whenever it names a next cursor, and the cursor is its last row's |
| Paging.Query | internal/telemetry/sqlite.go:287-325 | ORDER BY time and id, both descending, with a limit: nothing before the end of the list is missing |
| Paging.Quarantine | internal/telemetry/sqlite.go:365-398 | lists, newest first, exactly the holds that decide about their package, being the newest readable one of it, and have not run out |
| Paging.WalkVisitsOnce | internal/telemetry/sqlite.go:287-363 | following cursors from the start until they end puts out each matching event present throughout exactly once, in descending order, whatever is inserted or pruned between pages |
| Paging.WalkIsOrdered | internal/telemetry/sqlite.go:287-363 | no walk repeats a row or leaves the order |
| Paging.WalkShowsPresentRows | internal/telemetry/sqlite.go:287-363 | each row put out was in the table when its page was read |
| Paging.WalkEnds | internal/telemetry/sqlite.go:287-363 | with a positive page size a walk ends within the pages that the rows ever present fill |
| Paging.RunTablesArePageable | internal/telemetry/sqlite.go:123-169 | the tables of every run meet what paging needs: unique ids from 1 on |
| CursorText.CursorRoundTrip | internal/console/cursor.go:33-57 | a cursor with a real id survives its text exactly when its time is positive; otherwise it is refused |
| CursorText.ParsedCursorsAreReal | internal/console/cursor.go:46-57 | any text that parses gives a cursor with positive time and id that encodes and parses back to itself |
| ConsoleWalk.TextWalkIsWalk | internal/console/server.go:311-328 | the walks a client can make through the console, each page's cursor text being the next request's, are exactly the walks by cursor in which every page but the last ends on a positive time |
| ConsoleWalk.OverIsEndedIff | internal/console/server.go:311-328 | such a walk, followed until no cursor is left or one is refused, came to the last page exactly when every next cursor had a positive time, whatever is inserted or pruned meanwhile |
| ConsoleWalk.ConsoleWalkVisitsOnce | internal/console/server.go:311-328 | and then it put out each matching event present throughout exactly once, in order |
| ConsoleWalk.ConsoleShowsAllIff | internal/console/server.go:311-328 | on a table that does not change it shows every matching event exactly when those without a positive time fit on the last page |
| RateLimit.RateLimiter.DoReserve | internal/httpx/ratelimit.go:53-72 | the bucket of the host is refilled up to the burst, charged one token, and the wait pays the debt |
| RateLimit.ReleasesAreBounded | internal/httpx/ratelimit.go:33-72 | for any run with a clock that does not go back: releases to a host never go back, and from reservation i to j there are at most burst plus rate times the time between their releases |
| RateLimit.WaitsAreNeeded | internal/httpx/ratelimit.go:53-72 | a call told to wait closes a stretch that is exactly as dense as allowed |
| RateLimit.NewLimiterLimits | internal/httpx/ratelimit.go:33-50 | every positive rate makes a limiter that these laws apply to, with the burst asked for or the least one |
| LoginLimit.LoginLimiter.DoAllow | internal/auth/ratelimit.go:70-94 | an attempt is refused with the longer wait of pair and address, or counted against both |
| LoginLimit.LoginLimiter.DoSuccess | internal/auth/ratelimit.go:99-108 | a success clears the pair and takes one back from the address |
| LoginLimit.LoginLimiter.Sweep | internal/auth/ratelimit.go:136-143 | removes exactly the expired windows |
| LoginLimit.LoginLimiter.Blocked | internal/auth/ratelimit.go:111-125 | the remaining block of one key, dropping its window when expired |
| LoginLimit.ForgettingIsInvisible | internal/auth/ratelimit.go:70-142 | over any run with a clock that does not go back, sweeping and lazy deletion change no answer |
| LoginLimit.ReachedAgrees | internal/auth/ratelimit.go:70-142 | at every point of such a run the live windows are those of a limiter that never deletes |
| LoginLimit.RetryIsExact | internal/auth/ratelimit.go:70-125 | a refused attempt is admitted from the time named on and not before, nothing else happening |
| LoginLimit.IntervalBound | internal/auth/ratelimit.go:70-134 | with a clock that does not go back and without a success, the limiter, sweeping and forgetting included, admits at most 2*limit-1 attempts on any key in any half-open interval of a window's length |
| LoginLimit.AdmittedIffRoom | internal/auth/ratelimit.go:70-134 | until a login succeeds, an attempt is admitted exactly when under both of its keys the last admission's window has run out or has room |
| LoginLimit.IntervalBoundIsTight | internal/auth/ratelimit.go:70-134 | a run of the limiter that reaches this bound |
| LoginLimit.AdmitsMinusSuccesses | internal/auth/ratelimit.go:70-134 | with successes, what the limiter admitted minus what succeeded in one window of an address never exceeds its limit, and a live window is the one so counted |
| LoginLimit.SuccessAdmitsAgain | internal/auth/ratelimit.go:99-108 | right after a successful login the same user is admitted again from the same address, whatever came before |
| LoginLimit.OthersAreKept | internal/auth/ratelimit.go:70-134 | attempts and successes leave the live windows of all other keys, and refused attempts their own, as they were |
| LoginLimit.PairsAreOfOneName | internal/auth/ratelimit.go:56-63 | a pair is shared by exactly the spellings of one name, from one address |
| Upstream.CircuitBreaker.DoRoundTrip | internal/httpx/circuitbreaker.go:65-80 | an open circuit refuses, a 429 or 503 trips, any other response resets |
| Upstream.CircuitBreaker.DoTrip | internal/httpx/circuitbreaker.go:123-148 | the delay, its cap and the never-shortened cooldown of one throttle |
| Upstream.ReachableHosts | internal/httpx/circuitbreaker.go:65-157 | in every reachable state a tripped host holds 429 or 503 as some response of the run gave it, and its circuit closes within the maximal delay of some throttle |
| Upstream.TripExtends | internal/httpx/circuitbreaker.go:123-148 | a trip never shortens a cooldown nor touches another host; it leaves the circuit open exactly when it was open, or when what was asked for plus jitter, modulo 2^64 nanoseconds, lies strictly between 0 and 2^63 and the maximum is positive |
| Upstream.RefusalChangesNothing | internal/httpx/circuitbreaker.go:65-89 | a request fails fast exactly while its host's circuit is open, and leaves the breaker as it is; no request touches another host's circuit |
| Upstream.CooldownHolds | internal/httpx/circuitbreaker.go:65-89 | in any run with a clock that does not go back: once a request has left its host's circuit open until some time, every request to that host before it fails fast, and the circuit stays as it was |
| Upstream.SuccessClosesTheCircuit | internal/httpx/circuitbreaker.go:65-80 | a response that is no throttle closes the circuit, and the next throttle finds the host as a new one |
| Upstream.FailsAreTheStreak | internal/httpx/circuitbreaker.go:123-157 | in every run the failures of a host are the throttles that got through since any other response did |
| Upstream.CooldownsDouble | internal/httpx/circuitbreaker.go:123-148 | a throttle without a usable Retry-After, after k others in a row, opens the circuit for the base delay times two to the k, sixteen doublings at most, plus jitter, up to the maximum, unless more is left of the last cooldown |
| Upstream.ShiftIsPower | internal/httpx/circuitbreaker.go:130-140 | shifting by k is multiplying by two to the k |
| Upstream.ThrottleReportsTheLast | internal/httpx/circuitbreaker.go:108-121 | of an open circuit are reported the status of the throttle that got through last and the time left |
| Upstream.RetryAfterIsHonoured | internal/httpx/circuitbreaker.go:123-196 | for every header: the delay is what was asked for plus jitter, up to the maximum, exactly when that fits 63 bits of nanoseconds or what wrapping leaves reaches the maximum all the same |
| Upstream.HugeRetryAfterOpensNothing | internal/httpx/circuitbreaker.go:123-196 | two headers, one in seconds and one a date, that leave the throttled host's circuit closed |
| Upstream.AllNotFound | internal/upstream/attempts.go:82-96 | absent everywhere: some attempt was made and every one was a not-found |
| Upstream.Throttled | internal/upstream/attempts.go:110-143 | the loop's status, shortest retry and flag are those of the specification |
| Upstream.FinalStatusMeaning | internal/upstream/attempts.go:110-143 | the status is 429 when some throttle was one, else 503 |
| Upstream.FinalRetryMeaning | internal/upstream/attempts.go:110-143 | the retry is the shortest positive one known, or 0 |
| Upstream.VerdictIgnoresOrder | internal/upstream/attempts.go:110-143 | the verdict depends only on which attempts there are, not on mirror order or repetition |
| Upstream.UnfaithfulLookupDependsOnOrder | internal/upstream/attempts.go:110-143 | with another status than the breaker holds, order would count |
| Upstream.ReachableBreakerIsFaithful | internal/httpx/circuitbreaker.go:108-121 | no reachable breaker gives such a status, nor a cooldown that is not positive |
| Upstream.ClassesExclude | internal/upstream/attempts.go:82-143 | not-found and throttled exclude each other; an outage is exactly an empty walk or one with another kind of attempt |
| Users.Store.DoCreate | internal/users/store.go:139-144 | validation, then a row whose version is the clock, unless the name is taken in any case |
| Users.Store.GuardLastAdmin | internal/users/store.go:183-196 | the count of other enabled admins is zero for an enabled admin |
| Users.Store.DoSetRole | internal/users/store.go:199-214 | same role is a no-op, the last admin is kept, otherwise role and version change |
| Users.Store.DoSetDisabled | internal/users/store.go:218-230 | same state is a no-op, the last admin is kept, otherwise state and version change |
| Users.Store.DoSetPassword | internal/users/store.go:233-238 | hash, must-change flag and version change |
| Users.Store.DoDelete | internal/users/store.go:241-248 | the row goes unless it is the last enabled admin's |
| Users.Store.DoTouchLogin | internal/users/store.go:251-260 | only the login time changes |
| Users.Store.DoEnsureInitialAdmin | internal/users/store.go:274-307 | an admin is made exactly when the table is empty |
| Users.Store.DoResetAdmin | internal/users/store.go:316-344 | the initial admin is restored or made again, enabled and an admin |
| Users.OnlyRevocationsChangeARow | internal/users/store.go:155-344 | exactly the revoking operations move a row's version by one or remove it; any other leaves all but the login time, and only a permitted delete removes |
| Users.RowsHoldWhatWasAsked | internal/users/store.go:104-344 | an operation that is not refused leaves in each field of each row what it asks for, and what was there in all others; a refused one changes nothing |
| Users.FieldIsTheLastAsked | internal/users/store.go:104-344 | in every run, each field of each row is what the last operation that was not refused and set it asked for |
| Users.RefusedForTheLastAdminIff | internal/users/store.go:183-248 | a change of role or status or a removal is refused for the last admin's sake exactly when it would take the table from an enabled admin to none |
| Users.RefusedOtherwiseIff | internal/users/store.go:104-260 | the other refusals: exactly for want of the row, for a name that is taken, or for an invalid name or role |
| Users.NewRowsStartAtTheClock | internal/users/store.go:123-136 | a row that appears has the clock as its version, a valid name under its own key and a known role |
| Users.GuardIsExact | internal/users/store.go:183-196 | the guard refuses exactly when the table without the row would have no enabled admin and now has one |
| Users.AnAdminRemains | internal/users/store.go:183-344 | once an enabled admin exists one always does, in every run and whatever the clock reads |
| Users.RecoveryGivesAnAdmin | internal/users/store.go:274-344 | the recovery command is never refused and leaves an enabled admin; start-up does on an empty table |
| Sessions.VerifyInvertsSign | internal/auth/token.go:75-153 | accepted is exactly what was signed with this secret, of the wanted kind, for a non-empty subject and unexpired |
| Sessions.Lifetime | internal/auth/token.go:75-147 | a token is never good at or after its lifetime, always good until a second before it, and then fails as expired |
| Sessions.RevocationIsPermanent | internal/auth/session.go:185-202 | in any run with a clock that moves before each table operation, a token issued from a row read at some point is accepted later exactly when it is of the wanted kind and in time, the user is enabled and nothing since the reading revoked them, a delete undone by a new account included; the user found is the same account |
| Sessions.DisabledUsersAreOut | internal/auth/session.go:80-202 | once a user has been disabled, no token at all is accepted for them and no repeated check passes, until an event enables them again |
| Sessions.SameVersionIffUnrevoked | internal/users/store.go:118-248 | a row read earlier is at the same version exactly when no event in between revoked it |
| Sessions.VersionsBelowClock | internal/users/store.go:118-136 | no version is ever ahead of the clock |
| Sessions.RecheckFollowsRevocation | internal/auth/session.go:80-92 | a long-lived handler's check passes exactly while nothing revoked the user and no password change is pending |
| Sessions.RecreationAcceptsIff | internal/users/store.go:118-136 | what the clock is needed for: an account deleted and made again accepts an old token exactly when it was made at the nanosecond equal to the old version |
| GoPath.DecodeGoPath | internal/proxy/adapters/go.go:19-42 | the byte loop decodes as specified and fails exactly where the specification does |
| GoPath.EncodeGoPath | internal/proxy/adapters/go.go:46-59 | the byte loop encodes as specified |
| GoPath.DecodeInvertsEncode | internal/proxy/adapters/go.go:19-59 | decoding gives back what was encoded, for exactly the strings without "!" |
| GoPath.EncodeInvertsDecode | internal/proxy/adapters/go.go:19-59 | encoding gives back what was decoded, for exactly the decodable strings without upper-case letters |
| GoPath.InfoIsTheClientsPath | internal/proxy/adapters/go.go:87-160 | the `.info` path asked of the upstream is the client's `.zip` path with the suffix changed, exactly when the client wrote no upper-case letter |
| GoPath.LowerPathIsEncoded | internal/proxy/adapters/go.go:87-110 | an accepted path is the encoded form of what it names, under the same condition |
| GoPath.RequestsAreDistinct | internal/proxy/adapters/go.go:87-110 | two different lower-case paths never name the same module and version |
| GoPath.CanonicalPathNormalizes | internal/proxy/adapters/go.go:87-110 | every name and version free of the protocol's characters is named by its encoded path |
| Mux.SplitPrefixIff | internal/proxy/mux.go:100-107 | a rooted path is split into prefix and rest exactly when it is "/", prefix and rest put together, or the prefix alone with "/" for the rest |
| Npm.NormalizedPathIsTarballPath | internal/proxy/adapters/npm.go:80-121 | an accepted tarball path is the canonical one of what it names, exactly unless no name stands before its marker |
| Npm.LinkExistsIff | internal/proxy/adapters/npm.go:257-270 | a link is built for exactly the versions of safe characters; the parse-back test never fails |
| Npm.TarballRoundTripIff | internal/proxy/adapters/npm.go:80-270 | a version's tarball path names the same package and version, for exactly the metadata names not of the form "@scope/-" |
| Npm.LinkLeadsBackIff | internal/proxy/adapters/npm.go:257-270 | the whole link, cleaned as URL parsers do, freed of dot segments by section 5.2.4 of RFC 3986, cut at "?" and "#", decoded and routed by prefix, asks the same registry for the same package and version, exactly when the name has no "?", "#", "%", tab, CR, LF or backslash, no dot segment, and is not of the form "@scope/-" |
| Npm.UpNameLeadsAway | internal/proxy/adapters/npm.go:222-270 | the name ".." is accepted, and its links ask another registry for something that is no tarball |
| Npm.NameShape | internal/proxy/adapters/npm.go:222-248 | the metadata names are one segment, or a scope and one segment |
| Npm.MetadataPathIff | internal/proxy/adapters/npm.go:222-248 | a metadata path is exactly a name of these shapes, or one with a version or tag of one segment, and which is which can be told |
| NpmFilter.FilterVersions | internal/proxy/adapters/npm.go:330-409 | the loops over the versions give the filtered packument of the specification |
| NpmFilter.VersionsAreAccountedFor | internal/proxy/adapters/npm.go:343-409 | shown, removed and unmappable versions are together the input; shown and removed are apart, unless all mappable ones were rejected, when they are equal; a non-empty input never gives an empty success |
| NpmFilter.ShownIffAllowed | internal/proxy/adapters/npm.go:343-409 | a version is shown exactly when its link can be routed and it was let through or all were rejected |
| NpmFilter.ShownLinksLeadBack | internal/proxy/adapters/npm.go:289-409 | every shown link, followed, asks this registry for exactly that version if and only if the name is one of those |
| NpmFilter.HiddenVersionsLeaveNoDates | internal/proxy/adapters/npm.go:386-402 | the dates kept are those of everything but the hidden versions |
| NpmFilter.OnlyLinksChange | internal/proxy/adapters/npm.go:289-409 | a shown version differs from the document in its link only; unroutable are exactly the versions that do not decode or have a link and a version of other characters; the rest of the document stays |
| PypiLink.LinkRewriter.MapLink | internal/proxy/adapters/pypi_index.go:132-142 | the mapped link, and the tallies of changed and dropped links |
| PypiLink.LinkRewriter.MapAnchor | internal/proxy/adapters/pypi_index.go:196-218 | an anchor is kept exactly when every one of its hrefs can be mapped |
| PypiLink.LinkRewriter.FileList | internal/proxy/adapters/pypi_index.go:278-308 | the entries kept, with their links mapped, and the tallies; an entry whose url is not text fails the list |
| PypiLink.NothingGetsPast | internal/proxy/adapters/pypi_index.go:278-308 | every kept link is the mapping of one that was in the list, and kept and dropped entries are together as many as given |
| PypiLink.EntriesAreAccountedFor | internal/proxy/adapters/pypi_index.go:278-308 | a list fails exactly when some url is not text; otherwise each entry is kept as it is, kept with the link served for it, or its link is among the dropped ones, which cannot be served |
| PypiOrigins.IndexLinkIsServedIff | internal/proxy/adapters/pypi_index.go:125-172 | a link to a plain path below /packages/, rooted, with a host, or with scheme and host, is served as the page's relative link to that path, query and fragment kept, exactly when it has no user and its scheme, if any, is http or https with a host |
| PypiLinkLaws.KeptLinkReachesItsFile | internal/proxy/adapters/pypi_index.go:37-172 | every kept link of a page without empty or dot segments, resolved by sections 5.2.2 to 5.2.4 of RFC 3986 against the page's client-side path and routed by the mux, reaches the same registry and the cleaned /packages/ path of the original link |
| PypiLinkLaws.KeptLinkLandsIff | internal/proxy/adapters/pypi_index.go:101-172 | for any page: it does exactly when climbing the counted depth out of the page's resolved directory leaves the registry's prefix |
| PypiLinkLaws.DirDepthCounts | internal/proxy/adapters/pypi_index.go:101-111 | on such pages the depth is the number of directory segments |
| PypiLinkLaws.TrailingSlashMisses | internal/proxy/adapters/pypi_index.go:101-111 | a trailing empty segment is not counted, and every link of that page misses |
| PypiTwice.RewritingTwiceIsOnceIff | internal/proxy/adapters/pypi_index.go:125-172 | rewriting a rewritten link changes nothing, exactly unless the link's query ends in a space with no fragment behind it |
| Url.UnescapeInvertsEscape | internal/proxy/adapters/pypi_index.go:164-170 | what EscapedPath and EscapedFragment write decodes back, on every string |
| MultiScan.Scan | internal/scanner/multi.go:31-64 | the goroutines' slots and the cancellation, in any order of returning, then the three picking passes |
| MultiScan.Pick | internal/scanner/multi.go:48-63 | the first detection in engine order, else the first error, else the first incomplete scan, else clean |
| MultiScan.ClassIsFixed | internal/scanner/multi.go:31-69 | whether the scan ends in detection, error, incomplete or clean is a function of the engines' own answers, under every interleaving and whatever cancelled engines return |
| MultiScan.VerdictIsFixed | internal/scanner/multi.go:31-69 | short of a detection the whole verdict is fixed |
| MultiScan.CleanMeansAllClean | internal/scanner/multi.go:31-69 | clean exactly when every engine, left alone, returns no error and nothing but a clean, complete result |
| MultiScan.ReportedDetectionIsReal | internal/scanner/multi.go:48-52 | the detection reported is one an engine made, when cancelled engines give their own answer or an error |
| MultiScan.ReportDependsOnOrder | internal/scanner/multi.go:38-52 | which of two detections is reported does depend on the order |
| MultiScan.VerdictMeaning | internal/scanner/multi.go:48-69 | what each class of verdict says about the slots, and that what is reported is the first of its kind in engine order |

## Left out

- I/O: HTTP, sockets, TLS, streaming, deadlines, ClamAV, ICAP and Trivy formats. Each is a parameter that answers or fails.
- Decoding: JSON, HTML tokens, gzip, media types. Documents are decoded values; that a layer's media type names an
  in-toto statement is a flag of the layer.
- Database, file system and migrations: tables are maps, a transaction is one step that happens or does not, files are a
  map from path to bytes. A crash between the rename and the index write of a cache `Put` is not modelled.
- DockerGateLaws.RunIsSound: assumes that what happens to the store beside a request keeps it sound and that a joined
  ruling is one of the run, which EveryInterleavingIsSound does not; and that a botched write leaves the content its
  digest had and brings back no row that was not sound, without which UnpinnedBotchIsUnsound applies. Layer bytes are
  not compared with their digest, as the code does not compare them.
- DockerGateLaws.ReachableRows: the same assumptions.
- DockerGateLaws.EvaluateIsSound: the same assumptions.
- DockerGateLaws.PipelineIsSound: the same assumptions.
- DockerGateLaws.ScanLayerIsSound: the same assumptions.
- PackageGateLaws.RunIsSound: assumes that what happens to the cache beside a request keeps it sound;
  PackageInterleavings does not.
- DockerInterleavings.EveryPinnedInterleavingIsSound: content under a digest is pinned by assumption, as the code does not
  compare it with the digest; a declared size beyond the limit counts as other content.
- DockerTables: the content type of an answer is set when its body was read, where the program sets it when the path was
  found. A body is read before the answer is given; what a handler that opens the path later finds is covered as any
  file that ever stands there is.
- PackageTables: a lookup of a row and the update of a check time are one database statement each, hence one operation.
- The Docker gate's hint maps for tags and attestation blobs, its HTTP handler and its telemetry events.
- PackageGateLaws.OrderDoesNotMatter: compares bytes admitted, not which refusal is reported when several apply.
- In the package gate: metadata documents, index pages and transparently proxied requests, and the events recorded.
- CacheModel.GetRefines: hits and times of use are not part of the map; UseSetsLastHit is about them.
- DockerAnswers: LayerIsCached, ScanOutcomeIsTheFirst, UnfinishedScanStoresNothing and FreshPassHasItsBody are about a
  request alone with the store, whose writes do not fail; what holds beside others is what DockerInterleavings says.
- PackageAnswers: PassedRecheckMovesItsStamp, PassedGateRests and AdmittedIsCached are about a request alone with the
  cache; what holds beside others is what PackageInterleavings says.
- PypiOrigins.IndexLinkIsServedIff: links whose path is already clean and spelled as Go spells it, with a visible query
  and fragment.
- Policy: a list is the set of its trimmed entries; how a severity is read from text is not modelled.
- CacheModel.ReplayRefines: excludes the harmful cases of the double failure, which StepRefinesIff shows to be exactly
  those that break it, and references whose keys are not separable, which PutDisturbsCollidingRefs treats.
- The Maven adapter's classifier, which is not injective, and the adapters not named above.
- The telemetry counters are unbounded where the program has 64 bits; a stored tally that does not decode is not modelled.
- Paging.WalkEnds: needs a positive page size, which the console always passes; without one `Page` gives everything at once.
- RateLimit.ReleasesAreBounded: reals instead of floating point and truncation to nanoseconds; clocks that go back.
- LoginLimit.IntervalBoundIsTight: for one pair key only. The bounds and ForgettingIsInvisible need a clock that does not
  go back.
- ConsoleWalk.ConsoleShowsAllIff: for a table that does not change; OverIsEndedIff and ConsoleWalkVisitsOnce are for any.
- In the circuit breaker, jitter is a parameter, and an HTTP-date in a Retry-After is an already parsed time.
- Of the users: bcrypt, password rules and password generation; a failed transaction leaves the table as it was.
- Of the sessions: cookies, origin rule, headers and the handlers. A login, a refresh or a password change is an event that
  issues a token from a row read at some earlier point.
- NpmFilter.FilterVersions: the removed and unmappable versions are sets; the program lists them sorted. Single-version
  manifests, whose one link is built by the same function, are not modelled.
- Npm.LinkLeadsBackIff: the registry's own prefix is taken to be one literal segment. The redirect with which Go's
  ServeMux answers an unclean request path is not modelled, and a backslash counts as a slash, as in browsers.
- PypiLink: how the authority of an absolute link is read is a parameter. The copying of HTML text around the anchors,
  the removal of base tags and the traversal of JSON objects around the file lists are not modelled.
- PypiTwice.RewritingTwiceIsOnceIff: pages without empty or dot segments in their directory; on others rewritten links
  do not reach the registry's root in the first place.
- In the concurrent scan the parent context stays live, and engines answer as if nobody else ran.
