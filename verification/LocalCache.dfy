/** The local cache object: single operations over the two tables, and the sweeps that evict and purge. */
module LocalCaches {
  import opened Domain
  import opened CacheModel

  const EVICT_BATCH := 10
  const PURGE_BATCH := 100

  /** How the parts of a sweep go wrong, round by round. */
  datatype SweepFaults = SweepFaults(
    drop: (nat, PackageRef) -> DropFault, cancelled: nat -> bool, queryFails: nat -> bool, sumFails: nat -> bool)

  ghost predicate Reliable(f: SweepFaults) {
    && (forall n, r :: f.drop(n, r) == DropFault(false, false))
    && (forall n :: !f.cancelled(n) && !f.queryFails(n) && !f.sumFails(n))
  }

  datatype PurgeEnd = Done | Cancelled | QueryFailed | NoProgress

  function StaleKeys(index: map<PackageRef, IndexRow>, cutoff: int): set<PackageRef> {
    set r | r in index && index[r].lastHit < cutoff
  }

  function PathsOf(index: map<PackageRef, IndexRow>, keys: set<PackageRef>): set<string>
    requires keys <= index.Keys
  {
    set r | r in keys :: index[r].path
  }

  /** The two tables with the rows `keys` and their files gone. */
  function Without(s: State, keys: set<PackageRef>): State
    requires keys <= s.index.Keys
  {
    State(s.index - keys, s.files - PathsOf(s.index, keys))
  }

  /** Seen as a map, a sweep removes the swept references and changes no other. */
  lemma WithoutRefines(s: State, keys: set<PackageRef>)
    requires Tidy(s) && keys <= s.index.Keys
    ensures View(Without(s, keys)) == View(s) - keys
  {
    forall r | r in s.index && r !in keys
      ensures s.index[r].path !in PathsOf(s.index, keys)
    {
      forall q | q in keys
        ensures s.index[q].path != s.index[r].path
      {
        SeparableRefsKeepApart(q, r);
      }
    }
  }

  class LocalCache {
    var index: map<PackageRef, IndexRow>
    var files: map<string, string>
    var evictions: nat

    ghost function Tables(): State
      reads this
    {
      State(index, files)
    }

    constructor ()
      ensures Tables() == State(map[], map[]) && evictions == 0
    {
      index, files, evictions := map[], map[], 0;
    }

    method Get(ref: PackageRef, now: int, fault: GetFault) returns (found: Option<IndexRow>)
      modifies this`index
      ensures (Tables(), found) == CacheModel.Get(old(Tables()), ref, now, fault)
    {
      if ref !in index || fault.ReadFails? {
        return None;
      }
      var row := index[ref];
      if row.path !in files || fault.StatFails? || fault.StatAndDeleteFail? {
        if !fault.DeleteFails? && !fault.StatAndDeleteFail? {
          index := index - {ref};
        }
        return None;
      }
      if !fault.IncrementFails? {
        index := index[ref := row.(hits := row.hits + 1, lastHit := now)];
      }
      return Some(row);
    }

    method Put(ref: PackageRef, bytes: string, clean: bool, json: string, now: int, fault: PutFault) returns (ok: bool)
      modifies this`index, this`files
      ensures Tables() == CacheModel.Put(old(Tables()), ref, bytes, clean, json, now, fault)
      ensures ok == fault.NoPutFault?
    {
      var path := PathOf(ref);
      if fault.BeforeRename? {
        return false;
      }
      files := files[path := bytes];
      if !fault.NoPutFault? {
        if fault.AtInsert? {
          files := files - {path};
        }
        return false;
      }
      var hits := if ref in index then index[ref].hits else 0;
      index := index[ref := IndexRow(path, clean, json, now, now, hits, |bytes|, now, now)];
      return true;
    }

    method Invalidate(ref: PackageRef, fault: DropFault) returns (removed: bool, ok: bool)
      modifies this`index, this`files
      ensures Tables() == CacheModel.Invalidate(old(Tables()), ref, fault)
      ensures ok == !fault.deleteFails
      ensures removed == (ok && ref in old(index))
    {
      var found := ref in index;
      if found && !fault.removeFails {
        files := files - {index[ref].path};
      }
      if fault.deleteFails {
        return false, false;
      }
      index := index - {ref};
      return found, true;
    }

    method TotalSizeBytes() returns (total: nat)
      ensures total == SizeOf(index, index.Keys)
    {
      total := 0;
      var left := index.Keys;
      while left != {}
        invariant left <= index.Keys
        invariant total + SizeOf(index, left) == SizeOf(index, index.Keys)
        decreases left
      {
        var k :| k in left;
        SizeWithout(index, left, k);
        total, left := total + index[k].size, left - {k};
      }
    }

    method OldestOf(keys: set<PackageRef>, n: nat) returns (refs: seq<PackageRef>)
      requires keys <= index.Keys
      ensures OldestFirst(index, keys, refs, n) && Distinct(refs) && ToSet(refs) <= keys
    {
      refs := [];
      var left := keys;
      while |refs| < n && left != {}
        invariant |refs| <= n
        invariant |left| == |keys| - |refs| && OldestTaken(index, keys, refs, left)
        decreases left
      {
        OldestExists(index, left);
        var k :| k in left && forall q | q in left :: index[k].lastHit <= index[q].lastHit;
        TakeOldest(index, keys, refs, left, k);
        refs, left := refs + [k], left - {k};
      }
    }

    /** One round of a sweep: invalidates each candidate, skipping the ones that cannot be deleted. */
    method InvalidateAll(refs: seq<PackageRef>, round: nat, f: SweepFaults)
      returns (removed: nat, freed: nat, progress: bool, ghost gone: set<PackageRef>)
      requires Distinct(refs) && ToSet(refs) <= index.Keys
      modifies this`index, this`files
      ensures gone <= old(index).Keys && gone <= ToSet(refs) && index == old(index) - gone
      ensures removed == |gone| && freed == SizeOf(old(index), gone)
      ensures progress ==> gone != {}
      ensures Reliable(f) ==> gone == ToSet(refs) && (refs != [] ==> progress)
      ensures Reliable(f) ==> Tables() == Without(old(Tables()), gone)
    {
      hide Without, ToSet, SizeOf, Reliable;
      ghost var start := Tables();
      removed, freed, progress, gone := 0, 0, false, {};
      NothingGone(start);
      for i := 0 to |refs|
        invariant gone <= start.index.Keys && gone <= ToSet(refs[..i]) && index == start.index - gone
        invariant removed == |gone| && freed == SizeOf(start.index, gone)
        invariant progress ==> gone != {}
        invariant Reliable(f) ==> gone == ToSet(refs[..i]) && (i > 0 ==> progress) && Tables() == Without(start, gone)
      {
        var ref := refs[i];
        NextRef(refs, i);
        var size := index[ref].size;
        if Reliable(f) {
          ReliableDrops(f, round, ref);
          InvalidateOneMore(start, gone, ref);
        }
        var hit, ok := Invalidate(ref, f.drop(round, ref));
        if ok {
          progress := true;
          if hit {
            OneMoreGone(start.index, gone, ref);
            removed, freed, gone := removed + 1, freed + size, gone + {ref};
          }
        }
      }
      assert refs[..|refs|] == refs;
    }

    /** One batch of an eviction: the rows hit longest ago. */
    method EvictBatch(round: nat, f: SweepFaults)
        returns (found: bool, progress: bool, ghost refs: seq<PackageRef>, ghost batch: set<PackageRef>)
      modifies this
      ensures found <==> old(index).Keys != {}
      ensures OldestFirst(old(index), old(index).Keys, refs, EVICT_BATCH)
      ensures batch <= old(index).Keys && index == old(index) - batch && evictions == old(evictions) + |batch|
      ensures progress ==> index.Keys < old(index).Keys
      ensures Reliable(f) ==> batch == ToSet(refs) && (found ==> progress)
      ensures Reliable(f) ==> Tables() == Without(old(Tables()), batch)
    {
      hide Without, ToSet, SizeOf, Reliable;
      ghost var start := Tables();
      var oldest := OldestOf(index.Keys, EVICT_BATCH);
      refs := oldest;
      found := |oldest| > 0;
      NothingGone(start);
      if !found {
        return false, false, refs, {};
      }
      var removed, _, moved, gone := InvalidateAll(oldest, round, f);
      evictions, progress, batch := evictions + removed, moved, gone;
    }

    /** Evicts rows hit longest ago, ten at a time, until the total is within `maxBytes`. */
    method EvictToSize(maxBytes: nat, f: SweepFaults) returns (ghost gone: set<PackageRef>, ghost last: set<PackageRef>)
      modifies this
      ensures gone <= old(index).Keys && index == old(index) - gone
      ensures evictions == old(evictions) + |gone|
      ensures SizeOf(old(index), old(index).Keys) <= maxBytes ==> Tables() == old(Tables())
      ensures Reliable(f) ==> Tables() == Without(old(Tables()), gone)
      ensures Reliable(f) ==> SizeOf(index, index.Keys) <= maxBytes
      ensures Reliable(f) ==> ClosedDownward(old(index), gone)
      ensures Reliable(f) && gone != {} ==> LastBatchWasNeeded(old(index), gone, last, maxBytes)
      ensures Reliable(f) && Sized(old(Tables())) ==> BytesOf(Tables(), index.Keys) <= maxBytes
    {
      hide Without, ToSet, SizeOf, ClosedDownward, LastBatchWasNeeded, Sized, BytesOf, Reliable, OldestFirst;
      NeverFails(f, 0);
      ghost var start := Tables();
      NothingGone(start);
      gone, last := {}, {};
      if f.sumFails(0) {
        return;
      }
      var total := TotalSizeBytes();
      if total <= maxBytes {
        BytesFit(start, {}, maxBytes);
        return;
      }
      var round := 0;
      while total > maxBytes && !f.cancelled(round)
        invariant gone <= start.index.Keys && index == start.index - gone
        invariant evictions == old(evictions) + |gone| && (Reliable(f) ==> !f.cancelled(round))
        invariant Reliable(f) ==> Tables() == Without(start, gone)
        invariant Reliable(f) ==> total == SizeOf(index, index.Keys)
        invariant Reliable(f) ==> ClosedDownward(start.index, gone)
        invariant Reliable(f) && gone != {} ==> LastBatchWasNeeded(start.index, gone, last, maxBytes)
        decreases index.Keys
      {
        NeverFails(f, round);
        if f.queryFails(round) {
          return;
        }
        NothingGone(Tables());
        var found, progress, refs, batch := EvictBatch(round, f);
        OneMoreBatch(start, gone, batch);
        if Reliable(f) && found {
          BatchKeepsOrder(start.index, gone, refs, batch);
          BatchWasNeeded(start.index, gone, refs, batch, maxBytes);
          last := batch;
        }
        gone := gone + batch;
        if !progress {
          assert Reliable(f) ==> false;
          return;
        }
        round := round + 1;
        NeverFails(f, round);
        if f.sumFails(round) {
          total := 0;
        } else {
          total := TotalSizeBytes();
        }
      }
      if Reliable(f) {
        BytesFit(start, gone, maxBytes);
      }
    }

    /** Removes the rows idle since before `cutoff`, a hundred at a time, counting rows and bytes. */
    method PurgeStale(cutoff: int, f: SweepFaults)
        returns (removed: nat, freed: nat, end: PurgeEnd, ghost gone: set<PackageRef>)
      modifies this`index, this`files
      ensures gone <= StaleKeys(old(index), cutoff) && index == old(index) - gone
      ensures removed == |gone| && freed == SizeOf(old(index), gone)
      ensures end.Done? ==> gone == StaleKeys(old(index), cutoff)
      ensures end.Done? ==> forall r :: r in index <==> r in old(index) && old(index)[r].lastHit >= cutoff
      ensures Reliable(f) ==> end.Done? && Tables() == Without(old(Tables()), gone)
    {
      ghost var start := Tables();
      removed, freed, gone := 0, 0, {};
      var round := 0;
      while true
        invariant gone <= StaleKeys(start.index, cutoff) && index == start.index - gone
        invariant removed == |gone| && freed == SizeOf(start.index, gone)
        invariant Reliable(f) ==> Tables() == Without(start, gone)
        decreases index.Keys
      {
        if f.cancelled(round) {
          return removed, freed, Cancelled, gone;
        }
        if f.queryFails(round) {
          return removed, freed, QueryFailed, gone;
        }
        var refs := OldestOf(StaleKeys(index, cutoff), PURGE_BATCH);
        if |refs| == 0 {
          assert StaleKeys(index, cutoff) == {};
          assert forall r | r in StaleKeys(start.index, cutoff) && r !in gone :: r in StaleKeys(index, cutoff);
          return removed, freed, Done, gone;
        }
        var r, b, progress, batch := InvalidateAll(refs, round, f);
        GoneMaps(start.index, gone, batch);
        GoneCount(gone, batch);
        GoneSizes(start.index, gone, batch);
        WithoutTwice(start, gone, batch);
        removed, freed, gone := removed + r, freed + b, gone + batch;
        if !progress {
          return removed, freed, NoProgress, gone;
        }
        round := round + 1;
      }
    }

    /** The reclaimable part of the total, as the console shows it. */
    method StaleSizeBytes(cutoff: int) returns (total: nat)
      ensures total == SizeOf(index, StaleKeys(index, cutoff))
    {
      total := 0;
      var left := StaleKeys(index, cutoff);
      while left != {}
        invariant left <= StaleKeys(index, cutoff)
        invariant total + SizeOf(index, left) == SizeOf(index, StaleKeys(index, cutoff))
        decreases left
      {
        var k :| k in left;
        SizeWithout(index, left, k);
        total, left := total + index[k].size, left - {k};
      }
    }
  }

  /** `refs` took the rows hit longest ago out of `keys`, in order, and `left` is left. */
  ghost predicate OldestTaken(index: map<PackageRef, IndexRow>, keys: set<PackageRef>, refs: seq<PackageRef>,
                              left: set<PackageRef>) {
    && left <= keys <= index.Keys
    && (forall k | k in keys :: k in left <==> k !in refs)
    && (forall i | 0 <= i < |refs| :: refs[i] in keys)
    && (forall i, j | 0 <= i < j < |refs| :: refs[i] != refs[j] && index[refs[i]].lastHit <= index[refs[j]].lastHit)
    && (forall i, k | 0 <= i < |refs| && k in left :: index[refs[i]].lastHit <= index[k].lastHit)
  }

  lemma TakeOldest(index: map<PackageRef, IndexRow>, keys: set<PackageRef>, refs: seq<PackageRef>,
                   left: set<PackageRef>, k: PackageRef)
    requires OldestTaken(index, keys, refs, left)
    requires k in left && forall q | q in left :: index[k].lastHit <= index[q].lastHit
    ensures OldestTaken(index, keys, refs + [k], left - {k})
  {
  }

  /** No row is kept that was hit longer ago than a removed one. */
  predicate ClosedDownward(start: map<PackageRef, IndexRow>, gone: set<PackageRef>)
    requires gone <= start.Keys
  {
    forall k, g | k in start && k !in gone && g in gone :: start[g].lastHit <= start[k].lastHit
  }

  /** Before the last batch went the total was still over the limit. */
  ghost predicate LastBatchWasNeeded(start: map<PackageRef, IndexRow>, gone: set<PackageRef>, last: set<PackageRef>,
                                     maxBytes: nat)
    requires gone <= start.Keys
  {
    last <= gone && |last| <= EVICT_BATCH && SizeOf(start, (start.Keys - gone) + last) > maxBytes
  }

  /** Sizes that fit stand for bytes that fit, when rows give the sizes of their files. */
  lemma BytesFit(start: State, gone: set<PackageRef>, maxBytes: nat)
    requires gone <= start.index.Keys
    requires SizeOf(Without(start, gone).index, Without(start, gone).index.Keys) <= maxBytes
    ensures var left := Without(start, gone); Sized(start) ==> BytesOf(left, left.index.Keys) <= maxBytes
  {
    if Sized(start) {
      assert Sized(Without(start, gone));
      SizesCoverBytes(Without(start, gone), Without(start, gone).index.Keys);
    }
  }

  /** In a cache with a history, what an eviction takes was used no later than anything that it keeps. */
  lemma EvictionTakesLeastRecentlyUsed(ops: seq<Op>, gone: set<PackageRef>, kept: PackageRef, taken: PackageRef)
    requires var index := Replay(NOTHING, ops).index;
      gone <= index.Keys && ClosedDownward(index, gone) && taken in gone && kept in index && kept !in gone
    ensures LastUse(ops, taken).Some? && LastUse(ops, kept).Some?
    ensures LastUse(ops, taken).value <= LastUse(ops, kept).value
  {
    LastHitIsTheLastUse(ops, taken);
    LastHitIsTheLastUse(ops, kept);
    hide Replay, LastUse;
  }

  lemma BatchKeepsOrder(start: map<PackageRef, IndexRow>, gone: set<PackageRef>, refs: seq<PackageRef>,
                        batch: set<PackageRef>)
    requires gone <= start.Keys && ClosedDownward(start, gone)
    requires var before := start - gone; OldestFirst(before, before.Keys, refs, EVICT_BATCH)
    requires batch == ToSet(refs)
    ensures batch <= start.Keys && ClosedDownward(start, gone + batch)
  {
    var before := start - gone;
    forall k, g | k in start && k !in gone + batch && g in batch
      ensures start[g].lastHit <= start[k].lastHit
    {
      var i :| 0 <= i < |refs| && refs[i] == g;
      assert before[refs[i]].lastHit <= before[k].lastHit;
    }
  }

  lemma BatchWasNeeded(start: map<PackageRef, IndexRow>, gone: set<PackageRef>, refs: seq<PackageRef>,
                       batch: set<PackageRef>, maxBytes: nat)
    requires gone <= start.Keys && OldestFirst(start - gone, (start - gone).Keys, refs, EVICT_BATCH)
    requires batch == ToSet(refs) && batch <= (start - gone).Keys
    requires SizeOf(start - gone, (start - gone).Keys) > maxBytes
    ensures LastBatchWasNeeded(start, gone + batch, batch, maxBytes)
  {
    SetOfSeqIsNoLarger(refs);
    SizeAgrees(start, start - gone, (start - gone).Keys);
    assert (start - gone).Keys == (start.Keys - (gone + batch)) + batch;
  }

  predicate Distinct(refs: seq<PackageRef>) {
    forall i, j | 0 <= i < j < |refs| :: refs[i] != refs[j]
  }

  function ToSet(refs: seq<PackageRef>): set<PackageRef> {
    set r | r in refs
  }

  lemma NextRef(refs: seq<PackageRef>, i: nat)
    requires Distinct(refs) && i < |refs|
    ensures refs[i] !in ToSet(refs[..i]) && refs[i] in ToSet(refs)
    ensures ToSet(refs[..i + 1]) == ToSet(refs[..i]) + {refs[i]}
  {
    assert refs[..i + 1] == refs[..i] + [refs[i]];
  }

  lemma {:induction false} SetOfSeqIsNoLarger(refs: seq<PackageRef>)
    ensures |ToSet(refs)| <= |refs|
  {
    if refs != [] {
      var n := |refs| - 1;
      SetOfSeqIsNoLarger(refs[..n]);
      assert refs == refs[..n] + [refs[n]];
      assert ToSet(refs) == ToSet(refs[..n]) + {refs[n]};
    }
  }

  // Two sweeps one after the other remove, count and free what one over both sets would.

  lemma GoneMaps(start: map<PackageRef, IndexRow>, gone: set<PackageRef>, batch: set<PackageRef>)
    requires gone <= start.Keys && batch <= (start - gone).Keys
    ensures gone + batch <= start.Keys && (start - gone) - batch == start - (gone + batch)
  {
  }

  lemma GoneCount<T>(gone: set<T>, batch: set<T>)
    requires gone !! batch
    ensures |gone + batch| == |gone| + |batch|
  {
  }

  lemma GoneSizes(start: map<PackageRef, IndexRow>, gone: set<PackageRef>, batch: set<PackageRef>)
    requires gone <= start.Keys && batch <= (start - gone).Keys
    ensures SizeOf(start, gone + batch) == SizeOf(start, gone) + SizeOf(start - gone, batch)
  {
    SizeOfUnion(start, gone, batch);
    SizeAgrees(start, start - gone, batch);
  }

  lemma WithoutTwice(start: State, gone: set<PackageRef>, batch: set<PackageRef>)
    requires gone <= start.index.Keys && batch <= (start.index - gone).Keys
    ensures Without(Without(start, gone), batch) == Without(start, gone + batch)
  {
    GoneMaps(start.index, gone, batch);
    assert PathsOf(start.index, gone + batch) == PathsOf(start.index, gone) + PathsOf(start.index - gone, batch);
  }

  lemma OneMoreBatch(start: State, gone: set<PackageRef>, batch: set<PackageRef>)
    requires gone <= start.index.Keys && batch <= (start.index - gone).Keys
    ensures gone + batch <= start.index.Keys && (start.index - gone) - batch == start.index - (gone + batch)
    ensures |gone + batch| == |gone| + |batch|
    ensures Without(Without(start, gone), batch) == Without(start, gone + batch)
  {
    GoneMaps(start.index, gone, batch);
    GoneCount(gone, batch);
    WithoutTwice(start, gone, batch);
    hide Without;
  }

  lemma {:induction false} SizeOfUnion(index: map<PackageRef, IndexRow>, a: set<PackageRef>, b: set<PackageRef>)
    requires a <= index.Keys && b <= index.Keys && a !! b
    ensures SizeOf(index, a + b) == SizeOf(index, a) + SizeOf(index, b)
  {
    if b == {} {
      assert a + b == a;
    } else {
      var k :| k in b;
      SizeWithout(index, b, k);
      SizeWithout(index, a + b, k);
      assert (a + b) - {k} == a + (b - {k});
      SizeOfUnion(index, a, b - {k});
    }
  }

  /** One more row removed: one more counted, its size freed. */
  lemma OneMoreGone(start: map<PackageRef, IndexRow>, gone: set<PackageRef>, r: PackageRef)
    requires gone <= start.Keys && r in start && r !in gone
    ensures SizeOf(start, gone + {r}) == SizeOf(start, gone) + start[r].size
    ensures (start - gone) - {r} == start - (gone + {r})
  {
    SizeWithout(start, gone + {r}, r);
    assert gone + {r} - {r} == gone;
  }

  lemma NothingGone(start: State)
    ensures Without(start, {}) == start && SizeOf(start.index, {}) == 0 && start.index - {} == start.index
      && ToSet([]) == {}
    ensures ClosedDownward(start.index, {})
    ensures start.index.Keys == {} ==> SizeOf(start.index, start.index.Keys) == 0
  {
  }

  lemma NeverFails(f: SweepFaults, round: nat)
    ensures Reliable(f) ==> !f.cancelled(round) && !f.queryFails(round) && !f.sumFails(round)
  {
  }

  lemma ReliableDrops(f: SweepFaults, round: nat, r: PackageRef)
    requires Reliable(f)
    ensures f.drop(round, r) == DropFault(false, false)
  {
  }

  lemma InvalidateOneMore(start: State, gone: set<PackageRef>, r: PackageRef)
    requires gone <= start.index.Keys && r in start.index && r !in gone
    ensures Invalidate(Without(start, gone), r, DropFault(false, false)) == Without(start, gone + {r})
  {
    assert PathsOf(start.index, gone + {r}) == PathsOf(start.index, gone) + {start.index[r].path};
    assert start.index - gone - {r} == start.index - (gone + {r});
  }
}
