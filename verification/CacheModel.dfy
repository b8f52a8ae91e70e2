/** The local cache as two tables, index rows and files under hashed keys, and the plain map they stand for. */
module CacheModel {
  import opened Domain

  /** One row of the artifacts table; times are Unix seconds. */
  datatype IndexRow = IndexRow(path: string, clean: bool, json: string, storedAt: int, lastHit: int, hits: nat,
                               size: nat, cveCheck: int, avCheck: int)

  datatype State = State(index: map<PackageRef, IndexRow>, files: map<string, string>)

  /** What the cache promises to remember about one reference. */
  datatype Entry = Entry(bytes: string, clean: bool, json: string, cveCheck: int, avCheck: int)

  /** A read fails at the index, or at the check that its file is there, whether it is or not; the row is then deleted,
      which may fail too, or without that at counting the hit. */
  datatype GetFault = NoGetFault | ReadFails | StatFails | StatAndDeleteFail | DeleteFails | IncrementFails
  /** A write fails before the file is moved into place, or at the index; then the file is removed again, which may
      fail too. */
  datatype PutFault = NoPutFault | BeforeRename | AtInsert | AtInsertAndRemove
  datatype DropFault = DropFault(removeFails: bool, deleteFails: bool)

  /** The file name: SHA-256 of the key, taken to be injective, so the key itself. */
  function PathOf(ref: PackageRef): string { ref.Key() }

  predicate Valid(s: State) {
    forall r | r in s.index :: s.index[r].path == PathOf(r)
  }

  predicate Tidy(s: State) {
    Valid(s) && forall r | r in s.index :: r.Separable()
  }

  /** The plain map the two tables stand for: rows whose file is there. */
  function View(s: State): map<PackageRef, Entry> {
    map r | r in s.index && s.index[r].path in s.files ::
      Entry(s.files[s.index[r].path], s.index[r].clean, s.index[r].json, s.index[r].cveCheck, s.index[r].avCheck)
  }

  // ---------------------------------------------------------------- operations

  function Get(s: State, ref: PackageRef, now: int, fault: GetFault): (State, Option<IndexRow>) {
    if ref !in s.index || fault.ReadFails? then (s, None)
    else if s.index[ref].path !in s.files || fault.StatFails? || fault.StatAndDeleteFail? then
      (if fault.DeleteFails? || fault.StatAndDeleteFail? then s else s.(index := s.index - {ref}), None)
    else
      var row := s.index[ref];
      (if fault.IncrementFails? then s else s.(index := s.index[ref := row.(hits := row.hits + 1, lastHit := now)]),
       Some(row))
  }

  function PutAt(s: State, ref: PackageRef, path: string, bytes: string, clean: bool, json: string, now: int,
                 fault: PutFault): State {
    var moved := s.files[path := bytes];
    match fault
    case BeforeRename => s
    case AtInsert => s.(files := moved - {path})
    case AtInsertAndRemove => s.(files := moved)
    case NoPutFault =>
      var hits := if ref in s.index then s.index[ref].hits else 0;
      State(s.index[ref := IndexRow(path, clean, json, now, now, hits, |bytes|, now, now)], moved)
  }

  function Put(s: State, ref: PackageRef, bytes: string, clean: bool, json: string, now: int, fault: PutFault): State {
    PutAt(s, ref, PathOf(ref), bytes, clean, json, now, fault)
  }

  function Invalidate(s: State, ref: PackageRef, fault: DropFault): State {
    State(if fault.deleteFails then s.index else s.index - {ref},
          if ref in s.index && !fault.removeFails then s.files - {s.index[ref].path} else s.files)
  }

  function MarkCveChecked(s: State, ref: PackageRef, ts: int): State {
    if ref in s.index then s.(index := s.index[ref := s.index[ref].(cveCheck := ts)]) else s
  }

  function MarkMalwareChecked(s: State, ref: PackageRef, ts: int): State {
    if ref in s.index then s.(index := s.index[ref := s.index[ref].(avCheck := ts)]) else s
  }

  // ---------------------------------------------------------------- refinement of the plain map

  lemma SeparableRefsKeepApart(p: PackageRef, q: PackageRef)
    requires p.Separable() && q.Separable() && p != q
    ensures PathOf(p) != PathOf(q)
  {
    if PathOf(p) == PathOf(q) {
      KeyIsInjective(p, q);
    }
  }

  /** `path` is the file of `ref` and of no other row. */
  predicate Owns(s: State, ref: PackageRef, path: string) {
    && (ref in s.index ==> s.index[ref].path == path)
    && forall r | r in s.index && r != ref :: s.index[r].path != path
  }

  lemma TidyOwns(s: State, ref: PackageRef)
    requires Tidy(s) && ref.Separable()
    ensures Owns(s, ref, PathOf(ref))
  {
    forall r | r in s.index && r != ref
      ensures s.index[r].path != PathOf(ref)
    {
      SeparableRefsKeepApart(r, ref);
    }
  }

  lemma GetOnTheMap(s: State, ref: PackageRef, now: int, fault: GetFault)
    requires Valid(s)
    ensures View(Get(s, ref, now, fault).0) == if fault.StatFails? then View(s) - {ref} else View(s)
  {
    var t := Get(s, ref, now, fault).0;
    var expected := if fault.StatFails? then View(s) - {ref} else View(s);
    forall r
      ensures r in View(t) <==> r in expected
      ensures r in expected ==> View(t)[r] == expected[r]
    {
    }
    hide View;
    MapsAgree(View(t), expected);
  }

  lemma GetKeepsTidy(s: State, ref: PackageRef, now: int, fault: GetFault)
    requires Tidy(s) && ref.Separable()
    ensures Tidy(Get(s, ref, now, fault).0)
  {
  }

  /** A read answers from the map, or not at all when index or file cannot be looked at. It changes nothing in the map,
      unless the look at the file fails: then it removes the reference. */
  lemma GetRefines(s: State, ref: PackageRef, now: int, fault: GetFault)
    requires Tidy(s) && ref.Separable()
    ensures var (after, found) := Get(s, ref, now, fault);
      && Tidy(after) && View(after) == (if fault.StatFails? then View(s) - {ref} else View(s))
      && (found.Some? <==> ref in View(s) && !fault.ReadFails? && !fault.StatFails? && !fault.StatAndDeleteFail?)
      && (found.Some? ==>
            && found.value.path in after.files && ref in View(s)
            && View(s)[ref] == Entry(after.files[found.value.path], found.value.clean, found.value.json,
                                     found.value.cveCheck, found.value.avCheck))
  {
    GetOnTheMap(s, ref, now, fault);
    GetKeepsTidy(s, ref, now, fault);
  }

  lemma PutKeepsTidy(s: State, ref: PackageRef, bytes: string, clean: bool, json: string, now: int, fault: PutFault)
    requires Tidy(s) && ref.Separable()
    ensures Tidy(Put(s, ref, bytes, clean, json, now, fault))
  {
  }

  /** Tables that agree on every other row and its file give views that agree on every other reference. */
  lemma SameElsewhere(s: State, t: State, ref: PackageRef)
    requires forall r | r != ref :: r in t.index <==> r in s.index
    requires forall r | r != ref && r in s.index :: t.index[r] == s.index[r]
    requires forall r | r != ref && r in s.index :: s.index[r].path in t.files <==> s.index[r].path in s.files
    requires forall r | r != ref && r in s.index && s.index[r].path in s.files ::
      t.files[s.index[r].path] == s.files[s.index[r].path]
    ensures forall r | r != ref :: r in View(t) <==> r in View(s)
    ensures forall r | r != ref && r in View(s) :: View(t)[r] == View(s)[r]
  {
  }

  lemma PutElsewhere(s: State, ref: PackageRef, path: string, bytes: string, clean: bool, json: string, now: int,
                     fault: PutFault)
    requires Owns(s, ref, path)
    ensures var t := PutAt(s, ref, path, bytes, clean, json, now, fault);
      && (forall r | r != ref :: r in View(t) <==> r in View(s))
      && (forall r | r != ref && r in View(s) :: View(t)[r] == View(s)[r])
  {
    SameElsewhere(s, PutAt(s, ref, path, bytes, clean, json, now, fault), ref);
  }

  lemma PutHere(s: State, ref: PackageRef, path: string, bytes: string, clean: bool, json: string, now: int)
    requires Owns(s, ref, path)
    ensures ref !in View(PutAt(s, ref, path, bytes, clean, json, now, AtInsert))
    ensures var v := View(PutAt(s, ref, path, bytes, clean, json, now, NoPutFault));
      ref in v && v[ref] == Entry(bytes, clean, json, now, now)
  {
  }

  lemma MapsAgree(m: map<PackageRef, Entry>, n: map<PackageRef, Entry>)
    requires forall r :: r in m <==> r in n
    requires forall r | r in m :: m[r] == n[r]
    ensures m == n
  {
  }

  lemma PutStores(s: State, ref: PackageRef, path: string, bytes: string, clean: bool, json: string, now: int)
    requires Owns(s, ref, path)
    ensures View(PutAt(s, ref, path, bytes, clean, json, now, NoPutFault))
      == View(s)[ref := Entry(bytes, clean, json, now, now)]
    ensures View(PutAt(s, ref, path, bytes, clean, json, now, AtInsert)) == View(s) - {ref}
  {
    PutHere(s, ref, path, bytes, clean, json, now);
    PutElsewhere(s, ref, path, bytes, clean, json, now, NoPutFault);
    PutElsewhere(s, ref, path, bytes, clean, json, now, AtInsert);
    hide View, PutAt;
    MapsAgree(View(PutAt(s, ref, path, bytes, clean, json, now, NoPutFault)),
              View(s)[ref := Entry(bytes, clean, json, now, now)]);
    MapsAgree(View(PutAt(s, ref, path, bytes, clean, json, now, AtInsert)), View(s) - {ref});
  }

  /** A write whose clean-up fails too does no harm: no row speaks for the file, or it holds the same bytes already. */
  predicate Harmless(s: State, ref: PackageRef, bytes: string) {
    ref !in s.index || (PathOf(ref) in s.files && s.files[PathOf(ref)] == bytes)
  }

  /** When the index write and the clean-up both fail, a row that is there, with its file or without, answers for the
      new bytes; nothing else changes. */
  lemma BotchedPutKeepsOldVerdict(s: State, ref: PackageRef, bytes: string, clean: bool, json: string, now: int)
    requires Tidy(s) && ref.Separable()
    ensures View(Put(s, ref, bytes, clean, json, now, AtInsertAndRemove))
      == if ref in s.index then
           View(s)[ref := Entry(bytes, s.index[ref].clean, s.index[ref].json, s.index[ref].cveCheck,
                                s.index[ref].avCheck)]
         else View(s)
  {
    TidyOwns(s, ref);
    PutElsewhere(s, ref, PathOf(ref), bytes, clean, json, now, AtInsertAndRemove);
    var after := Put(s, ref, bytes, clean, json, now, AtInsertAndRemove);
    assert ref in View(after) <==> ref in s.index;
    var expected :=
      if ref in s.index then
        View(s)[ref := Entry(bytes, s.index[ref].clean, s.index[ref].json, s.index[ref].cveCheck, s.index[ref].avCheck)]
      else View(s);
    assert ref in s.index ==> View(after)[ref] == expected[ref];
    assert ref !in s.index ==> ref !in View(s);
    hide View, Put;
    MapsAgree(View(after), expected);
  }

  lemma HarmlessIff(s: State, ref: PackageRef, bytes: string)
    requires Tidy(s)
    ensures Harmless(s, ref, bytes) <==> (ref in s.index ==> (ref in View(s) && View(s)[ref].bytes == bytes))
    ensures ref in View(s) ==>
      ref in s.index && View(s)[ref] == Entry(View(s)[ref].bytes, s.index[ref].clean, s.index[ref].json,
                                              s.index[ref].cveCheck, s.index[ref].avCheck)
  {
  }

  /** A write puts the entry under its reference and touches no other; one that fails leaves the map as it was or
      without the reference, or, when its clean-up fails too, as it was exactly if that is harmless. */
  lemma PutRefines(s: State, ref: PackageRef, bytes: string, clean: bool, json: string, now: int, fault: PutFault)
    requires Tidy(s) && ref.Separable()
    ensures var after := Put(s, ref, bytes, clean, json, now, fault);
      && Tidy(after)
      && (fault.NoPutFault? ==> View(after) == View(s)[ref := Entry(bytes, clean, json, now, now)])
      && (fault.BeforeRename? ==> View(after) == View(s))
      && (fault.AtInsert? ==> View(after) == View(s) - {ref})
      && (fault.AtInsertAndRemove? ==> (View(after) == View(s) <==> Harmless(s, ref, bytes)))
  {
    if fault.AtInsertAndRemove? {
      BotchedPutKeepsOldVerdict(s, ref, bytes, clean, json, now);
      HarmlessIff(s, ref, bytes);
    }
    PutKeepsTidy(s, ref, bytes, clean, json, now, fault);
    TidyOwns(s, ref);
    PutStores(s, ref, PathOf(ref), bytes, clean, json, now);
    hide View, Put;
  }

  /** A failed write leaves the map as it was or without the reference, exactly unless its clean-up failed too and was
      not harmless. */
  lemma FailedPutIsSafeIff(s: State, ref: PackageRef, bytes: string, clean: bool, json: string, now: int,
                           fault: PutFault)
    requires Tidy(s) && ref.Separable() && !fault.NoPutFault?
    ensures var after := View(Put(s, ref, bytes, clean, json, now, fault));
      (after == View(s) || after == View(s) - {ref}) <==> (fault.AtInsertAndRemove? ==> Harmless(s, ref, bytes))
  {
    PutRefines(s, ref, bytes, clean, json, now, fault);
    if fault.AtInsertAndRemove? {
      BotchedPutKeepsOldVerdict(s, ref, bytes, clean, json, now);
      HarmlessIff(s, ref, bytes);
    }
    hide View, Put;
  }

  lemma InvalidateOwned(s: State, ref: PackageRef, path: string, fault: DropFault)
    requires Owns(s, ref, path)
    ensures View(Invalidate(s, ref, fault))
      == if fault.deleteFails && fault.removeFails then View(s) else View(s) - {ref}
  {
    SameElsewhere(s, Invalidate(s, ref, fault), ref);
  }

  /** An invalidation removes the reference and nothing else; a failing one may still have removed its file. */
  lemma InvalidateRefines(s: State, ref: PackageRef, fault: DropFault)
    requires Tidy(s) && ref.Separable()
    ensures Tidy(Invalidate(s, ref, fault))
    ensures View(Invalidate(s, ref, fault))
      == if fault.deleteFails && fault.removeFails then View(s) else View(s) - {ref}
  {
    TidyOwns(s, ref);
    InvalidateOwned(s, ref, PathOf(ref), fault);
  }

  /** A passed re-check moves one time stamp of one entry. */
  lemma MarkRefines(s: State, ref: PackageRef, ts: int)
    ensures View(MarkCveChecked(s, ref, ts))
      == if ref in View(s) then View(s)[ref := View(s)[ref].(cveCheck := ts)] else View(s)
    ensures View(MarkMalwareChecked(s, ref, ts))
      == if ref in View(s) then View(s)[ref := View(s)[ref].(avCheck := ts)] else View(s)
  {
  }

  datatype Op =
    | OpGet(ref: PackageRef, now: int, getFault: GetFault)
    | OpPut(ref: PackageRef, bytes: string, clean: bool, json: string, now: int, putFault: PutFault)
    | OpInvalidate(ref: PackageRef, dropFault: DropFault)
    | OpMarkCve(ref: PackageRef, ts: int)
    | OpMarkMalware(ref: PackageRef, ts: int)

  function Apply(s: State, op: Op): State {
    match op
    case OpGet(ref, now, fault) => Get(s, ref, now, fault).0
    case OpPut(ref, bytes, clean, json, now, fault) => Put(s, ref, bytes, clean, json, now, fault)
    case OpInvalidate(ref, fault) => Invalidate(s, ref, fault)
    case OpMarkCve(ref, ts) => MarkCveChecked(s, ref, ts)
    case OpMarkMalware(ref, ts) => MarkMalwareChecked(s, ref, ts)
  }

  /** What the same operation does to a plain map. */
  function ApplyPlain(m: map<PackageRef, Entry>, op: Op): map<PackageRef, Entry> {
    match op
    case OpGet(ref, _, fault) => if fault.StatFails? then m - {ref} else m
    case OpPut(ref, bytes, clean, json, now, fault) =>
      if fault.NoPutFault? then m[ref := Entry(bytes, clean, json, now, now)]
      else if fault.AtInsert? then m - {ref} else m
    case OpInvalidate(ref, fault) => if fault.deleteFails && fault.removeFails then m else m - {ref}
    case OpMarkCve(ref, ts) => if ref in m then m[ref := m[ref].(cveCheck := ts)] else m
    case OpMarkMalware(ref, ts) => if ref in m then m[ref := m[ref].(avCheck := ts)] else m
  }

  function Replay(s: State, ops: seq<Op>): State
    decreases |ops|
  {
    if ops == [] then s else Replay(Apply(s, ops[0]), ops[1..])
  }

  function ReplayPlain(m: map<PackageRef, Entry>, ops: seq<Op>): map<PackageRef, Entry>
    decreases |ops|
  {
    if ops == [] then m else ReplayPlain(ApplyPlain(m, ops[0]), ops[1..])
  }

  /** The operation is not a write that fails together with its clean-up, or that one does no harm. */
  predicate Kept(s: State, op: Op) {
    op.OpPut? && op.putFault.AtInsertAndRemove? ==> Harmless(s, op.ref, op.bytes)
  }

  /** One operation does to the two tables what it does to the map, exactly under that condition. */
  lemma StepRefinesIff(s: State, op: Op)
    requires Tidy(s) && op.ref.Separable()
    ensures Tidy(Apply(s, op)) && (View(Apply(s, op)) == ApplyPlain(View(s), op) <==> Kept(s, op))
  {
    match op
    case OpGet(ref, now, fault) => GetRefines(s, ref, now, fault);
    case OpPut(ref, bytes, clean, json, now, fault) => PutRefines(s, ref, bytes, clean, json, now, fault);
    case OpInvalidate(ref, fault) => InvalidateRefines(s, ref, fault);
    case OpMarkCve(ref, ts) =>
      MarkRefines(s, ref, ts);
      MarkKeepsTidy(s, ref, ts);
    case OpMarkMalware(ref, ts) =>
      MarkRefines(s, ref, ts);
      MarkKeepsTidy(s, ref, ts);
    hide View, Tidy, Get, Put, Invalidate, MarkCveChecked, MarkMalwareChecked, Harmless;
  }

  lemma MarkKeepsTidy(s: State, ref: PackageRef, ts: int)
    requires Tidy(s)
    ensures Tidy(MarkCveChecked(s, ref, ts)) && Tidy(MarkMalwareChecked(s, ref, ts))
  {
  }

  predicate KeptAlong(s: State, ops: seq<Op>)
    decreases |ops|
  {
    ops != [] ==> Kept(s, ops[0]) && KeptAlong(Apply(s, ops[0]), ops[1..])
  }

  /** Over any sequence of operations on separable references, with any of them failing, rows and files together behave
      as one map, as long as no write fails together with its clean-up over another file that a row speaks for. */
  lemma {:induction false} ReplayRefines(s: State, ops: seq<Op>)
    requires Tidy(s) && KeptAlong(s, ops)
    requires forall op | op in ops :: op.ref.Separable()
    ensures Tidy(Replay(s, ops)) && View(Replay(s, ops)) == ReplayPlain(View(s), ops)
    decreases |ops|
  {
    if ops != [] {
      StepRefinesIff(s, ops[0]);
      ReplayRefines(Apply(s, ops[0]), ops[1..]);
    }
  }

  /** Without separable references the two tables are not a map: a write under one reference changes what another
      one reads exactly when their keys coincide and the bytes differ or were missing. */
  lemma PutDisturbsCollidingRefs(s: State, ref: PackageRef, other: PackageRef, bytes: string, clean: bool,
                                 json: string, now: int)
    requires Valid(s) && other in s.index && other != ref
    ensures var after := Put(s, ref, bytes, clean, json, now, NoPutFault);
      var same :=
        (other in View(after) <==> other in View(s)) && (other in View(s) ==> View(after)[other] == View(s)[other]);
      !same <==> PathOf(other) == PathOf(ref) && (PathOf(other) !in s.files || s.files[PathOf(other)] != bytes)
  {
  }

  // ---------------------------------------------------------------- what a row says of its file and its use

  /** Each row whose file is there gives its size. */
  predicate Sized(s: State) {
    forall r | r in s.index && s.index[r].path in s.files :: s.index[r].size == |s.files[s.index[r].path]|
  }

  /** An operation keeps the sizes right, unless it is the harmful double failure of a write. */
  lemma StepKeepsSized(s: State, op: Op)
    requires Tidy(s) && op.ref.Separable() && Sized(s) && Kept(s, op)
    ensures Sized(Apply(s, op))
  {
    TidyOwns(s, op.ref);
  }

  lemma {:induction false} ReplayKeepsSized(s: State, ops: seq<Op>)
    requires Tidy(s) && Sized(s) && KeptAlong(s, ops)
    requires forall op | op in ops :: op.ref.Separable()
    ensures Sized(Replay(s, ops))
    decreases |ops|
  {
    if ops != [] {
      StepKeepsSized(s, ops[0]);
      StepRefinesIff(s, ops[0]);
      ReplayKeepsSized(Apply(s, ops[0]), ops[1..]);
    }
    hide Sized, Tidy, Kept, Apply;
  }

  /** The operation is a use of this reference: a write that goes through, or a read that finds it and is counted. */
  function UseOf(s: State, op: Op, ref: PackageRef): Option<int> {
    if op.ref != ref then None
    else
      match op
      case OpPut(_, _, _, _, now, fault) => if fault.NoPutFault? then Some(now) else None
      case OpGet(_, now, fault) => if ref in View(s)
        && (fault.NoGetFault? || fault.DeleteFails?) then Some(now) else None
      case _ => None
  }

  /** A use sets the time of the last hit, and a write that of storing; nothing else does. A counted read counts one
      more hit. */
  lemma UseSetsLastHit(s: State, op: Op, ref: PackageRef)
    requires ref in Apply(s, op).index
    ensures var row, use := Apply(s, op).index[ref], UseOf(s, op, ref);
      && (use.Some? ==> row.lastHit == use.value)
      && (use.None? ==> ref in s.index && row.lastHit == s.index[ref].lastHit)
      && row.storedAt == (if use.Some? && op.OpPut? then use.value else s.index[ref].storedAt)
      && row.hits == (if ref in s.index then s.index[ref].hits else 0) + (if use.Some? && op.OpGet? then 1 else 0)
  {
  }

  lemma {:induction false} ReplaySplits(s: State, ops: seq<Op>, op: Op)
    ensures Replay(s, ops + [op]) == Apply(Replay(s, ops), op)
    decreases |ops|
  {
    if ops == [] {
      assert [op][1..] == [];
    } else {
      assert (ops + [op])[1..] == ops[1..] + [op];
      ReplaySplits(Apply(s, ops[0]), ops[1..], op);
    }
    hide Apply;
  }

  const NOTHING: State := State(map[], map[])

  /** The time of the last use of each reference in a history that starts with nothing. */
  function LastUse(ops: seq<Op>, ref: PackageRef): Option<int> {
    if ops == [] then None
    else
      var n := |ops| - 1;
      var use := UseOf(Replay(NOTHING, ops[..n]), ops[n], ref);
      if use.Some? then use else LastUse(ops[..n], ref)
  }

  /** Every row was last hit when its reference was last used. */
  lemma {:induction false} LastHitIsTheLastUse(ops: seq<Op>, ref: PackageRef)
    requires ref in Replay(NOTHING, ops).index
    ensures LastUse(ops, ref) == Some(Replay(NOTHING, ops).index[ref].lastHit)
  {
    hide Apply, UseOf;
    if ops != [] {
      var n := |ops| - 1;
      var before := Replay(NOTHING, ops[..n]);
      assert ops == ops[..n] + [ops[n]];
      ReplaySplits(NOTHING, ops[..n], ops[n]);
      UseSetsLastHit(before, ops[n], ref);
      if UseOf(before, ops[n], ref).None? {
        LastHitIsTheLastUse(ops[..n], ref);
      }
    }
  }

  // ---------------------------------------------------------------- sizes

  ghost function SizeOf(index: map<PackageRef, IndexRow>, keys: set<PackageRef>): nat
    requires keys <= index.Keys
  {
    if keys == {} then 0
    else
      var k :| k in keys;
      index[k].size + SizeOf(index, keys - {k})
  }

  lemma {:induction false} SizeWithout(index: map<PackageRef, IndexRow>, keys: set<PackageRef>, k: PackageRef)
    requires keys <= index.Keys && k in keys
    ensures SizeOf(index, keys) == index[k].size + SizeOf(index, keys - {k})
  {
    var c :| c in keys && SizeOf(index, keys) == index[c].size + SizeOf(index, keys - {c});
    if c != k {
      SizeWithout(index, keys - {c}, k);
      SizeWithout(index, keys - {k}, c);
      assert keys - {c} - {k} == keys - {k} - {c};
    }
  }

  lemma {:induction false} SizeAgrees(index: map<PackageRef, IndexRow>, smaller: map<PackageRef, IndexRow>,
                                      keys: set<PackageRef>)
    requires keys <= smaller.Keys && smaller.Keys <= index.Keys
    requires forall k | k in smaller :: smaller[k] == index[k]
    ensures SizeOf(smaller, keys) == SizeOf(index, keys)
  {
    if keys != {} {
      var k :| k in keys;
      SizeWithout(index, keys, k);
      SizeWithout(smaller, keys, k);
      SizeAgrees(index, smaller, keys - {k});
    }
  }

  /** `refs` answers "the `n` rows among `keys` hit longest ago, oldest first". */
  ghost predicate OldestFirst(index: map<PackageRef, IndexRow>, keys: set<PackageRef>, refs: seq<PackageRef>, n: nat) {
    && keys <= index.Keys
    && |refs| == (if |keys| < n then |keys| else n)
    && (forall i | 0 <= i < |refs| :: refs[i] in keys)
    && (forall i, j | 0 <= i < j < |refs| :: refs[i] != refs[j] && index[refs[i]].lastHit <= index[refs[j]].lastHit)
    && (forall i, k | 0 <= i < |refs| && k in keys && k !in refs :: index[refs[i]].lastHit <= index[k].lastHit)
  }

  lemma {:induction false} OldestExists(index: map<PackageRef, IndexRow>, keys: set<PackageRef>)
    requires keys <= index.Keys && keys != {}
    ensures exists k :: k in keys && forall q | q in keys :: index[k].lastHit <= index[q].lastHit
  {
    var k :| k in keys;
    if keys != {k} {
      OldestExists(index, keys - {k});
      var m :| m in keys - {k} && forall q | q in keys - {k} :: index[m].lastHit <= index[q].lastHit;
      var least := if index[k].lastHit <= index[m].lastHit then k else m;
      assert least in keys && forall q | q in keys :: index[least].lastHit <= index[q].lastHit;
    }
  }

  // ---------------------------------------------------------------- bytes in files

  /** The bytes of the files that rows have. */
  ghost function BytesOf(s: State, keys: set<PackageRef>): nat {
    if keys == {} then 0
    else
      var k :| k in keys;
      (if k in View(s) then |View(s)[k].bytes| else 0) + BytesOf(s, keys - {k})
  }

  /** The total of the sizes is what is in the files, and what rows say of files that are gone. */
  lemma {:induction false} SizesCoverBytes(s: State, keys: set<PackageRef>)
    requires Sized(s) && keys <= s.index.Keys
    ensures BytesOf(s, keys) <= SizeOf(s.index, keys)
    ensures (forall k | k in keys :: k in View(s)) ==> BytesOf(s, keys) == SizeOf(s.index, keys)
  {
    if keys != {} {
      var k :| k in keys && BytesOf(s, keys) == (if k in View(s) then |View(s)[k].bytes| else 0)
        + BytesOf(s, keys - {k});
      SizeWithout(s.index, keys, k);
      SizesCoverBytes(s, keys - {k});
    }
  }
}
