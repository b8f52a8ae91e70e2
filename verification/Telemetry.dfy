/** Telemetry tallies: one event's delta, the lifetime counters and the per-day rows it is added to. */
module Telemetry {
  import opened Domain

  /** The gate and verdict names an event may carry; any other string is `Other`. */
  datatype Gate = Cache | Supply | Cve | Malware | OtherGate(name: string)
  datatype Verdict = FromCache | Pass | Block | Error | OtherVerdict(name: string)

  datatype GateCounts = GateCounts(pass: nat, block: nat)

  datatype Aggregate = Aggregate(
    requests: nat, cacheHits: nat, blocked: nat, errors: nat,
    supplyBlocked: nat, cveBlocked: nat, malwareBlocked: nat, denylisted: nat,
    gates: map<Gate, GateCounts>)

  /** A calendar day, numbered. */
  datatype Day = Day(number: int)

  /** `day` is the UTC day of the event's own time, None for a zero time. */
  datatype Event = Event(verdict: Verdict, gate: Gate, reason: string, ts: int, day: Option<Day>)

  const PIPELINE := [Supply, Cve, Malware]

  const ZERO_GATES: map<Gate, GateCounts> :=
    map[Cache := GateCounts(0, 0), Supply := GateCounts(0, 0), Cve := GateCounts(0, 0), Malware := GateCounts(0, 0)]
  const ZERO := Aggregate(0, 0, 0, 0, 0, 0, 0, 0, ZERO_GATES)

  predicate Complete(a: Aggregate) { a.gates.Keys == {Cache, Supply, Cve, Malware} }

  function PipelineIndex(gate: Gate): int {
    if gate == Supply then 0 else if gate == Cve then 1 else if gate == Malware then 2 else -1
  }

  function PassAt(g: map<Gate, GateCounts>, gate: Gate): map<Gate, GateCounts>
    requires gate in g
  {
    g[gate := g[gate].(pass := g[gate].pass + 1)]
  }

  function BlockAt(g: map<Gate, GateCounts>, gate: Gate): map<Gate, GateCounts> {
    if gate in g then g[gate := g[gate].(block := g[gate].block + 1)] else g
  }

  function PassUpTo(g: map<Gate, GateCounts>, n: nat): (r: map<Gate, GateCounts>)
    requires n <= 3 && forall i | 0 <= i < n :: PIPELINE[i] in g
    ensures r.Keys == g.Keys
  {
    if n == 0 then g else PassAt(PassUpTo(g, n - 1), PIPELINE[n - 1])
  }

  function RecordGates(g: map<Gate, GateCounts>, ev: Event): map<Gate, GateCounts>
    requires g.Keys == {Cache, Supply, Cve, Malware}
  {
    var idx := PipelineIndex(ev.gate);
    match ev.verdict
    case FromCache => PassAt(g, Cache)
    case Pass => PassUpTo(g, if idx < 0 then 3 else idx + 1)
    case Block => PassUpTo(BlockAt(g, ev.gate), if idx > 0 then idx else 0)
    case Error => g
    case OtherVerdict(_) => g
  }

  function Record(a: Aggregate, ev: Event): Aggregate
    requires Complete(a)
  {
    var b := a.(requests := a.requests + 1, gates := RecordGates(a.gates, ev));
    match ev.verdict
    case FromCache => b.(cacheHits := b.cacheHits + 1)
    case Pass => b
    case Block =>
      var c := b.(blocked := b.blocked + 1);
      if ev.reason == DENYLISTED then c.(denylisted := c.denylisted + 1)
      else if ev.gate == Supply then c.(supplyBlocked := c.supplyBlocked + 1)
      else if ev.gate == Cve then c.(cveBlocked := c.cveBlocked + 1)
      else if ev.gate == Malware then c.(malwareBlocked := c.malwareBlocked + 1)
      else c
    case Error => b.(errors := b.errors + 1)
    case OtherVerdict(_) => b
  }

  function At(g: map<Gate, GateCounts>, k: Gate): GateCounts {
    if k in g then g[k] else GateCounts(0, 0)
  }

  function AddGates(g: map<Gate, GateCounts>, o: map<Gate, GateCounts>): map<Gate, GateCounts> {
    map k | k in g.Keys + o.Keys :: GateCounts(At(g, k).pass + At(o, k).pass, At(g, k).block + At(o, k).block)
  }

  function Add(a: Aggregate, o: Aggregate): Aggregate {
    Aggregate(a.requests + o.requests, a.cacheHits + o.cacheHits, a.blocked + o.blocked, a.errors + o.errors,
              a.supplyBlocked + o.supplyBlocked, a.cveBlocked + o.cveBlocked, a.malwareBlocked + o.malwareBlocked,
              a.denylisted + o.denylisted, AddGates(a.gates, o.gates))
  }

  function Fold(log: seq<Event>): (a: Aggregate)
    ensures Complete(a)
  {
    if log == [] then ZERO else Record(Fold(log[..|log| - 1]), log[|log| - 1])
  }

  // ---------------------------------------------------------------- in-place tallies

  class Tally {
    var a: Aggregate

    constructor ()
      ensures a == ZERO
    {
      a := ZERO;
    }

    /** A stored row, read back. */
    constructor Stored(row: Option<Aggregate>)
      ensures a == if row.Some? then row.value else ZERO
    {
      a := if row.Some? then row.value else ZERO;
    }

    method RecordEvent(ev: Event)
      requires Complete(a)
      modifies this
      ensures a == Record(old(a), ev)
    {
      a := a.(requests := a.requests + 1);
      var idx := PipelineIndex(ev.gate);
      match ev.verdict {
        case FromCache =>
          a := a.(cacheHits := a.cacheHits + 1, gates := PassAt(a.gates, Cache));
        case Pass =>
          if idx < 0 {
            idx := |PIPELINE| - 1;
          }
          PassPipeline(idx + 1);
        case Block =>
          a := a.(blocked := a.blocked + 1);
          if ev.gate in a.gates {
            a := a.(gates := BlockAt(a.gates, ev.gate));
          }
          if idx > 0 {
            PassPipeline(idx);
          }
          if ev.reason == DENYLISTED {
            a := a.(denylisted := a.denylisted + 1);
          } else if ev.gate == Supply {
            a := a.(supplyBlocked := a.supplyBlocked + 1);
          } else if ev.gate == Cve {
            a := a.(cveBlocked := a.cveBlocked + 1);
          } else if ev.gate == Malware {
            a := a.(malwareBlocked := a.malwareBlocked + 1);
          }
        case Error =>
          a := a.(errors := a.errors + 1);
        case OtherVerdict(_) =>
      }
    }

    method PassPipeline(n: nat)
      requires n <= 3 && Complete(a)
      modifies this
      ensures a == old(a).(gates := PassUpTo(old(a).gates, n))
    {
      for i := 0 to n
        invariant a == old(a).(gates := PassUpTo(old(a).gates, i))
      {
        a := a.(gates := PassAt(a.gates, PIPELINE[i]));
      }
    }

    method AddTally(o: Aggregate)
      modifies this
      ensures a == Add(old(a), o)
    {
      var left := o.gates.Keys;
      var gates := a.gates;
      while left != {}
        invariant left <= o.gates.Keys
        invariant gates.Keys == a.gates.Keys + (o.gates.Keys - left)
        invariant forall k | k in gates ::
                    gates[k] == if k in left then At(a.gates, k) else AddGates(a.gates, o.gates)[k]
        decreases left
      {
        var k :| k in left;
        var c := At(gates, k);
        gates := gates[k := GateCounts(c.pass + o.gates[k].pass, c.block + o.gates[k].block)];
        left := left - {k};
      }
      assert gates == AddGates(a.gates, o.gates);
      a := Add(a.(gates := map[]), o.(gates := map[])).(gates := gates);
    }
  }

  // ---------------------------------------------------------------- one event's delta

  predicate IsBlock(e: Event) { e.verdict == Block }

  /** The event shows that the artifact cleared pipeline gate `i`: it passed there or deeper (a pass at an unknown
      gate is a pass of all three), or was blocked deeper. */
  predicate Clears(e: Event, i: nat) {
    || (e.verdict == Pass && (PipelineIndex(e.gate) >= i || PipelineIndex(e.gate) < 0))
    || (e.verdict == Block && PipelineIndex(e.gate) > i)
  }

  predicate PassesGate(e: Event, gate: Gate) {
    if gate == Cache then e.verdict == FromCache
    else PipelineIndex(gate) >= 0 && Clears(e, PipelineIndex(gate))
  }

  predicate BlocksAt(e: Event, gate: Gate) { IsBlock(e) && e.gate == gate }

  function Unit(b: bool): nat { if b then 1 else 0 }

  lemma {:induction false} PassUpToAt(g: map<Gate, GateCounts>, n: nat, k: Gate)
    requires n <= 3 && g.Keys == {Cache, Supply, Cve, Malware} && k in g
    ensures PassUpTo(g, n)[k] == g[k].(pass := g[k].pass + Unit(0 <= PipelineIndex(k) < n))
  {
    if n > 0 {
      PassUpToAt(g, n - 1, k);
    }
  }

  lemma RecordGatesAt(g: map<Gate, GateCounts>, ev: Event, k: Gate)
    requires g.Keys == {Cache, Supply, Cve, Malware} && k in g
    ensures RecordGates(g, ev).Keys == g.Keys
    ensures RecordGates(g, ev)[k] == GateCounts(g[k].pass + Unit(PassesGate(ev, k)), g[k].block + Unit(BlocksAt(ev, k)))
  {
    var idx := PipelineIndex(ev.gate);
    if ev.verdict == Pass {
      PassUpToAt(g, if idx < 0 then 3 else idx + 1, k);
    } else if ev.verdict == Block {
      PassUpToAt(BlockAt(g, ev.gate), if idx > 0 then idx else 0, k);
    }
  }

  /** A recorded event raises each gate's tallies by what it shows of that gate. */
  lemma RecordAt(a: Aggregate, ev: Event, k: Gate)
    requires Complete(a) && k in a.gates
    ensures Complete(Record(a, ev))
    ensures Record(a, ev).gates[k]
         == GateCounts(a.gates[k].pass + Unit(PassesGate(ev, k)), a.gates[k].block + Unit(BlocksAt(ev, k)))
  {
    RecordGatesAt(a.gates, ev, k);
    hide RecordGates;
  }

  // ---------------------------------------------------------------- what the counters count

  function Count(log: seq<Event>, p: Event -> bool): nat {
    if log == [] then 0 else Count(log[..|log| - 1], p) + Unit(p(log[|log| - 1]))
  }

  datatype Counter = Requests | CacheHits | Blocks | Errors | SupplyBlocks | CveBlocks | MalwareBlocks | Denylisted

  function Value(a: Aggregate, c: Counter): nat {
    match c
    case Requests => a.requests
    case CacheHits => a.cacheHits
    case Blocks => a.blocked
    case Errors => a.errors
    case SupplyBlocks => a.supplyBlocked
    case CveBlocks => a.cveBlocked
    case MalwareBlocks => a.malwareBlocked
    case Denylisted => a.denylisted
  }

  /** The events a counter is meant to count. A denylisted block counts as such whatever gate reported it. */
  predicate Counts(e: Event, c: Counter) {
    match c
    case Requests => true
    case CacheHits => e.verdict == FromCache
    case Blocks => IsBlock(e)
    case Errors => e.verdict == Error
    case SupplyBlocks => IsBlock(e) && e.reason != DENYLISTED && e.gate == Supply
    case CveBlocks => IsBlock(e) && e.reason != DENYLISTED && e.gate == Cve
    case MalwareBlocks => IsBlock(e) && e.reason != DENYLISTED && e.gate == Malware
    case Denylisted => IsBlock(e) && e.reason == DENYLISTED
  }

  lemma RecordCounts(a: Aggregate, ev: Event, c: Counter)
    requires Complete(a)
    ensures Value(Record(a, ev), c) == Value(a, c) + Unit(Counts(ev, c))
  {
    hide RecordGates;
  }

  /** Every counter is the number of events it is meant to count. */
  lemma {:induction false} FoldCounts(log: seq<Event>, c: Counter)
    ensures Value(Fold(log), c) == Count(log, e => Counts(e, c))
  {
    if log != [] {
      var n := |log| - 1;
      FoldCounts(log[..n], c);
      RecordCounts(Fold(log[..n]), log[n], c);
    }
  }

  lemma {:induction false} FoldCountsGates(log: seq<Event>, k: Gate)
    requires k in {Cache, Supply, Cve, Malware}
    ensures Fold(log).gates[k] == GateCounts(Count(log, e => PassesGate(e, k)), Count(log, e => BlocksAt(e, k)))
  {
    if log != [] {
      var n := |log| - 1;
      FoldCountsGates(log[..n], k);
      RecordAt(Fold(log[..n]), log[n], k);
    }
  }

  /** Whatever reached a gate cleared the one before it, no block falls into two buckets, and every request is
      counted under at most one verdict. */
  lemma {:induction false} TalliesAreConsistent(log: seq<Event>)
    ensures var a := Fold(log);
      && a.gates[Supply].pass >= a.gates[Cve].pass + a.gates[Cve].block
      && a.gates[Cve].pass >= a.gates[Malware].pass + a.gates[Malware].block
      && a.blocked >= a.supplyBlocked + a.cveBlocked + a.malwareBlocked + a.denylisted
      && a.requests >= a.cacheHits + a.blocked + a.errors
      && a.gates[Cache].pass == a.cacheHits
  {
    if log != [] {
      var n := |log| - 1;
      var a, ev := Fold(log[..n]), log[n];
      TalliesAreConsistent(log[..n]);
      RecordAt(a, ev, Supply);
      RecordAt(a, ev, Cve);
      RecordAt(a, ev, Malware);
      RecordAt(a, ev, Cache);
    }
  }

  // ---------------------------------------------------------------- adding deltas

  lemma AddCommutes(a: Aggregate, b: Aggregate)
    ensures Add(a, b) == Add(b, a)
  {
    assert AddGates(a.gates, b.gates) == AddGates(b.gates, a.gates);
  }

  lemma AddGatesAt(f: map<Gate, GateCounts>, g: map<Gate, GateCounts>)
    ensures AddGates(f, g).Keys == f.Keys + g.Keys
    ensures forall k ::
              At(AddGates(f, g), k) == GateCounts(At(f, k).pass + At(g, k).pass, At(f, k).block + At(g, k).block)
  {
  }

  lemma SameCounts(f: map<Gate, GateCounts>, g: map<Gate, GateCounts>)
    requires f.Keys == g.Keys && forall k :: At(f, k) == At(g, k)
    ensures f == g
  {
    assert forall k | k in f :: f[k] == At(f, k) && g[k] == At(g, k);
  }

  lemma AddGatesAssociates(f: map<Gate, GateCounts>, g: map<Gate, GateCounts>, h: map<Gate, GateCounts>)
    ensures AddGates(AddGates(f, g), h) == AddGates(f, AddGates(g, h))
  {
    hide AddGates, At;
    AddGatesAt(f, g);
    AddGatesAt(g, h);
    AddGatesAt(AddGates(f, g), h);
    AddGatesAt(f, AddGates(g, h));
    SameCounts(AddGates(AddGates(f, g), h), AddGates(f, AddGates(g, h)));
  }

  lemma AddAssociates(a: Aggregate, b: Aggregate, c: Aggregate)
    ensures Add(Add(a, b), c) == Add(a, Add(b, c))
  {
    AddGatesAssociates(a.gates, b.gates, c.gates);
    hide AddGates;
  }

  lemma AddZero(a: Aggregate)
    requires Complete(a)
    ensures Add(a, ZERO) == a
  {
    assert AddGates(a.gates, ZERO_GATES) == a.gates;
  }

  lemma RecordGatesAdd(g: map<Gate, GateCounts>, ev: Event)
    requires g.Keys == {Cache, Supply, Cve, Malware}
    ensures RecordGates(g, ev) == AddGates(g, RecordGates(ZERO_GATES, ev))
  {
    hide RecordGates;
    forall k | k in g
      ensures RecordGates(g, ev).Keys == g.Keys == RecordGates(ZERO_GATES, ev).Keys
      ensures RecordGates(g, ev)[k] == AddGates(g, RecordGates(ZERO_GATES, ev))[k]
    {
      RecordGatesAt(g, ev, k);
      RecordGatesAt(ZERO_GATES, ev, k);
    }
    assert Cache in g;
  }

  lemma SameAggregate(a: Aggregate, b: Aggregate)
    requires a.gates == b.gates && forall c :: Value(a, c) == Value(b, c)
    ensures a == b
  {
    assert forall x: Aggregate :: x == Aggregate(Value(x, Requests), Value(x, CacheHits), Value(x, Blocks),
                                              Value(x, Errors), Value(x, SupplyBlocks), Value(x, CveBlocks),
                                              Value(x, MalwareBlocks), Value(x, Denylisted), x.gates);
  }

  lemma AddCounts(a: Aggregate, b: Aggregate, c: Counter)
    ensures Value(Add(a, b), c) == Value(a, c) + Value(b, c)
  {
  }

  lemma RecordUsesGates(a: Aggregate, ev: Event)
    requires Complete(a)
    ensures Record(a, ev).gates == RecordGates(a.gates, ev)
  {
  }

  /** Recording an event is adding its one-event delta. */
  lemma RecordIsAddingDelta(a: Aggregate, ev: Event)
    requires Complete(a)
    ensures Record(a, ev) == Add(a, Record(ZERO, ev))
  {
    hide Record, RecordGates, AddGates;
    RecordGatesAdd(a.gates, ev);
    RecordUsesGates(a, ev);
    RecordUsesGates(ZERO, ev);
    forall c
      ensures Value(Record(a, ev), c) == Value(Add(a, Record(ZERO, ev)), c)
    {
      RecordCounts(a, ev, c);
      RecordCounts(ZERO, ev, c);
      AddCounts(a, Record(ZERO, ev), c);
      assert Value(ZERO, c) == 0;
    }
    SameAggregate(Record(a, ev), Add(a, Record(ZERO, ev)));
  }
}
