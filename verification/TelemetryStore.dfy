/** The telemetry tables: recording in one transaction, keyset paging, the quarantine view and pruning. */
module TelemetryStore {
  import opened Domain
  import opened Telemetry

  /** An event row. `key` is "ecosystem/package@version"; `readable` says its JSON decodes. */
  datatype Row = Row(id: int, ts: int, event: Event, key: string, blockUntil: int, readable: bool)

  datatype Db = Db(rows: set<Row>, lastId: nat, counters: Option<Aggregate>, daily: map<Day, Aggregate>)
  const EMPTY := Db({}, 0, None, map[])

  /** Row ids are unique, start at 1 and never exceed the last one handed out. */
  ghost predicate Valid(db: Db) {
    && (forall r | r in db.rows :: 1 <= r.id <= db.lastId)
    && (forall r, q | r in db.rows && q in db.rows && r.id == q.id :: r == q)
    && (db.counters.Some? ==> Complete(db.counters.value))
    && (forall d | d in db.daily :: Complete(db.daily[d]))
  }

  // ---------------------------------------------------------------- recording and pruning

  function Counters(db: Db): Aggregate { if db.counters.Some? then db.counters.value else ZERO }
  function DayRow(daily: map<Day, Aggregate>, d: Day): Aggregate { if d in daily then daily[d] else ZERO }
  function DayOf(ev: Event, today: Day): Day { if ev.day.Some? then ev.day.value else today }

  function Delta(ev: Event): Aggregate { Record(ZERO, ev) }

  function RecordEvent(db: Db, ev: Event, key: string, blockUntil: int, today: Day, fails: bool): Db {
    if fails then db
    else
      var d := DayOf(ev, today);
      Db(db.rows + {Row(db.lastId + 1, ev.ts, ev, key, blockUntil, true)}, db.lastId + 1,
         Some(Add(Counters(db), Delta(ev))), db.daily[d := Add(DayRow(db.daily, d), Delta(ev))])
  }

  function Prune(db: Db, eventCutoff: int, dayCutoff: Day): Db {
    db.(rows := (set r | r in db.rows && r.ts >= eventCutoff),
        daily := (map d | d in db.daily && d.number >= dayCutoff.number :: db.daily[d]))
  }

  lemma ZeroIsComplete()
    ensures Complete(ZERO)
  {
  }

  class Repo {
    var rows: set<Row>
    var lastId: nat
    var counters: Option<Aggregate>
    var daily: map<Day, Aggregate>

    ghost function State(): Db
      reads this
    {
      Db(rows, lastId, counters, daily)
    }

    constructor ()
      ensures State() == EMPTY
    {
      rows, lastId, counters, daily := {}, 0, None, map[];
    }

    /** One transaction: the event's row, the lifetime counters and the row of its day. A failure leaves all three as
        they were. */
    method DoRecord(ev: Event, key: string, blockUntil: int, today: Day, fails: bool) returns (ok: bool)
      modifies this
      ensures State() == RecordEvent(old(State()), ev, key, blockUntil, today, fails) && ok == !fails
    {
      hide Record, Add, Complete;
      assert Complete(ZERO) by {
        ZeroIsComplete();
      }
      var delta := new Tally();
      delta.RecordEvent(ev);
      var total := new Tally.Stored(counters);
      total.AddTally(delta.a);
      var d := DayOf(ev, today);
      var ofDay := new Tally.Stored(if d in daily then Some(daily[d]) else None);
      ofDay.AddTally(delta.a);
      if fails {
        return false;
      }
      rows := rows + {Row(lastId + 1, ev.ts, ev, key, blockUntil, true)};
      lastId := lastId + 1;
      counters := Some(total.a);
      daily := daily[d := ofDay.a];
      ok := true;
    }

    method DoPrune(eventCutoff: int, dayCutoff: Day)
      modifies this
      ensures State() == Prune(old(State()), eventCutoff, dayCutoff)
    {
      rows := set r | r in rows && r.ts >= eventCutoff;
      daily := map d | d in daily && d.number >= dayCutoff.number :: daily[d];
    }
  }

  datatype Op =
    | OpRecord(ev: Event, key: string, blockUntil: int, today: Day, fails: bool)
    | OpPrune(eventCutoff: int, dayCutoff: Day)

  function Apply(db: Db, op: Op): Db {
    match op
    case OpRecord(ev, key, until, today, fails) => RecordEvent(db, ev, key, until, today, fails)
    case OpPrune(eventCutoff, dayCutoff) => Prune(db, eventCutoff, dayCutoff)
  }

  function Run(ops: seq<Op>): Db {
    if ops == [] then EMPTY else Apply(Run(ops[..|ops| - 1]), ops[|ops| - 1])
  }

  /** The events whose transaction committed. */
  function Log(ops: seq<Op>): seq<Event> {
    if ops == [] then []
    else
      var op := ops[|ops| - 1];
      Log(ops[..|ops| - 1]) + (if op.OpRecord? && !op.fails then [op.ev] else [])
  }

  /** Those of them that were filed under day `d`, since a pruning last cut the day off. */
  function LogOfDay(ops: seq<Op>, d: Day): seq<Event> {
    if ops == [] then []
    else
      var op, before := ops[|ops| - 1], LogOfDay(ops[..|ops| - 1], d);
      if op.OpPrune? && op.dayCutoff.number > d.number then []
      else before + (if op.OpRecord? && !op.fails && DayOf(op.ev, op.today) == d then [op.ev] else [])
  }

  predicate Commits(op: Op) { op.OpRecord? && !op.fails }

  /** The row that committing `ops[k]` inserts: the number of commits so far is its id. */
  function RowOf(ops: seq<Op>, k: nat): Row
    requires k < |ops| && Commits(ops[k])
  {
    Row(|Log(ops[..k + 1])|, ops[k].ev.ts, ops[k].ev, ops[k].key, ops[k].blockUntil, true)
  }

  /** No pruning after `ops[k]` cuts off what has this time. */
  predicate NotCutSince(ops: seq<Op>, k: nat, ts: int) {
    forall j | k < j < |ops| && ops[j].OpPrune? :: ops[j].eventCutoff <= ts
  }

  lemma LogGrows(ops: seq<Op>)
    requires ops != []
    ensures |Log(ops)| == |Log(ops[..|ops| - 1])| + if Commits(ops[|ops| - 1]) then 1 else 0
  {
  }

  lemma RowOfPrefix(ops: seq<Op>, n: nat, k: nat)
    requires k < n <= |ops| && Commits(ops[k])
    ensures RowOf(ops[..n], k) == RowOf(ops, k)
  {
    assert ops[..n][..k + 1] == ops[..k + 1];
    hide Log;
  }

  ghost predicate Made(ops: seq<Op>, k: nat, r: Row) {
    k < |ops| && Commits(ops[k]) && r == RowOf(ops, k) && NotCutSince(ops, k, r.ts)
  }

  lemma MadeEarlier(ops: seq<Op>, k: nat, r: Row)
    requires ops != [] && k < |ops| - 1
    ensures var n := |ops| - 1;
      Made(ops, k, r) <==> Made(ops[..n], k, r) && (ops[n].OpPrune? ==> ops[n].eventCutoff <= r.ts)
  {
    var n := |ops| - 1;
    if Commits(ops[k]) {
      RowOfPrefix(ops, n, k);
    }
    assert forall j | 0 <= j < n :: ops[..n][j] == ops[j];
    hide RowOf;
  }

  lemma {:induction false} LastIdCounts(ops: seq<Op>)
    ensures Run(ops).lastId == |Log(ops)|
  {
    if ops != [] {
      LastIdCounts(ops[..|ops| - 1]);
      LogGrows(ops);
      hide Log, Record, Add;
    }
  }

  lemma RowStep(db: Db, op: Op, r: Row)
    ensures r in Apply(db, op).rows <==>
      || (r in db.rows && (op.OpPrune? ==> op.eventCutoff <= r.ts))
      || (Commits(op) && r == Row(db.lastId + 1, op.ev.ts, op.ev, op.key, op.blockUntil, true))
  {
    hide Record, Add;
  }

  lemma MadeLast(ops: seq<Op>, r: Row)
    requires ops != []
    ensures var n := |ops| - 1; var op := ops[n];
      Made(ops, n, r)
      <==> Commits(op) && r == Row(Run(ops[..n]).lastId + 1, op.ev.ts, op.ev, op.key, op.blockUntil, true)
  {
    LastIdCounts(ops[..|ops| - 1]);
    LogGrows(ops);
    assert ops[..|ops| - 1 + 1] == ops;
    hide Log, Run;
  }

  /** In every run the rows are those of the committed records that no later pruning has cut off; ids count the
      commits. */
  lemma {:induction false} RowsAreTheCommits(ops: seq<Op>, r: Row)
    ensures r in Run(ops).rows <==> exists k: nat :: Made(ops, k, r)
  {
    if ops != [] {
      var n := |ops| - 1;
      RowsAreTheCommits(ops[..n], r);
      RowStep(Run(ops[..n]), ops[n], r);
      MadeLast(ops, r);
      forall k: nat | k < n
        ensures Made(ops, k, r) <==> Made(ops[..n], k, r) && (ops[n].OpPrune? ==> ops[n].eventCutoff <= r.ts)
      {
        MadeEarlier(ops, k, r);
      }
      MadeWithin(ops, r);
      MadeWithin(ops[..n], r);
      hide Made, Apply, Commits;
    }
  }

  lemma MadeWithin(ops: seq<Op>, r: Row)
    ensures forall k: nat | Made(ops, k, r) :: k < |ops|
  {
  }

  lemma AddDelta(a: Aggregate, ev: Event)
    requires Complete(a)
    ensures Add(a, Delta(ev)) == Record(a, ev) && Complete(Record(a, ev))
  {
    RecordIsAddingDelta(a, ev);
    RecordAt(a, ev, Cache);
  }

  lemma RecordKeepsValid(db: Db, ev: Event, key: string, blockUntil: int, today: Day, fails: bool)
    requires Valid(db)
    ensures Valid(RecordEvent(db, ev, key, blockUntil, today, fails))
  {
    hide Record, Add, Complete;
    ZeroIsComplete();
    AddDelta(Counters(db), ev);
    AddDelta(DayRow(db.daily, DayOf(ev, today)), ev);
  }

  lemma {:induction false} RunKeepsValid(ops: seq<Op>)
    ensures Valid(Run(ops))
  {
    if ops != [] {
      var n := |ops| - 1;
      RunKeepsValid(ops[..n]);
      if ops[n].OpRecord? {
        RecordKeepsValid(Run(ops[..n]), ops[n].ev, ops[n].key, ops[n].blockUntil, ops[n].today, ops[n].fails);
      }
      hide Record, Add;
    }
  }

  /** Over any run of commits, failures and prunings the lifetime counters are the fold of every committed event. */
  lemma {:induction false} CountersFoldTheLog(ops: seq<Op>)
    ensures Counters(Run(ops)) == Fold(Log(ops))
  {
    if ops != [] {
      var n := |ops| - 1;
      var before, op := Run(ops[..n]), ops[n];
      CountersFoldTheLog(ops[..n]);
      RunKeepsValid(ops[..n]);
      if op.OpRecord? && !op.fails {
        AddDelta(Counters(before), op.ev);
        FoldSnoc(Log(ops[..n]), op.ev);
      }
      hide Record, Add, Fold;
      assert Log(ops[..n]) + [] == Log(ops[..n]);
    }
  }

  /** The day's row is the fold of this log. */
  predicate FoldsDay(db: Db, d: Day, log: seq<Event>) {
    (d in db.daily <==> log != []) && DayRow(db.daily, d) == Fold(log)
  }

  lemma FilingFolds(db: Db, op: Op, d: Day, log: seq<Event>)
    requires Valid(db) && FoldsDay(db, d, log) && Commits(op)
    ensures FoldsDay(Apply(db, op), d, if DayOf(op.ev, op.today) == d then log + [op.ev] else log)
  {
    if DayOf(op.ev, op.today) == d {
      AddDelta(DayRow(db.daily, d), op.ev);
      FoldSnoc(log, op.ev);
    }
    hide Record, Add, Fold, Delta, Complete;
  }

  lemma PruningFolds(db: Db, op: Op, d: Day, log: seq<Event>)
    requires FoldsDay(db, d, log) && op.OpPrune?
    ensures FoldsDay(Apply(db, op), d, if op.dayCutoff.number > d.number then [] else log)
  {
    assert Fold([]) == ZERO;
    hide Fold;
  }

  /** A day has a row exactly when events were filed under it since a pruning last cut it off, and the row is their
      fold. */
  lemma {:induction false} DayFoldsItsLog(ops: seq<Op>, d: Day)
    ensures d in Run(ops).daily <==> LogOfDay(ops, d) != []
    ensures DayRow(Run(ops).daily, d) == Fold(LogOfDay(ops, d))
  {
    if ops != [] {
      var n := |ops| - 1;
      DayFoldsItsLog(ops[..n], d);
      RunKeepsValid(ops[..n]);
      var db, log := Run(ops[..n]), LogOfDay(ops[..n], d);
      assert FoldsDay(db, d, log) && log + [] == log;
      if Commits(ops[n]) {
        FilingFolds(db, ops[n], d, log);
      } else if ops[n].OpPrune? {
        PruningFolds(db, ops[n], d, log);
      }
      hide Fold, Valid, DayRow;
    }
  }

  lemma FoldSnoc(log: seq<Event>, ev: Event)
    ensures Fold(log + [ev]) == Record(Fold(log), ev)
  {
    assert (log + [ev])[..|log|] == log;
  }

  ghost function SumDays(daily: map<Day, Aggregate>, days: set<Day>): Aggregate
    requires days <= daily.Keys
  {
    if days == {} then ZERO
    else
      var d :| d in days;
      Add(daily[d], SumDays(daily, days - {d}))
  }

  lemma {:induction false} SumDaysWithout(daily: map<Day, Aggregate>, days: set<Day>, d: Day)
    requires days <= daily.Keys && d in days
    ensures SumDays(daily, days) == Add(daily[d], SumDays(daily, days - {d}))
  {
    var c :| c in days && SumDays(daily, days) == Add(daily[c], SumDays(daily, days - {c}));
    if c != d {
      SumDaysWithout(daily, days - {c}, d);
      SumDaysWithout(daily, days - {d}, c);
      assert days - {c} - {d} == days - {d} - {c};
      var rest := SumDays(daily, days - {c} - {d});
      AddAssociates(daily[c], daily[d], rest);
      AddAssociates(daily[d], daily[c], rest);
      AddCommutes(daily[c], daily[d]);
    }
  }

  lemma {:induction false} SumDaysAgrees(daily: map<Day, Aggregate>, other: map<Day, Aggregate>, days: set<Day>)
    requires days <= daily.Keys && days <= other.Keys && forall d | d in days :: daily[d] == other[d]
    ensures SumDays(daily, days) == SumDays(other, days)
  {
    if days != {} {
      var d :| d in days;
      SumDaysWithout(daily, days, d);
      SumDaysWithout(other, days, d);
      SumDaysAgrees(daily, other, days - {d});
    }
  }

  /** Filing an event under its day adds its delta to the sum over all days. */
  lemma FilingAddsToSum(daily: map<Day, Aggregate>, d: Day, delta: Aggregate)
    requires Complete(delta) && forall k | k in daily :: Complete(daily[k])
    ensures var after := daily[d := Add(DayRow(daily, d), delta)];
      SumDays(after, after.Keys) == Add(SumDays(daily, daily.Keys), delta)
  {
    hide Add, Complete;
    var after := daily[d := Add(DayRow(daily, d), delta)];
    var others := daily.Keys - {d};
    var rest := SumDays(daily, others);
    assert after.Keys - {d} == others;
    SumDaysWithout(after, after.Keys, d);
    SumDaysAgrees(after, daily, others);
    assert SumDays(after, after.Keys) == Add(Add(DayRow(daily, d), delta), rest);
    if d in daily {
      SumDaysWithout(daily, daily.Keys, d);
      AddAssociates(daily[d], delta, rest);
      AddCommutes(delta, rest);
      AddAssociates(daily[d], rest, delta);
    } else {
      assert others == daily.Keys;
      AddCommutes(ZERO, delta);
      AddZero(delta);
      AddCommutes(delta, rest);
    }
  }

  lemma {:induction false} SumDaysIsComplete(daily: map<Day, Aggregate>, days: set<Day>)
    requires days <= daily.Keys && forall d | d in days :: Complete(daily[d])
    ensures Complete(SumDays(daily, days))
  {
    if days == {} {
      ZeroIsComplete();
    } else {
      var d :| d in days;
      SumDaysWithout(daily, days, d);
      SumDaysIsComplete(daily, days - {d});
      AddKeepsComplete(daily[d], SumDays(daily, days - {d}));
      hide SumDays, Add;
    }
  }

  lemma AddKeepsComplete(a: Aggregate, b: Aggregate)
    requires Complete(a) && Complete(b)
    ensures Complete(Add(a, b))
  {
    assert AddGates(a.gates, b.gates).Keys == a.gates.Keys + b.gates.Keys == a.gates.Keys;
  }

  lemma {:induction false} SumDaysSplits(daily: map<Day, Aggregate>, some: set<Day>, others: set<Day>)
    requires some + others <= daily.Keys && some !! others && forall d | d in daily :: Complete(daily[d])
    ensures SumDays(daily, some + others) == Add(SumDays(daily, some), SumDays(daily, others))
  {
    hide Add;
    if some == {} {
      SumDaysIsComplete(daily, others);
      assert some + others == others;
      AddZero(SumDays(daily, others));
      AddCommutes(SumDays(daily, others), ZERO);
    } else {
      var d :| d in some;
      SumDaysWithout(daily, some, d);
      SumDaysWithout(daily, some + others, d);
      assert some + others - {d} == (some - {d}) + others;
      SumDaysSplits(daily, some - {d}, others);
      AddAssociates(daily[d], SumDays(daily, some - {d}), SumDays(daily, others));
    }
  }

  /** The days that an operation takes out of the table. */
  function DaysTaken(db: Db, op: Op): set<Day> { db.daily.Keys - Apply(db, op).daily.Keys }

  ghost function Taking(db: Db, op: Op, gone: Aggregate): Aggregate { Add(gone, SumDays(db.daily, DaysTaken(db, op))) }

  /** Everything that prunings have taken out of the daily rows, added up. */
  ghost function Pruned(ops: seq<Op>): Aggregate {
    if ops == [] then ZERO else Taking(Run(ops[..|ops| - 1]), ops[|ops| - 1], Pruned(ops[..|ops| - 1]))
  }

  ghost function Sum(db: Db): Aggregate { SumDays(db.daily, db.daily.Keys) }

  lemma {:induction false} PrunedIsComplete(ops: seq<Op>)
    ensures Complete(Pruned(ops))
  {
    if ops == [] {
      ZeroIsComplete();
    } else {
      var n := |ops| - 1;
      PrunedIsComplete(ops[..n]);
      RunKeepsValid(ops[..n]);
      SumDaysIsComplete(Run(ops[..n]).daily, DaysTaken(Run(ops[..n]), ops[n]));
      AddKeepsComplete(Pruned(ops[..n]), SumDays(Run(ops[..n]).daily, DaysTaken(Run(ops[..n]), ops[n])));
      hide SumDays, Add, Complete, Run, DaysTaken;
    }
  }

  lemma RecordMovesSum(db: Db, ev: Event, key: string, blockUntil: int, today: Day)
    requires Valid(db)
    ensures var after := RecordEvent(db, ev, key, blockUntil, today, false);
      SumDays(after.daily, after.daily.Keys) == Add(SumDays(db.daily, db.daily.Keys), Delta(ev))
  {
    RecordAt(ZERO, ev, Cache);
    hide Record, Add, SumDays;
    FilingAddsToSum(db.daily, DayOf(ev, today), Delta(ev));
  }

  lemma PruneMovesSum(db: Db, eventCutoff: int, dayCutoff: Day)
    requires Valid(db)
    ensures var after := Prune(db, eventCutoff, dayCutoff).daily;
      SumDays(db.daily, db.daily.Keys) == Add(SumDays(after, after.Keys), SumDays(db.daily, db.daily.Keys - after.Keys))
  {
    var after := Prune(db, eventCutoff, dayCutoff).daily;
    assert db.daily.Keys == after.Keys + (db.daily.Keys - after.Keys);
    SumDaysSplits(db.daily, after.Keys, db.daily.Keys - after.Keys);
    SumDaysAgrees(after, db.daily, after.Keys);
    hide SumDays, Add;
  }

  lemma AddSwaps(a: Aggregate, b: Aggregate, c: Aggregate)
    ensures Add(Add(a, b), c) == Add(Add(a, c), b)
  {
    hide Add;
    AddAssociates(a, b, c);
    AddCommutes(b, c);
    AddAssociates(a, c, b);
  }

  lemma SumStep(db: Db, op: Op, gone: Aggregate)
    requires Valid(db) && Complete(gone) && Add(Sum(db), gone) == Counters(db)
    ensures Add(Sum(Apply(db, op)), Taking(db, op, gone)) == Counters(Apply(db, op))
  {
    hide Add, Record, SumDays;
    var after := Apply(db, op);
    if op.OpPrune? {
      PruneMovesSum(db, op.eventCutoff, op.dayCutoff);
      AddSwaps(SumDays(after.daily, after.daily.Keys), SumDays(db.daily, DaysTaken(db, op)), gone);
      AddAssociates(SumDays(after.daily, after.daily.Keys), gone, SumDays(db.daily, DaysTaken(db, op)));
    } else {
      NothingTaken(db, op, gone);
      if !op.fails {
        RecordMovesSum(db, op.ev, op.key, op.blockUntil, op.today);
        AddSwaps(SumDays(db.daily, db.daily.Keys), Delta(op.ev), gone);
      }
    }
  }

  lemma NothingTaken(db: Db, op: Op, gone: Aggregate)
    requires Complete(gone) && (op.OpPrune? ==> DaysTaken(db, op) == {})
    ensures Taking(db, op, gone) == gone
  {
    assert DaysTaken(db, op) == {};
    ZeroIsComplete();
    AddCommutes(gone, ZERO);
    AddZero(gone);
  }

  /** In every run, what the daily rows hold and what prunings took out of them are together the lifetime counters. */
  lemma {:induction false} DaysAndPrunedSumToCounters(ops: seq<Op>)
    ensures Add(Sum(Run(ops)), Pruned(ops)) == Counters(Run(ops))
  {
    hide Sum, Add, Apply, Counters, Taking, Valid, Complete;
    if ops == [] {
      NothingSumsToZero();
    } else {
      var n := |ops| - 1;
      DaysAndPrunedSumToCounters(ops[..n]);
      RunKeepsValid(ops[..n]);
      PrunedIsComplete(ops[..n]);
      SumStep(Run(ops[..n]), ops[n], Pruned(ops[..n]));
    }
  }

  lemma NothingSumsToZero()
    ensures Add(Sum(EMPTY), ZERO) == Counters(EMPTY) == ZERO
  {
    hide Add, Complete, ZERO, SumDays;
    SumOfNothing(EMPTY.daily);
    ZeroIsComplete();
    AddZero(ZERO);
  }

  lemma SumOfNothing(daily: map<Day, Aggregate>)
    requires daily == map[]
    ensures SumDays(daily, daily.Keys) == ZERO
  {
    assert daily.Keys == {};
  }

  /** Each daily row holds at least one event. */
  lemma {:induction false} DaysAreCounted(ops: seq<Op>, d: Day)
    requires d in Run(ops).daily
    ensures Run(ops).daily[d].requests > 0
  {
    var n := |ops| - 1;
    RunKeepsValid(ops[..n]);
    if d in Run(ops[..n]).daily {
      DaysAreCounted(ops[..n], d);
    }
    if ops[n].OpRecord? {
      DeltaCounts(ops[n].ev);
    }
    hide Record, AddGates;
  }

  lemma DeltaCounts(ev: Event)
    ensures Delta(ev).requests == 1
  {
    ZeroIsComplete();
    hide RecordGates;
  }

  lemma {:induction false} SumDaysCounts(daily: map<Day, Aggregate>, days: set<Day>)
    requires days <= daily.Keys && forall d | d in daily :: daily[d].requests > 0
    ensures SumDays(daily, days).requests == 0 <==> days == {}
  {
    if days != {} {
      var d :| d in days;
      SumDaysWithout(daily, days, d);
      hide SumDays;
    }
  }

  /** No pruning of the run took out a daily row. */
  predicate KeepsDays(ops: seq<Op>) {
    ops != [] ==> KeepsDays(ops[..|ops| - 1]) && DaysTaken(Run(ops[..|ops| - 1]), ops[|ops| - 1]) == {}
  }

  lemma TakingCounts(ops: seq<Op>, op: Op, gone: Aggregate)
    ensures Taking(Run(ops), op, gone).requests == 0 <==> (gone.requests == 0 && DaysTaken(Run(ops), op) == {})
  {
    var db := Run(ops);
    forall d | d in db.daily
      ensures db.daily[d].requests > 0
    {
      DaysAreCounted(ops, d);
    }
    SumDaysCounts(db.daily, DaysTaken(db, op));
    hide SumDays, DaysTaken, AddGates, Run;
  }

  lemma {:induction false} PrunedIsZeroIff(ops: seq<Op>)
    ensures Pruned(ops).requests == 0 <==> KeepsDays(ops)
    ensures KeepsDays(ops) ==> Pruned(ops) == ZERO
  {
    hide Taking, DaysTaken, Run, Complete;
    if ops != [] {
      var n := |ops| - 1;
      PrunedIsZeroIff(ops[..n]);
      TakingCounts(ops[..n], ops[n], Pruned(ops[..n]));
      if KeepsDays(ops) {
        ZeroIsComplete();
        NothingTaken(Run(ops[..n]), ops[n], ZERO);
      }
    }
  }

  /** The daily rows sum to the lifetime counters exactly as long as no daily row has been pruned. */
  lemma DaysSumToCounters(ops: seq<Op>)
    ensures Sum(Run(ops)) == Counters(Run(ops)) <==> KeepsDays(ops)
  {
    DaysAndPrunedSumToCounters(ops);
    PrunedIsZeroIff(ops);
    RunKeepsValid(ops);
    SumDaysIsComplete(Run(ops).daily, Run(ops).daily.Keys);
    SumIsAllIff(Sum(Run(ops)), Pruned(ops));
    hide *;
  }

  lemma SumIsAllIff(sum: Aggregate, gone: Aggregate)
    requires Complete(sum)
    ensures Add(sum, gone) == sum ==> gone.requests == 0
    ensures gone == ZERO ==> Add(sum, gone) == sum
  {
    AddZero(sum);
    hide AddGates;
  }
}
