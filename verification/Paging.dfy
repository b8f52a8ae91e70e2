/** Keyset paging over the events table, and the walk a client makes by following its cursors. */
module Paging {
  import opened Domain
  import opened Telemetry
  import opened TelemetryStore

  /** A page boundary; id 0 is the start-from-newest and no-more-pages sentinel. */
  datatype Cursor = Cursor(ts: int, id: int) {
    predicate IsZero() { id == 0 }
  }
  const NO_CURSOR := Cursor(0, 0)

  /** The order of every listing: later first, and of equal times the higher id first. */
  predicate Before(a: Row, b: Row) { a.ts > b.ts || (a.ts == b.ts && a.id > b.id) }

  predicate Older(r: Row, c: Cursor) { c.IsZero() || r.ts < c.ts || (r.ts == c.ts && r.id < c.id) }

  function CursorOf(r: Row): Cursor { Cursor(r.ts, r.id) }

  ghost predicate Descending(rows: seq<Row>) {
    forall i, j | 0 <= i < j < |rows| :: Before(rows[i], rows[j])
  }

  /** No two rows share time and id, as with unique ids. */
  ghost predicate Keyed(rows: set<Row>) {
    forall r, q | r in rows && q in rows && r.id == q.id :: r == q
  }

  ghost predicate IsNewest(r: Row, rows: set<Row>) {
    r in rows && forall q | q in rows && q != r :: Before(r, q)
  }

  lemma {:induction false} NewestExists(rows: set<Row>)
    requires rows != {} && Keyed(rows)
    ensures exists r :: IsNewest(r, rows)
  {
    var r :| r in rows;
    if rows == {r} {
      assert IsNewest(r, rows);
    } else {
      NewestExists(rows - {r});
      var m :| IsNewest(m, rows - {r});
      assert r.id != m.id;
      var top := if Before(r, m) then r else m;
      forall q | q in rows && q != top
        ensures Before(top, q)
      {
        assert q == r || q == m || Before(m, q);
      }
      assert IsNewest(top, rows);
    }
  }

  predicate Wanted(r: Row, matches: Row -> bool, c: Cursor) { matches(r) && Older(r, c) }

  /** `s` lists rows of `rows` in order, missing none before its end; short of `n` it misses none at all. */
  ghost predicate Lists(s: seq<Row>, rows: set<Row>, n: int) {
    && Descending(s) && (forall r | r in s :: r in rows)
    && (n >= 0 ==> |s| <= n)
    && (forall r | r in rows && r !in s :: |s| == n && forall q | q in s :: Before(q, r))
  }

  /** What a page is: the rows scanned for it, newest first, and the cursor after it. A page with a next cursor is full
      and leaves rows behind, all of them after its last; without a limit everything wanted is on it. */
  ghost predicate IsPage(rows: set<Row>, matches: Row -> bool, c: Cursor, limit: int, page: seq<Row>, next: Cursor) {
    && Descending(page)
    && (forall r | r in page :: r in rows && Wanted(r, matches, c))
    && (forall r | r in rows && Wanted(r, matches, c) && r !in page ::
          limit > 0 && forall q | q in page :: Before(q, r))
    && (if page == [] then next == NO_CURSOR
        else if limit <= 0 then next == CursorOf(page[|page| - 1])
        else
          && |page| <= limit
          && next == if Leaves(rows, matches, c, page) then CursorOf(page[|page| - 1]) else NO_CURSOR)
    && (limit > 0 && Leaves(rows, matches, c, page) ==> |page| == limit)
  }

  ghost predicate Leaves(rows: set<Row>, matches: Row -> bool, c: Cursor, page: seq<Row>) {
    exists r :: r in rows && Wanted(r, matches, c) && r !in page
  }

  function Decoded(rows: seq<Row>): seq<Event> {
    if rows == [] then []
    else Decoded(rows[..|rows| - 1]) + (if rows[|rows| - 1].readable then [rows[|rows| - 1].event] else [])
  }

  /** The database's ORDER BY ts DESC, id DESC LIMIT n; no limit for a negative n. */
  method Query(rows: set<Row>, n: int) returns (s: seq<Row>)
    requires Keyed(rows)
    ensures Lists(s, rows, n)
  {
    s := [];
    var left := rows;
    while left != {} && |s| != n
      invariant left <= rows && Descending(s) && (n >= 0 ==> |s| <= n)
      invariant forall r :: r in rows <==> r in s || r in left
      invariant forall q, r | q in s && r in left :: Before(q, r)
      decreases left
    {
      NewestExists(left);
      assert exists r :: r in left && IsNewest(r, left);
      var r :| r in left && forall q | q in left && q != r :: Before(r, q);
      s, left := s + [r], left - {r};
    }
  }

  method Page(rows: set<Row>, matches: Row -> bool, c: Cursor, limit: int)
    returns (out: seq<Event>, next: Cursor)
    requires Keyed(rows)
    ensures exists page :: IsPage(rows, matches, c, limit, page, next) && out == Decoded(page)
  {
    hide IsPage, Lists;
    var wanted := set r | r in rows && Wanted(r, matches, c);
    var found := Query(wanted, if limit > 0 then limit + 1 else -1);
    out, next := [], NO_CURSOR;
    var scanned := 0;
    while scanned < |found|
      invariant 0 <= scanned <= |found|
      invariant limit > 0 ==> scanned <= limit
      invariant out == Decoded(found[..scanned])
      invariant next == if scanned == 0 then NO_CURSOR else CursorOf(found[scanned - 1])
    {
      var r := found[scanned];
      if limit > 0 && scanned + 1 > limit {
        ListsAtMost(found, wanted, limit + 1);
        FullPage(rows, matches, c, limit, found);
        return;
      }
      next := CursorOf(r);
      assert found[..scanned + 1][..scanned] == found[..scanned];
      if r.readable {
        out := out + [r.event];
      }
      scanned := scanned + 1;
    }
    assert found[..|found|] == found;
    if limit > 0 && scanned <= limit {
      next := NO_CURSOR;
    }
    LastPage(rows, matches, c, limit, found);
  }

  lemma LastPage(rows: set<Row>, matches: Row -> bool, c: Cursor, limit: int, found: seq<Row>)
    requires limit > 0 ==> |found| <= limit
    requires Lists(found, (set r | r in rows && Wanted(r, matches, c)), if limit > 0 then limit + 1 else -1)
    ensures IsPage(rows, matches, c, limit, found,
                   if limit > 0 || found == [] then NO_CURSOR else CursorOf(found[|found| - 1]))
  {
  }

  lemma ListsAtMost(s: seq<Row>, rows: set<Row>, n: int)
    requires Lists(s, rows, n) && n >= 0
    ensures |s| <= n
  {
  }

  lemma FullPage(rows: set<Row>, matches: Row -> bool, c: Cursor, limit: int, found: seq<Row>)
    requires limit > 0 && |found| == limit + 1
    requires Lists(found, (set r | r in rows && Wanted(r, matches, c)), limit + 1)
    ensures IsPage(rows, matches, c, limit, found[..limit], CursorOf(found[limit - 1]))
  {
    var page := found[..limit];
    var next := found[limit];
    assert next in found;
    forall i | 0 <= i < limit
      ensures Before(page[i], next) && page[i] in found
    {
    }
    assert forall q | q in page :: Before(q, next) && q != next;
    forall r | r in rows && Wanted(r, matches, c) && r !in page
      ensures forall q | q in page :: Before(q, r)
    {
      if r in found {
        assert r == next;
      }
    }
  }

  // ---------------------------------------------------------------- following the cursors

  /** A client's walk: page k is asked of the table as it is then, with the cursor page k - 1 gave. */
  datatype Visit = Visit(rows: set<Row>, page: seq<Row>, next: Cursor)

  ghost predicate IsWalk(visits: seq<Visit>, matches: Row -> bool, c: Cursor, limit: int)
    decreases |visits|
  {
    visits != [] ==>
      && RealIds(visits[0].rows)
      && IsPage(visits[0].rows, matches, c, limit, visits[0].page, visits[0].next)
      && (visits[0].next.IsZero() ==> |visits| == 1)
      && IsWalk(visits[1..], matches, visits[0].next, limit)
  }

  /** The walk came to a page without a next cursor. */
  predicate Ended(visits: seq<Visit>) { visits != [] && visits[|visits| - 1].next.IsZero() }

  function Output(visits: seq<Visit>): seq<Row>
    decreases |visits|
  {
    if visits == [] then [] else visits[0].page + Output(visits[1..])
  }

  ghost predicate RealIds(rows: set<Row>) { forall r | r in rows :: r.id >= 1 }

  lemma NextIsLast(v: Visit, matches: Row -> bool, c: Cursor, limit: int)
    requires RealIds(v.rows) && IsPage(v.rows, matches, c, limit, v.page, v.next)
    ensures !v.next.IsZero() ==> v.page != [] && v.next == CursorOf(v.page[|v.page| - 1])
    ensures forall r | r in v.rows && Wanted(r, matches, c) && r !in v.page :: !v.next.IsZero() && Older(r, v.next)
  {
    if v.page != [] {
      assert v.page[|v.page| - 1] in v.page;
    }
  }

  lemma DescendingJoin(a: seq<Row>, b: seq<Row>)
    requires Descending(a) && Descending(b)
    requires a != [] && forall r | r in b :: Before(a[|a| - 1], r)
    ensures Descending(a + b)
  {
    var s := a + b;
    forall i, j | 0 <= i < j < |s|
      ensures Before(s[i], s[j])
    {
      if i < |a| <= j {
        assert b[j - |a|] in b && s[i] == a[i];
        assert i < |a| - 1 ==> Before(a[i], a[|a| - 1]);
      }
    }
  }

  /** Whatever is inserted or pruned between the pages: rows come in listing order, hence none twice, each of them
      wanted. */
  lemma {:induction false} WalkIsOrdered(visits: seq<Visit>, matches: Row -> bool, c: Cursor, limit: int)
    requires IsWalk(visits, matches, c, limit)
    ensures Descending(Output(visits)) && forall r | r in Output(visits) :: Wanted(r, matches, c)
    decreases |visits|
  {
    if visits != [] {
      var page, rest := visits[0].page, Output(visits[1..]);
      NextIsLast(visits[0], matches, c, limit);
      WalkIsOrdered(visits[1..], matches, visits[0].next, limit);
      if visits[0].next.IsZero() {
        assert rest == [] && page + rest == page;
      } else {
        var last := page[|page| - 1];
        assert last in page;
        DescendingJoin(page, rest);
        forall r | r in rest
          ensures Wanted(r, matches, c)
        {
          assert Older(r, visits[0].next) && Older(last, c);
        }
      }
    }
  }

  /** Each row put out was in the table when its page was read. */
  lemma {:induction false} WalkShowsPresentRows(visits: seq<Visit>, matches: Row -> bool, c: Cursor, limit: int, r: Row)
    requires IsWalk(visits, matches, c, limit) && r in Output(visits)
    ensures exists v :: v in visits && r in v.rows && r in v.page
    decreases |visits|
  {
    if r in visits[0].page {
      assert visits[0] in visits;
    } else {
      WalkShowsPresentRows(visits[1..], matches, visits[0].next, limit, r);
    }
  }

  /** A wanted row that is in the table at every page is put out, once the walk has ended. */
  lemma {:induction false} WalkMissesNothing(visits: seq<Visit>, matches: Row -> bool, c: Cursor, limit: int, r: Row)
    requires IsWalk(visits, matches, c, limit) && Ended(visits)
    requires (forall v | v in visits :: r in v.rows) && Wanted(r, matches, c)
    ensures r in Output(visits)
    decreases |visits|
  {
    NextIsLast(visits[0], matches, c, limit);
    assert visits[0] in visits;
    if r !in visits[0].page {
      assert !visits[0].next.IsZero() && |visits| > 1;
      WalkMissesNothing(visits[1..], matches, visits[0].next, limit, r);
    }
  }

  /** Started at the newest event, a walk that ended has put out each matching event that was there throughout exactly
      once, everything in descending (ts, id) order. */
  lemma WalkVisitsOnce(visits: seq<Visit>, matches: Row -> bool, limit: int, r: Row)
    requires IsWalk(visits, matches, NO_CURSOR, limit) && Ended(visits)
    requires matches(r) && forall v | v in visits :: r in v.rows
    ensures Descending(Output(visits)) && multiset(Output(visits))[r] == 1
  {
    WalkIsOrdered(visits, matches, NO_CURSOR, limit);
    WalkMissesNothing(visits, matches, NO_CURSOR, limit, r);
    DescendingHasNoRepeats(Output(visits), r);
  }

  lemma DescendingHasNoRepeats(rows: seq<Row>, r: Row)
    requires Descending(rows) && r in rows
    ensures multiset(rows)[r] == 1
  {
    var k :| 0 <= k < |rows| && rows[k] == r;
    forall i | 0 <= i < |rows| && i != k
      ensures rows[i] != r
    {
      assert i < k ==> Before(rows[i], rows[k]);
      assert i > k ==> Before(rows[k], rows[i]);
    }
    OccursOnce(rows, r, k);
  }

  lemma OccursOnce(rows: seq<Row>, r: Row, k: nat)
    requires k < |rows| && rows[k] == r && forall i | 0 <= i < |rows| && i != k :: rows[i] != r
    ensures multiset(rows)[r] == 1
  {
    var left, right := rows[..k], rows[k + 1..];
    assert rows == left + [r] + right;
    assert r !in left && r !in right;
    assert multiset(left)[r] == 0 && multiset(right)[r] == 0;
  }

  /** With a positive page size a walk ends, in no more pages than the rows ever present fill. */
  lemma WalkEnds(visits: seq<Visit>, matches: Row -> bool, limit: int, everPresent: set<Row>)
    requires limit > 0 && IsWalk(visits, matches, NO_CURSOR, limit)
    requires forall v | v in visits :: v.rows <= everPresent
    requires |visits| * limit > |everPresent|
    ensures Ended(visits)
  {
    if !Ended(visits) {
      UnendedWalkIsLong(visits, matches, NO_CURSOR, limit);
      WalkIsOrdered(visits, matches, NO_CURSOR, limit);
      forall r | r in Output(visits)
        ensures r in everPresent
      {
        WalkShowsPresentRows(visits, matches, NO_CURSOR, limit, r);
      }
      DistinctRowsFit(Output(visits), everPresent);
    }
  }

  lemma {:induction false} UnendedWalkIsLong(visits: seq<Visit>, matches: Row -> bool, c: Cursor, limit: int)
    requires limit > 0 && IsWalk(visits, matches, c, limit) && !Ended(visits)
    ensures |Output(visits)| == |visits| * limit
    decreases |visits|
  {
    if visits != [] {
      if |visits| == 1 {
        assert !visits[0].next.IsZero();
      }
      UnendedWalkIsLong(visits[1..], matches, visits[0].next, limit);
      assert (|visits| - 1) * limit + limit == |visits| * limit;
    }
  }

  lemma {:induction false} DistinctRowsFit(rows: seq<Row>, s: set<Row>)
    requires Descending(rows) && forall r | r in rows :: r in s
    ensures |rows| <= |s|
  {
    if rows != [] {
      var n := |rows| - 1;
      var last := rows[n];
      forall i | 0 <= i < n
        ensures rows[i] in s - {last}
      {
        assert Before(rows[i], rows[n]);
      }
      DistinctRowsFit(rows[..n], s - {last});
    }
  }

  /** The tables of any run of the store are fit to be paged: ids are unique and start at 1. */
  lemma RunTablesArePageable(ops: seq<Op>)
    ensures Keyed(Run(ops).rows) && RealIds(Run(ops).rows)
  {
    RunKeepsValid(ops);
  }

  // ---------------------------------------------------------------- quarantine

  predicate IsHold(r: Row) { r.event.verdict == Block && r.event.gate == Supply }

  /** The newest readable record of its package, and that record's hold has not run out. */
  predicate HeldAt(rows: seq<Row>, i: nat, now: int)
    requires i < |rows|
  {
    rows[i].readable && rows[i].blockUntil > now
    && forall j | 0 <= j < i && rows[j].readable :: rows[j].key != rows[i].key
  }

  function Held(rows: seq<Row>, now: int, n: nat): seq<Event>
    requires n <= |rows|
  {
    if n == 0 then [] else Held(rows, now, n - 1) + (if HeldAt(rows, n - 1, now) then [rows[n - 1].event] else [])
  }

  /** The hold that decides about its package: no readable one of the package comes before it. */
  ghost predicate Decides(r: Row, rows: set<Row>) {
    r in rows && IsHold(r) && r.readable
    && forall q | q in rows && IsHold(q) && q.readable && q.key == r.key && q != r :: Before(r, q)
  }

  function Events(rows: seq<Row>): seq<Event> { seq(|rows|, i requires 0 <= i < |rows| => rows[i].event) }

  function HeldRows(rows: seq<Row>, now: int, n: nat): seq<Row>
    requires n <= |rows|
  {
    if n == 0 then [] else HeldRows(rows, now, n - 1) + (if HeldAt(rows, n - 1, now) then [rows[n - 1]] else [])
  }

  lemma {:induction false} HeldRowsAre(rows: seq<Row>, now: int, n: nat)
    requires n <= |rows|
    ensures forall r :: r in HeldRows(rows, now, n) <==> exists i :: 0 <= i < n && HeldAt(rows, i, now) && rows[i] == r
  {
    if n > 0 {
      HeldRowsAre(rows, now, n - 1);
      hide HeldAt;
    }
  }

  lemma {:induction false} HeldRowsDescend(rows: seq<Row>, now: int, n: nat)
    requires n <= |rows| && Descending(rows)
    ensures Held(rows, now, n) == Events(HeldRows(rows, now, n)) && Descending(HeldRows(rows, now, n))
  {
    if n > 0 {
      HeldRowsDescend(rows, now, n - 1);
      HeldRowsAre(rows, now, n - 1);
      AppendDescends(rows, HeldRows(rows, now, n - 1), n - 1);
      hide HeldAt, Descending;
    }
  }

  lemma AppendDescends(rows: seq<Row>, some: seq<Row>, n: nat)
    requires Descending(rows) && n < |rows| && Descending(some)
    requires forall r | r in some :: exists i :: 0 <= i < n && rows[i] == r
    ensures Descending(some + [rows[n]])
  {
    forall i | 0 <= i < |some|
      ensures Before(some[i], rows[n])
    {
      assert some[i] in some;
    }
    hide Before;
  }

  lemma HeldAtIsDecides(table: set<Row>, rows: seq<Row>, now: int, i: nat)
    requires Lists(rows, (set r | r in table && IsHold(r)), -1) && i < |rows|
    ensures HeldAt(rows, i, now) <==> Decides(rows[i], table) && rows[i].blockUntil > now
  {
    assert rows[i] in rows;
    if Decides(rows[i], table) {
      forall j | 0 <= j < i && rows[j].readable
        ensures rows[j].key != rows[i].key
      {
        assert rows[j] in rows && Before(rows[j], rows[i]);
      }
    }
    if HeldAt(rows, i, now) {
      forall q | q in table && IsHold(q) && q.readable && q.key == rows[i].key && q != rows[i]
        ensures Before(rows[i], q)
      {
        assert q in (set r | r in table && IsHold(r));
        assert q in rows;
        var j :| 0 <= j < |rows| && rows[j] == q;
      }
    }
  }

  /** The quarantine is made of the packages whose deciding hold has not run out: one event each, newest first. */
  lemma QuarantineIsTheRunningHolds(table: set<Row>, rows: seq<Row>, now: int)
    requires Lists(rows, (set r | r in table && IsHold(r)), -1)
    ensures var held := HeldRows(rows, now, |rows|);
      && Held(rows, now, |rows|) == Events(held) && Descending(held)
      && forall r :: r in held <==> Decides(r, table) && r.blockUntil > now
  {
    var held := HeldRows(rows, now, |rows|);
    HeldRowsAre(rows, now, |rows|);
    HeldRowsDescend(rows, now, |rows|);
    forall r
      ensures r in held <==> Decides(r, table) && r.blockUntil > now
    {
      if r in rows {
        var i :| 0 <= i < |rows| && rows[i] == r;
        HeldAtIsDecides(table, rows, now, i);
      }
      forall i | 0 <= i < |rows| && HeldAt(rows, i, now) && rows[i] == r
        ensures Decides(r, table) && r.blockUntil > now
      {
        HeldAtIsDecides(table, rows, now, i);
      }
    }
  }

  /** The holds still running: of each package only its newest record counts, expired or not. */
  method Quarantine(rows: set<Row>, now: int) returns (out: seq<Event>)
    requires Keyed(rows)
    ensures exists holds :: Lists(holds, (set r | r in rows && IsHold(r)), -1) && out == Held(holds, now, |holds|)
    ensures exists held :: Descending(held) && out == Events(held)
              && forall r :: r in held <==> Decides(r, rows) && r.blockUntil > now
  {
    var found := Query((set r | r in rows && IsHold(r)), -1);
    var seen: set<string> := {};
    out := [];
    for i := 0 to |found|
      invariant out == Held(found, now, i)
      invariant forall j | 0 <= j < i && found[j].readable :: found[j].key in seen
      invariant forall k | k in seen :: exists j :: 0 <= j < i && found[j].readable && found[j].key == k
    {
      var r := found[i];
      if !r.readable || r.key in seen {
        continue;
      }
      seen := seen + {r.key};
      if r.blockUntil > now {
        out := out + [r.event];
      }
    }
    QuarantineIsTheRunningHolds(rows, found, now);
  }
}
