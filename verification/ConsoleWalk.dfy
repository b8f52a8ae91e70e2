/** Paging through the console: a page's next cursor goes to the client as text and comes back in its next request. */
module ConsoleWalk {
  import opened Domain
  import opened TelemetryStore
  import opened Paging
  import opened CursorText

  /** The page a request asks for: the newest without a cursor, none at all for a text that does not parse. */
  function AskedFor(text: string): Option<Cursor> { if text == "" then Some(NO_CURSOR) else Parse(text) }

  /** Rows as the database holds them. */
  ghost predicate Stored(rows: set<Row>) {
    Keyed(rows) && RealIds(rows) && forall r | r in rows :: IsInt64(r.ts) && IsInt64(r.id)
  }

  /** A client's walk through the console: the text of each page's next cursor is the next request's. */
  ghost predicate IsTextWalk(visits: seq<Visit>, matches: Row -> bool, text: string, limit: int)
    decreases |visits|
  {
    visits != [] ==>
      && AskedFor(text).Some? && Stored(visits[0].rows)
      && IsPage(visits[0].rows, matches, AskedFor(text).value, limit, visits[0].page, visits[0].next)
      && (visits[0].next.IsZero() ==> |visits| == 1)
      && IsTextWalk(visits[1..], matches, Encode(visits[0].next), limit)
  }

  /** Nothing is left to ask for: no next cursor, or one that the console refuses. */
  predicate Over(visits: seq<Visit>) {
    visits != [] && (Ended(visits) || AskedFor(Encode(visits[|visits| - 1].next)).None?)
  }

  /** A cursor that a request's text can carry. */
  predicate Carried(c: Cursor) { c == NO_CURSOR || (c.id >= 1 && c.ts >= 1 && IsInt64(c.ts) && IsInt64(c.id)) }

  lemma CarriedRoundTrip(c: Cursor)
    requires Carried(c)
    ensures AskedFor(Encode(c)) == Some(c)
  {
    if c != NO_CURSOR {
      CursorRoundTrip(c);
    }
    hide Parse, Encode, NO_CURSOR, IsInt64;
  }

  /** A next cursor's text brings the cursor back when its time is positive and is refused otherwise. */
  lemma NextThroughText(v: Visit, matches: Row -> bool, c: Cursor, limit: int)
    requires Stored(v.rows) && IsPage(v.rows, matches, c, limit, v.page, v.next)
    ensures v.next.IsZero() ==> v.next == NO_CURSOR && Encode(v.next) == ""
    ensures !v.next.IsZero() ==>
      AskedFor(Encode(v.next)) == (if v.next.ts >= 1 then Some(v.next) else None)
        && (Carried(v.next) <==> v.next.ts >= 1)
  {
    NextIsLast(v, matches, c, limit);
    if !v.next.IsZero() {
      assert v.page[|v.page| - 1] in v.page;
      CursorRoundTrip(v.next);
      hide Parse, Encode;
    }
  }

  /** The walks through the console are exactly the walks by cursor in which every page but the last names a row with a
      positive time as its end. */
  lemma {:induction false} TextWalkIsWalk(visits: seq<Visit>, matches: Row -> bool, c: Cursor, limit: int)
    requires Carried(c)
    ensures IsTextWalk(visits, matches, Encode(c), limit)
      <==> && IsWalk(visits, matches, c, limit) && (forall v | v in visits :: Stored(v.rows))
           && forall k | 0 <= k < |visits| - 1 :: visits[k].next.ts >= 1
    decreases |visits|
  {
    if visits != [] {
      var v, rest := visits[0], visits[1..];
      TextWalkStep(visits, matches, c, limit);
      WalkStep(visits, matches, c, limit);
      if rest != [] && Stored(v.rows) && IsPage(v.rows, matches, c, limit, v.page, v.next) && !v.next.IsZero()
        && v.next.ts >= 1 {
        NextThroughText(v, matches, c, limit);
        TextWalkIsWalk(rest, matches, v.next, limit);
      }
      hide IsTextWalk, IsWalk, Stored, IsPage, Encode, AskedFor, Carried;
      assert visits == [v] + rest;
      assert forall k | 1 <= k < |visits| - 1 :: rest[k - 1] == visits[k];
      assert forall u :: u in visits <==> u == v || u in rest;
    }
  }

  lemma WalkStep(visits: seq<Visit>, matches: Row -> bool, c: Cursor, limit: int)
    requires visits != []
    ensures var v := visits[0];
      IsWalk(visits, matches, c, limit)
      <==> && RealIds(v.rows) && IsPage(v.rows, matches, c, limit, v.page, v.next)
           && (|visits| == 1 || (!v.next.IsZero() && IsWalk(visits[1..], matches, v.next, limit)))
  {
    hide IsPage, RealIds;
  }

  lemma TextWalkStep(visits: seq<Visit>, matches: Row -> bool, c: Cursor, limit: int)
    requires Carried(c) && visits != []
    ensures var v := visits[0];
      IsTextWalk(visits, matches, Encode(c), limit)
      <==> && Stored(v.rows) && IsPage(v.rows, matches, c, limit, v.page, v.next)
           && (|visits| == 1
               || (!v.next.IsZero() && v.next.ts >= 1 && IsTextWalk(visits[1..], matches, Encode(v.next), limit)))
  {
    var v := visits[0];
    CarriedRoundTrip(c);
    if Stored(v.rows) && IsPage(v.rows, matches, c, limit, v.page, v.next) {
      NextThroughText(v, matches, c, limit);
    }
    hide IsPage, Stored, Encode, AskedFor, Carried;
  }

  /** A walk through the console that has come to its end came to the last page exactly when every next cursor it was
      given had a positive time. */
  lemma OverIsEndedIff(visits: seq<Visit>, matches: Row -> bool, limit: int)
    requires IsTextWalk(visits, matches, "", limit) && Over(visits)
    ensures Ended(visits) <==> forall v | v in visits && !v.next.IsZero() :: v.next.ts >= 1
  {
    hide Encode, AskedFor, IsPage, Stored, IsTextWalk, IsWalk;
    var last := visits[|visits| - 1];
    FromTheNewest(visits, matches, limit);
    var c := LastOfWalk(visits, matches, NO_CURSOR, limit);
    assert last in visits;
    NextThroughText(last, matches, c, limit);
  }

  lemma FromTheNewest(visits: seq<Visit>, matches: Row -> bool, limit: int)
    requires IsTextWalk(visits, matches, "", limit)
    ensures IsWalk(visits, matches, NO_CURSOR, limit)
    ensures forall k | 0 <= k < |visits| :: Stored(visits[k].rows) && (k < |visits| - 1 ==> visits[k].next.ts >= 1)
  {
    TextWalkIsWalk(visits, matches, NO_CURSOR, limit);
    assert Encode(NO_CURSOR) == "";
    hide IsTextWalk, IsWalk, Stored;
  }

  lemma {:induction false} LastOfWalk(visits: seq<Visit>, matches: Row -> bool, c: Cursor, limit: int)
      returns (asked: Cursor)
    requires IsWalk(visits, matches, c, limit) && visits != []
    ensures var v := visits[|visits| - 1]; IsPage(v.rows, matches, asked, limit, v.page, v.next)
    decreases |visits|
  {
    asked := c;
    if |visits| > 1 {
      asked := LastOfWalk(visits[1..], matches, visits[0].next, limit);
    }
    hide IsPage;
  }

  /** Such a walk from the newest event puts out each matching event that was there throughout exactly once. */
  lemma ConsoleWalkVisitsOnce(visits: seq<Visit>, matches: Row -> bool, limit: int, r: Row)
    requires IsTextWalk(visits, matches, "", limit) && Over(visits)
    requires forall v | v in visits && !v.next.IsZero() :: v.next.ts >= 1
    requires matches(r) && forall v | v in visits :: r in v.rows
    ensures Descending(Output(visits)) && multiset(Output(visits))[r] == 1
  {
    OverIsEndedIff(visits, matches, limit);
    FromTheNewest(visits, matches, limit);
    WalkVisitsOnce(visits, matches, limit, r);
    hide IsPage, Stored;
  }

  // ---------------------------------------------------------------- a table that does not change

  ghost function WantedOf(rows: set<Row>, matches: Row -> bool, c: Cursor): set<Row> {
    set r | r in rows && Wanted(r, matches, c)
  }

  /** Of these rows, those with a positive time. */
  ghost function Timed(rows: set<Row>): set<Row> { set r | r in rows && r.ts >= 1 }

  /** The rows without a positive time fit on the last page. */
  ghost predicate UntimedFitLastPage(wanted: set<Row>, limit: int)
    requires limit > 0
  {
    wanted != {} ==> |Timed(wanted)| >= limit * ((|wanted| - 1) / limit)
  }

  lemma {:induction false} DescendingCount(s: seq<Row>)
    requires Descending(s)
    ensures |set r | r in s| == |s|
  {
    if s != [] {
      var n := |s| - 1;
      DescendingCount(s[..n]);
      assert s[n] !in s[..n] by {
        forall i | 0 <= i < n
          ensures s[i] != s[n]
        {
          assert Before(s[i], s[n]);
        }
      }
      assert (set r | r in s) == (set r | r in s[..n]) + {s[n]};
    }
  }

  /** A page with a next cursor takes `limit` of the wanted rows and leaves the others wanted after it. */
  lemma PageTakes(v: Visit, matches: Row -> bool, c: Cursor, limit: int)
    requires limit > 0 && Stored(v.rows) && IsPage(v.rows, matches, c, limit, v.page, v.next)
    ensures var wanted, taken := WantedOf(v.rows, matches, c), set r | r in v.page;
      && taken <= wanted && |taken| == |v.page|
      && (v.next.IsZero() ==> taken == wanted && |wanted| <= limit)
      && (!v.next.IsZero() ==>
            && |taken| == limit && |wanted| > limit
            && WantedOf(v.rows, matches, v.next) == wanted - taken)
  {
    DescendingCount(v.page);
    NextIsLast(v, matches, c, limit);
    var wanted, taken := WantedOf(v.rows, matches, c), set r | r in v.page;
    if !v.next.IsZero() {
      var last := v.page[|v.page| - 1];
      assert last in v.page;
      forall r | r in v.rows
        ensures r in WantedOf(v.rows, matches, v.next) <==> r in wanted - taken
      {
        if r in taken {
          var i :| 0 <= i < |v.page| && v.page[i] == r;
          assert i < |v.page| - 1 ==> Before(r, last);
        }
      }
      assert Leaves(v.rows, matches, c, v.page);
      var more :| more in v.rows && Wanted(more, matches, c) && more !in v.page;
      assert taken + {more} <= wanted;
      Bounded(taken + {more}, wanted);
    }
  }

  lemma {:induction false} Bounded(a: set<Row>, b: set<Row>)
    requires a <= b
    ensures |a| <= |b|
  {
    if a != {} {
      var r :| r in a;
      Bounded(a - {r}, b - {r});
    }
  }

  /** One full page further on, the question whether the rest fits is the same. */
  lemma FitOnePageOn(wanted: set<Row>, taken: set<Row>, limit: int)
    requires limit > 0 && taken <= wanted && |taken| == limit && |wanted| > limit
    ensures Timed(taken) == taken ==> (UntimedFitLastPage(wanted, limit) <==> UntimedFitLastPage(wanted - taken, limit))
    ensures |Timed(wanted)| < limit ==> !UntimedFitLastPage(wanted, limit)
  {
    var rest := wanted - taken;
    assert wanted == taken + rest;
    assert |wanted| == limit + |rest|;
    OnePageLess(|wanted| - 1, limit);
    assert limit * ((|wanted| - 1) / limit) == limit + limit * ((|rest| - 1) / limit);
    assert Timed(wanted) == Timed(taken) + Timed(rest);
    assert |Timed(wanted)| == |Timed(taken)| + |Timed(rest)|;
    Nonnegative(limit, (|rest| - 1) / limit);
  }

  lemma OnePageLess(n: int, limit: int)
    requires limit > 0
    ensures limit * (n / limit) == limit + limit * ((n - limit) / limit)
  {
    var p, q := n / limit, (n - limit) / limit;
    assert n == p * limit + n % limit && n - limit == q * limit + (n - limit) % limit;
    assert (p - 1 - q) * limit == (n - limit) % limit - n % limit;
    SmallMultiple(p - 1 - q, limit);
  }

  lemma SmallMultiple(x: int, limit: int)
    requires limit > 0 && -limit < x * limit < limit
    ensures x == 0
  {
    if x >= 1 {
      Nonnegative(x - 1, limit);
    } else if x <= -1 {
      Nonnegative(-x - 1, limit);
    }
  }

  lemma Nonnegative(a: int, b: int)
    requires a >= 0 && b >= 0
    ensures a * b >= 0
  {
  }

  lemma AllOnOnePage(wanted: set<Row>, limit: int)
    requires limit > 0 && |wanted| <= limit
    ensures UntimedFitLastPage(wanted, limit)
  {
    if wanted != {} {
      assert (|wanted| - 1) / limit == 0;
    }
  }

  lemma OutputSplits(v: Visit, rest: seq<Visit>)
    ensures Output([v] + rest) == v.page + Output(rest)
    ensures Output([v]) == v.page
  {
    assert [v][1..] == [];
    assert ([v] + rest)[1..] == rest;
  }

  lemma PageIsTimed(v: Visit, matches: Row -> bool, c: Cursor, limit: int)
    requires Stored(v.rows) && IsPage(v.rows, matches, c, limit, v.page, v.next) && !v.next.IsZero() && v.next.ts >= 1
    ensures var taken := set r | r in v.page; Timed(taken) == taken
  {
    NextIsLast(v, matches, c, limit);
    var n := |v.page| - 1;
    forall r | r in v.page
      ensures r.ts >= 1
    {
      var i :| 0 <= i <= n && v.page[i] == r;
      assert i < n ==> Before(r, v.page[n]);
    }
  }

  /** A page that ends on a row without a positive time: what it leaves has none either, and cannot be asked for. */
  lemma PageIsTheLastTimed(v: Visit, matches: Row -> bool, c: Cursor, limit: int)
    requires limit > 0 && Stored(v.rows) && IsPage(v.rows, matches, c, limit, v.page, v.next) && !v.next.IsZero()
      && v.next.ts < 1
    ensures |Timed(WantedOf(v.rows, matches, c))| < limit
  {
    NextIsLast(v, matches, c, limit);
    PageTakes(v, matches, c, limit);
    var wanted, last := WantedOf(v.rows, matches, c), v.page[|v.page| - 1];
    var taken := set r | r in v.page;
    assert last in v.page;
    assert forall r | r in WantedOf(v.rows, matches, v.next) :: r.ts <= last.ts;
    assert wanted == taken + WantedOf(v.rows, matches, v.next);
    assert Timed(wanted) <= taken - {last};
    Bounded(Timed(wanted), taken - {last});
  }

  ghost predicate ShowsAll(visits: seq<Visit>, wanted: set<Row>) { forall r | r in wanted :: r in Output(visits) }

  lemma LastPageShowsAll(v: Visit, matches: Row -> bool, c: Cursor, limit: int)
    requires limit > 0 && Stored(v.rows) && IsPage(v.rows, matches, c, limit, v.page, v.next) && v.next.IsZero()
    ensures ShowsAll([v], WantedOf(v.rows, matches, c)) && UntimedFitLastPage(WantedOf(v.rows, matches, c), limit)
  {
    PageTakes(v, matches, c, limit);
    AllOnOnePage(WantedOf(v.rows, matches, c), limit);
    var taken := set r | r in v.page;
    OutputSplits(v, []);
    hide IsPage, Stored, WantedOf, UntimedFitLastPage;
  }

  lemma RefusedPageMisses(v: Visit, matches: Row -> bool, c: Cursor, limit: int)
    requires limit > 0 && Stored(v.rows) && IsPage(v.rows, matches, c, limit, v.page, v.next) && !v.next.IsZero()
      && v.next.ts < 1
    ensures !ShowsAll([v], WantedOf(v.rows, matches, c)) && !UntimedFitLastPage(WantedOf(v.rows, matches, c), limit)
  {
    hide IsPage, Stored, WantedOf, UntimedFitLastPage, Output;
    PageTakes(v, matches, c, limit);
    PageIsTheLastTimed(v, matches, c, limit);
    var wanted, taken := WantedOf(v.rows, matches, c), set r | r in v.page;
    FitOnePageOn(wanted, taken, limit);
    OutputSplits(v, []);
    assert wanted == taken + (wanted - taken);
    assert |wanted - taken| > 0;
    var r :| r in wanted - taken;
    assert r !in v.page;
  }

  lemma FullPageLeavesTheQuestion(v: Visit, rest: seq<Visit>, matches: Row -> bool, c: Cursor, limit: int)
    requires limit > 0 && Stored(v.rows) && IsPage(v.rows, matches, c, limit, v.page, v.next) && !v.next.IsZero()
      && v.next.ts >= 1
    ensures ShowsAll([v] + rest, WantedOf(v.rows, matches, c)) <==> ShowsAll(rest, WantedOf(v.rows, matches, v.next))
    ensures UntimedFitLastPage(WantedOf(v.rows, matches, c), limit)
      <==> UntimedFitLastPage(WantedOf(v.rows, matches, v.next), limit)
  {
    hide IsPage, Stored, WantedOf, UntimedFitLastPage, Output;
    PageTakes(v, matches, c, limit);
    PageIsTimed(v, matches, c, limit);
    var wanted, taken := WantedOf(v.rows, matches, c), set r | r in v.page;
    FitOnePageOn(wanted, taken, limit);
    OutputSplits(v, rest);
    assert forall r :: r in v.page + Output(rest) <==> r in taken || r in Output(rest);
    assert forall r :: r in wanted <==> r in taken || r in wanted - taken;
  }

  lemma {:induction false} ConsoleShowsAllFrom(visits: seq<Visit>, rows: set<Row>, matches: Row -> bool, c: Cursor,
                                               limit: int)
    requires limit > 0 && Carried(c) && IsTextWalk(visits, matches, Encode(c), limit) && Over(visits)
    requires forall v | v in visits :: v.rows == rows
    ensures ShowsAll(visits, WantedOf(rows, matches, c)) <==> UntimedFitLastPage(WantedOf(rows, matches, c), limit)
    decreases |visits|
  {
    hide IsTextWalk, IsPage, Stored, UntimedFitLastPage, ShowsAll, WantedOf, Encode, AskedFor, Carried;
    var v, rest := visits[0], visits[1..];
    assert v in visits && visits == [v] + rest;
    TextWalkStep(visits, matches, c, limit);
    NextThroughText(v, matches, c, limit);
    if v.next.IsZero() {
      assert visits == [v];
      LastPageShowsAll(v, matches, c, limit);
    } else if v.next.ts < 1 {
      assert visits == [v];
      RefusedPageMisses(v, matches, c, limit);
    } else {
      FullPageLeavesTheQuestion(v, rest, matches, c, limit);
      assert rest != [] && rest[|rest| - 1] == visits[|visits| - 1];
      ConsoleShowsAllFrom(rest, rows, matches, v.next, limit);
    }
  }

  /** Followed until they are refused or run out, on a table that does not change, the console's cursors lead to every
      matching event exactly when the matching events without a positive time all fit on the last page. */
  lemma ConsoleShowsAllIff(visits: seq<Visit>, rows: set<Row>, matches: Row -> bool, limit: int)
    requires limit > 0 && IsTextWalk(visits, matches, "", limit) && Over(visits)
    requires forall v | v in visits :: v.rows == rows
    ensures (forall r | r in rows && matches(r) :: r in Output(visits))
      <==> UntimedFitLastPage((set r | r in rows && matches(r)), limit)
  {
    assert Encode(NO_CURSOR) == "";
    ConsoleShowsAllFrom(visits, rows, matches, NO_CURSOR, limit);
    assert WantedOf(rows, matches, NO_CURSOR) == set r | r in rows && matches(r);
    hide IsTextWalk, UntimedFitLastPage;
  }
}
