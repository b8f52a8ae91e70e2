/** Console login throttling: fixed windows per (username, address) pair and per address, reserved before the
    password is checked, dropped lazily and swept when there are many. */
module LoginLimit {
  import opened Domain
  import opened Text
  import opened Usernames

  const PAIR_LIMIT := 5
  const IP_LIMIT := 20
  const WINDOW := 900_000_000_000
  const SWEEP_THRESHOLD := 10000
  const SWEEP_INTERVAL := WINDOW / 15

  datatype Window = Window(start: int, count: int)

  /** The two kinds of key; the program joins their parts with NULs, which a valid username cannot contain. */
  datatype Key = Pair(username: string, ip: string) | Ip(address: string)
  type Entries = map<Key, Window>
  datatype Limiter = Limiter(entries: Entries, nextSweep: int)

  /** An invalid username has no pair key: it counts against the address only. */
  function PairKey(username: string, ip: string): Option<Key> {
    if ValidUsername(username) then Some(Pair(LowerAll(username), ip)) else None
  }

  /** A pair is shared by exactly the spellings of one name, from one address. */
  lemma PairsAreOfOneName(u: string, v: string, ip: string, address: string)
    requires ValidUsername(u)
    ensures PairKey(u, ip) == PairKey(v, address) <==> LowerAll(u) == LowerAll(v) && ip == address
  {
    if LowerAll(u) == LowerAll(v) {
      forall i | 0 <= i < |v|
        ensures ValidChar(v[i])
      {
        assert LowerAll(u)[i] == LowerAll(v)[i] && u[i] in u;
      }
      assert |LowerAll(u)| == |LowerAll(v)|;
    }
  }

  function LimitOf(k: Key): nat { if k.Pair? then PAIR_LIMIT else IP_LIMIT }

  predicate Live(w: Window, now: int) { now < w.start + WINDOW }
  predicate Expired(e: Entries, k: Key, now: int) { k in e && !Live(e[k], now) }

  /** How long the key still blocks. */
  function BlockedFor(e: Entries, k: Key, now: int): int {
    if k in e && Live(e[k], now) && e[k].count >= LimitOf(k) then e[k].start + WINDOW - now else 0
  }

  function DropExpired(e: Entries, k: Key, now: int): Entries { if Expired(e, k, now) then e - {k} else e }

  function Bump(e: Entries, k: Key, now: int): Entries {
    if k in e && Live(e[k], now) then e[k := e[k].(count := e[k].count + 1)] else e[k := Window(now, 1)]
  }

  function Swept(e: Entries, now: int): Entries { map k | k in e && Live(e[k], now) :: e[k] }

  function MaybeSweep(l: Limiter, now: int): Limiter {
    if |l.entries| > SWEEP_THRESHOLD && now >= l.nextSweep then
      Limiter(Swept(l.entries, now), now + SWEEP_INTERVAL)
    else l
  }

  function Keys(username: string, ip: string): set<Key> {
    var pk := PairKey(username, ip);
    if pk.Some? then {pk.value, Ip(ip)} else {Ip(ip)}
  }

  datatype Answer = Answer(retry: int, ok: bool)

  function Allow(l: Limiter, username: string, ip: string, now: int): (Limiter, Answer) {
    var pk := PairKey(username, ip);
    var s := MaybeSweep(l, now);
    var pairRetry := if pk.Some? then BlockedFor(s.entries, pk.value, now) else 0;
    var e1 := if pk.Some? then DropExpired(s.entries, pk.value, now) else s.entries;
    var ipRetry := BlockedFor(e1, Ip(ip), now);
    var e2 := DropExpired(e1, Ip(ip), now);
    var retry := if ipRetry > pairRetry then ipRetry else pairRetry;
    if retry > 0 then (s.(entries := e2), Answer(retry, false))
    else
      var e3 := if pk.Some? then Bump(e2, pk.value, now) else e2;
      (s.(entries := Bump(e3, Ip(ip), now)), Answer(0, true))
  }

  function Forgive(e: Entries, username: string, ip: string): Entries {
    var pk := PairKey(username, ip);
    var e1 := if pk.Some? then e - {pk.value} else e;
    if Ip(ip) in e1 && e1[Ip(ip)].count > 0 then e1[Ip(ip) := e1[Ip(ip)].(count := e1[Ip(ip)].count - 1)] else e1
  }

  class LoginLimiter {
    var entries: Entries
    var nextSweep: int

    ghost function State(): Limiter
      reads this
    {
      Limiter(entries, nextSweep)
    }

    constructor (zeroTime: int)
      ensures State() == Limiter(map[], zeroTime)
    {
      entries, nextSweep := map[], zeroTime;
    }

    method DoAllow(username: string, ip: string, now: int) returns (a: Answer)
      modifies this
      ensures (State(), a) == Allow(old(State()), username, ip, now)
    {
      if |entries| > SWEEP_THRESHOLD && now >= nextSweep {
        Sweep(now);
        nextSweep := now + SWEEP_INTERVAL;
      }
      var pk := PairKey(username, ip);
      var retry := 0;
      if pk.Some? {
        retry := Blocked(pk.value, now);
      }
      var d := Blocked(Ip(ip), now);
      if d > retry {
        retry := d;
      }
      if retry > 0 {
        return Answer(retry, false);
      }
      if pk.Some? {
        entries := Bump(entries, pk.value, now);
      }
      entries := Bump(entries, Ip(ip), now);
      return Answer(0, true);
    }

    method DoSuccess(username: string, ip: string)
      modifies this
      ensures entries == Forgive(old(entries), username, ip) && nextSweep == old(nextSweep)
    {
      var pk := PairKey(username, ip);
      if pk.Some? {
        entries := entries - {pk.value};
      }
      if Ip(ip) in entries && entries[Ip(ip)].count > 0 {
        entries := entries[Ip(ip) := entries[Ip(ip)].(count := entries[Ip(ip)].count - 1)];
      }
    }

    method Blocked(k: Key, now: int) returns (retry: int)
      modifies this`entries
      ensures retry == BlockedFor(old(entries), k, now)
      ensures entries == DropExpired(old(entries), k, now)
    {
      if k !in entries {
        return 0;
      }
      var w := entries[k];
      if now >= w.start + WINDOW {
        entries := entries - {k};
        return 0;
      }
      return if w.count >= LimitOf(k) then w.start + WINDOW - now else 0;
    }

    method Sweep(now: int)
      modifies this`entries
      ensures entries == Swept(old(entries), now)
    {
      var left := entries.Keys;
      while left != {}
        invariant left <= entries.Keys <= old(entries).Keys
        invariant forall k | k in entries :: entries[k] == old(entries)[k]
        invariant forall k | k in old(entries) && k !in left :: k in entries <==> Live(old(entries)[k], now)
        decreases left
      {
        var k :| k in left;
        left := left - {k};
        if now >= entries[k].start + WINDOW {
          entries := entries - {k};
        }
      }
    }
  }

  // ---------------------------------------------------------------- forgetting changes no answer

  datatype Op = Attempt(username: string, ip: string, now: int) | Succeeded(username: string, ip: string)

  /** The same limiter without any deletion of expired windows. */
  function AllowPlain(e: Entries, username: string, ip: string, now: int): (Entries, Answer) {
    var pk := PairKey(username, ip);
    var pairRetry := if pk.Some? then BlockedFor(e, pk.value, now) else 0;
    var ipRetry := BlockedFor(e, Ip(ip), now);
    var retry := if ipRetry > pairRetry then ipRetry else pairRetry;
    if retry > 0 then (e, Answer(retry, false))
    else (Bump(if pk.Some? then Bump(e, pk.value, now) else e, Ip(ip), now), Answer(0, true))
  }

  function Answers(l: Limiter, ops: seq<Op>): seq<Answer>
    decreases |ops|
  {
    if ops == [] then []
    else
      match ops[0]
      case Attempt(username, ip, now) =>
        var (next, a) := Allow(l, username, ip, now);
        [a] + Answers(next, ops[1..])
      case Succeeded(username, ip) => Answers(l.(entries := Forgive(l.entries, username, ip)), ops[1..])
  }

  function AnswersPlain(e: Entries, ops: seq<Op>): seq<Answer>
    decreases |ops|
  {
    if ops == [] then []
    else
      match ops[0]
      case Attempt(username, ip, now) =>
        var (next, a) := AllowPlain(e, username, ip, now);
        [a] + AnswersPlain(next, ops[1..])
      case Succeeded(username, ip) => AnswersPlain(Forgive(e, username, ip), ops[1..])
  }

  predicate NotBefore(ops: seq<Op>, now: int)
    decreases |ops|
  {
    ops != [] ==>
      if ops[0].Attempt? then now <= ops[0].now && NotBefore(ops[1..], ops[0].now) else NotBefore(ops[1..], now)
  }

  function LiveWindow(e: Entries, k: Key, now: int): Option<Window> {
    if k in e && Live(e[k], now) then Some(e[k]) else None
  }

  /** The two hold the same windows, expired ones aside. */
  ghost predicate SameLive(e: Entries, f: Entries, now: int) {
    forall k :: LiveWindow(e, k, now) == LiveWindow(f, k, now)
  }

  lemma SameLiveDrop(e: Entries, k: Key, now: int)
    ensures SameLive(DropExpired(e, k, now), e, now) && SameLive(Swept(e, now), e, now)
  {
  }

  lemma SameLiveBump(e: Entries, f: Entries, k: Key, now: int)
    requires SameLive(e, f, now)
    ensures SameLive(Bump(e, k, now), Bump(f, k, now), now)
  {
    assert LiveWindow(e, k, now) == LiveWindow(f, k, now);
    forall q
      ensures LiveWindow(Bump(e, k, now), q, now) == LiveWindow(Bump(f, k, now), q, now)
    {
      assert LiveWindow(e, q, now) == LiveWindow(f, q, now);
    }
  }

  lemma SameLiveBlocks(e: Entries, f: Entries, k: Key, now: int)
    requires SameLive(e, f, now)
    ensures BlockedFor(e, k, now) == BlockedFor(f, k, now)
  {
    assert LiveWindow(e, k, now) == LiveWindow(f, k, now);
  }

  lemma SameLiveLater(e: Entries, f: Entries, before: int, now: int)
    requires SameLive(e, f, before) && before <= now
    ensures SameLive(e, f, now)
  {
    forall k
      ensures LiveWindow(e, k, now) == LiveWindow(f, k, now)
    {
      assert LiveWindow(e, k, before) == LiveWindow(f, k, before);
    }
  }

  lemma AllowAgrees(l: Limiter, e: Entries, username: string, ip: string, before: int, now: int)
    requires SameLive(l.entries, e, before) && before <= now
    ensures Allow(l, username, ip, now).1 == AllowPlain(e, username, ip, now).1
    ensures SameLive(Allow(l, username, ip, now).0.entries, AllowPlain(e, username, ip, now).0, now)
  {
    hide SameLive, BlockedFor, Bump, Swept, DropExpired;
    SameLiveLater(l.entries, e, before, now);
    var pk := PairKey(username, ip);
    var s := MaybeSweep(l, now);
    SameLiveDrop(l.entries, Ip(ip), now);
    SameLiveTrans(s.entries, l.entries, e, now);
    var e1 := if pk.Some? then DropExpired(s.entries, pk.value, now) else s.entries;
    if pk.Some? {
      SameLiveBlocks(s.entries, e, pk.value, now);
      SameLiveDrop(s.entries, pk.value, now);
    }
    SameLiveTrans(e1, s.entries, e, now);
    SameLiveBlocks(e1, e, Ip(ip), now);
    SameLiveDrop(e1, Ip(ip), now);
    var e2 := DropExpired(e1, Ip(ip), now);
    SameLiveTrans(e2, e1, e, now);
    if pk.Some? {
      SameLiveBump(e2, e, pk.value, now);
      SameLiveBump(Bump(e2, pk.value, now), Bump(e, pk.value, now), Ip(ip), now);
    } else {
      SameLiveBump(e2, e, Ip(ip), now);
    }
  }

  lemma SameLiveTrans(e: Entries, f: Entries, g: Entries, now: int)
    requires (e == f || SameLive(e, f, now)) && SameLive(f, g, now)
    ensures SameLive(e, g, now)
  {
    forall k
      ensures LiveWindow(e, k, now) == LiveWindow(g, k, now)
    {
      assert LiveWindow(f, k, now) == LiveWindow(g, k, now);
      assert e == f || LiveWindow(e, k, now) == LiveWindow(f, k, now);
    }
  }

  /** Sweeping and lazy deletion are invisible: over any run with a clock that does not go back, every answer is
      that of a limiter that keeps every window. */
  lemma {:induction false} ForgettingIsInvisible(l: Limiter, e: Entries, ops: seq<Op>, now: int)
    requires SameLive(l.entries, e, now) && NotBefore(ops, now)
    ensures Answers(l, ops) == AnswersPlain(e, ops)
    decreases |ops|
  {
    if ops != [] {
      match ops[0]
      case Attempt(username, ip, t) =>
        AllowAgrees(l, e, username, ip, now, t);
        ForgettingIsInvisible(Allow(l, username, ip, t).0, AllowPlain(e, username, ip, t).0, ops[1..], t);
      case Succeeded(username, ip) =>
        var l', e' := l.(entries := Forgive(l.entries, username, ip)), Forgive(e, username, ip);
        forall k
          ensures LiveWindow(l'.entries, k, now) == LiveWindow(e', k, now)
        {
          assert LiveWindow(l.entries, k, now) == LiveWindow(e, k, now);
        }
        ForgettingIsInvisible(l', e', ops[1..], now);
    }
  }

  // ---------------------------------------------------------------- waiting out a block

  /** A blocked attempt changes nothing that counts, and the time it names is exact: with nothing else happening,
      the same login is admitted from then on and not before. */
  lemma RetryIsExact(l: Limiter, username: string, ip: string, now: int, later: int)
    requires !Allow(l, username, ip, now).1.ok && now <= later
    ensures var (after, a) := Allow(l, username, ip, now);
      && 0 < a.retry
      && (Allow(after, username, ip, later).1.ok <==> later >= now + a.retry)
  {
    var (after, a) := Allow(l, username, ip, now);
    AllowAgrees(after, after.entries, username, ip, now, later);
    var s := MaybeSweep(l, now);
    var pk := PairKey(username, ip);
    forall k | k in Keys(username, ip)
      ensures LiveWindow(after.entries, k, now) == LiveWindow(s.entries, k, now)
    {
    }
  }

  // ---------------------------------------------------------------- how much one interval admits

  /** The window a key's entry holds after admissions at these times, nothing forgiven: where it starts, as an index. */
  function StartOf(ts: seq<int>): nat
    requires ts != []
    ensures StartOf(ts) < |ts|
  {
    var n := |ts| - 1;
    if n == 0 then 0
    else
      var s := StartOf(ts[..n]);
      if ts[n] >= ts[s] + WINDOW then n else s
  }

  /** The times at which attempts that count against `k` are admitted by a limiter that keeps every window. */
  function PlainAdmissions(ops: seq<Op>, k: Key): seq<int> {
    if ops == [] then []
    else
      var n := |ops| - 1;
      var op := ops[n];
      PlainAdmissions(ops[..n], k)
      + (if op.Attempt? && k in Keys(op.username, op.ip) && AllowPlain(After(ops[..n]), op.username, op.ip, op.now).1.ok
         then [op.now] else [])
  }

  function After(ops: seq<Op>): Entries {
    if ops == [] then map[]
    else
      var n := |ops| - 1;
      match ops[n]
      case Attempt(username, ip, now) => AllowPlain(After(ops[..n]), username, ip, now).0
      case Succeeded(username, ip) => Forgive(After(ops[..n]), username, ip)
  }

  predicate Clocked(ops: seq<Op>) {
    forall i, j | 0 <= i < j < |ops| && ops[i].Attempt? && ops[j].Attempt? :: ops[i].now <= ops[j].now
  }

  /** What an attempt does to one key: counts against its own keys when admitted, and nothing else. */
  lemma AttemptAt(e: Entries, username: string, ip: string, now: int, k: Key)
    ensures var (next, a) := AllowPlain(e, username, ip, now);
      if a.ok && k in Keys(username, ip) then
        BlockedFor(e, k, now) <= 0 && k in next && next[k] == Bump(e, k, now)[k]
      else
        (k in next <==> k in e) && (k in e ==> next[k] == e[k])
  {
  }

  /** `k` holds the window these admissions make. */
  predicate HoldsWindow(e: Entries, k: Key, ts: seq<int>) {
    if ts == [] then k !in e else k in e && e[k] == Window(ts[StartOf(ts)], |ts| - StartOf(ts))
  }

  /** No window, at any time, held more than `limit`. */
  ghost predicate Fits(ts: seq<int>, limit: nat) { forall m | 0 < m <= |ts| :: m - StartOf(ts[..m]) <= limit }

  lemma WindowGrows(e: Entries, k: Key, ts: seq<int>, now: int)
    requires HoldsWindow(e, k, ts) && Fits(ts, LimitOf(k)) && BlockedFor(e, k, now) <= 0
    ensures HoldsWindow(Bump(e, k, now), k, ts + [now]) && Fits(ts + [now], LimitOf(k))
  {
    var next := ts + [now];
    assert next[..|ts|] == ts && next[..|next|] == next;
    forall m | 0 < m <= |next|
      ensures m - StartOf(next[..m]) <= LimitOf(k)
    {
      assert m <= |ts| ==> next[..m] == ts[..m];
    }
  }

  /** Unless a login succeeded, a key's entry is the window its admissions make. */
  lemma {:induction false} EntryIsWindow(ops: seq<Op>, k: Key)
    requires forall op | op in ops :: op.Attempt?
    ensures HoldsWindow(After(ops), k, PlainAdmissions(ops, k)) && Fits(PlainAdmissions(ops, k), LimitOf(k))
  {
    if ops != [] {
      var n := |ops| - 1;
      EntryIsWindow(ops[..n], k);
      var before, e, op := PlainAdmissions(ops[..n], k), After(ops[..n]), ops[n];
      assert op in ops;
      AttemptAt(e, op.username, op.ip, op.now, k);
      var (next, a) := AllowPlain(e, op.username, op.ip, op.now);
      assert After(ops) == next;
      if a.ok && k in Keys(op.username, op.ip) {
        assert PlainAdmissions(ops, k) == before + [op.now];
        hide AllowPlain, Keys, After, PlainAdmissions;
        WindowGrows(e, k, before, op.now);
      } else {
        assert PlainAdmissions(ops, k) == before + [] == before;
        hide AllowPlain, Keys, After, PlainAdmissions, Fits;
      }
    }
  }

  predicate Ordered(ts: seq<int>) { forall i, j | 0 <= i < j < |ts| :: ts[i] <= ts[j] }

  lemma {:induction false} AdmissionsUpTo(ops: seq<Op>, k: Key, now: int)
    requires forall op | op in ops && op.Attempt? :: op.now <= now
    ensures forall i | 0 <= i < |PlainAdmissions(ops, k)| :: PlainAdmissions(ops, k)[i] <= now
  {
    if ops != [] {
      AdmissionsUpTo(ops[..|ops| - 1], k, now);
      assert ops[|ops| - 1] in ops;
    }
  }

  lemma {:induction false} AdmissionsFollowClock(ops: seq<Op>, k: Key)
    requires Clocked(ops)
    ensures Ordered(PlainAdmissions(ops, k))
  {
    if ops != [] {
      var n := |ops| - 1;
      AdmissionsFollowClock(ops[..n], k);
      var before, ts := PlainAdmissions(ops[..n], k), PlainAdmissions(ops, k);
      hide AllowPlain, Keys, After;
      assert ts == before || (ops[n].Attempt? && ts == before + [ops[n].now]) by {
        assert before + [] == before;
      }
      if ts != before {
        forall op | op in ops[..n] && op.Attempt?
          ensures op.now <= ops[n].now
        {
          var i :| 0 <= i < n && ops[..n][i] == op;
          assert ops[i] == op;
        }
        AdmissionsUpTo(ops[..n], k, ops[n].now);
        hide Clocked;
        forall i, j | 0 <= i < j < |ts|
          ensures ts[i] <= ts[j]
        {
          assert ts[i] == before[i] && (j < |before| ==> ts[j] == before[j]);
        }
      }
    }
  }

  /** The last window begins no more than a limit before the end, and the one before it a whole window earlier. */
  lemma WindowsAreApart(ts: seq<int>, limit: nat, i: nat)
    requires limit > 0 && i + 2 * limit - 1 < |ts|
    requires Ordered(ts)
    requires Fits(ts, limit)
    ensures ts[i + 2 * limit - 1] >= ts[i] + WINDOW
  {
    var n := i + 2 * limit - 1;
    var b := StartOf(ts[..n + 1]);
    StartBegins(ts[..n + 1]);
    assert ts[..n + 1][..b] == ts[..b];
    var p := StartOf(ts[..b]);
    assert ts[..b][p] == ts[p];
  }

  lemma {:induction false} StartBegins(ts: seq<int>)
    requires ts != []
    ensures var b := StartOf(ts); b > 0 ==> ts[b] >= ts[..b][StartOf(ts[..b])] + WINDOW
  {
    var n := |ts| - 1;
    if n > 0 && StartOf(ts) < n {
      StartBegins(ts[..n]);
      var b := StartOf(ts[..n]);
      assert ts[..n][..b] == ts[..b];
    }
  }

  function InInterval(ts: seq<int>, from: int): nat {
    if ts == [] then 0
    else InInterval(ts[..|ts| - 1], from) + if from <= ts[|ts| - 1] < from + WINDOW then 1 else 0
  }

  lemma PlainIntervalBound(ops: seq<Op>, k: Key, from: int)
    requires Clocked(ops) && forall op | op in ops :: op.Attempt?
    ensures InInterval(PlainAdmissions(ops, k), from) <= 2 * LimitOf(k) - 1
  {
    var ts, limit := PlainAdmissions(ops, k), LimitOf(k);
    EntryIsWindow(ops, k);
    AdmissionsFollowClock(ops, k);
    var first, count := IntervalIsRun(ts, from);
    if count > 2 * limit - 1 {
      WindowsAreApart(ts, limit, first);
    }
  }

  /** In an ordered sequence the members of an interval stand together. */
  lemma {:induction false} IntervalIsRun(ts: seq<int>, from: int) returns (first: nat, count: nat)
    requires Ordered(ts)
    ensures count == InInterval(ts, from) && first + count <= |ts|
    ensures forall i | first <= i < first + count :: from <= ts[i] < from + WINDOW
    ensures count > 0 || forall i | 0 <= i < |ts| :: !(from <= ts[i] < from + WINDOW)
    ensures count > 0 ==> forall i | first + count <= i < |ts| :: ts[i] >= from + WINDOW
  {
    if ts == [] {
      return 0, 0;
    }
    var n := |ts| - 1;
    first, count := IntervalIsRun(ts[..n], from);
    assert forall i | 0 <= i < n :: ts[..n][i] == ts[i];
    if from <= ts[n] < from + WINDOW {
      if count == 0 {
        first := n;
      }
      count := count + 1;
    }
  }

  lemma AttemptsCount(ops: seq<Op>, now: int, w: Window)
    requires var e := After(ops);
      Pair("a", "x") in e && e[Pair("a", "x")] == w
      && Ip("x") in e && e[Ip("x")].start == w.start && e[Ip("x")].count == w.count
    requires Live(w, now) ==> w.count < PAIR_LIMIT
    ensures var next := ops + [Attempt("a", "x", now)];
      var e, v := After(next), if Live(w, now) then w.(count := w.count + 1) else Window(now, 1);
      && PlainAdmissions(next, Pair("a", "x")) == PlainAdmissions(ops, Pair("a", "x")) + [now]
      && Pair("a", "x") in e && e[Pair("a", "x")] == v
      && Ip("x") in e && e[Ip("x")].start == v.start && e[Ip("x")].count == v.count
  {
    var next := ops + [Attempt("a", "x", now)];
    assert next[..|ops|] == ops;
    assert LowerAll("a") == "a" && PairKey("a", "x") == Some(Pair("a", "x"));
  }

  predicate OnlyAttempts(ops: seq<Op>, now: int) {
    Clocked(ops) && forall op | op in ops :: op.Attempt? && op.now <= now
  }

  lemma OneMoreAttempt(ops: seq<Op>, before: int, op: Op)
    requires OnlyAttempts(ops, before) && op.Attempt? && before <= op.now
    ensures OnlyAttempts(ops + [op], op.now)
  {
    var next := ops + [op];
    forall i, j | 0 <= i < j < |next|
      ensures next[i].Attempt? && next[j].Attempt? ==> next[i].now <= next[j].now
    {
      assert next[i] == ops[i] && ops[i] in ops;
      assert j < |ops| ==> next[j] == ops[j];
    }
  }

  /** One attempt at 0. */
  lemma FirstAttempt()
    ensures var ops, key := [Attempt("a", "x", 0)], Pair("a", "x");
      && OnlyAttempts(ops, WINDOW - 1) && PlainAdmissions(ops, key) == [0]
      && key in After(ops) && After(ops)[key] == Window(0, 1)
      && Ip("x") in After(ops) && After(ops)[Ip("x")] == Window(0, 1)
  {
    var ops := [Attempt("a", "x", 0)];
    assert LowerAll("a") == "a" && PairKey("a", "x") == Some(Pair("a", "x"));
    assert ops[..0] == [];
  }

  lemma InIntervalSnoc(ts: seq<int>, t: int, from: int)
    ensures InInterval(ts + [t], from) == InInterval(ts, from) + if from <= t < from + WINDOW then 1 else 0
  {
    assert (ts + [t])[..|ts|] == ts;
  }

  /** One attempt, four more just before its window ends, and five just after. */
  lemma PlainBoundIsTight() returns (ops: seq<Op>)
    ensures OnlyAttempts(ops, WINDOW)
    ensures InInterval(PlainAdmissions(ops, Pair("a", "x")), WINDOW - 1) == 2 * PAIR_LIMIT - 1
  {
    var late, key := WINDOW - 1, Pair("a", "x");
    ops := [Attempt("a", "x", 0)];
    FirstAttempt();
    InIntervalSnoc([], 0, late);
    assert [] + [0] == [0];
    assert InInterval([], late) == 0;
    hide OnlyAttempts, After, PlainAdmissions, InInterval;
    for i := 1 to 5
      invariant OnlyAttempts(ops, late)
      invariant InInterval(PlainAdmissions(ops, key), late) == i - 1
      invariant key in After(ops) && After(ops)[key] == Window(0, i)
      invariant Ip("x") in After(ops) && After(ops)[Ip("x")] == Window(0, i)
    {
      AttemptsCount(ops, late, Window(0, i));
      OneMoreAttempt(ops, late, Attempt("a", "x", late));
      InIntervalSnoc(PlainAdmissions(ops, key), late, late);
      ops := ops + [Attempt("a", "x", late)];
    }
    AttemptsCount(ops, WINDOW, Window(0, 5));
    OneMoreAttempt(ops, late, Attempt("a", "x", WINDOW));
    InIntervalSnoc(PlainAdmissions(ops, key), WINDOW, late);
    ops := ops + [Attempt("a", "x", WINDOW)];
    for i := 1 to 5
      invariant OnlyAttempts(ops, WINDOW)
      invariant InInterval(PlainAdmissions(ops, key), late) == 4 + i
      invariant key in After(ops) && After(ops)[key] == Window(WINDOW, i)
      invariant Ip("x") in After(ops) && After(ops)[Ip("x")] == Window(WINDOW, i)
    {
      AttemptsCount(ops, WINDOW, Window(WINDOW, i));
      OneMoreAttempt(ops, WINDOW, Attempt("a", "x", WINDOW));
      InIntervalSnoc(PlainAdmissions(ops, key), WINDOW, late);
      ops := ops + [Attempt("a", "x", WINDOW)];
    }
  }

  // ---------------------------------------------------------------- with successful logins

  /** An address's current window with what happened in it: attempts admitted, and successes reported. */
  datatype Tally = Tally(window: Window, admits: nat, successes: nat)

  function Count(t: Option<Tally>, now: int): Option<Tally> {
    if t.Some? && Live(t.value.window, now) then
      Some(Tally(t.value.window.(count := t.value.window.count + 1), t.value.admits + 1, t.value.successes))
    else Some(Tally(Window(now, 1), 1, 0))
  }

  function TakeBack(t: Option<Tally>): Option<Tally> {
    if t.None? then t
    else
      var w := t.value.window;
      Some(Tally(if w.count > 0 then w.(count := w.count - 1) else w, t.value.admits, t.value.successes + 1))
  }

  function PlainTallyOf(ops: seq<Op>, ip: string): Option<Tally> {
    if ops == [] then None
    else
      var n := |ops| - 1;
      var t := PlainTallyOf(ops[..n], ip);
      match ops[n]
      case Attempt(username, from, now) =>
        if from == ip && AllowPlain(After(ops[..n]), username, from, now).1.ok then Count(t, now) else t
      case Succeeded(_, from) => if from == ip then TakeBack(t) else t
  }

  lemma {:induction false} PlainAdmitsMinusSuccesses(ops: seq<Op>, ip: string)
    ensures var t := PlainTallyOf(ops, ip);
      && (t.Some? <==> Ip(ip) in After(ops))
      && (t.Some? ==> t.value.window == After(ops)[Ip(ip)])
      && (t.Some? ==> t.value.admits - t.value.successes <= t.value.window.count <= IP_LIMIT)
      && (t.Some? ==> t.value.window.count >= 0)
  {
    if ops != [] {
      var n := |ops| - 1;
      PlainAdmitsMinusSuccesses(ops[..n], ip);
      var e := After(ops[..n]);
      match ops[n]
      case Attempt(username, from, now) =>
        AttemptAt(e, username, from, now, Ip(ip));
        hide AllowPlain;
      case Succeeded(_, _) =>
    }
  }

  // ---------------------------------------------------------------- the same of the limiter itself

  /** The limiter after a run that started empty; it does not sweep before `start`. */
  function Reached(start: int, ops: seq<Op>): Limiter {
    if ops == [] then Limiter(map[], start)
    else
      var n := |ops| - 1;
      var l := Reached(start, ops[..n]);
      match ops[n]
      case Attempt(username, ip, now) => Allow(l, username, ip, now).0
      case Succeeded(username, ip) => l.(entries := Forgive(l.entries, username, ip))
  }

  lemma SameLiveForgive(e: Entries, f: Entries, username: string, ip: string, now: int)
    requires SameLive(e, f, now)
    ensures SameLive(Forgive(e, username, ip), Forgive(f, username, ip), now)
  {
    forall k
      ensures LiveWindow(Forgive(e, username, ip), k, now) == LiveWindow(Forgive(f, username, ip), k, now)
    {
      assert LiveWindow(e, k, now) == LiveWindow(f, k, now);
    }
  }

  lemma SameLiveAt(e: Entries, f: Entries, k: Key, now: int)
    requires SameLive(e, f, now)
    ensures LiveWindow(e, k, now) == LiveWindow(f, k, now)
  {
  }

  predicate AttemptsBy(ops: seq<Op>, now: int) { forall op | op in ops && op.Attempt? :: op.now <= now }

  lemma ClockedPrefix(ops: seq<Op>)
    requires Clocked(ops) && ops != []
    ensures var n := |ops| - 1; Clocked(ops[..n]) && (ops[n].Attempt? ==> AttemptsBy(ops[..n], ops[n].now))
    ensures forall now :: AttemptsBy(ops, now) ==>
              AttemptsBy(ops[..|ops| - 1], now) && (ops[|ops| - 1].Attempt? ==> ops[|ops| - 1].now <= now)
  {
    var n := |ops| - 1;
    forall op | op in ops[..n] && op.Attempt? && ops[n].Attempt?
      ensures op.now <= ops[n].now
    {
      var i :| 0 <= i < n && ops[..n][i] == op;
      assert ops[i] == op;
    }
    assert ops[n] in ops && forall op | op in ops[..n] :: op in ops;
  }

  /** With a clock that does not go back, the limiter holds the live windows of one that keeps every window. */
  lemma {:induction false} ReachedAgrees(start: int, ops: seq<Op>, now: int)
    requires Clocked(ops) && AttemptsBy(ops, now)
    ensures SameLive(Reached(start, ops).entries, After(ops), now)
  {
    if ops != [] {
      var n := |ops| - 1;
      ClockedPrefix(ops);
      hide SameLive, Allow, AllowPlain, Clocked, AttemptsBy, Forgive;
      match ops[n]
      case Attempt(username, ip, t) =>
        ReachedAgrees(start, ops[..n], t);
        AllowAgrees(Reached(start, ops[..n]), After(ops[..n]), username, ip, t, t);
        SameLiveLater(Reached(start, ops).entries, After(ops), t, now);
      case Succeeded(username, ip) =>
        ReachedAgrees(start, ops[..n], now);
        SameLiveForgive(Reached(start, ops[..n]).entries, After(ops[..n]), username, ip, now);
    }
  }

  /** Hence its next answer is the same, too. */
  lemma NextAnswerAgrees(start: int, ops: seq<Op>, username: string, ip: string, now: int)
    requires Clocked(ops) && AttemptsBy(ops, now)
    ensures Allow(Reached(start, ops), username, ip, now).1 == AllowPlain(After(ops), username, ip, now).1
  {
    ReachedAgrees(start, ops, now);
    AllowAgrees(Reached(start, ops), After(ops), username, ip, now, now);
  }

  /** The times at which attempts that count against `k` are admitted. */
  function Admissions(start: int, ops: seq<Op>, k: Key): seq<int> {
    if ops == [] then []
    else
      var n := |ops| - 1;
      var op := ops[n];
      Admissions(start, ops[..n], k)
      + (if op.Attempt? && k in Keys(op.username, op.ip)
         && Allow(Reached(start, ops[..n]), op.username, op.ip, op.now).1.ok
         then [op.now] else [])
  }

  lemma {:induction false} AdmissionsArePlain(start: int, ops: seq<Op>, k: Key)
    requires Clocked(ops)
    ensures Admissions(start, ops, k) == PlainAdmissions(ops, k)
  {
    if ops != [] {
      var n := |ops| - 1;
      ClockedPrefix(ops);
      AdmissionsArePlain(start, ops[..n], k);
      if ops[n].Attempt? {
        NextAnswerAgrees(start, ops[..n], ops[n].username, ops[n].ip, ops[n].now);
      }
      hide Allow, AllowPlain, Reached, After, Keys, Clocked;
    }
  }

  /** Without a successful login, any half-open interval of a window's length admits at most twice the limit less one
      attempt on any key. */
  lemma IntervalBound(start: int, ops: seq<Op>, k: Key, from: int)
    requires Clocked(ops) && forall op | op in ops :: op.Attempt?
    ensures InInterval(Admissions(start, ops, k), from) <= 2 * LimitOf(k) - 1
  {
    AdmissionsArePlain(start, ops, k);
    PlainIntervalBound(ops, k, from);
  }

  /** The bound is met. */
  lemma IntervalBoundIsTight(start: int) returns (ops: seq<Op>)
    ensures Clocked(ops) && forall op | op in ops :: op.Attempt?
    ensures InInterval(Admissions(start, ops, Pair("a", "x")), WINDOW - 1) == 2 * PAIR_LIMIT - 1
  {
    ops := PlainBoundIsTight();
    AdmissionsArePlain(start, ops, Pair("a", "x"));
  }

  /** The window that the last of these admissions belongs to has run out by `now`, or has room for one more. */
  predicate HasRoom(ts: seq<int>, limit: nat, now: int) {
    ts == [] || now >= ts[StartOf(ts)] + WINDOW || |ts| - StartOf(ts) < limit
  }

  /** Until a login succeeds, an attempt is admitted exactly when the admissions leave room under both of its keys. */
  lemma AdmittedIffRoom(start: int, ops: seq<Op>, username: string, ip: string, now: int)
    requires Clocked(ops) && AttemptsBy(ops, now) && forall op | op in ops :: op.Attempt?
    ensures Allow(Reached(start, ops), username, ip, now).1.ok
       <==> forall k | k in Keys(username, ip) :: HasRoom(Admissions(start, ops, k), LimitOf(k), now)
  {
    NextAnswerAgrees(start, ops, username, ip, now);
    forall k | k in Keys(username, ip)
      ensures HasRoom(Admissions(start, ops, k), LimitOf(k), now) <==> BlockedFor(After(ops), k, now) <= 0
    {
      EntryIsWindow(ops, k);
      AdmissionsArePlain(start, ops, k);
    }
    hide Allow, Reached, After, HasRoom, BlockedFor, Admissions, Clocked, AttemptsBy;
    PlainAdmitsIff(After(ops), username, ip, now);
  }

  lemma PlainAdmitsIff(e: Entries, username: string, ip: string, now: int)
    ensures AllowPlain(e, username, ip, now).1.ok <==> forall k | k in Keys(username, ip) :: BlockedFor(e, k, now) <= 0
  {
    assert Ip(ip) in Keys(username, ip);
    assert PairKey(username, ip).Some? ==> PairKey(username, ip).value in Keys(username, ip);
    hide BlockedFor;
  }

  lemma RunGrows(ops: seq<Op>, op: Op, now: int)
    requires Clocked(ops) && AttemptsBy(ops, now) && (op.Attempt? ==> AttemptsBy(ops, op.now) && op.now <= now)
    ensures Clocked(ops + [op]) && AttemptsBy(ops + [op], now) && (ops + [op])[..|ops|] == ops
  {
    var next := ops + [op];
    forall i, j | 0 <= i < j < |next| && next[i].Attempt? && next[j].Attempt?
      ensures next[i].now <= next[j].now
    {
      assert next[i] == ops[i] && ops[i] in ops;
      assert j < |ops| ==> next[j] == ops[j];
    }
  }

  /** Right after a successful login the same user is admitted again from the same address, whatever came before. */
  lemma SuccessAdmitsAgain(start: int, ops: seq<Op>, username: string, ip: string, now: int)
    requires Clocked(ops) && AttemptsBy(ops, now)
    ensures Allow(Reached(start, ops + [Succeeded(username, ip)]), username, ip, now).1.ok
  {
    var next := ops + [Succeeded(username, ip)];
    RunGrows(ops, Succeeded(username, ip), now);
    NextAnswerAgrees(start, next, username, ip, now);
    PlainAdmitsMinusSuccesses(ops, ip);
    assert After(next) == Forgive(After(ops), username, ip);
    forall k | k in Keys(username, ip)
      ensures BlockedFor(Forgive(After(ops), username, ip), k, now) <= 0
    {
    }
    PlainAdmitsIff(After(next), username, ip, now);
    hide Allow, AllowPlain, Reached, After, PlainTallyOf, Clocked, AttemptsBy;
  }

  /** An attempt or a success leaves the live windows of all other keys as they were; a refused attempt leaves those of
      its own, too. */
  lemma OthersAreKept(start: int, ops: seq<Op>, op: Op, k: Key, now: int)
    requires Clocked(ops) && AttemptsBy(ops, now) && (op.Attempt? ==> AttemptsBy(ops, op.now) && op.now <= now)
    requires k !in Keys(op.username, op.ip)
      || (op.Attempt? && !Allow(Reached(start, ops), op.username, op.ip, op.now).1.ok)
    ensures LiveWindow(Reached(start, ops + [op]).entries, k, now) == LiveWindow(Reached(start, ops).entries, k, now)
  {
    var next := ops + [op];
    RunGrows(ops, op, now);
    ReachedAgrees(start, ops, now);
    ReachedAgrees(start, next, now);
    SameLiveAt(Reached(start, ops).entries, After(ops), k, now);
    SameLiveAt(Reached(start, next).entries, After(next), k, now);
    if op.Attempt? {
      NextAnswerAgrees(start, ops, op.username, op.ip, op.now);
      AttemptAt(After(ops), op.username, op.ip, op.now, k);
      assert After(next) == AllowPlain(After(ops), op.username, op.ip, op.now).0;
    } else {
      assert After(next) == Forgive(After(ops), op.username, op.ip);
    }
    hide Allow, AllowPlain, Reached, After, Clocked, AttemptsBy, SameLive;
  }

  function TallyOf(start: int, ops: seq<Op>, ip: string): Option<Tally> {
    if ops == [] then None
    else
      var n := |ops| - 1;
      var t := TallyOf(start, ops[..n], ip);
      match ops[n]
      case Attempt(username, from, now) =>
        if from == ip && Allow(Reached(start, ops[..n]), username, from, now).1.ok then Count(t, now) else t
      case Succeeded(_, from) => if from == ip then TakeBack(t) else t
  }

  lemma {:induction false} TallyIsPlain(start: int, ops: seq<Op>, ip: string)
    requires Clocked(ops)
    ensures TallyOf(start, ops, ip) == PlainTallyOf(ops, ip)
  {
    if ops != [] {
      var n := |ops| - 1;
      ClockedPrefix(ops);
      TallyIsPlain(start, ops[..n], ip);
      if ops[n].Attempt? {
        NextAnswerAgrees(start, ops[..n], ops[n].username, ops[n].ip, ops[n].now);
      }
      hide Allow, AllowPlain, Reached, After, Clocked, Count, TakeBack;
    }
  }

  /** In any run, within one window of an address the attempts admitted exceed the successes reported by no more than
      the limit; and while that window lasts it is the one the limiter holds. */
  lemma AdmitsMinusSuccesses(start: int, ops: seq<Op>, ip: string, now: int)
    requires Clocked(ops) && AttemptsBy(ops, now)
    ensures var t := TallyOf(start, ops, ip);
      t.Some? ==> t.value.admits - t.value.successes <= t.value.window.count <= IP_LIMIT
    ensures var t := TallyOf(start, ops, ip);
      LiveWindow(Reached(start, ops).entries, Ip(ip), now)
        == if t.Some? && Live(t.value.window, now) then Some(t.value.window) else None
  {
    hide Reached, After, TallyOf, PlainTallyOf, SameLive, Clocked, AttemptsBy;
    TallyIsPlain(start, ops, ip);
    PlainAdmitsMinusSuccesses(ops, ip);
    ReachedAgrees(start, ops, now);
    SameLiveAt(Reached(start, ops).entries, After(ops), Ip(ip), now);
  }
}
