/** The per-host circuit breaker and the classification of a failed walk over the mirrors. */
module Upstream {
  import opened Domain

  const SECOND := 1_000_000_000
  const TOO_MANY := 429
  const UNAVAILABLE := 503

  const TWO_63 := 0x8000_0000_0000_0000
  const TWO_64 := 0x1_0000_0000_0000_0000

  /** 64-bit two's complement, as `time.Duration` arithmetic wraps. */
  function Wrap64(n: int): (r: int)
    ensures -0x8000_0000_0000_0000 <= r < 0x8000_0000_0000_0000
    ensures exists k :: r == n + k * 0x1_0000_0000_0000_0000
    ensures -0x8000_0000_0000_0000 <= n < 0x8000_0000_0000_0000 ==> r == n
  {
    var r := (n + 0x8000_0000_0000_0000) % 0x1_0000_0000_0000_0000 - 0x8000_0000_0000_0000;
    assert r == n + (-((n + 0x8000_0000_0000_0000) / 0x1_0000_0000_0000_0000)) * 0x1_0000_0000_0000_0000;
    r
  }

  /** A decoded Retry-After header. */
  datatype RetryAfter = Absent | DeltaSeconds(secs: int) | HttpDate(at: int) | Unreadable

  /** `openUntil` is None for the zero time, which is before every instant. */
  datatype HostState = HostState(openUntil: Option<int>, fails: nat, status: int)
  datatype Breaker = Breaker(baseDelay: int, maxDelay: int, hosts: map<string, HostState>)

  /** The time left until `at`; a difference of times saturates. */
  function TimeUntil(at: int, now: int): int {
    if at - now <= 0 then 0 else if at - now < TWO_63 then at - now else TWO_63 - 1
  }

  function ParseRetryAfter(h: RetryAfter, now: int): Option<int> {
    match h
    case DeltaSeconds(secs) => if secs >= 0 then Some(Wrap64(secs * SECOND)) else None
    case HttpDate(at) => Some(TimeUntil(at, now))
    case _ => None
  }

  function Shift(n: int, by': nat): int {
    if by' == 0 then n else 2 * Shift(n, by' - 1)
  }

  function TripDelay(b: Breaker, fails: nat, h: RetryAfter, jitter: int, now: int): int
    requires fails > 0
  {
    var wanted :=
      match ParseRetryAfter(h, now)
      case Some(d) => Wrap64(d + jitter)
      case None => Wrap64(Wrap64(Shift(b.baseDelay, if fails - 1 < 16 then fails - 1 else 16)) + jitter);
    if wanted > b.maxDelay then b.maxDelay else wanted
  }

  predicate OpenAt(b: Breaker, host: string, now: int) {
    host in b.hosts && b.hosts[host].openUntil.Some? && now < b.hosts[host].openUntil.value
  }

  function Trip(b: Breaker, host: string, status: int, h: RetryAfter, jitter: int, now: int): Breaker {
    var st := if host in b.hosts then b.hosts[host] else HostState(None, 0, 0);
    var until := now + TripDelay(b, st.fails + 1, h, jitter, now);
    var longer := st.openUntil.None? || until > st.openUntil.value;
    b.(hosts := b.hosts[host := HostState(if longer then Some(until) else st.openUntil, st.fails + 1, status)])
  }

  function Reset(b: Breaker, host: string): Breaker {
    if host in b.hosts then b.(hosts := b.hosts[host := b.hosts[host].(openUntil := None, fails := 0)]) else b
  }

  /** The upstream's own answer, had it been asked. */
  datatype HostAnswer = NoResponse | Responded(status: int, retryAfter: RetryAfter)
  datatype TripResult = CircuitOpen | TransportError | Passed(status: int)

  predicate IsThrottleStatus(s: int) { s == TOO_MANY || s == UNAVAILABLE }

  function RoundTrip(b: Breaker, host: string, a: HostAnswer, jitter: int, now: int): (Breaker, TripResult) {
    if OpenAt(b, host, now) then (b, CircuitOpen)
    else
      match a
      case NoResponse => (b, TransportError)
      case Responded(status, h) =>
        (if IsThrottleStatus(status) then Trip(b, host, status, h, jitter, now) else Reset(b, host), Passed(status))
  }

  /** What `Throttle` reports: the status that opened the circuit and the time left on it. */
  function Throttle(b: Breaker, host: string, now: int): Option<(int, int)> {
    if OpenAt(b, host, now) then Some((b.hosts[host].status, b.hosts[host].openUntil.value - now)) else None
  }

  class CircuitBreaker {
    const baseDelay: int
    const maxDelay: int
    var hosts: map<string, HostState>

    ghost function State(): Breaker
      reads this
    {
      Breaker(baseDelay, maxDelay, hosts)
    }

    constructor (baseDelay: int, maxDelay: int)
      ensures State() == Breaker(baseDelay, maxDelay, map[])
    {
      this.baseDelay, this.maxDelay, hosts := baseDelay, maxDelay, map[];
    }

    method DoRoundTrip(host: string, a: HostAnswer, jitter: int, now: int) returns (r: TripResult)
      modifies this
      ensures (State(), r) == RoundTrip(old(State()), host, a, jitter, now)
    {
      if host in hosts && hosts[host].openUntil.Some? && now < hosts[host].openUntil.value {
        return CircuitOpen;
      }
      if a.NoResponse? {
        return TransportError;
      }
      if a.status == TOO_MANY || a.status == UNAVAILABLE {
        DoTrip(host, a.status, a.retryAfter, jitter, now);
      } else if host in hosts {
        hosts := hosts[host := hosts[host].(openUntil := None, fails := 0)];
      }
      return Passed(a.status);
    }

    method DoTrip(host: string, status: int, h: RetryAfter, jitter: int, now: int)
      modifies this
      ensures State() == Trip(old(State()), host, status, h, jitter, now)
    {
      hide Wrap64, Shift, ParseRetryAfter;
      var st := if host in hosts then hosts[host] else HostState(None, 0, 0);
      st := st.(fails := st.fails + 1, status := status);
      var delay;
      match ParseRetryAfter(h, now) {
        case Some(d) => delay := Wrap64(d + jitter);
        case None =>
          var shift := if st.fails - 1 < 16 then st.fails - 1 else 16;
          delay := Wrap64(Wrap64(Shift(baseDelay, shift)) + jitter);
      }
      if delay > maxDelay {
        delay := maxDelay;
      }
      if st.openUntil.None? || now + delay > st.openUntil.value {
        st := st.(openUntil := Some(now + delay));
      }
      hosts := hosts[host := st];
    }
  }

  // ---------------------------------------------------------------- over every run

  datatype Request = Request(host: string, answer: HostAnswer, jitter: int, now: int)

  function Run(b: Breaker, rs: seq<Request>): Breaker {
    if rs == [] then b
    else
      var n := |rs| - 1;
      RoundTrip(Run(b, rs[..n]), rs[n].host, rs[n].answer, rs[n].jitter, rs[n].now).0
  }

  predicate Monotone(rs: seq<Request>) {
    forall i, j | 0 <= i < j < |rs| :: rs[i].now <= rs[j].now
  }

  predicate ThrottledBy(r: Request, host: string) {
    r.host == host && r.answer.Responded? && IsThrottleStatus(r.answer.status)
  }

  /** In every reachable state a known host was opened by a 429 or a 503 of this run, and its circuit closes within
      the maximal delay of some such throttle. */
  lemma {:induction false} ReachableHosts(baseDelay: int, maxDelay: int, rs: seq<Request>, host: string)
    requires Monotone(rs)
    requires host in Run(Breaker(baseDelay, maxDelay, map[]), rs).hosts
    ensures var st := Run(Breaker(baseDelay, maxDelay, map[]), rs).hosts[host];
      && IsThrottleStatus(st.status)
      && (exists i ::
            0 <= i < |rs| && rs[i].host == host && rs[i].answer.Responded? && rs[i].answer.status == st.status)
      && (st.openUntil.Some? ==>
            exists i :: 0 <= i < |rs| && ThrottledBy(rs[i], host) && st.openUntil.value <= rs[i].now + maxDelay)
  {
    var start := Breaker(baseDelay, maxDelay, map[]);
    RunKeepsDelays(start, rs);
    if rs != [] {
      var n := |rs| - 1;
      var before := Run(start, rs[..n]);
      RunKeepsDelays(start, rs[..n]);
      if host in before.hosts {
        ReachableHosts(baseDelay, maxDelay, rs[..n], host);
        var i :| 0 <= i < n && rs[..n][i].host == host && rs[..n][i].answer.Responded?
          && rs[..n][i].answer.status == before.hosts[host].status;
        assert rs[i].host == host && rs[i].answer.Responded?;
        if before.hosts[host].openUntil.Some? {
          var j :| 0 <= j < n && ThrottledBy(rs[..n][j], host)
            && before.hosts[host].openUntil.value <= rs[..n][j].now + maxDelay;
          assert ThrottledBy(rs[j], host);
        }
      }
      assert rs[n].host == host || Run(start, rs).hosts[host] == before.hosts[host];
    }
  }

  lemma {:induction false} RunKeepsDelays(b: Breaker, rs: seq<Request>)
    ensures Run(b, rs).baseDelay == b.baseDelay && Run(b, rs).maxDelay == b.maxDelay
  {
    if rs != [] {
      RunKeepsDelays(b, rs[..|rs| - 1]);
    }
  }

  /** The delay a throttle asks for before jitter, on unbounded integers: the header's, or the exponential one. */
  function Asked(b: Breaker, fails: nat, h: RetryAfter, now: int): int
    requires fails > 0
  {
    if h.DeltaSeconds? && h.secs >= 0 then h.secs * SECOND
    else if h.HttpDate? then TimeUntil(h.at, now)
    else Shift(b.baseDelay, if fails - 1 < 16 then fails - 1 else 16)
  }

  lemma WrapTwice(n: int, m: int)
    ensures Wrap64(Wrap64(n) + m) == Wrap64(n + m)
  {
    var k :| Wrap64(n) == n + k * TWO_64;
    WrapShift(n + m, k);
    assert n + m + k * TWO_64 == Wrap64(n) + m;
  }

  lemma WrapShift(n: int, k: int)
    ensures Wrap64(n + k * TWO_64) == Wrap64(n)
  {
    var i :| Wrap64(n) == n + i * TWO_64;
    var j :| Wrap64(n + k * TWO_64) == n + k * TWO_64 + j * TWO_64;
    var d := k + j - i;
    assert Wrap64(n + k * TWO_64) - Wrap64(n) == d * TWO_64;
  }

  lemma DelayIsWrapped(b: Breaker, fails: nat, h: RetryAfter, jitter: int, now: int)
    requires fails > 0
    ensures var wrapped := Wrap64(Asked(b, fails, h, now) + jitter);
      TripDelay(b, fails, h, jitter, now) == if wrapped > b.maxDelay then b.maxDelay else wrapped
  {
    WrapTwice(Asked(b, fails, h, now), jitter);
    hide Wrap64, Shift;
  }

  lemma {:induction false} ShiftKeepsSign(n: int, times: nat)
    requires n >= 0
    ensures Shift(n, times) >= 0
  {
    if times > 0 {
      ShiftKeepsSign(n, times - 1);
    }
  }

  /** A throttle never shortens a cooldown and touches no other host. It leaves the circuit open exactly when it was
      open already, or when the delay asked for with its jitter, cut to 64 bits, comes out positive. */
  lemma TripExtends(b: Breaker, host: string, status: int, h: RetryAfter, jitter: int, now: int)
    ensures var after := Trip(b, host, status, h, jitter, now);
      var fails := if host in b.hosts then b.hosts[host].fails else 0;
      && host in after.hosts && after.hosts[host].openUntil.Some?
      && (host in b.hosts && b.hosts[host].openUntil.Some?
          ==> b.hosts[host].openUntil.value <= after.hosts[host].openUntil.value)
      && after.hosts - {host} == b.hosts - {host}
    ensures var fails := if host in b.hosts then b.hosts[host].fails else 0;
      OpenAt(Trip(b, host, status, h, jitter, now), host, now)
      <==> (OpenAt(b, host, now)
            || (b.maxDelay > 0 && 0 < (Asked(b, fails + 1, h, now) + jitter) % TWO_64 < TWO_63))
  {
    var fails := if host in b.hosts then b.hosts[host].fails else 0;
    DelayIsWrapped(b, fails + 1, h, jitter, now);
    WrapIsPositiveIff(Asked(b, fails + 1, h, now) + jitter);
    hide Wrap64, Shift, TripDelay, Asked;
  }

  lemma WrapIsPositiveIff(n: int)
    ensures Wrap64(n) > 0 <==> 0 < n % TWO_64 < TWO_63
  {
    var k := n / TWO_64;
    assert n == n % TWO_64 + k * TWO_64;
    WrapShift(n % TWO_64, k);
    if n % TWO_64 >= TWO_63 {
      WrapShift(n % TWO_64 - TWO_64, 1);
    }
  }

  /** The circuit stays open for as long as was asked plus jitter, up to the maximum, exactly when the nanoseconds fit
      a duration, or what is left of them after wrapping reaches the maximum all the same. */
  lemma RetryAfterIsHonoured(b: Breaker, fails: nat, h: RetryAfter, jitter: int, now: int)
    requires fails > 0 && 0 <= b.baseDelay && 0 <= jitter && b.maxDelay < TWO_63
    ensures var asked := Asked(b, fails, h, now) + jitter;
      TripDelay(b, fails, h, jitter, now) == (if asked > b.maxDelay then b.maxDelay else asked)
      <==> (asked < TWO_63 || Wrap64(asked) >= b.maxDelay)
  {
    ShiftKeepsSign(b.baseDelay, if fails - 1 < 16 then fails - 1 else 16);
    DelayIsWrapped(b, fails, h, jitter, now);
    hide TripDelay, Shift;
  }

  /** Two that are not: a header that asks for three centuries, and a date as far away with any jitter at all, leave
      the throttled host's circuit closed. */
  lemma HugeRetryAfterOpensNothing(now: int)
    ensures var (after, r) := RoundTrip(Breaker(SECOND, 60 * SECOND, map[]), "repo",
                                        Responded(TOO_MANY, DeltaSeconds(9223372037)), SECOND, now);
      r == Passed(TOO_MANY) && !OpenAt(after, "repo", now)
    ensures var (after, r) := RoundTrip(Breaker(SECOND, 60 * SECOND, map[]), "repo",
                                        Responded(TOO_MANY, HttpDate(now + TWO_63)), 1, now);
      r == Passed(TOO_MANY) && !OpenAt(after, "repo", now)
  {
    var b := Breaker(SECOND, 60 * SECOND, map[]);
    TripExtends(b, "repo", TOO_MANY, DeltaSeconds(9223372037), SECOND, now);
    TripExtends(b, "repo", TOO_MANY, HttpDate(now + TWO_63), 1, now);
    hide Trip, TripDelay;
  }

  // ---------------------------------------------------------------- what a cooldown means for requests

  /** What the i-th request of a run is answered. */
  function ResultAt(b: Breaker, rs: seq<Request>, i: nat): TripResult
    requires i < |rs|
  {
    RoundTrip(Run(b, rs[..i]), rs[i].host, rs[i].answer, rs[i].jitter, rs[i].now).1
  }

  /** Until when the circuit of a host is open. */
  function OpenUntil(b: Breaker, host: string): Option<int> {
    if host in b.hosts then b.hosts[host].openUntil else None
  }

  /** A request fails fast exactly while the circuit of its host is open. Neither that nor a request without a response
      changes anything, and no request touches the circuit of another host. */
  lemma RefusalChangesNothing(b: Breaker, r: Request)
    ensures var (after, result) := RoundTrip(b, r.host, r.answer, r.jitter, r.now);
      && (result.CircuitOpen? <==> OpenUntil(b, r.host).Some? && r.now < OpenUntil(b, r.host).value)
      && (result.CircuitOpen? || result.TransportError? ==> after == b)
      && (result.Passed? ==> r.answer.Responded? && result.status == r.answer.status)
      && forall host | host != r.host :: OpenUntil(after, host) == OpenUntil(b, host)
  {
  }

  /** Once a request has left the circuit of its host open until some time, no later request to that host gets through
      before that time: each fails at once, and the circuit stays as it is. */
  lemma {:induction false} CooldownHolds(b: Breaker, rs: seq<Request>, i: nat, j: nat)
    requires Monotone(rs) && i < j < |rs| && rs[j].host == rs[i].host
    requires OpenUntil(Run(b, rs[..i + 1]), rs[i].host).Some?
    requires rs[j].now < OpenUntil(Run(b, rs[..i + 1]), rs[i].host).value
    ensures ResultAt(b, rs, j).CircuitOpen?
    ensures OpenUntil(Run(b, rs[..j]), rs[i].host) == OpenUntil(Run(b, rs[..i + 1]), rs[i].host)
    decreases j
  {
    hide RoundTrip, OpenUntil;
    CircuitStays(b, rs, i, j, rs[j].now);
    RefusalChangesNothing(Run(b, rs[..j]), rs[j]);
  }

  lemma {:induction false} CircuitStays(b: Breaker, rs: seq<Request>, i: nat, j: nat, now: int)
    requires Monotone(rs) && i < j <= |rs| && forall m | i < m < j :: rs[m].now <= now
    requires OpenUntil(Run(b, rs[..i + 1]), rs[i].host).Some?
    requires now < OpenUntil(Run(b, rs[..i + 1]), rs[i].host).value
    ensures OpenUntil(Run(b, rs[..j]), rs[i].host) == OpenUntil(Run(b, rs[..i + 1]), rs[i].host)
    decreases j
  {
    hide RoundTrip, OpenUntil;
    if j > i + 1 {
      CircuitStays(b, rs, i, j - 1, now);
      assert rs[..j][..j - 1] == rs[..j - 1];
      RefusalChangesNothing(Run(b, rs[..j - 1]), rs[j - 1]);
    }
  }

  /** A response that is no throttle closes the circuit of its host for good, whatever came before: the next throttle
      finds the host as a new one. */
  lemma SuccessClosesTheCircuit(b: Breaker, r: Request, t: Request)
    requires RoundTrip(b, r.host, r.answer, r.jitter, r.now).1.Passed?
    requires r.answer.Responded? && !IsThrottleStatus(r.answer.status) && ThrottledBy(t, r.host)
    ensures var after := RoundTrip(b, r.host, r.answer, r.jitter, r.now).0;
      && OpenUntil(after, r.host).None?
      && var next := RoundTrip(after, t.host, t.answer, t.jitter, t.now);
         && next.1 == Passed(t.answer.status)
         && next.0.hosts[r.host]
            == RoundTrip(Breaker(b.baseDelay, b.maxDelay, map[]), t.host, t.answer, t.jitter, t.now).0.hosts[r.host]
  {
    hide Wrap64, Shift, ParseRetryAfter;
  }

  /** The throttles of a host that got through since it last answered with anything else. */
  function Streak(b: Breaker, rs: seq<Request>, host: string): nat {
    if rs == [] then 0
    else
      var n := |rs| - 1;
      if rs[n].host != host || !ResultAt(b, rs, n).Passed? then Streak(b, rs[..n], host)
      else if IsThrottleStatus(ResultAt(b, rs, n).status) then Streak(b, rs[..n], host) + 1
      else 0
  }

  /** The failures counted for a host are that streak. */
  lemma {:induction false} FailsAreTheStreak(b: Breaker, rs: seq<Request>, host: string)
    requires b.hosts == map[]
    ensures var after := Run(b, rs); (if host in after.hosts then after.hosts[host].fails else 0) == Streak(b, rs, host)
  {
    if rs != [] {
      FailsAreTheStreak(b, rs[..|rs| - 1], host);
      hide TripDelay;
    }
  }

  function PowerOfTwo(k: nat): nat { if k == 0 then 1 else 2 * PowerOfTwo(k - 1) }

  /** Shifting multiplies by a power of two. */
  lemma {:induction false} ShiftIsPower(n: int, k: nat)
    ensures Shift(n, k) == n * PowerOfTwo(k)
  {
    if k > 0 {
      ShiftIsPower(n, k - 1);
      assert 2 * (n * PowerOfTwo(k - 1)) == n * (2 * PowerOfTwo(k - 1));
    }
  }

  /** A throttle without a Retry-After that gets through after k others in a row opens the circuit for the base delay
      doubled k times, sixteen at most, plus jitter, up to the maximum, if that fits a duration and is no shorter than
      what was left of the last cooldown. */
  lemma CooldownsDouble(b: Breaker, rs: seq<Request>, t: Request)
    requires b.hosts == map[] && t.answer.Responded? && IsThrottleStatus(t.answer.status)
    requires t.answer.retryAfter.Absent? || t.answer.retryAfter.Unreadable?
    requires ResultAt(b, rs + [t], |rs|).Passed?
    ensures var k := Streak(b, rs, t.host);
      var wanted := b.baseDelay * PowerOfTwo(if k < 16 then k else 16) + t.jitter;
      var until := t.now + if wanted > b.maxDelay then b.maxDelay else wanted;
      -TWO_63 <= wanted < TWO_63 ==>
        OpenUntil(Run(b, rs + [t]), t.host)
        == match OpenUntil(Run(b, rs), t.host)
           case None => Some(until)
           case Some(before) => Some(if until > before then until else before)
  {
    hide *;
    RunSnoc(b, rs, t);
    var before, k := Run(b, rs), Streak(b, rs, t.host);
    FailsAreTheStreak(b, rs, t.host);
    RunKeepsDelays(b, rs);
    ThrottleOpens(before, t, k);
    DoubledDelay(before, k, t.answer.retryAfter, t.jitter, t.now);
  }

  lemma RunSnoc(b: Breaker, rs: seq<Request>, t: Request)
    ensures var (after, result) := RoundTrip(Run(b, rs), t.host, t.answer, t.jitter, t.now);
      Run(b, rs + [t]) == after && ResultAt(b, rs + [t], |rs|) == result
  {
    assert (rs + [t])[..|rs|] == rs;
    hide RoundTrip;
  }

  lemma ThrottleOpens(b: Breaker, t: Request, k: nat)
    requires t.answer.Responded? && IsThrottleStatus(t.answer.status)
    requires (if t.host in b.hosts then b.hosts[t.host].fails else 0) == k
    requires RoundTrip(b, t.host, t.answer, t.jitter, t.now).1.Passed?
    ensures var until := t.now + TripDelay(b, k + 1, t.answer.retryAfter, t.jitter, t.now);
      OpenUntil(RoundTrip(b, t.host, t.answer, t.jitter, t.now).0, t.host)
      == match OpenUntil(b, t.host)
         case None => Some(until)
         case Some(before) => Some(if until > before then until else before)
    ensures StatusOf(RoundTrip(b, t.host, t.answer, t.jitter, t.now).0, t.host) == Some(t.answer.status)
  {
    hide TripDelay;
  }

  function StatusOf(b: Breaker, host: string): Option<int> {
    if host in b.hosts then Some(b.hosts[host].status) else None
  }

  /** What is reported of an open circuit is the status of the throttle that got through last, and the time left. */
  lemma ThrottleReportsTheLast(b: Breaker, rs: seq<Request>, t: Request, now: int)
    requires t.answer.Responded? && IsThrottleStatus(t.answer.status) && ResultAt(b, rs + [t], |rs|).Passed?
    ensures var after := Run(b, rs + [t]);
      Throttle(after, t.host, now)
      == if OpenUntil(after, t.host).Some? && now < OpenUntil(after, t.host).value
         then Some((t.answer.status, OpenUntil(after, t.host).value - now)) else None
  {
    RunSnoc(b, rs, t);
    ThrottleOpens(Run(b, rs), t, if t.host in Run(b, rs).hosts then Run(b, rs).hosts[t.host].fails else 0);
    hide Run, RoundTrip, ResultAt;
  }

  lemma DoubledDelay(b: Breaker, k: nat, h: RetryAfter, jitter: int, now: int)
    requires h.Absent? || h.Unreadable?
    ensures var wanted := b.baseDelay * PowerOfTwo(if k < 16 then k else 16) + jitter;
      -TWO_63 <= wanted < TWO_63 ==>
        TripDelay(b, k + 1, h, jitter, now) == if wanted > b.maxDelay then b.maxDelay else wanted
  {
    ShiftIsPower(b.baseDelay, if k < 16 then k else 16);
    DelayIsWrapped(b, k + 1, h, jitter, now);
    hide TripDelay, Shift, PowerOfTwo;
  }

  // ---------------------------------------------------------------- attempts

  /** One mirror's outcome; `host` is None when its URL does not parse. */
  datatype Attempt = Attempt(host: Option<string>, status: int, circuitOpen: bool)

  /** What the breaker knows of each host at the moment of asking; None for no breaker at all. */
  type Lookup = string -> Option<(int, int)>

  predicate IsNotFound(a: Attempt) { a.status == 404 || a.status == 410 }
  predicate IsThrottled(a: Attempt) { IsThrottleStatus(a.status) || (a.status == 0 && a.circuitOpen) }

  function Known(t: Option<Lookup>, a: Attempt): Option<(int, int)> {
    if t.Some? && a.host.Some? then t.value(a.host.value) else None
  }

  /** A fast-failed mirror takes the status that opened its circuit, 429 when that is not known. */
  function EffectiveStatus(t: Option<Lookup>, a: Attempt): int {
    if a.status != 0 then a.status else if Known(t, a).Some? then Known(t, a).value.0 else TOO_MANY
  }

  datatype Verdict = Verdict(ok: bool, status: int, retryAfter: int)
  const NO_VERDICT := Verdict(false, 0, 0)

  method AllNotFound(atts: seq<Attempt>) returns (r: bool)
    ensures r <==> atts != [] && forall a | a in atts :: IsNotFound(a)
  {
    if |atts| == 0 {
      return false;
    }
    for i := 0 to |atts|
      invariant forall a | a in atts[..i] :: IsNotFound(a)
    {
      if !IsNotFound(atts[i]) {
        return false;
      }
    }
    assert atts[..|atts|] == atts;
    return true;
  }

  /** The shortest positive cooldown reported for a throttled mirror, 0 when none is known. */
  predicate IsShortest(atts: seq<Attempt>, t: Option<Lookup>, retry: int) {
    && (forall a | a in atts && IsThrottled(a) && Known(t, a).Some? && Known(t, a).value.1 > 0 ::
          0 < retry <= Known(t, a).value.1)
    && (retry != 0 ==>
          exists a :: a in atts && IsThrottled(a) && Known(t, a).Some? && Known(t, a).value.1 == retry && retry > 0)
  }

  /** The breaker's own statuses: what `ReachableHosts` shows of every reachable state. */
  ghost predicate Faithful(t: Option<Lookup>) {
    t.Some? ==> forall h :: t.value(h).Some? ==> IsThrottleStatus(t.value(h).value.0)
  }

  /** The status the walk ends with: 429 once seen stays, else the last throttle counts. */
  function FinalStatus(atts: seq<Attempt>, t: Option<Lookup>): int {
    if atts == [] then 0
    else
      var n := |atts| - 1;
      var before := FinalStatus(atts[..n], t);
      if before == TOO_MANY || !IsThrottled(atts[n]) then before else EffectiveStatus(t, atts[n])
  }

  /** The cooldown the walk ends with: the shortest positive one so far, 0 for none. */
  function FinalRetry(atts: seq<Attempt>, t: Option<Lookup>): int {
    if atts == [] then 0
    else
      var n := |atts| - 1;
      var before := FinalRetry(atts[..n], t);
      if IsThrottled(atts[n]) && Known(t, atts[n]).Some? then
        var left := Known(t, atts[n]).value.1;
        if left > 0 && (before == 0 || left < before) then left else before
      else before
  }

  function VerdictOf(atts: seq<Attempt>, t: Option<Lookup>): Verdict {
    if (forall a | a in atts :: IsNotFound(a) || IsThrottled(a)) && exists a :: a in atts && IsThrottled(a) then
      Verdict(true, FinalStatus(atts, t), FinalRetry(atts, t))
    else NO_VERDICT
  }

  method Throttled(atts: seq<Attempt>, t: Option<Lookup>) returns (v: Verdict)
    ensures v == VerdictOf(atts, t)
  {
    var status, retry, ok := 0, 0, false;
    for i := 0 to |atts|
      invariant forall a | a in atts[..i] :: IsNotFound(a) || IsThrottled(a)
      invariant ok <==> exists a :: a in atts[..i] && IsThrottled(a)
      invariant status == FinalStatus(atts[..i], t)
      invariant retry == FinalRetry(atts[..i], t)
    {
      var at := atts[i];
      var s := at.status;
      assert at in atts && atts[..i + 1] == atts[..i] + [at] && atts[..i + 1][..i] == atts[..i];
      assert forall a :: a in atts[..i + 1] <==> a in atts[..i] || a == at;
      if s == 404 || s == 410 {
        continue;
      }
      if s == 0 && at.circuitOpen {
        s := TOO_MANY;
      } else if !IsThrottleStatus(s) {
        return NO_VERDICT;
      }
      if Known(t, at).Some? {
        var (ts, left) := Known(t, at).value;
        if at.status == 0 {
          s := ts;
        }
        if left > 0 && (retry == 0 || left < retry) {
          retry := left;
        }
      }
      if status != TOO_MANY {
        status := s;
      }
      ok := true;
      assert IsThrottled(at) && s == EffectiveStatus(t, at);
    }
    assert atts[..|atts|] == atts;
    if !ok {
      return NO_VERDICT;
    }
    return Verdict(true, status, retry);
  }

  /** With the breaker's own statuses the final one is 429 when any throttle was a 429, else 503. */
  lemma {:induction false} FinalStatusMeaning(atts: seq<Attempt>, t: Option<Lookup>)
    requires Faithful(t)
    ensures var any := exists a :: a in atts && IsThrottled(a);
      var many := exists a :: a in atts && IsThrottled(a) && EffectiveStatus(t, a) == TOO_MANY;
      FinalStatus(atts, t) == if many then TOO_MANY else if any then UNAVAILABLE else 0
  {
    if atts != [] {
      var n := |atts| - 1;
      FinalStatusMeaning(atts[..n], t);
      assert atts == atts[..n] + [atts[n]];
      assert forall a :: a in atts <==> a in atts[..n] || a == atts[n];
    }
  }

  lemma {:induction false} FinalRetryMeaning(atts: seq<Attempt>, t: Option<Lookup>)
    ensures FinalRetry(atts, t) >= 0 && IsShortest(atts, t, FinalRetry(atts, t))
  {
    if atts != [] {
      var n := |atts| - 1;
      FinalRetryMeaning(atts[..n], t);
      assert atts == atts[..n] + [atts[n]];
      assert forall a :: a in atts <==> a in atts[..n] || a == atts[n];
    }
  }

  /** The verdict is determined by which attempts there are: mirror order and repetition do not matter. */
  lemma VerdictIgnoresOrder(atts: seq<Attempt>, btts: seq<Attempt>, t: Option<Lookup>)
    requires Faithful(t)
    requires forall a :: a in atts <==> a in btts
    ensures VerdictOf(atts, t) == VerdictOf(btts, t)
  {
    FinalStatusMeaning(atts, t);
    FinalStatusMeaning(btts, t);
    FinalRetryMeaning(atts, t);
    FinalRetryMeaning(btts, t);
  }

  /** A lookup with another status than the breaker ever holds would make the order count. */
  lemma UnfaithfulLookupDependsOnOrder()
    ensures var t := Some((h: string) => Some((500, 1)));
      var a, b := Attempt(None, UNAVAILABLE, false), Attempt(Some("m"), 0, true);
      FinalStatus([a, b], t) == 500 && FinalStatus([b, a], t) == UNAVAILABLE
  {
    var t := Some((h: string) => Some((500, 1)));
    var a, b := Attempt(None, UNAVAILABLE, false), Attempt(Some("m"), 0, true);
    assert [a, b][..1] == [a] && [b, a][..1] == [b] && [a][..0] == [] && [b][..0] == [];
    assert FinalStatus([a], t) == UNAVAILABLE && FinalStatus([b], t) == 500;
  }

  /** "Absent everywhere" and "throttled" exclude each other, and a walk is an outage exactly when nothing was
      tried or some mirror neither lacked the artifact nor throttled. */
  lemma ClassesExclude(atts: seq<Attempt>, t: Option<Lookup>)
    requires Faithful(t)
    ensures var v := VerdictOf(atts, t);
      var absent := atts != [] && forall a | a in atts :: IsNotFound(a);
      && !(absent && v.ok)
      && (!absent && !v.ok <==> atts == [] || exists a :: a in atts && !IsNotFound(a) && !IsThrottled(a))
      && (v.ok ==> IsThrottleStatus(v.status))
  {
    FinalStatusMeaning(atts, t);
    if atts != [] {
      assert atts[0] in atts;
    }
  }

  /** Asked of any reachable breaker at any time, `Throttle` answers only with 429 or 503 and a positive cooldown. */
  lemma ReachableBreakerIsFaithful(baseDelay: int, maxDelay: int, rs: seq<Request>, now: int)
    requires Monotone(rs)
    ensures var b := Run(Breaker(baseDelay, maxDelay, map[]), rs);
      Faithful(Some((h: string) => Throttle(b, h, now)))
      && forall h :: Throttle(b, h, now).Some? ==> Throttle(b, h, now).value.1 > 0
  {
    var b := Run(Breaker(baseDelay, maxDelay, map[]), rs);
    forall h | h in b.hosts
      ensures IsThrottleStatus(b.hosts[h].status)
    {
      ReachableHosts(baseDelay, maxDelay, rs, h);
    }
  }
}
