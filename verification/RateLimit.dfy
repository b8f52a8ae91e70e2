/** The per-host token bucket in front of the upstreams, over real time and real tokens. */
module RateLimit {
  import opened Domain

  datatype Bucket = Bucket(tokens: real, last: real)
  datatype Limiter = Limiter(rate: real, burst: real, buckets: map<string, Bucket>)
  datatype Call = Call(host: string, now: real)

  function NewLimiter(perSecond: real, burst: int): Limiter {
    Limiter(perSecond, if burst as real < 1.0 then 1.0 else burst as real, map[])
  }

  predicate Limiting(l: Limiter) { l.rate > 0.0 && l.burst >= 1.0 }

  /** Every positive rate makes a limiter that limits, with the burst asked for or the least one. */
  lemma NewLimiterLimits(perSecond: real, burst: int)
    ensures Limiting(NewLimiter(perSecond, burst)) <==> perSecond > 0.0
    ensures NewLimiter(perSecond, burst).buckets == map[]
    ensures burst >= 1 ==> NewLimiter(perSecond, burst).burst == burst as real
  {
  }

  /** What the bucket gains over a stretch of time. */
  function Accrued(rate: real, from: real, to: real): real { (to - from) * rate }

  /** The host's bucket once one token is taken at `now`; the tokens may go below zero. */
  function Taken(l: Limiter, host: string, now: real): Bucket {
    var b := if host in l.buckets then l.buckets[host] else Bucket(l.burst, now);
    var filled := b.tokens + Accrued(l.rate, b.last, now);
    Bucket((if filled > l.burst then l.burst else filled) - 1.0, now)
  }

  function WaitOf(l: Limiter, b: Bucket): real
    requires l.rate > 0.0
  {
    if b.tokens >= 0.0 then 0.0 else -b.tokens / l.rate
  }

  function Reserve(l: Limiter, host: string, now: real): (Limiter, real)
    requires l.rate > 0.0
  {
    var b := Taken(l, host, now);
    (l.(buckets := l.buckets[host := b]), WaitOf(l, b))
  }

  class RateLimiter {
    const rate: real
    const burst: real
    var buckets: map<string, Bucket>

    ghost function State(): Limiter
      reads this
    {
      Limiter(rate, burst, buckets)
    }

    constructor (perSecond: real, burst: int)
      ensures State() == NewLimiter(perSecond, burst)
    {
      this.rate := perSecond;
      this.burst := if burst as real < 1.0 then 1.0 else burst as real;
      buckets := map[];
    }

    method DoReserve(host: string, now: real) returns (wait: real)
      requires rate > 0.0
      modifies this
      ensures (State(), wait) == Reserve(old(State()), host, now)
    {
      ghost var before := buckets;
      if host !in buckets {
        buckets := buckets[host := Bucket(burst, now)];
      }
      var tokens := buckets[host].tokens + (now - buckets[host].last) * rate;
      if tokens > burst {
        tokens := burst;
      }
      tokens := tokens - 1.0;
      buckets := buckets[host := Bucket(tokens, now)];
      assert buckets == before[host := Bucket(tokens, now)];
      if tokens >= 0.0 {
        return 0.0;
      }
      return -tokens / rate;
    }
  }

  // ---------------------------------------------------------------- releases over a run

  function Run(l: Limiter, calls: seq<Call>): Limiter
    requires Limiting(l)
    ensures Run(l, calls).rate == l.rate && Run(l, calls).burst == l.burst
  {
    if calls == [] then l
    else
      var n := |calls| - 1;
      Reserve(Run(l, calls[..n]), calls[n].host, calls[n].now).0
  }

  /** When call k may go: its own time plus the wait it was told. */
  function Release(l: Limiter, calls: seq<Call>, k: nat): real
    requires Limiting(l) && k < |calls|
  {
    calls[k].now + Reserve(Run(l, calls[..k]), calls[k].host, calls[k].now).1
  }

  function CallsTo(calls: seq<Call>, host: string): nat {
    if calls == [] then 0 else CallsTo(calls[..|calls| - 1], host) + if calls[|calls| - 1].host == host then 1 else 0
  }

  predicate Monotone(calls: seq<Call>) {
    forall i, j | 0 <= i < j < |calls| :: calls[i].now <= calls[j].now
  }

  lemma RunSplits(l: Limiter, a: seq<Call>, b: seq<Call>)
    requires Limiting(l)
    ensures Run(l, a + b) == Run(Run(l, a), b)
    decreases |b|
  {
    if b == [] {
      assert a + b == a;
    } else {
      var n := |b| - 1;
      assert (a + b)[..|a + b| - 1] == a + b[..n];
      RunSplits(l, a, b[..n]);
    }
  }

  lemma AccruesInSteps(rate: real, a: real, b: real, c: real)
    ensures Accrued(rate, a, b) + Accrued(rate, b, c) == Accrued(rate, a, c)
    ensures Accrued(rate, a, a) == 0.0
  {
  }

  lemma AccruesForward(rate: real, a: real, b: real)
    requires rate > 0.0
    ensures Accrued(rate, a, b) >= 0.0 <==> a <= b
  {
  }

  /** The wait is what it takes to pay the overdrawn tokens back. */
  lemma WaitPaysTokens(l: Limiter, b: Bucket, t: real)
    requires l.rate > 0.0
    ensures Accrued(l.rate, t, t + WaitOf(l, b)) == if b.tokens >= 0.0 then 0.0 else -b.tokens
  {
    var w := WaitOf(l, b);
    assert w * l.rate == if b.tokens >= 0.0 then 0.0 else -b.tokens;
    assert (t + w) - t == w;
  }

  /** Between two calls a host's bucket gains at most the elapsed time's worth and loses one token for each call. */
  lemma {:induction false} BucketDeclines(l: Limiter, calls: seq<Call>, host: string)
    requires Limiting(l) && host in l.buckets
    ensures var b, after := l.buckets[host], Run(l, calls);
      && host in after.buckets
      && after.buckets[host].tokens
         <= b.tokens + Accrued(l.rate, b.last, after.buckets[host].last) - CallsTo(calls, host) as real
  {
    hide Accrued;
    var last := l.buckets[host].last;
    if calls == [] {
      AccruesInSteps(l.rate, last, last, last);
    } else {
      var n := |calls| - 1;
      BucketDeclines(l, calls[..n], host);
      if calls[n].host == host {
        var mid := Run(l, calls[..n]).buckets[host];
        AccruesInSteps(l.rate, last, mid.last, calls[n].now);
      }
    }
  }

  function BucketAfter(l: Limiter, calls: seq<Call>, k: nat): Bucket
    requires Limiting(l) && k < |calls|
  {
    Taken(Run(l, calls[..k]), calls[k].host, calls[k].now)
  }

  lemma BucketStored(l: Limiter, calls: seq<Call>, k: nat)
    requires Limiting(l) && k < |calls|
    ensures var after := Run(l, calls[..k + 1]);
      calls[k].host in after.buckets && after.buckets[calls[k].host] == BucketAfter(l, calls, k)
    ensures BucketAfter(l, calls, k).last == calls[k].now
    ensures Release(l, calls, k) == calls[k].now + WaitOf(l, BucketAfter(l, calls, k))
  {
    assert calls[..k + 1][..k] == calls[..k];
  }

  lemma TokensBetween(l: Limiter, calls: seq<Call>, i: nat, j: nat)
    requires Limiting(l) && i <= j < |calls| && calls[i].host == calls[j].host
    ensures BucketAfter(l, calls, j).tokens
         <= BucketAfter(l, calls, i).tokens + Accrued(l.rate, calls[i].now, calls[j].now)
            + 1.0 - CallsTo(calls[i..j + 1], calls[i].host) as real
  {
    hide Accrued, Taken;
    var first, between := calls[..i + 1], calls[i + 1..j + 1];
    assert calls[..j + 1] == first + between;
    RunSplits(l, first, between);
    BucketStored(l, calls, i);
    BucketStored(l, calls, j);
    BucketDeclines(Run(l, first), between, calls[i].host);
    CountFirst(calls, i, j);
  }

  /** Releases to one host never go back in time, and any stretch of them is no denser than burst plus rate times
      its length, for every run with a clock that does not go back, whatever happens to other hosts in between. */
  lemma ReleasesAreBounded(l: Limiter, calls: seq<Call>, i: nat, j: nat)
    requires Limiting(l) && Monotone(calls)
    requires i <= j < |calls| && calls[i].host == calls[j].host
    ensures Release(l, calls, i) <= Release(l, calls, j)
    ensures CallsTo(calls[i..j + 1], calls[i].host) as real
         <= l.burst + Accrued(l.rate, Release(l, calls, i), Release(l, calls, j))
  {
    var bi, bj, ti, tj := BucketAfter(l, calls, i), BucketAfter(l, calls, j), calls[i].now, calls[j].now;
    var ri, rj := Release(l, calls, i), Release(l, calls, j);
    assert bi.tokens <= l.burst - 1.0;
    hide Accrued, Taken, BucketAfter, WaitOf, Run, Release;
    BucketStored(l, calls, i);
    BucketStored(l, calls, j);
    TokensBetween(l, calls, i, j);
    CountFirst(calls, i, j);
    WaitPaysTokens(l, bi, ti);
    WaitPaysTokens(l, bj, tj);
    AccruesInSteps(l.rate, ti, ri, rj);
    AccruesInSteps(l.rate, ti, tj, rj);
    AccruesForward(l.rate, ti, tj);
    AccruesForward(l.rate, ri, rj);
  }

  lemma CountFirst(calls: seq<Call>, i: nat, j: nat)
    requires i <= j < |calls|
    ensures CallsTo(calls[i..j + 1], calls[i].host) == 1 + CallsTo(calls[i + 1..j + 1], calls[i].host)
  {
    assert calls[i..j + 1] == [calls[i]] + calls[i + 1..j + 1];
    CallsSplit([calls[i]], calls[i + 1..j + 1], calls[i].host);
    assert [calls[i]][..0] == [];
  }

  lemma CallsSplit(a: seq<Call>, b: seq<Call>, host: string)
    ensures CallsTo(a + b, host) == CallsTo(a, host) + CallsTo(b, host)
    decreases |b|
  {
    if b == [] {
      assert a + b == a;
    } else {
      var n := |b| - 1;
      assert (a + b)[..|a + b| - 1] == a + b[..n];
      CallsSplit(a, b[..n], host);
    }
  }

  lemma {:induction false} NoCallsNoBucket(l: Limiter, calls: seq<Call>, host: string)
    requires Limiting(l) && l.buckets == map[] && CallsTo(calls, host) == 0
    ensures host !in Run(l, calls).buckets
  {
    if calls != [] {
      NoCallsNoBucket(l, calls[..|calls| - 1], host);
    }
  }

  /** Call i found the bucket full, and nothing has been clipped since. */
  predicate FullAt(l: Limiter, calls: seq<Call>, host: string, i: nat)
    requires Limiting(l)
  {
    && i < |calls| && calls[i].host == host
    && BucketAfter(l, calls, i) == Bucket(l.burst - 1.0, calls[i].now)
    && host in Run(l, calls).buckets
    && var b := Run(l, calls).buckets[host];
       b.tokens == l.burst - CallsTo(calls[i..], host) as real + Accrued(l.rate, calls[i].now, b.last)
  }

  lemma FullNow(l: Limiter, calls: seq<Call>, host: string)
    requires Limiting(l) && calls != [] && calls[|calls| - 1].host == host
    requires BucketAfter(l, calls, |calls| - 1).tokens == l.burst - 1.0
    ensures FullAt(l, calls, host, |calls| - 1)
  {
    var n := |calls| - 1;
    var one := [calls[n]];
    assert calls[n..] == one && one[..0] == [] && CallsTo(one, host) == 1;
    assert calls[..n + 1] == calls;
    BucketStored(l, calls, n);
    assert BucketAfter(l, calls, n) == Bucket(l.burst - 1.0, calls[n].now);
    AccruesInSteps(l.rate, calls[n].now, calls[n].now, calls[n].now);
    hide Accrued;
  }

  lemma FirstCallIsFull(l: Limiter, calls: seq<Call>, host: string)
    requires Limiting(l) && l.buckets == map[] && calls != [] && calls[|calls| - 1].host == host
    requires CallsTo(calls[..|calls| - 1], host) == 0
    ensures BucketAfter(l, calls, |calls| - 1).tokens == l.burst - 1.0
  {
    var n := |calls| - 1;
    NoCallsNoBucket(l, calls[..n], host);
    AccruesInSteps(l.rate, calls[n].now, calls[n].now, calls[n].now);
    hide Accrued, Run;
  }

  lemma StaysFullAt(l: Limiter, calls: seq<Call>, host: string, i: nat)
    requires Limiting(l) && calls != [] && FullAt(l, calls[..|calls| - 1], host, i)
    requires calls[|calls| - 1].host == host ==> BucketAfter(l, calls, |calls| - 1).tokens != l.burst - 1.0
    ensures FullAt(l, calls, host, i)
  {
    var n := |calls| - 1;
    assert calls[..n][..i] == calls[..i] && calls[i..][..n - i] == calls[..n][i..];
    var b := Run(l, calls[..n]).buckets[host];
    AccruesInSteps(l.rate, calls[i].now, b.last, calls[n].now);
    hide Accrued;
  }

  /** There is such a call: at the latest the host's first one. */
  lemma {:induction false} LastFullBucket(l: Limiter, calls: seq<Call>, host: string)
    requires Limiting(l) && l.buckets == map[] && CallsTo(calls, host) > 0
    ensures exists i: nat :: FullAt(l, calls, host, i)
  {
    var n := |calls| - 1;
    if calls[n].host == host && CallsTo(calls[..n], host) == 0 {
      FirstCallIsFull(l, calls, host);
      FullNow(l, calls, host);
    } else if calls[n].host == host && BucketAfter(l, calls, n).tokens == l.burst - 1.0 {
      FullNow(l, calls, host);
    } else {
      LastFullBucket(l, calls[..n], host);
      var i: nat :| FullAt(l, calls[..n], host, i);
      StaysFullAt(l, calls, host, i);
    }
    hide FullAt, BucketAfter, Run;
  }

  /** The calls from i to j to j's host are as many as the bound allows, not one fewer. */
  predicate Saturated(l: Limiter, calls: seq<Call>, i: nat, j: nat)
    requires Limiting(l)
  {
    && i <= j < |calls| && calls[i].host == calls[j].host
    && CallsTo(calls[i..j + 1], calls[j].host) as real
         == l.burst + Accrued(l.rate, Release(l, calls, i), Release(l, calls, j))
  }

  lemma FullBucketSaturates(l: Limiter, calls: seq<Call>, i: nat, j: nat)
    requires Limiting(l) && j < |calls| && FullAt(l, calls[..j + 1], calls[j].host, i)
    requires BucketAfter(l, calls, j).tokens < 0.0
    ensures Saturated(l, calls, i, j)
  {
    var upTo := calls[..j + 1];
    assert upTo[..i] == calls[..i] && upTo[i..] == calls[i..j + 1];
    BucketStored(l, calls, i);
    BucketStored(l, calls, j);
    var bi, bj := BucketAfter(l, calls, i), BucketAfter(l, calls, j);
    assert bi == BucketAfter(l, upTo, i);
    var ti, tj, rj := calls[i].now, calls[j].now, Release(l, calls, j);
    assert WaitOf(l, bi) == 0.0;
    hide Accrued, BucketAfter, WaitOf, Run, Release;
    WaitPaysTokens(l, bj, tj);
    AccruesInSteps(l.rate, ti, tj, rj);
  }

  /** Nobody waits for nothing: a call told to wait closes a stretch that is exactly as dense as allowed. */
  lemma WaitsAreNeeded(l: Limiter, calls: seq<Call>, j: nat)
    requires Limiting(l) && l.buckets == map[] && j < |calls| && Release(l, calls, j) > calls[j].now
    ensures exists i: nat :: Saturated(l, calls, i, j)
  {
    var host, upTo := calls[j].host, calls[..j + 1];
    CountLast(upTo, host);
    LastFullBucket(l, upTo, host);
    var i: nat :| FullAt(l, upTo, host, i);
    BucketStored(l, calls, j);
    assert BucketAfter(l, calls, j).tokens < 0.0;
    FullBucketSaturates(l, calls, i, j);
    hide FullAt, Saturated;
  }

  lemma CountLast(calls: seq<Call>, host: string)
    requires calls != [] && calls[|calls| - 1].host == host
    ensures CallsTo(calls, host) > 0
  {
  }
}
