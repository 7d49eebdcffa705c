/** Token buckets over exact reals: what a refill-on-demand bucket admits. Times are
    nanoseconds; `flow` gives the tokens that run in over a time span. */
module Buckets {
  import opened Common

  datatype Bucket = Bucket(tokens: real, last: int)

  function Secs(d: int): real { d as real / SECOND as real }

  /** A constant rate in tokens per second. */
  function Steady(rate: real): int -> real { d => Secs(d) * rate }

  function Refilled(b: Bucket, flow: int -> real, cap: real, now: int): real {
    var t := b.tokens + flow(now - b.last);
    if t > cap then cap else t
  }

  predicate Admits(b: Bucket, flow: int -> real, cap: real, now: int) { Refilled(b, flow, cap, now) >= 1.0 }

  function Taken(b: Bucket, flow: int -> real, cap: real, now: int): Bucket {
    var t := Refilled(b, flow, cap, now);
    Bucket(if t >= 1.0 then t - 1.0 else t, now)
  }

  /** The wait reported on refusal, truncated to whole nanoseconds. */
  function WaitFor(tokens: real, rate: real): int
    requires rate > 0.0
  {
    ((1.0 - tokens) / rate * SECOND as real).Floor
  }

  class TokenBucket {
    var tokens: real
    var last: int
    const rps: real
    const cap: real

    constructor (tokens: real, last: int, rps: real, cap: real)
      ensures View() == Bucket(tokens, last) && this.rps == rps && this.cap == cap
    {
      this.tokens, this.last, this.rps, this.cap := tokens, last, rps, cap;
    }

    function View(): Bucket
      reads this
    {
      Bucket(tokens, last)
    }

    method Allow(now: int) returns (ok: bool, retryAfter: int)
      requires rps > 0.0
      modifies this`tokens, this`last
      ensures ok == old(Admits(View(), Steady(rps), cap, now)) && View() == old(Taken(View(), Steady(rps), cap, now))
      ensures retryAfter == if ok then 0 else WaitFor(tokens, rps)
    {
      var elapsed := Secs(now - last);
      tokens := tokens + elapsed * rps;
      if tokens > cap { tokens := cap; }
      last := now;
      if tokens >= 1.0 {
        tokens := tokens - 1.0;
        return true, 0;
      }
      var deficit := 1.0 - tokens;
      return false, (deficit / rps * SECOND as real).Floor;
    }
  }

  // ---- Any sequence of calls ----

  function After(b: Bucket, flow: int -> real, cap: real, times: seq<int>): Bucket {
    if times == [] then b
    else Taken(After(b, flow, cap, times[..|times| - 1]), flow, cap, times[|times| - 1])
  }

  predicate AdmittedAt(b: Bucket, flow: int -> real, cap: real, times: seq<int>, i: nat)
    requires i < |times|
  {
    Admits(After(b, flow, cap, times[..i]), flow, cap, times[i])
  }

  /** How many calls with a time in [lo, hi] were admitted. */
  function AdmittedIn(b: Bucket, flow: int -> real, cap: real, times: seq<int>, lo: int, hi: int): nat {
    if times == [] then 0
    else
      var k := |times| - 1;
      AdmittedIn(b, flow, cap, times[..k], lo, hi)
      + if lo <= times[k] <= hi && AdmittedAt(b, flow, cap, times, k) then 1 else 0
  }

  predicate Ordered(from: int, times: seq<int>) {
    && (forall i :: 0 <= i < |times| ==> from <= times[i])
    && (forall i, j :: 0 <= i < j < |times| ==> times[i] <= times[j])
  }

  predicate SplitsAt(flow: int -> real, a: int, b: int) {
    flow(a) + flow(b) == flow(a + b) && (a >= 0 ==> flow(a) >= 0.0)
  }

  /** Inflow adds up and is never negative. */
  ghost predicate Additive(flow: int -> real) { forall a, b :: SplitsAt(flow, a, b) }

  lemma SteadyIsAdditive(rate: real)
    requires rate > 0.0
    ensures Additive(Steady(rate))
  {
    forall a, b ensures SplitsAt(Steady(rate), a, b) {
      assert Secs(a + b) == Secs(a) + Secs(b);
      assert Secs(a) * rate + Secs(b) * rate == Secs(a + b) * rate;
      if a >= 0 { assert Secs(a) * rate >= 0.0; }
    }
  }

  /** Admitted so far plus tokens left never exceeds the capacity plus what ran in
      since the window opened. */
  ghost predicate Budgeted(cap: real, flow: int -> real, e: Bucket, n: nat, lo: int, hi: int) {
    && 0.0 <= e.tokens <= cap
    && (e.last < lo ==> n == 0)
    && (lo <= e.last <= hi ==> n as real + e.tokens <= cap + flow(e.last - lo))
    && (e.last > hi ==> n as real <= cap + flow(hi - lo))
  }

  lemma BudgetStep(e: Bucket, flow: int -> real, cap: real, now: int, lo: int, hi: int, n: nat)
    requires Additive(flow) && lo <= hi && e.last <= now && Budgeted(cap, flow, e, n, lo, hi)
    ensures Budgeted(cap, flow, Taken(e, flow, cap, now),
                     n + if lo <= now <= hi && Admits(e, flow, cap, now) then 1 else 0, lo, hi)
  {
    assert SplitsAt(flow, now - e.last, e.last - lo) && SplitsAt(flow, now - lo, 0) && SplitsAt(flow, hi - lo, 0);
    assert SplitsAt(flow, hi - e.last, e.last - lo);
  }

  lemma {:induction false} BudgetHolds(b: Bucket, flow: int -> real, cap: real, times: seq<int>, lo: int, hi: int)
    requires Additive(flow) && 0.0 <= b.tokens <= cap && Ordered(b.last, times) && lo <= hi
    ensures Budgeted(cap, flow, After(b, flow, cap, times), AdmittedIn(b, flow, cap, times, lo, hi), lo, hi)
    ensures After(b, flow, cap, times).last == if times == [] then b.last else times[|times| - 1]
  {
    if times == [] {
      assert SplitsAt(flow, hi - lo, 0) && SplitsAt(flow, b.last - lo, 0);
    } else {
      var k := |times| - 1;
      BudgetHolds(b, flow, cap, times[..k], lo, hi);
      BudgetStep(After(b, flow, cap, times[..k]), flow, cap, times[k], lo, hi,
                 AdmittedIn(b, flow, cap, times[..k], lo, hi));
    }
  }

  /** Conformance: over any calls in time order, any window [lo, hi] admits at most
      the capacity plus the inflow of the window. */
  lemma BucketConforms(b: Bucket, flow: int -> real, cap: real, times: seq<int>, lo: int, hi: int)
    requires Additive(flow) && 0.0 <= b.tokens <= cap && Ordered(b.last, times) && lo <= hi
    ensures AdmittedIn(b, flow, cap, times, lo, hi) as real <= cap + flow(hi - lo)
  {
    BudgetHolds(b, flow, cap, times, lo, hi);
    var e := After(b, flow, cap, times);
    assert SplitsAt(flow, hi - lo, 0) && SplitsAt(flow, hi - e.last, e.last - lo);
  }

  /** The gaps are long enough for one token each. */
  predicate Paced(flow: int -> real, times: seq<int>) {
    forall i :: 0 < i < |times| ==> flow(times[i] - times[i - 1]) >= 1.0
  }

  /** A caller that starts with a token and paces itself is never refused. */
  lemma {:induction false} PacedIsNeverRefused(b: Bucket, flow: int -> real, cap: real, times: seq<int>, i: nat)
    requires Additive(flow) && 1.0 <= b.tokens <= cap && Ordered(b.last, times) && Paced(flow, times) && i < |times|
    ensures AdmittedAt(b, flow, cap, times, i)
    ensures After(b, flow, cap, times[..i + 1]).tokens >= 0.0
    ensures After(b, flow, cap, times[..i + 1]).last == times[i]
  {
    assert times[..i + 1][..i] == times[..i];
    if i == 0 {
      assert SplitsAt(flow, times[0] - b.last, 0);
    } else {
      PacedIsNeverRefused(b, flow, cap, times, i - 1);
    }
  }

  // ---- The reported wait ----

  predicate AdmitsAfter(b: Bucket, rate: real, cap: real, wait: int) {
    Admits(b, Steady(rate), cap, b.last + wait)
  }

  lemma DivideOut(x: real, need: real, rate: real, y: real)
    requires rate > 0.0 && need * rate == y
    ensures x * rate >= y <==> x >= need
  {
    assert x >= need ==> (x - need) * rate >= 0.0;
    assert x < need ==> (need - x) * rate > 0.0;
  }

  /** A retry `wait` nanoseconds later (no calls in between) is admitted exactly
      from the exact waiting time on. */
  lemma RetryAdmittedIff(b: Bucket, rate: real, cap: real, wait: nat)
    requires rate > 0.0 && cap >= 1.0 > b.tokens
    ensures AdmitsAfter(b, rate, cap, wait) <==> wait as real >= (1.0 - b.tokens) / rate * SECOND as real
  {
    var need := (1.0 - b.tokens) / rate;
    DivideOut(Secs(wait), need, rate, 1.0 - b.tokens);
    assert Secs(wait) >= need <==> wait as real >= need * SECOND as real;
    assert AdmitsAfter(b, rate, cap, wait) <==> b.tokens + Secs(wait) * rate >= 1.0;
  }

  /** The reported wait is the least that works up to its truncation: it works
      exactly when it is exact, nothing shorter does, and one nanosecond more
      always works. The Retry-After header, whole seconds plus one, always works. */
  lemma ReportedWait(b: Bucket, rate: real, cap: real, wait: nat)
    requires rate > 0.0 && cap >= 1.0 > b.tokens
    ensures var w := WaitFor(b.tokens, rate);
      && w >= 0
      && (wait < w ==> !AdmitsAfter(b, rate, cap, wait))
      && (AdmitsAfter(b, rate, cap, w) <==> w as real == (1.0 - b.tokens) / rate * SECOND as real)
      && AdmitsAfter(b, rate, cap, w + 1)
      && AdmitsAfter(b, rate, cap, (w / SECOND + 1) * SECOND)
  {
    var exact := (1.0 - b.tokens) / rate * SECOND as real;
    Positive(1.0 - b.tokens, rate);
    var w := WaitFor(b.tokens, rate);
    RetryAdmittedIff(b, rate, cap, wait);
    RetryAdmittedIff(b, rate, cap, w);
    RetryAdmittedIff(b, rate, cap, w + 1);
    RetryAdmittedIff(b, rate, cap, (w / SECOND + 1) * SECOND);
  }

  /** A refill of three tokens a second: the wait for a third of a second, as reported,
      ends a nanosecond before the token is there. */
  lemma TruncatedWaitFails()
    ensures var w := WaitFor(0.0, 3.0);
      w == 333_333_333 && !AdmitsAfter(Bucket(0.0, 0), 3.0, 3.0, w) && AdmitsAfter(Bucket(0.0, 0), 3.0, 3.0, w + 1)
  {
    assert WaitFor(0.0, 3.0) == 333_333_333;
    ReportedWait(Bucket(0.0, 0), 3.0, 3.0, 0);
  }

  lemma Positive(x: real, y: real)
    requires x > 0.0 && y > 0.0
    ensures x / y > 0.0
  {
  }
}
