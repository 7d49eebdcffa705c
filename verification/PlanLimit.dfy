/** What a key's plan and burst rule together let past the caller: requests with a
    token, and requests refused with a hint that truncates to zero. */
module PlanLimit {
  import opened Common
  import opened Buckets
  import opened BurstGate
  import opened KeyLimits

  /** In the window [lo, hi] the caller lets no more pass than a minute's worth plus the
      plan's rate over the window. */
  predicate KeepsPlan(rule: Rule, rpm: int, times: seq<int>, lo: int, hi: int)
    requires rpm > 0
  {
    PassedIn(rule, rpm, times, lo - 1, hi) as real <= rpm as real + RpmFlow(rpm)(hi - lo)
  }

  ghost predicate WithinPlan(rule: Rule, rpm: int, times: seq<int>)
    requires rpm > 0
  {
    forall lo, hi :: lo <= hi ==> KeepsPlan(rule, rpm, times, lo, hi)
  }

  /** The span no more than the burst limit gets through in. */
  function Span(rule: Rule): int { if rule.cool < SECOND then rule.cool else SECOND }

  /** The burst rule admits no more than the plan's rate. */
  predicate Slower(rule: Rule, rpm: int) { rule.On() && 60 * SECOND * rule.limit <= rpm * Span(rule) }

  lemma KeyStep(rule: Rule, rpm: int, times: seq<int>, now: int, lo: int, hi: int)
    requires rpm > 0
    ensures var ks := StateAfter(rule, rpm, times);
      && StateAfter(rule, rpm, times + [now]) == Checked(rule, ks, now, rpm)
      && PassedIn(rule, rpm, times + [now], lo, hi)
         == PassedIn(rule, rpm, times, lo, hi) + if lo < now <= hi && Check(rule, ks, now, rpm).Passed() then 1 else 0
  {
    assert (times + [now])[..|times|] == times;
  }

  // ---- A slower burst rule keeps the plan ----

  lemma {:induction false} PassedSplits(rule: Rule, rpm: int, times: seq<int>, lo: int, mid: int, hi: int)
    requires rpm > 0 && lo <= mid <= hi
    ensures PassedIn(rule, rpm, times, lo, hi)
         == PassedIn(rule, rpm, times, lo, mid) + PassedIn(rule, rpm, times, mid, hi)
  {
    if times != [] { PassedSplits(rule, rpm, times[..|times| - 1], lo, mid, hi); }
  }

  lemma {:induction false} NothingWithin(rule: Rule, rpm: int, times: seq<int>, lo: int)
    requires rpm > 0
    ensures PassedIn(rule, rpm, times, lo, lo) == 0
  {
    if times != [] { NothingWithin(rule, rpm, times[..|times| - 1], lo); }
  }

  lemma OneMore(n: int, each: int)
    ensures (n - 1) * each + each == n * each
  {
  }

  /** Over so many spans, so many times the burst limit. */
  lemma {:induction false} PassedBySpans(rule: Rule, rpm: int, times: seq<int>, lo: int, span: int, n: nat)
    requires rpm > 0 && rule.limit > 0 && 0 < span <= SECOND && span <= rule.cool && Ascending(times)
    ensures PassedIn(rule, rpm, times, lo, lo + n * span) <= n * rule.limit
  {
    hide PassedIn, Ascending;
    if n == 0 {
      NothingWithin(rule, rpm, times, lo);
    } else {
      var mid := lo + (n - 1) * span;
      PassedBySpans(rule, rpm, times, lo, span, n - 1);
      OneMore(n, span);
      OneMore(n, rule.limit);
      PassedSplits(rule, rpm, times, lo, mid, mid + span);
      KeyBurstIsBounded(rule, rpm, times, mid, span);
    }
  }

  /** The inflow of a span in whole numbers. */
  lemma FlowIs(rpm: int, d: int)
    ensures RpmFlow(rpm)(d) * (60 * SECOND) as real == (rpm * d) as real
  {
    assert Secs(d) * SECOND as real == d as real;
    assert (rpm * d) as real == rpm as real * d as real;
  }

  lemma SpansFit(n: int, each: int, span: int, rpm: int, d: int)
    requires n >= 1 && each <= rpm * span && span <= SECOND && 0 < rpm && (n - 1) * span <= d
    ensures n * each <= rpm * SECOND + rpm * d
  {
    Times(n - 1, each, rpm * span);
    Times(rpm, (n - 1) * span, d);
    Times(rpm, span, SECOND);
    assert (n - 1) * (rpm * span) == rpm * ((n - 1) * span);
    assert n * each == (n - 1) * each + each;
  }

  lemma SpansFitPlan(n: int, limit: int, span: int, rpm: int, d: int)
    requires n >= 1 && 60 * SECOND * limit <= rpm * span && span <= SECOND && 0 < rpm && (n - 1) * span <= d
    ensures (n * limit) as real <= rpm as real + RpmFlow(rpm)(d)
  {
    SpansFit(n, 60 * SECOND * limit, span, rpm, d);
    FlowIs(rpm, d);
    var passed, inflow := n * limit, rpm * d;
    assert n * (60 * SECOND * limit) == 60 * SECOND * passed;
    assert 60 * SECOND * passed <= rpm * SECOND + inflow;
  }

  lemma Times(a: int, b: int, c: int)
    requires a >= 0 && b <= c
    ensures a * b <= a * c
  {
    assert a * (c - b) >= 0;
  }

  lemma SpansOver(d: int, span: int) returns (n: int)
    requires 0 <= d && 0 < span
    ensures n >= 1 && (n - 1) * span <= d < n * span
  {
    n := d / span + 1;
  }

  /** With a burst rule no faster than the plan's rate everything that passes is
      within the plan, truncated hints included. */
  lemma SlowerObeysPlan(rule: Rule, rpm: int, times: seq<int>, lo: int, hi: int)
    requires rpm > 0 && Slower(rule, rpm) && Ascending(times) && lo <= hi
    ensures KeepsPlan(rule, rpm, times, lo, hi)
  {
    var d, span := hi - lo, Span(rule);
    var n := SpansOver(d, span);
    PassedBySpans(rule, rpm, times, lo - 1, span, n);
    PassedSplits(rule, rpm, times, lo - 1, hi, lo - 1 + n * span);
    SpansFitPlan(n, rule.limit, span, rpm, d);
  }

  // ---- Without the burst gate the plan leaks ----

  /** Just before an emptied bucket holds a token again. */
  function Brink(rpm: int): (t: nat)
    requires rpm > 0
  {
    (60 * SECOND - 1) / rpm
  }

  lemma BrinkTokens(rpm: int)
    requires rpm > 0
    ensures var f := RpmFlow(rpm)(Brink(rpm)); 0.0 <= f < 1.0 && (1.0 - f) * SECOND as real < rpm as real
  {
    var t := Brink(rpm);
    assert 60 * SECOND - 1 - rpm < t * rpm <= 60 * SECOND - 1;
    assert Secs(t) * (rpm as real / 60.0) == (t * rpm) as real / (60 * SECOND) as real;
  }

  /** The bucket k requests into a minute's worth. */
  function Drained(rpm: int, k: nat): Option<Rpm> {
    if k == 0 then None else Some(Rpm(Bucket(rpm as real - k as real, 0), rpm))
  }

  lemma DrainStep(rpm: int, k: nat)
    requires k < rpm
    ensures Some(BucketAfter(Drained(rpm, k), 0, rpm)) == Drained(rpm, k + 1)
  {
    assert RpmFlow(rpm)(0) == 0.0;
  }

  lemma UngatedStep(rule: Rule, ks: KeyState, now: int, rpm: int)
    requires rpm > 0 && ks.Good() && !rule.On() && ks.gate == OPEN
    ensures Checked(rule, ks, now, rpm) == KeyState(OPEN, Some(BucketAfter(ks.bucket, now, rpm)))
    ensures Check(rule, ks, now, rpm) == Rated(ks.bucket, now, rpm)
  {
  }

  lemma {:induction false} DrainedRun(rule: Rule, rpm: int, k: nat)
    requires !rule.On() && k <= rpm && rpm > 0
    ensures StateAfter(rule, rpm, Repeat(0, k)) == KeyState(OPEN, Drained(rpm, k))
  {
    if k > 0 {
      DrainedRun(rule, rpm, k - 1);
      assert Repeat(0, k) == Repeat(0, k - 1) + [0];
      KeyStep(rule, rpm, Repeat(0, k - 1), 0, 0, 0);
      UngatedStep(rule, StateAfter(rule, rpm, Repeat(0, k - 1)), 0, rpm);
      DrainStep(rpm, k - 1);
    }
  }

  /** A minute's worth at once, then n requests on the brink. */
  function Flood(rpm: int, n: nat): seq<int>
    requires rpm > 0
  {
    Repeat(0, rpm) + Repeat(Brink(rpm), n)
  }

  /** What the flood meets: an empty bucket first, then one on the brink. */
  function OnBrink(rpm: int, n: nat): Option<Rpm>
    requires rpm > 0
  {
    if n == 0 then Some(Rpm(Bucket(0.0, 0), rpm)) else Some(Rpm(Bucket(RpmFlow(rpm)(Brink(rpm)), Brink(rpm)), rpm))
  }

  lemma BrinkStep(rpm: int, n: nat)
    requires rpm > 0
    ensures TokensAt(OnBrink(rpm, n), Brink(rpm), rpm) == RpmFlow(rpm)(Brink(rpm))
    ensures Some(BucketAfter(OnBrink(rpm, n), Brink(rpm), rpm)) == OnBrink(rpm, n + 1)
  {
    BrinkTokens(rpm);
    assert RpmFlow(rpm)(0) == 0.0;
  }

  lemma {:induction false} FloodState(rule: Rule, rpm: int, n: nat)
    requires !rule.On() && rpm > 0
    ensures StateAfter(rule, rpm, Flood(rpm, n)) == KeyState(OPEN, OnBrink(rpm, n))
  {
    if n == 0 {
      assert Flood(rpm, 0) == Repeat(0, rpm);
      DrainedRun(rule, rpm, rpm);
    } else {
      FloodState(rule, rpm, n - 1);
      assert Flood(rpm, n) == Flood(rpm, n - 1) + [Brink(rpm)];
      KeyStep(rule, rpm, Flood(rpm, n - 1), Brink(rpm), 0, 0);
      UngatedStep(rule, KeyState(OPEN, OnBrink(rpm, n - 1)), Brink(rpm), rpm);
      BrinkStep(rpm, n - 1);
    }
  }

  lemma FloodVerdict(rule: Rule, rpm: int, n: nat)
    requires !rule.On() && rpm > 0
    ensures Check(rule, StateAfter(rule, rpm, Flood(rpm, n)), Brink(rpm), rpm) == Verdict(0, RateLimited)
  {
    FloodState(rule, rpm, n);
    UngatedStep(rule, KeyState(OPEN, OnBrink(rpm, n)), Brink(rpm), rpm);
    BrinkVerdict(rpm, n);
  }

  lemma PassesAt(rule: Rule, rpm: int, times: seq<int>, t: int)
    requires rpm > 0 && Check(rule, StateAfter(rule, rpm, times), t, rpm) == Verdict(0, RateLimited)
    ensures PassedIn(rule, rpm, times + [t], t - 1, t) == PassedIn(rule, rpm, times, t - 1, t) + 1
    ensures LastVerdict(rule, rpm, times + [t]) == Verdict(0, RateLimited)
  {
    assert (times + [t])[..|times|] == times;
    KeyStep(rule, rpm, times, t, t - 1, t);
  }

  /** Every one of them passes although none finds a token. */
  lemma {:induction false} FloodPasses(rule: Rule, rpm: int, n: nat)
    requires !rule.On() && rpm > 0
    ensures PassedIn(rule, rpm, Flood(rpm, n), Brink(rpm) - 1, Brink(rpm)) >= n
    ensures n > 0 ==> LastVerdict(rule, rpm, Flood(rpm, n)) == Verdict(0, RateLimited)
  {
    if n > 0 {
      FloodPasses(rule, rpm, n - 1);
      FloodVerdict(rule, rpm, n - 1);
      PassesAt(rule, rpm, Flood(rpm, n - 1), Brink(rpm));
      assert Flood(rpm, n) == Flood(rpm, n - 1) + [Brink(rpm)];
    }
  }

  lemma BrinkVerdict(rpm: int, n: nat)
    requires rpm > 0
    ensures Rated(OnBrink(rpm, n), Brink(rpm), rpm) == Verdict(0, RateLimited)
  {
    BrinkStep(rpm, n);
    BrinkTokens(rpm);
    var f := RpmFlow(rpm)(Brink(rpm));
    HintIsZeroIff(1.0 - f, rpm as real);
    WaitIsPositive(f, rpm as real);
  }

  lemma WaitIsPositive(tokens: real, rate: real)
    requires tokens < 1.0 && rate > 0.0
    ensures WaitFor(tokens, rate) >= 0
  {
    Positive(1.0 - tokens, rate);
  }

  lemma FloodAscends(rpm: int, n: nat)
    requires rpm > 0
    ensures Ascending(Flood(rpm, n))
  {
    var times := Flood(rpm, n);
    assert forall i :: 0 <= i < |times| ==> times[i] == if i < rpm then 0 else Brink(rpm);
  }

  lemma TooManyAtOnce(rule: Rule, rpm: int, times: seq<int>, t: int)
    requires rpm > 0 && PassedIn(rule, rpm, times, t - 1, t) > rpm
    ensures !WithinPlan(rule, rpm, times)
  {
    assert RpmFlow(rpm)(t - t) == 0.0;
    assert !KeepsPlan(rule, rpm, times, t, t);
  }

  /** With the burst gate off no plan is kept: some run in time order passes more. */
  lemma UngatedPlanLeaks(rule: Rule, rpm: int) returns (times: seq<int>)
    requires !rule.On() && rpm > 0
    ensures Ascending(times) && !WithinPlan(rule, rpm, times)
  {
    times := Flood(rpm, rpm + 1);
    FloodAscends(rpm, rpm + 1);
    FloodPasses(rule, rpm, rpm + 1);
    TooManyAtOnce(rule, rpm, times, Brink(rpm));
  }


  // ---- A faster burst rule leaks ----

  /** The gate has seen i requests at time t. */
  predicate Counted(g: Gate, t: int, i: nat) { !InCooldown(g, t) && Newer(g.window, t - SECOND) == Repeat(t, i) }

  lemma CountedStep(rule: Rule, g: Gate, t: int, i: nat)
    requires rule.On() && i < rule.limit && Counted(g, t, i)
    ensures OutcomeOf(rule, g, t) == Through && Next(rule, g, t) == Gate(None, Repeat(t, i + 1))
    ensures Counted(Gate(None, Repeat(t, i + 1)), t, i + 1)
  {
    assert Repeat(t, i + 1) == Repeat(t, i) + [t];
    NewerOfRepeat(t, i + 1, t - SECOND);
  }

  /** A bucket of this plan that holds, at time t, so many tokens short of what a hint
      of zero forgives. */
  predicate Lasts(stored: Option<Rpm>, rpm: int, t: int, need: int) {
    BucketOf(stored, t, rpm).rpm == rpm && Covers(TokensAt(stored, t, rpm), rpm, need)
  }

  predicate Covers(tokens: real, rpm: int, need: int) {
    tokens >= 0.0 && (need as real - tokens) * (60 * SECOND) as real <= rpm as real
  }

  lemma TakenNow(stored: Option<Rpm>, rpm: int, t: int)
    requires rpm > 0 && BucketOf(stored, t, rpm).rpm == rpm
    ensures var u := TokensAt(stored, t, rpm);
      TokensAt(Some(BucketAfter(stored, t, rpm)), t, rpm) == if u >= 1.0 then u - 1.0 else u
  {
    assert RpmFlow(rpm)(0) == 0.0;
  }

  lemma LastsStep(stored: Option<Rpm>, rpm: int, t: int, need: int)
    requires rpm > 0 && need >= 1 && Lasts(stored, rpm, t, need)
    ensures (1.0 - TokensAt(stored, t, rpm)) * SECOND as real < rpm as real
    ensures Lasts(Some(BucketAfter(stored, t, rpm)), rpm, t, need - 1)
  {
    TakenNow(stored, rpm, t);
  }

  /** i requests into a batch of m at time t. */
  predicate Midway(ks: KeyState, rpm: int, t: int, i: nat, m: int) {
    Counted(ks.gate, t, i) && Lasts(ks.bucket, rpm, t, m - i)
  }

  lemma MidwayStep(rule: Rule, ks: KeyState, rpm: int, t: int, i: nat, m: int)
    requires rpm > 0 && ks.Good() && rule.On() && i < m <= rule.limit && Midway(ks, rpm, t, i, m)
    ensures Check(rule, ks, t, rpm).Passed()
    ensures var after := Checked(rule, ks, t, rpm);
      after.gate == Gate(None, Repeat(t, i + 1)) && Midway(after, rpm, t, i + 1, m)
  {
    CountedStep(rule, ks.gate, t, i);
    LastsStep(ks.bucket, rpm, t, m - i);
    PassedIff(rule, ks, t, rpm);
    hide TokensAt, BucketAfter, Newer, Next, OutcomeOf, InCooldown, Covers;
  }

  /** Every request of the batch passes. */
  lemma {:induction false} BatchPasses(rule: Rule, rpm: int, times: seq<int>, t: int, i: nat, m: int, lo: int, hi: int)
    requires rpm > 0 && rule.On() && i <= m <= rule.limit && lo < t <= hi
    requires Midway(StateAfter(rule, rpm, times), rpm, t, 0, m)
    ensures var ks := StateAfter(rule, rpm, times + Repeat(t, i));
      Midway(ks, rpm, t, i, m) && (i > 0 ==> ks.gate == Gate(None, Repeat(t, i)))
    ensures PassedIn(rule, rpm, times + Repeat(t, i), lo, hi) == PassedIn(rule, rpm, times, lo, hi) + i
  {
    hide StateAfter, PassedIn, Check, Checked, Midway;
    if i == 0 {
      assert times + Repeat(t, 0) == times;
    } else {
      BatchPasses(rule, rpm, times, t, i - 1, m, lo, hi);
      var before := times + Repeat(t, i - 1);
      KeyStep(rule, rpm, before, t, lo, hi);
      MidwayStep(rule, StateAfter(rule, rpm, before), rpm, t, i - 1, m);
      assert times + Repeat(t, i) == before + [t];
    }
  }

  /** A batch of m every `gap`, each with one request more when they are to trip. */
  datatype Plan = Plan(m: nat, gap: int, trips: bool)
  {
    predicate Leaks(rule: Rule, rpm: int) {
      && 0 < m <= rule.limit && m <= rpm && rpm * gap < 60 * SECOND * m <= rpm * (gap + 1)
      && (if trips then m == rule.limit && rule.cool <= gap else SECOND <= gap)
    }

    function At(n: nat): int { if n == 0 then 0 else At(n - 1) + gap }

    function Tail(t: int): seq<int> { if trips then [t] else [] }

    function Run(n: nat): seq<int> {
      if n == 0 then [] else Run(n - 1) + Repeat(At(n - 1), m) + Tail(At(n - 1))
    }
  }

  lemma {:induction false} NoneNewer(t: int, n: nat, c: int)
    requires t <= c
    ensures Newer(Repeat(t, n), c) == []
  {
    if n > 0 {
      NoneNewer(t, n - 1, c);
      assert Repeat(t, n)[..n - 1] == Repeat(t, n - 1);
    }
  }

  lemma Refills(stored: Option<Rpm>, rpm: int, t: int, gap: int, m: int)
    requires 0 < m <= rpm && 0 <= gap && Lasts(stored, rpm, t, 0) && 60 * SECOND * m <= rpm * (gap + 1)
    ensures Lasts(stored, rpm, t + gap, m)
  {
    FlowIs(rpm, gap);
    FlowIs(rpm, 0);
    SteadyIsAdditive(rpm as real / 60.0);
    var last := BucketOf(stored, t, rpm).bucket.last;
    assert SplitsAt(RpmFlow(rpm), t - last, gap) && SplitsAt(RpmFlow(rpm), gap, 0);
  }

  /** The gate a batch leaves behind, after the request that trips if there is one. */
  function Left(rule: Rule, plan: Plan, t: int): Gate {
    if plan.trips then Gate(Some(t + rule.cool), []) else Gate(None, Repeat(t, plan.m))
  }

  lemma LeftIsOpen(rule: Rule, plan: Plan, rpm: int, t: int)
    requires rpm > 0 && plan.Leaks(rule, rpm)
    ensures Counted(Left(rule, plan, t), t + plan.gap, 0)
  {
    if !plan.trips { NoneNewer(t, plan.m, t + plan.gap - SECOND); }
  }

  lemma FullBatchTrips(rule: Rule, t: int)
    requires rule.On()
    ensures OutcomeOf(rule, Gate(None, Repeat(t, rule.limit)), t) == Tripped
    ensures Next(rule, Gate(None, Repeat(t, rule.limit)), t) == Gate(Some(t + rule.cool), [])
  {
    NewerOfRepeat(t, rule.limit, t - SECOND);
  }

  lemma TailStep(rule: Rule, plan: Plan, rpm: int, times: seq<int>, t: int, lo: int, hi: int)
    requires rpm > 0 && rule.On() && plan.Leaks(rule, rpm)
    requires StateAfter(rule, rpm, times).gate == Gate(None, Repeat(t, plan.m))
    ensures StateAfter(rule, rpm, times + plan.Tail(t))
         == KeyState(Left(rule, plan, t), StateAfter(rule, rpm, times).bucket)
    ensures PassedIn(rule, rpm, times + plan.Tail(t), lo, hi) >= PassedIn(rule, rpm, times, lo, hi)
  {
    if plan.trips {
      KeyStep(rule, rpm, times, t, lo, hi);
      FullBatchTrips(rule, t);
    } else {
      assert times + [] == times;
    }
  }

  /** One batch passes in full, and the next one will. */
  lemma BatchStep(rule: Rule, plan: Plan, rpm: int, times: seq<int>, t: int, lo: int, hi: int)
    requires rpm > 0 && rule.On() && plan.Leaks(rule, rpm) && 0 <= plan.gap && lo < t <= hi
    requires Midway(StateAfter(rule, rpm, times), rpm, t, 0, plan.m)
    ensures var next := times + Repeat(t, plan.m) + plan.Tail(t);
      && Midway(StateAfter(rule, rpm, next), rpm, t + plan.gap, 0, plan.m)
      && PassedIn(rule, rpm, next, lo, hi) >= PassedIn(rule, rpm, times, lo, hi) + plan.m
  {
    hide StateAfter, PassedIn, Counted, Lasts, Check, Checked;
    BatchPasses(rule, rpm, times, t, plan.m, plan.m, lo, hi);
    var batch := times + Repeat(t, plan.m);
    TailStep(rule, plan, rpm, batch, t, lo, hi);
    LeftIsOpen(rule, plan, rpm, t);
    Refills(StateAfter(rule, rpm, batch).bucket, rpm, t, plan.gap, plan.m);
  }

  lemma {:induction false} AtIsLinear(plan: Plan, n: nat)
    ensures plan.At(n) == n * plan.gap
  {
    if n > 0 {
      AtIsLinear(plan, n - 1);
      OneMore(n, plan.gap);
    }
  }

  lemma NewKeyIsReady(rpm: int, m: int)
    requires 0 < m <= rpm
    ensures Midway(NEW_KEY, rpm, 0, 0, m)
  {
    FlowIs(rpm, 0);
  }

  lemma {:induction false} RunPasses(rule: Rule, plan: Plan, rpm: int, n: nat, hi: int)
    requires rpm > 0 && rule.On() && plan.Leaks(rule, rpm) && 0 <= plan.gap
    requires n > 0 ==> plan.At(n - 1) <= hi
    ensures Midway(StateAfter(rule, rpm, plan.Run(n)), rpm, plan.At(n), 0, plan.m) && plan.At(n) >= 0
    ensures PassedIn(rule, rpm, plan.Run(n), -1, hi) >= n * plan.m
  {
    if n == 0 {
      NewKeyIsReady(rpm, plan.m);
    } else {
      hide Midway, StateAfter, PassedIn, Plan.Leaks, Repeat, Plan.Tail;
      RunPasses(rule, plan, rpm, n - 1, hi);
      BatchStep(rule, plan, rpm, plan.Run(n - 1), plan.At(n - 1), -1, hi);
      OneMore(n, plan.m);
    }
  }

  lemma {:induction false} RunAscends(plan: Plan, n: nat)
    requires plan.m > 0 && plan.gap >= 0
    ensures Ascending(plan.Run(n)) && NoneAfter(plan.Run(n), plan.At(n))
    ensures n > 0 ==> NoneAfter(plan.Run(n), plan.At(n - 1))
  {
    if n > 0 { RunAscends(plan, n - 1); }
  }

  /** A batch is worth more than what flows in until the next one: in the end the plan
      is exceeded. */
  lemma TooMuchInTheEnd(plan: Plan, rpm: int, passed: int, n: nat)
    requires 0 < rpm && 0 < plan.m && rpm * plan.gap < 60 * SECOND * plan.m
    requires n == 60 * SECOND * rpm && passed >= (n + 1) * plan.m
    ensures passed as real > rpm as real + RpmFlow(rpm)(n * plan.gap)
  {
    FlowIs(rpm, n * plan.gap);
    Times(n, rpm * plan.gap, 60 * SECOND * plan.m - 1);
    assert rpm * (n * plan.gap) == n * (rpm * plan.gap);
    assert n * (60 * SECOND * plan.m - 1) == 60 * SECOND * (n * plan.m) - n;
    OneMore(n + 1, plan.m);
  }

  lemma PlanLeaks(rule: Rule, plan: Plan, rpm: int) returns (times: seq<int>)
    requires rpm > 0 && rule.On() && plan.Leaks(rule, rpm) && 0 <= plan.gap
    ensures Ascending(times) && !WithinPlan(rule, rpm, times)
  {
    hide StateAfter, PassedIn, Midway, Plan.Run, Plan.At, Ascending;
    var n := 60 * SECOND * rpm;
    var hi := plan.At(n);
    times := plan.Run(n + 1);
    RunPasses(rule, plan, rpm, n + 1, hi);
    RunAscends(plan, n + 1);
    AtIsLinear(plan, n);
    TooMuchInTheEnd(plan, rpm, PassedIn(rule, rpm, times, -1, hi), n);
    assert !KeepsPlan(rule, rpm, times, 0, hi);
  }

  /** The longest gap in which fewer than m tokens flow in. */
  function Gap(rpm: int, m: int): int
    requires rpm > 0
  {
    (60 * SECOND * m - 1) / rpm
  }

  lemma GapFits(rpm: int, m: int, span: int)
    requires rpm > 0 && rpm * span < 60 * SECOND * m
    ensures rpm * Gap(rpm, m) < 60 * SECOND * m <= rpm * (Gap(rpm, m) + 1) && span <= Gap(rpm, m)
  {
    var g := Gap(rpm, m);
    assert rpm * g <= 60 * SECOND * m - 1 < rpm * g + rpm;
    if g + 1 <= span { Times(rpm, g + 1, span); }
  }

  /** The leaking plan of a rule that is on and faster than the plan: without a trip when
      a batch can outweigh a second, else with one trip a batch. */
  function Leak(rule: Rule, rpm: int): Plan
    requires rpm > 0 && rule.On()
  {
    var m := if rule.limit < rpm then rule.limit else rpm;
    Plan(m, Gap(rpm, m), 60 * m <= rpm)
  }

  lemma LeakLeaks(rule: Rule, rpm: int)
    requires rpm > 0 && rule.On() && !Slower(rule, rpm)
    ensures Leak(rule, rpm).Leaks(rule, rpm) && Leak(rule, rpm).gap >= 0
  {
    var plan := Leak(rule, rpm);
    GapFits(rpm, plan.m, if plan.trips then rule.cool else SECOND);
  }

  /** Everything that passes stays within the plan, over every window of every run,
      exactly when the burst rule is on and no faster than the plan's rate: its limit
      times a minute at most the plan times a second, or times the cooldown if that is
      shorter. */
  lemma PlanKeptIff(rule: Rule, rpm: int)
    requires rpm > 0
    ensures (forall times :: Ascending(times) ==> WithinPlan(rule, rpm, times)) <==> Slower(rule, rpm)
  {
    if Slower(rule, rpm) {
      forall times, lo, hi | Ascending(times) && lo <= hi ensures KeepsPlan(rule, rpm, times, lo, hi) {
        SlowerObeysPlan(rule, rpm, times, lo, hi);
      }
    } else {
      var times: seq<int>;
      if rule.On() {
        LeakLeaks(rule, rpm);
        times := PlanLeaks(rule, Leak(rule, rpm), rpm);
      } else {
        times := UngatedPlanLeaks(rule, rpm);
      }
    }
  }

  /** With the burst rule the gateway starts with by default, five a second and five
      minutes of cooldown, a plan is kept exactly from 300 a minute on. */
  lemma DefaultBurstKeepsIff(rpm: int)
    requires rpm > 0
    ensures var rule := Rule(5, 300 * SECOND);
      (forall times :: Ascending(times) ==> WithinPlan(rule, rpm, times)) <==> rpm >= 300
  {
    PlanKeptIff(Rule(5, 300 * SECOND), rpm);
  }
}
