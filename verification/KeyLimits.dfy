/** The limits on one issued key: cooldown and burst gate first, then the plan's
    token bucket. */
module KeyLimits {
  import opened Common
  import opened Buckets
  import opened BurstGate

  /** A token bucket with the rate per minute it was created with. */
  datatype Rpm = Rpm(bucket: Bucket, rpm: int)

  datatype KeyState = KeyState(gate: Gate, bucket: Option<Rpm>)
  {
    predicate Good() { bucket.Some? ==> bucket.value.rpm > 0 }
  }

  datatype Code = Fine | KeyCooldown | RateLimited

  datatype Verdict = Verdict(retry: int, code: Code)
  {
    /** The caller blocks a request only when the retry time is positive. */
    predicate Passed() { retry <= 0 }
  }

  const NEW_KEY := KeyState(OPEN, None)

  function RpmFlow(rpm: int): int -> real { Steady(rpm as real / 60.0) }

  /** A key without a bucket gets a full one. */
  function BucketOf(stored: Option<Rpm>, now: int, rpm: int): Rpm {
    if stored.Some? then stored.value else Rpm(Bucket(rpm as real, now), rpm)
  }

  function TokensAt(stored: Option<Rpm>, now: int, rpm: int): real {
    var rb := BucketOf(stored, now, rpm);
    Refilled(rb.bucket, RpmFlow(rb.rpm), rb.rpm as real, now)
  }

  function BucketAfter(stored: Option<Rpm>, now: int, rpm: int): Rpm {
    var rb := BucketOf(stored, now, rpm);
    Rpm(Taken(rb.bucket, RpmFlow(rb.rpm), rb.rpm as real, now), rb.rpm)
  }

  /** The RPM stage's answer. Its hint divides by the rate per minute. */
  function Rated(stored: Option<Rpm>, now: int, rpm: int): Verdict
    requires rpm > 0 && (stored.Some? ==> stored.value.rpm > 0)
  {
    var t := TokensAt(stored, now, rpm);
    if t < 1.0 then Verdict(WaitFor(t, BucketOf(stored, now, rpm).rpm as real), RateLimited) else Verdict(0, Fine)
  }

  function Check(rule: Rule, ks: KeyState, now: int, rpm: int): Verdict
    requires rpm > 0 && ks.Good()
  {
    match OutcomeOf(rule, ks.gate, now)
    case Cooling => Verdict(ks.gate.cooldown.value - now, KeyCooldown)
    case Tripped => Verdict(rule.cool, KeyCooldown)
    case Through => Rated(ks.bucket, now, rpm)
  }

  function Checked(rule: Rule, ks: KeyState, now: int, rpm: int): KeyState {
    KeyState(Next(rule, ks.gate, now),
             if OutcomeOf(rule, ks.gate, now) == Through then Some(BucketAfter(ks.bucket, now, rpm)) else ks.bucket)
  }

  /** A request gets past the caller exactly when the gate is open and the bucket
      holds a token, or lacks so little of one that the hint truncates to zero. */
  lemma PassedIff(rule: Rule, ks: KeyState, now: int, rpm: int)
    requires rpm > 0 && ks.Good()
    ensures Check(rule, ks, now, rpm).Passed() <==>
            && OutcomeOf(rule, ks.gate, now) == Through
            && (1.0 - TokensAt(ks.bucket, now, rpm)) * SECOND as real < BucketOf(ks.bucket, now, rpm).rpm as real
    ensures Check(rule, ks, now, rpm).code == Fine <==>
            OutcomeOf(rule, ks.gate, now) == Through && TokensAt(ks.bucket, now, rpm) >= 1.0
  {
    HintIsZeroIff(1.0 - TokensAt(ks.bucket, now, rpm), BucketOf(ks.bucket, now, rpm).rpm as real);
  }

  lemma AtLeastOne(x: real, rate: real, y: real)
    requires rate > 0.0 && x * rate == y
    ensures x >= 1.0 <==> y >= rate
  {
    DivideOut(x, 1.0, rate, rate);
  }

  lemma ScaledHint(q: real, rate: real, deficit: real)
    requires rate > 0.0 && q * rate == deficit
    ensures q * SECOND as real >= 1.0 <==> deficit * SECOND as real >= rate
  {
    var x := q * SECOND as real;
    assert x * rate == deficit * SECOND as real;
    AtLeastOne(x, rate, deficit * SECOND as real);
  }

  lemma HintIsZeroIff(deficit: real, rate: real)
    requires rate > 0.0
    ensures (deficit / rate * SECOND as real).Floor <= 0 <==> deficit * SECOND as real < rate
  {
    ScaledHint(deficit / rate, rate, deficit);
  }

  // ---- The reported wait of the RPM stage ----

  /** After a refusal with t tokens, a token is there again exactly 60 (1 - t) / rpm seconds
      later, if no other request comes in between. */
  lemma TokenIsBackIff(stored: Option<Rpm>, now: int, rpm: int, wait: nat)
    requires rpm > 0 && BucketOf(stored, now, rpm).rpm == rpm && TokensAt(stored, now, rpm) < 1.0
    ensures TokensAt(Some(BucketAfter(stored, now, rpm)), now + wait, rpm) >= 1.0
       <==> wait as real >= (1.0 - TokensAt(stored, now, rpm)) / (rpm as real / 60.0) * SECOND as real
  {
    var b := BucketAfter(stored, now, rpm).bucket;
    RetryAdmittedIff(b, rpm as real / 60.0, rpm as real, wait);
    assert AdmitsAfter(b, rpm as real / 60.0, rpm as real, wait)
      <==> TokensAt(Some(BucketAfter(stored, now, rpm)), now + wait, rpm) >= 1.0;
  }

  lemma SixtyTimes(deficit: real, rpm: real)
    requires rpm > 0.0
    ensures deficit / (rpm / 60.0) * SECOND as real == 60.0 * (deficit / rpm * SECOND as real)
  {
    var q := deficit / (rpm / 60.0);
    assert q * rpm == 60.0 * deficit;
    assert (q / 60.0) * rpm == deficit;
    Quotient(q / 60.0, rpm, deficit);
  }

  lemma Quotient(q: real, rate: real, x: real)
    requires rate > 0.0 && q * rate == x
    ensures x / rate == q
  {
    assert (x / rate - q) * rate == 0.0;
  }

  /** The reported wait divides by the rate per minute instead of per second and so is a
      sixtieth of the real one: who waits just that long finds no token. */
  lemma HintIsTooShort(stored: Option<Rpm>, now: int, rpm: int)
    requires rpm > 0 && BucketOf(stored, now, rpm).rpm == rpm && TokensAt(stored, now, rpm) < 1.0
    ensures var w, exact := Rated(stored, now, rpm).retry, (1.0 - TokensAt(stored, now, rpm)) / (rpm as real / 60.0);
      && Rated(stored, now, rpm).code == RateLimited
      && w >= 0 && 60.0 * w as real <= exact * SECOND as real < 60.0 * (w as real + 1.0)
      && TokensAt(Some(BucketAfter(stored, now, rpm)), now + w, rpm) < 1.0
  {
    var t := TokensAt(stored, now, rpm);
    Positive(1.0 - t, rpm as real);
    SixtyTimes(1.0 - t, rpm as real);
    TokenIsBackIff(stored, now, rpm, Rated(stored, now, rpm).retry);
  }

  /** What the Retry-After header says, in nanoseconds: the whole seconds of the reported
      wait and one more. */
  function HeaderWait(stored: Option<Rpm>, now: int, rpm: int): int
    requires rpm > 0 && (stored.Some? ==> stored.value.rpm > 0)
  {
    (Rated(stored, now, rpm).retry / SECOND + 1) * SECOND
  }

  /** An empty bucket of this plan. */
  function Drained(rpm: int): Option<Rpm> { Some(Rpm(Bucket(0.0, 0), rpm)) }

  predicate HeaderSuffices(stored: Option<Rpm>, now: int, rpm: int)
    requires rpm > 0 && (stored.Some? ==> stored.value.rpm > 0)
  {
    TokensAt(Some(BucketAfter(stored, now, rpm)), now + HeaderWait(stored, now, rpm), rpm) >= 1.0
  }

  lemma FastPlanHeader(stored: Option<Rpm>, now: int, rpm: int)
    requires rpm >= 60 && BucketOf(stored, now, rpm).rpm == rpm && 0.0 <= TokensAt(stored, now, rpm) < 1.0
    ensures HeaderSuffices(stored, now, rpm)
  {
    HintIsTooShort(stored, now, rpm);
    var deficit, rate := 1.0 - TokensAt(stored, now, rpm), rpm as real / 60.0;
    var header := HeaderWait(stored, now, rpm);
    assert header >= SECOND;
    assert deficit / rate <= 1.0 by { AtLeastOne(deficit / rate, rate, deficit); }
    TokenIsBackIff(stored, now, rpm, header);
  }

  lemma SlowPlanHeader(rpm: int)
    requires 0 < rpm < 60
    ensures TokensAt(Drained(rpm), 0, rpm) == 0.0 && !HeaderSuffices(Drained(rpm), 0, rpm)
  {
    assert RpmFlow(rpm)(0) == 0.0;
    HintIsTooShort(Drained(rpm), 0, rpm);
    var w, header := Rated(Drained(rpm), 0, rpm).retry, HeaderWait(Drained(rpm), 0, rpm);
    var exact := 1.0 / (rpm as real / 60.0);
    assert exact > 1.0 by { assert exact * (rpm as real / 60.0) == 1.0; AtLeastOne(exact, rpm as real / 60.0, 1.0); }
    TokenIsBackIff(Drained(rpm), 0, rpm, header);
  }

  /** The Retry-After header of an RPM refusal is always enough exactly for plans of 60
      requests a minute or more. */
  lemma HeaderSufficesIff(rpm: int)
    requires rpm > 0
    ensures (forall stored: Option<Rpm>, now ::
              BucketOf(stored, now, rpm).rpm == rpm && 0.0 <= TokensAt(stored, now, rpm) < 1.0 ==>
              HeaderSuffices(stored, now, rpm)) <==> rpm >= 60
  {
    if rpm >= 60 {
      forall stored: Option<Rpm>, now
        | BucketOf(stored, now, rpm).rpm == rpm && 0.0 <= TokensAt(stored, now, rpm) < 1.0
        ensures HeaderSuffices(stored, now, rpm)
      {
        FastPlanHeader(stored, now, rpm);
      }
    } else {
      SlowPlanHeader(rpm);
    }
  }

  // ---- Runs of one key ----

  function StateAfter(rule: Rule, rpm: int, times: seq<int>): (ks: KeyState)
    requires rpm > 0
    ensures ks.Good()
  {
    if times == [] then NEW_KEY
    else Checked(rule, StateAfter(rule, rpm, times[..|times| - 1]), times[|times| - 1], rpm)
  }

  function LastVerdict(rule: Rule, rpm: int, times: seq<int>): Verdict
    requires rpm > 0 && times != []
  {
    Check(rule, StateAfter(rule, rpm, times[..|times| - 1]), times[|times| - 1], rpm)
  }

  /** Requests with a time in (lo, hi] that the caller let pass. */
  function PassedIn(rule: Rule, rpm: int, times: seq<int>, lo: int, hi: int): nat
    requires rpm > 0
  {
    if times == [] then 0
    else
      var k := |times| - 1;
      PassedIn(rule, rpm, times[..k], lo, hi)
      + if lo < times[k] <= hi && LastVerdict(rule, rpm, times).Passed() then 1 else 0
  }

  lemma {:induction false} GateOfRun(rule: Rule, rpm: int, times: seq<int>)
    requires rpm > 0
    ensures StateAfter(rule, rpm, times).gate == BurstGate.After(rule, times)
  {
    if times != [] { GateOfRun(rule, rpm, times[..|times| - 1]); }
  }

  lemma {:induction false} PassedGotThrough(rule: Rule, rpm: int, times: seq<int>, lo: int, hi: int)
    requires rpm > 0
    ensures PassedIn(rule, rpm, times, lo, hi) <= ThroughIn(rule, times, lo, hi)
  {
    if times != [] {
      var before, now := times[..|times| - 1], times[|times| - 1];
      PassedGotThrough(rule, rpm, before, lo, hi);
      GateOfRun(rule, rpm, before);
      PassedIff(rule, StateAfter(rule, rpm, before), now, rpm);
    }
  }

  /** Whatever the plan, no span of a second at most, and no longer than the cooldown,
      passes more of a key's requests than the burst limit. */
  lemma KeyBurstIsBounded(rule: Rule, rpm: int, times: seq<int>, lo: int, span: int)
    requires rpm > 0 && rule.limit > 0 && 0 < span <= SECOND && span <= rule.cool && Ascending(times)
    ensures PassedIn(rule, rpm, times, lo, lo + span) <= rule.limit
  {
    PassedGotThrough(rule, rpm, times, lo, lo + span);
    BurstIsBounded(rule, times, lo, span);
  }

  /** From a trip until its cooldown ends every request is refused and changes
      nothing; the first one after it is judged anew. */
  lemma TripSilencesKey(rule: Rule, rpm: int, times: seq<int>)
    requires rpm > 0 && Ascending(times) && times != []
    ensures var before, now := times[..|times| - 1], times[|times| - 1];
      var trip := LastTrip(rule, before);
      if trip.Some? && now < trip.value + rule.cool then
        && LastVerdict(rule, rpm, times) == Verdict(trip.value + rule.cool - now, KeyCooldown)
        && !LastVerdict(rule, rpm, times).Passed()
        && StateAfter(rule, rpm, times) == StateAfter(rule, rpm, before)
      else
        && LastOutcome(rule, times) != Cooling
        && (LastOutcome(rule, times) == Tripped ==> LastVerdict(rule, rpm, times) == Verdict(rule.cool, KeyCooldown))
  {
    var before := times[..|times| - 1];
    AscendingPrefix(times);
    GateOfRun(rule, rpm, before);
    CoolingIff(rule, times);
    CooldownFollowsTrip(rule, before);
  }

  // ---- The RPM stage over runs ----

  /** The requests that reached the RPM stage. */
  function Reached(rule: Rule, times: seq<int>): seq<int> {
    if times == [] then []
    else
      Reached(rule, times[..|times| - 1])
      + if LastOutcome(rule, times) == Through then [times[|times| - 1]] else []
  }

  function FineIn(rule: Rule, rpm: int, times: seq<int>, lo: int, hi: int): nat
    requires rpm > 0
  {
    if times == [] then 0
    else
      var k := |times| - 1;
      FineIn(rule, rpm, times[..k], lo, hi)
      + if lo <= times[k] <= hi && LastVerdict(rule, rpm, times).code == Fine then 1 else 0
  }

  lemma {:induction false} ReachedIsOrdered(rule: Rule, times: seq<int>)
    requires Ascending(times)
    ensures Ascending(Reached(rule, times))
    ensures times != [] ==> NoneAfter(Reached(rule, times), times[|times| - 1])
  {
    if times != [] {
      AscendingPrefix(times);
      ReachedIsOrdered(rule, times[..|times| - 1]);
    }
  }

  function Full(rpm: int, reached: seq<int>): Bucket {
    Bucket(rpm as real, if reached == [] then 0 else reached[0])
  }

  lemma AppendCall(b: Bucket, flow: int -> real, cap: real, times: seq<int>, now: int, lo: int, hi: int)
    ensures var e := Buckets.After(b, flow, cap, times);
      && Buckets.After(b, flow, cap, times + [now]) == Taken(e, flow, cap, now)
      && AdmittedIn(b, flow, cap, times + [now], lo, hi)
         == AdmittedIn(b, flow, cap, times, lo, hi) + if lo <= now <= hi && Admits(e, flow, cap, now) then 1 else 0
  {
    assert (times + [now])[..|times|] == times;
  }

  /** The bucket that saw the requests which reached it. */
  function Stored(rpm: int, reached: seq<int>): Option<Rpm> {
    if reached == [] then None
    else Some(Rpm(Buckets.After(Full(rpm, reached), RpmFlow(rpm), rpm as real, reached), rpm))
  }

  lemma StoredStep(ks: KeyState, rpm: int, reached: seq<int>, now: int, lo: int, hi: int)
    requires rpm > 0 && ks.bucket == Stored(rpm, reached)
    ensures Some(BucketAfter(ks.bucket, now, rpm)) == Stored(rpm, reached + [now])
    ensures var b, flow, cap := Full(rpm, reached + [now]), RpmFlow(rpm), rpm as real;
      AdmittedIn(b, flow, cap, reached + [now], lo, hi)
      == AdmittedIn(Full(rpm, reached), flow, cap, reached, lo, hi)
         + if lo <= now <= hi && TokensAt(ks.bucket, now, rpm) >= 1.0 then 1 else 0
  {
    AppendCall(Full(rpm, reached + [now]), RpmFlow(rpm), rpm as real, reached, now, lo, hi);
    if reached == [] {
      assert BucketOf(ks.bucket, now, rpm) == Rpm(Full(rpm, reached + [now]), rpm);
    } else {
      assert Full(rpm, reached + [now]) == Full(rpm, reached);
    }
  }

  /** The stored bucket is one full bucket that saw exactly the requests that
      reached it, and its admissions are the fine answers. */
  lemma {:induction false} BucketOfRun(rule: Rule, rpm: int, times: seq<int>, lo: int, hi: int)
    requires rpm > 0
    ensures var reached := Reached(rule, times);
      && StateAfter(rule, rpm, times).bucket == Stored(rpm, reached)
      && FineIn(rule, rpm, times, lo, hi) == AdmittedIn(Full(rpm, reached), RpmFlow(rpm), rpm as real, reached, lo, hi)
  {
    if times != [] {
      var before, now := times[..|times| - 1], times[|times| - 1];
      BucketOfRun(rule, rpm, before, lo, hi);
      GateOfRun(rule, rpm, before);
      var ks := StateAfter(rule, rpm, before);
      PassedIff(rule, ks, now, rpm);
      var reached := Reached(rule, before);
      if LastOutcome(rule, times) == Through {
        StoredStep(ks, rpm, reached, now, lo, hi);
        assert Reached(rule, times) == reached + [now];
      } else {
        assert Reached(rule, times) == reached;
      }
    }
  }

  lemma FullConforms(flow: int -> real, rpm: int, reached: seq<int>, lo: int, hi: int)
    requires rpm > 0 && Additive(flow) && Ascending(reached) && lo <= hi
    ensures AdmittedIn(Full(rpm, reached), flow, rpm as real, reached, lo, hi) as real <= rpm as real + flow(hi - lo)
  {
    BucketConforms(Full(rpm, reached), flow, rpm as real, reached, lo, hi);
  }

  /** A key gets at most one minute's worth at once plus its rate: over any window
      [lo, hi] no more than rpm + rpm / 60 per second of the window. */
  lemma PlanIsBounded(rule: Rule, rpm: int, times: seq<int>, lo: int, hi: int)
    requires rpm > 0 && Ascending(times) && lo <= hi
    ensures FineIn(rule, rpm, times, lo, hi) as real <= rpm as real + RpmFlow(rpm)(hi - lo)
  {
    BucketOfRun(rule, rpm, times, lo, hi);
    ReachedIsOrdered(rule, times);
    SteadyIsAdditive(rpm as real / 60.0);
    FullConforms(RpmFlow(rpm), rpm, Reached(rule, times), lo, hi);
  }

  /** Each request waits for one token of the plan's rate: 60 / rpm seconds. */
  predicate PacedFor(rpm: int, times: seq<int>) {
    forall i :: 0 < i < |times| ==> RpmFlow(rpm)(times[i] - times[i - 1]) >= 1.0
  }

  /** The bucket has a balance and was last used by `now`. */
  predicate Solvent(stored: Option<Rpm>, rpm: int, now: int) {
    stored.Some? ==> stored.value.rpm == rpm && stored.value.bucket.tokens >= 0.0 && stored.value.bucket.last <= now
  }

  lemma SolventStep(stored: Option<Rpm>, rpm: int, prev: int, now: int)
    requires rpm > 0 && prev <= now && Solvent(stored, rpm, prev)
    requires stored.Some? ==> RpmFlow(rpm)(now - prev) >= 1.0
    ensures TokensAt(stored, now, rpm) >= 1.0
    ensures Solvent(Some(BucketAfter(stored, now, rpm)), rpm, now)
  {
    var flow := RpmFlow(rpm);
    SteadyIsAdditive(rpm as real / 60.0);
    var last := BucketOf(stored, now, rpm).bucket.last;
    assert SplitsAt(flow, now - prev, prev - last) && SplitsAt(flow, prev - last, 0) && SplitsAt(flow, 0, 0);
  }

  lemma PacedStep(rule: Rule, ks: KeyState, rpm: int, prev: int, now: int)
    requires rpm > 0 && ks.Good() && prev <= now && Solvent(ks.bucket, rpm, prev)
    requires ks.bucket.Some? ==> RpmFlow(rpm)(now - prev) >= 1.0
    ensures Check(rule, ks, now, rpm).code != RateLimited
    ensures Solvent(Checked(rule, ks, now, rpm).bucket, rpm, now)
  {
    SolventStep(ks.bucket, rpm, prev, now);
  }

  /** A caller that paces itself so is never refused by the RPM stage. */
  lemma {:induction false} PacedIsNeverRateLimited(rule: Rule, rpm: int, times: seq<int>)
    requires rpm > 0 && Ascending(times) && PacedFor(rpm, times) && times != []
    ensures LastVerdict(rule, rpm, times).code != RateLimited
    ensures Solvent(StateAfter(rule, rpm, times).bucket, rpm, times[|times| - 1])
  {
    var before, now := times[..|times| - 1], times[|times| - 1];
    if before == [] {
      PacedStep(rule, NEW_KEY, rpm, now, now);
    } else {
      AscendingPrefix(times);
      PacedIsNeverRateLimited(rule, rpm, before);
      PacedStep(rule, StateAfter(rule, rpm, before), rpm, before[|before| - 1], now);
    }
  }

  // ---- The service's tables ----

  /** The request times of the last second of one key. */
  class BurstWin {
    var t: seq<int>
    ghost const owner: string

    constructor (ghost owner: string)
      ensures t == [] && this.owner == owner
    {
      t := [];
      this.owner := owner;
    }

    /** Drops what is older than a second, adds `now`; too long a list is emptied.
        The kept entries are written over the front of the buffer being read. */
    method Note(now: int, limit: int) returns (tripped: bool)
      modifies this`t
      ensures var w := Newer(old(t), now - SECOND) + [now];
        tripped == (|w| > limit) && t == if tripped then [] else w
    {
      var cutoff, kept, i := now - SECOND, 0, 0;
      ghost var was := t;
      while i < |t|
        invariant 0 <= kept <= i <= |t| == |was|
        invariant t[i..] == was[i..]
        invariant t[..kept] == Newer(was[..i], cutoff)
      {
        assert t[i] == t[i..][0] == was[i];
        assert was[..i + 1][..i] == was[..i] && t[i..][1..] == t[i + 1..] && was[i..][1..] == was[i + 1..];
        if t[i] > cutoff {
          t := t[kept := t[i]];
          kept := kept + 1;
        }
        i := i + 1;
      }
      assert was[..i] == was;
      t := t[..kept] + [now];
      tripped := |t| > limit;
      if tripped { t := []; }
    }
  }

  /** The RPM arithmetic: refill up to the cap, take a token or report the hint. */
  method Draw(rb: Rpm, now: int) returns (bucket: Bucket, retry: int, code: Code)
    requires rb.rpm > 0
    ensures bucket == Taken(rb.bucket, RpmFlow(rb.rpm), rb.rpm as real, now)
    ensures var t := Refilled(rb.bucket, RpmFlow(rb.rpm), rb.rpm as real, now);
      Verdict(retry, code) == if t < 1.0 then Verdict(WaitFor(t, rb.rpm as real), RateLimited) else Verdict(0, Fine)
  {
    var elapsed := Secs(now - rb.bucket.last);
    var tokens := rb.bucket.tokens + elapsed * (rb.rpm as real / 60.0);
    var cap := rb.rpm as real;
    if tokens > cap { tokens := cap; }
    if tokens < 1.0 {
      var deficit := 1.0 - tokens;
      return Bucket(tokens, now), (deficit / cap * SECOND as real).Floor, RateLimited;
    }
    return Bucket(tokens - 1.0, now), 0, Fine;
  }

  class KeyLimiter {
    const rule: Rule
    var cooldowns: map<string, int>
    var burstWin: map<string, BurstWin>
    var rpmBuckets: map<string, Rpm>

    constructor (rule: Rule)
      ensures Valid() && this.rule == rule && forall key :: KeyView(key) == NEW_KEY
    {
      this.rule := rule;
      cooldowns, burstWin, rpmBuckets := map[], map[], map[];
    }

    /** Every key has a list of its own. */
    ghost predicate Valid()
      reads this, burstWin.Values
    {
      && (forall k :: k in burstWin ==> burstWin[k].owner == k)
      && (forall k :: k in rpmBuckets ==> rpmBuckets[k].rpm > 0)
    }

    ghost function Window(key: string): seq<int>
      reads this`burstWin, burstWin.Values
    {
      if key in burstWin then burstWin[key].t else []
    }

    /** What the tables hold about one key. */
    ghost function KeyView(key: string): KeyState
      reads this`cooldowns, this`burstWin, this`rpmBuckets, burstWin.Values
    {
      KeyState(Gate(if key in cooldowns then Some(cooldowns[key]) else None, Window(key)),
               if key in rpmBuckets then Some(rpmBuckets[key]) else None)
    }

    /** Records a request in the key's list, made when missing; answers whether it
        is now too long. */
    method Record(key: string, now: int) returns (tripped: bool)
      requires Valid()
      modifies this`burstWin, burstWin.Values
      ensures Valid() && fresh(burstWin.Values - old(burstWin.Values))
      ensures var w := Newer(old(Window(key)), now - SECOND) + [now];
        tripped == (|w| > rule.limit) && Window(key) == if tripped then [] else w
      ensures forall k :: k != key ==> Window(k) == old(Window(k))
    {
      if key !in burstWin {
        var made := new BurstWin(key);
        burstWin := burstWin[key := made];
      }
      tripped := burstWin[key].Note(now, rule.limit);
    }

    /** One token from the key's bucket, or the hint when it is empty. */
    method TakeToken(key: string, now: int, rpm: int) returns (retry: int, code: Code)
      requires rpm > 0 && KeyView(key).Good()
      modifies this`rpmBuckets
      ensures Verdict(retry, code) == Rated(old(KeyView(key)).bucket, now, rpm)
      ensures rpmBuckets == old(rpmBuckets)[key := BucketAfter(old(KeyView(key)).bucket, now, rpm)]
    {
      var rb := if key in rpmBuckets then rpmBuckets[key] else Rpm(Bucket(rpm as real, now), rpm);
      var bucket;
      bucket, retry, code := Draw(rb, now);
      rpmBuckets := rpmBuckets[key := rb.(bucket := bucket)];
    }

    /** Burst stage, then RPM stage, for a key in no cooldown. */
    method Judge(key: string, now: int, rpm: int) returns (retry: int, code: Code)
      requires Valid() && rpm > 0 && key !in cooldowns
      modifies this, burstWin.Values
      ensures Valid() && fresh(burstWin.Values - old(burstWin.Values))
      ensures Verdict(retry, code) == Check(rule, old(KeyView(key)), now, rpm)
      ensures KeyView(key) == Checked(rule, old(KeyView(key)), now, rpm)
      ensures forall k :: k != key ==> KeyView(k) == old(KeyView(k))
    {
      OpenKey(rule, KeyView(key), now, rpm);
      if rule.limit > 0 && rule.cool > 0 {
        var tripped := Record(key, now);
        if tripped {
          cooldowns := cooldowns[key := now + rule.cool];
          return rule.cool, KeyCooldown;
        }
      }
      retry, code := TakeToken(key, now, rpm);
    }

    method CheckKeyLimits(key: string, now: int, rpm: int) returns (retry: int, code: Code)
      requires Valid()
      modifies this, burstWin.Values
      ensures Valid() && fresh(burstWin.Values - old(burstWin.Values))
      ensures old(KeyView(key)).Good()
      ensures rpm <= 0 ==> retry == 0 && code == Fine && KeyView(key) == old(KeyView(key))
      ensures rpm > 0 ==> Verdict(retry, code) == Check(rule, old(KeyView(key)), now, rpm)
      ensures rpm > 0 ==> KeyView(key) == Checked(rule, old(KeyView(key)), now, rpm)
      ensures forall k :: k != key ==> KeyView(k) == old(KeyView(k))
    {
      if rpm <= 0 { return 0, Fine; }
      if key in cooldowns {
        var until := cooldowns[key];
        if now < until { return until - now, KeyCooldown; }
        ClearedAlike(rule, KeyView(key), now, rpm);
        cooldowns := cooldowns - {key};
      }
      retry, code := Judge(key, now, rpm);
    }
  }

  lemma OpenKey(rule: Rule, ks: KeyState, now: int, rpm: int)
    requires rpm > 0 && ks.Good() && ks.gate.cooldown == None
    ensures var w := Newer(ks.gate.window, now - SECOND) + [now];
      if rule.On() && |w| > rule.limit then
        && Check(rule, ks, now, rpm) == Verdict(rule.cool, KeyCooldown)
        && Checked(rule, ks, now, rpm) == KeyState(Gate(Some(now + rule.cool), []), ks.bucket)
      else
        && Check(rule, ks, now, rpm) == Rated(ks.bucket, now, rpm)
        && Checked(rule, ks, now, rpm)
           == KeyState(Gate(None, if rule.On() then w else ks.gate.window), Some(BucketAfter(ks.bucket, now, rpm)))
  {
  }

  /** Clearing a cooldown that is over changes no answer. */
  lemma ClearedAlike(rule: Rule, ks: KeyState, now: int, rpm: int)
    requires rpm > 0 && ks.Good() && !InCooldown(ks.gate, now)
    ensures var cleared := KeyState(Gate(None, ks.gate.window), ks.bucket);
      && Check(rule, cleared, now, rpm) == Check(rule, ks, now, rpm)
      && Checked(rule, cleared, now, rpm) == Checked(rule, ks, now, rpm)
  {
  }
}
