/** The burst tripwire of one issued key: a cooldown and the request times of the
    last second; and what whole runs of requests can get past it. */
module BurstGate {
  import opened Common

  /** More than `limit` requests in a second cost a pause of `cool`. */
  datatype Rule = Rule(limit: int, cool: int)
  {
    predicate On() { limit > 0 && cool > 0 }
  }

  datatype Gate = Gate(cooldown: Option<int>, window: seq<int>)

  datatype Outcome = Cooling | Tripped | Through

  const OPEN := Gate(None, [])

  /** The entries after the cutoff, in order. */
  function Newer(times: seq<int>, cutoff: int): seq<int> {
    if times == [] then []
    else
      var k := |times| - 1;
      Newer(times[..k], cutoff) + if times[k] > cutoff then [times[k]] else []
  }

  predicate InCooldown(g: Gate, now: int) { g.cooldown.Some? && now < g.cooldown.value }

  function OutcomeOf(rule: Rule, g: Gate, now: int): Outcome {
    if InCooldown(g, now) then Cooling
    else if rule.On() && |Newer(g.window, now - SECOND)| + 1 > rule.limit then Tripped
    else Through
  }

  function Next(rule: Rule, g: Gate, now: int): Gate {
    match OutcomeOf(rule, g, now)
    case Cooling => g
    case Tripped => Gate(Some(now + rule.cool), [])
    case Through => Gate(None, if rule.On() then Newer(g.window, now - SECOND) + [now] else g.window)
  }

  // ---- Runs: the requests at some times, in order ----

  function After(rule: Rule, times: seq<int>): Gate {
    if times == [] then OPEN
    else Next(rule, After(rule, times[..|times| - 1]), times[|times| - 1])
  }

  /** What became of the last request. */
  function LastOutcome(rule: Rule, times: seq<int>): Outcome
    requires times != []
  {
    OutcomeOf(rule, After(rule, times[..|times| - 1]), times[|times| - 1])
  }

  predicate Ascending(times: seq<int>) {
    forall i, j :: 0 <= i < j < |times| ==> times[i] <= times[j]
  }

  predicate NoneAfter(times: seq<int>, t: int) { forall i :: 0 <= i < |times| ==> times[i] <= t }

  /** Requests with a time in (lo, hi] that the gate let through. */
  function ThroughIn(rule: Rule, times: seq<int>, lo: int, hi: int): nat {
    if times == [] then 0
    else
      var k := |times| - 1;
      ThroughIn(rule, times[..k], lo, hi)
      + if lo < times[k] <= hi && LastOutcome(rule, times) == Through then 1 else 0
  }

  /** The requests since the last trip that no cooldown refused. */
  function SinceTrip(rule: Rule, times: seq<int>): seq<int> {
    if times == [] then []
    else
      var before := times[..|times| - 1];
      match LastOutcome(rule, times)
      case Cooling => SinceTrip(rule, before)
      case Tripped => []
      case Through => SinceTrip(rule, before) + [times[|times| - 1]]
  }

  function LastTrip(rule: Rule, times: seq<int>): Option<int> {
    if times == [] then None
    else if LastOutcome(rule, times) == Tripped then Some(times[|times| - 1])
    else LastTrip(rule, times[..|times| - 1])
  }

  // ---- The window is the history of the last second ----

  lemma NewerAppend(times: seq<int>, t: int, c: int)
    ensures Newer(times + [t], c) == Newer(times, c) + if t > c then [t] else []
  {
    assert (times + [t])[..|times|] == times;
  }

  lemma {:induction false} NewerTwice(times: seq<int>, c: int, d: int)
    requires c <= d
    ensures Newer(Newer(times, c), d) == Newer(times, d)
  {
    if times != [] {
      var k := |times| - 1;
      NewerTwice(times[..k], c, d);
      if times[k] > c {
        NewerAppend(Newer(times[..k], c), times[k], d);
      } else {
        assert Newer(times, c) == Newer(times[..k], c);
      }
    }
  }

  /** The entries less than a second older than the last one. */
  function Recent(h: seq<int>): seq<int> {
    if h == [] then [] else Newer(h, h[|h| - 1] - SECOND)
  }

  lemma RecentNewer(h: seq<int>, now: int)
    requires NoneAfter(h, now)
    ensures Newer(Recent(h), now - SECOND) == Newer(h, now - SECOND)
  {
    if h != [] { NewerTwice(h, h[|h| - 1] - SECOND, now - SECOND); }
  }

  lemma RecentAppend(h: seq<int>, now: int)
    ensures Recent(h + [now]) == Newer(h, now - SECOND) + [now]
  {
    NewerAppend(h, now, now - SECOND);
  }

  lemma AscendingPrefix(times: seq<int>)
    requires times != [] && Ascending(times)
    ensures Ascending(times[..|times| - 1]) && NoneAfter(times[..|times| - 1], times[|times| - 1])
    ensures NoneAfter(times, times[|times| - 1])
  {
  }

  lemma {:induction false} SinceTripIsPast(rule: Rule, times: seq<int>, t: int)
    requires NoneAfter(times, t)
    ensures NoneAfter(SinceTrip(rule, times), t)
  {
    if times != [] { SinceTripIsPast(rule, times[..|times| - 1], t); }
  }

  lemma WindowStep(rule: Rule, g: Gate, h: seq<int>, now: int)
    requires rule.On() && g.window == Recent(h) && NoneAfter(h, now)
    ensures OutcomeOf(rule, g, now) == Tripped
       <==> !InCooldown(g, now) && |Newer(h, now - SECOND)| >= rule.limit
    ensures OutcomeOf(rule, g, now) == Through ==> Next(rule, g, now).window == Recent(h + [now])
  {
    RecentNewer(h, now);
    RecentAppend(h, now);
  }

  /** The compacted list is always the requests of the last second since the last
      trip, those refused by a cooldown left out. */
  lemma {:induction false} WindowIsHistory(rule: Rule, times: seq<int>)
    requires rule.On() && Ascending(times)
    ensures After(rule, times).window == Recent(SinceTrip(rule, times))
  {
    if times != [] {
      var before, now := times[..|times| - 1], times[|times| - 1];
      AscendingPrefix(times);
      WindowIsHistory(rule, before);
      SinceTripIsPast(rule, before, now);
      WindowStep(rule, After(rule, before), SinceTrip(rule, before), now);
    }
  }

  /** A request outside any cooldown trips exactly when it is one too many among
      the requests of the last second since the last trip. */
  lemma TripsIff(rule: Rule, times: seq<int>)
    requires rule.On() && Ascending(times) && times != []
    ensures var before, now := times[..|times| - 1], times[|times| - 1];
      && (LastOutcome(rule, times) == Cooling <==> InCooldown(After(rule, before), now))
      && (LastOutcome(rule, times) == Tripped <==>
            !InCooldown(After(rule, before), now)
            && |Newer(SinceTrip(rule, before), now - SECOND)| >= rule.limit)
  {
    var before, now := times[..|times| - 1], times[|times| - 1];
    AscendingPrefix(times);
    WindowIsHistory(rule, before);
    SinceTripIsPast(rule, before, now);
    WindowStep(rule, After(rule, before), SinceTrip(rule, before), now);
  }

  // ---- A trip silences the key for exactly the cooldown ----

  /** A cooldown runs for `cool` from the last trip; once it is gone, that time is over. */
  lemma {:induction false} CooldownFollowsTrip(rule: Rule, times: seq<int>)
    requires Ascending(times)
    ensures var g, trip := After(rule, times), LastTrip(rule, times);
      if g.cooldown.Some? then trip == Some(g.cooldown.value - rule.cool)
      else trip == None || (times != [] && trip.value + rule.cool <= times[|times| - 1])
  {
    if times != [] {
      AscendingPrefix(times);
      CooldownFollowsTrip(rule, times[..|times| - 1]);
    }
  }

  /** A request is refused as cooling exactly from the last trip until the cooldown
      is over; requests during it do not extend it. */
  lemma CoolingIff(rule: Rule, times: seq<int>)
    requires Ascending(times) && times != []
    ensures var trip := LastTrip(rule, times[..|times| - 1]);
      LastOutcome(rule, times) == Cooling <==> trip.Some? && times[|times| - 1] < trip.value + rule.cool
  {
    AscendingPrefix(times);
    CooldownFollowsTrip(rule, times[..|times| - 1]);
  }

  // ---- No second lets more than the limit through ----

  lemma {:induction false} NothingBefore(rule: Rule, times: seq<int>, lo: int, hi: int)
    requires NoneAfter(times, lo)
    ensures ThroughIn(rule, times, lo, hi) == 0
  {
    if times != [] { NothingBefore(rule, times[..|times| - 1], lo, hi); }
  }

  lemma {:induction false} ThroughSinceTrip(rule: Rule, times: seq<int>, lo: int, hi: int)
    requires Ascending(times)
    requires var trip := LastTrip(rule, times); trip == None || trip.value <= lo
    ensures ThroughIn(rule, times, lo, hi) <= |Newer(SinceTrip(rule, times), lo)|
  {
    if times != [] {
      var k := |times| - 1;
      AscendingPrefix(times);
      if LastOutcome(rule, times) == Tripped {
        NothingBefore(rule, times, lo, hi);
      } else {
        ThroughSinceTrip(rule, times[..k], lo, hi);
        NewerAppend(SinceTrip(rule, times[..k]), times[k], lo);
      }
    }
  }

  lemma {:induction false} NewerShrinks(times: seq<int>, c: int, d: int)
    requires c <= d
    ensures |Newer(times, d)| <= |Newer(times, c)|
  {
    if times != [] { NewerShrinks(times[..|times| - 1], c, d); }
  }

  /** A request let through is past the last cooldown and not one too many. */
  lemma ThroughMeans(rule: Rule, times: seq<int>)
    requires rule.On() && Ascending(times) && times != [] && LastOutcome(rule, times) == Through
    ensures var before, now := times[..|times| - 1], times[|times| - 1];
      && (LastTrip(rule, before) == None || LastTrip(rule, before).value + rule.cool <= now)
      && |Newer(SinceTrip(rule, before), now - SECOND)| < rule.limit
  {
    CoolingIff(rule, times);
    TripsIff(rule, times);
  }

  lemma LetThroughLast(rule: Rule, times: seq<int>, lo: int, span: int)
    requires rule.limit > 0 && 0 < span <= SECOND && span <= rule.cool && Ascending(times) && times != []
    requires LastOutcome(rule, times) == Through && lo < times[|times| - 1] <= lo + span
    ensures ThroughIn(rule, times[..|times| - 1], lo, lo + span) < rule.limit
  {
    hide OutcomeOf, SinceTrip, Newer, LastTrip, ThroughIn, LastOutcome, After, Ascending, NoneAfter;
    var before, now := times[..|times| - 1], times[|times| - 1];
    AscendingPrefix(times);
    ThroughMeans(rule, times);
    ThroughSinceTrip(rule, before, lo, lo + span);
    NewerShrinks(SinceTrip(rule, before), now - SECOND, lo);
  }

  /** No span (lo, lo + span] of a second at most, and no longer than the cooldown,
      ever sees more than the limit of requests let through. */
  lemma {:induction false} BurstIsBounded(rule: Rule, times: seq<int>, lo: int, span: int)
    requires rule.limit > 0 && 0 < span <= SECOND && span <= rule.cool && Ascending(times)
    ensures ThroughIn(rule, times, lo, lo + span) <= rule.limit
  {
    if times != [] {
      var k := |times| - 1;
      AscendingPrefix(times);
      BurstIsBounded(rule, times[..k], lo, span);
      if lo < times[k] <= lo + span && LastOutcome(rule, times) == Through { LetThroughLast(rule, times, lo, span); }
    }
  }

  // ---- A shorter cooldown does not keep that promise ----

  function Repeat(t: int, n: nat): seq<int> { seq(n, _ => t) }

  lemma {:induction false} NewerOfRepeat(t: int, n: nat, c: int)
    requires t > c
    ensures Newer(Repeat(t, n), c) == Repeat(t, n)
  {
    if n > 0 {
      NewerOfRepeat(t, n - 1, c);
      assert Repeat(t, n)[..n - 1] == Repeat(t, n - 1);
    }
  }

  lemma RunStep(rule: Rule, times: seq<int>, now: int, lo: int, hi: int)
    ensures var o := OutcomeOf(rule, After(rule, times), now);
      && After(rule, times + [now]) == Next(rule, After(rule, times), now)
      && ThroughIn(rule, times + [now], lo, hi)
         == ThroughIn(rule, times, lo, hi) + if lo < now <= hi && o == Through then 1 else 0
  {
    assert (times + [now])[..|times|] == times;
  }

  lemma FillStep(rule: Rule, n: nat)
    requires rule.On() && n < rule.limit
    ensures OutcomeOf(rule, Gate(None, Repeat(0, n)), 0) == Through
    ensures Next(rule, Gate(None, Repeat(0, n)), 0) == Gate(None, Repeat(0, n + 1))
  {
    NewerOfRepeat(0, n, -SECOND);
    assert Repeat(0, n + 1) == Repeat(0, n) + [0];
  }

  lemma {:induction false} LimitGetsThrough(rule: Rule, n: nat, lo: int)
    requires rule.On() && n <= rule.limit && lo < 0 <= lo + SECOND
    ensures After(rule, Repeat(0, n)) == Gate(None, Repeat(0, n))
    ensures ThroughIn(rule, Repeat(0, n), lo, lo + SECOND) == n
  {
    if n > 0 {
      LimitGetsThrough(rule, n - 1, lo);
      FillStep(rule, n - 1);
      RunStep(rule, Repeat(0, n - 1), 0, lo, lo + SECOND);
      assert Repeat(0, n) == Repeat(0, n - 1) + [0];
    }
  }

  /** The limit at time 0, one more that trips, one as soon as the cooldown ends. */
  function ShortCooldownRun(rule: Rule): seq<int>
    requires rule.On()
  {
    Repeat(0, rule.limit) + [0] + [rule.cool]
  }

  lemma FullTrips(rule: Rule)
    requires rule.On()
    ensures Next(rule, Gate(None, Repeat(0, rule.limit)), 0) == Gate(Some(rule.cool), [])
    ensures OutcomeOf(rule, Gate(None, Repeat(0, rule.limit)), 0) == Tripped
    ensures OutcomeOf(rule, Gate(Some(rule.cool), []), rule.cool) == Through
  {
    NewerOfRepeat(0, rule.limit, -SECOND);
  }

  lemma ShortCooldownRunAscends(rule: Rule)
    requires rule.On()
    ensures Ascending(ShortCooldownRun(rule))
  {
    var run := ShortCooldownRun(rule);
    assert |run| == rule.limit + 2;
    assert forall i :: 0 <= i < |run| ==> run[i] == if i <= rule.limit then 0 else rule.cool;
  }

  lemma ShortCooldownLeaks(rule: Rule, lo: int)
    requires rule.On() && lo == rule.cool - SECOND < 0
    ensures ThroughIn(rule, ShortCooldownRun(rule), lo, lo + SECOND) == rule.limit + 1
  {
    var full, hi := Repeat(0, rule.limit), rule.cool;
    LimitGetsThrough(rule, rule.limit, lo);
    FullTrips(rule);
    RunStep(rule, full, 0, lo, hi);
    var tripped := full + [0];
    assert After(rule, tripped) == Gate(Some(hi), []) && ThroughIn(rule, tripped, lo, hi) == rule.limit;
    RunStep(rule, tripped, hi, lo, hi);
  }

  /** No second lets more than the limit through. */
  ghost predicate Safe(rule: Rule, times: seq<int>) {
    forall lo, hi :: hi == lo + SECOND ==> ThroughIn(rule, times, lo, hi) <= rule.limit
  }

  /** A rule that is on bounds every second of every run exactly when its cooldown
      lasts at least a second. */
  lemma BoundedIff(rule: Rule)
    requires rule.On()
    ensures (forall times :: Ascending(times) ==> Safe(rule, times)) <==> rule.cool >= SECOND
  {
    if rule.cool >= SECOND {
      forall times | Ascending(times) ensures Safe(rule, times) {
        forall lo, hi | hi == lo + SECOND ensures ThroughIn(rule, times, lo, hi) <= rule.limit {
          BurstIsBounded(rule, times, lo, SECOND);
        }
      }
    } else {
      ShortCooldownRunAscends(rule);
      ShortCooldownLeaks(rule, rule.cool - SECOND);
      assert !Safe(rule, ShortCooldownRun(rule));
    }
  }
}
