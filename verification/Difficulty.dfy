/** The adaptive difficulty: an exponentially weighted average of solve times moves
    the base one bit at a time inside fixed bounds. Averages are exact reals. */
module Difficulty {
  import opened Common

  datatype Control = Control(base: int, min: int, max: int, targetMin: real, targetMax: real,
                             ewma: real, count: nat)
  {
    predicate Bounded() { min <= base <= max }

    predicate SameTargets(c: Control) {
      min == c.min && max == c.max && targetMin == c.targetMin && targetMax == c.targetMax
    }
  }

  const DAY := 24.0 * 3600.0

  function Secs(elapsed: int): real { elapsed as real / SECOND as real }

  /** Solve times outside a day are ignored. */
  predicate Plausible(elapsed: int) { 0.0 <= Secs(elapsed) <= DAY }

  function Averaged(c: Control, secs: real): real {
    if c.count == 0 then secs else 0.2 * secs + 0.8 * c.ewma
  }

  function Recorded(c: Control, elapsed: int): Control {
    if !Plausible(elapsed) then c
    else
      var avg := Averaged(c, Secs(elapsed));
      var n := c.count + 1;
      if n < 5 then c.(ewma := avg, count := n)
      else if avg < c.targetMin && c.base < c.max then c.(ewma := avg, base := c.base + 1, count := 0)
      else if avg > c.targetMax && c.base > c.min then c.(ewma := avg, base := c.base - 1, count := 0)
      else c.(ewma := avg, count := n)
  }

  /** `bits` is the value between the bounds nearest to `total`. */
  predicate Clamped(bits: int, total: int, lo: int, hi: int) {
    lo <= bits <= hi && (bits < total ==> bits == hi) && (bits > total ==> bits == lo)
  }

  class Difficulty {
    var base: int
    const min: int
    const max: int
    const targetMin: real
    const targetMax: real
    var ewma: real
    var ewmaCount: nat
    var escalation: int

    function View(): Control
      reads this
    {
      Control(base, min, max, targetMin, targetMax, ewma, ewmaCount)
    }

    /** Swaps misordered bounds and brings the base between them. */
    constructor (base: int, min: int, max: int, targetMin: real, targetMax: real)
      ensures View().Bounded() && {this.min, this.max} == {min, max}
      ensures ewmaCount == 0 && escalation == 0
      ensures this.targetMin == targetMin && this.targetMax == targetMax
      ensures this.min <= base <= this.max ==> this.base == base
      ensures base < this.min ==> this.base == this.min
      ensures base > this.max ==> this.base == this.max
    {
      var lo, hi, b := min, max, base;
      if lo > hi { lo, hi := hi, lo; }
      if b < lo { b := lo; }
      if b > hi { b := hi; }
      this.base, this.min, this.max := b, lo, hi;
      this.targetMin, this.targetMax := targetMin, targetMax;
      ewma, ewmaCount, escalation := 0.0, 0, 0;
    }

    /** The difficulty of a plan: base, plan, escalation and farming bits, clamped. */
    method Current(planBits: int, ipBonus: int) returns (bits: int)
      requires View().Bounded()
      ensures Clamped(bits, base + planBits + escalation + ipBonus, min, max)
    {
      var total := base + planBits + escalation + ipBonus;
      if total < min { total := min; }
      if total > max { total := max; }
      return total;
    }

    /** One solve time. Outside a day it is ignored; the first one is the average, each
        later one moves the average a fifth of the way; from the fifth on the base moves
        one bit when the average is outside the window, and counting starts anew. */
    method RecordSolve(elapsed: int)
      modifies this`base, this`ewma, this`ewmaCount
      ensures View() == old(Recorded(View(), elapsed))
      ensures !(0 <= elapsed <= 86_400_000_000_000) ==> View() == old(View())
      ensures 0 <= elapsed <= 86_400_000_000_000 ==>
        && var secs, n := elapsed as real / 1_000_000_000.0, old(ewmaCount) + 1;
        && (if n == 1 then ewma == secs else 5.0 * (ewma - old(ewma)) == secs - old(ewma))
        && var up, down := n >= 5 && ewma < targetMin && old(base) < max, n >= 5 && ewma > targetMax && old(base) > min;
        && base == old(base) + (if up then 1 else if down then -1 else 0)
        && ewmaCount == if up || down then 0 else n
    {
      var secs := Secs(elapsed);
      if secs < 0.0 || secs > DAY { return; }
      if ewmaCount == 0 {
        ewma := secs;
      } else {
        ewma := 0.2 * secs + 0.8 * ewma;
      }
      ewmaCount := ewmaCount + 1;
      if ewmaCount < 5 { return; }
      if ewma < targetMin && base < max {
        base, ewmaCount := base + 1, 0;
      } else if ewma > targetMax && base > min {
        base, ewmaCount := base - 1, 0;
      }
    }
  }

  /** More bits added never report less, and at most that many more. */
  lemma CurrentIsMonotone(x: int, bits: int, y: int, more: int, lo: int, hi: int)
    requires x <= y && Clamped(bits, x, lo, hi) && Clamped(more, y, lo, hi)
    ensures bits <= more <= bits + (y - x)
  {
  }

  // ---- Runs of recorded solves ----

  function After(c: Control, solves: seq<int>): Control {
    if solves == [] then c
    else Recorded(After(c, solves[..|solves| - 1]), solves[|solves| - 1])
  }

  /** The bounds hold for ever, and every bit of movement takes five solves. */
  lemma {:induction false} BaseMovesSlowly(c: Control, solves: seq<int>)
    requires c.Bounded() && c.count == 0
    ensures var d := After(c, solves);
      && d.Bounded() && d.SameTargets(c)
      && 5 * (d.base - c.base) + d.count <= |solves|
      && 5 * (c.base - d.base) + d.count <= |solves|
  {
    if solves != [] { BaseMovesSlowly(c, solves[..|solves| - 1]); }
  }

  // ---- The average stays among its samples ----

  /** The plausible solves since the base last moved. */
  function SinceReset(c: Control, solves: seq<int>): seq<int> {
    if solves == [] then []
    else
      var before, last := solves[..|solves| - 1], solves[|solves| - 1];
      if !Plausible(last) then SinceReset(c, before)
      else if After(c, solves).count == 0 then []
      else SinceReset(c, before) + [last]
  }

  predicate Within(solves: seq<int>, lo: real, hi: real) {
    forall i :: 0 <= i < |solves| ==> lo <= Secs(solves[i]) <= hi
  }

  lemma WithinAppend(solves: seq<int>, last: int, lo: real, hi: real)
    requires Within(solves + [last], lo, hi)
    ensures Within(solves, lo, hi) && lo <= Secs(last) <= hi
  {
    assert (solves + [last])[|solves|] == last;
    forall i | 0 <= i < |solves| ensures lo <= Secs(solves[i]) <= hi {
      assert (solves + [last])[i] == solves[i];
    }
  }

  /** The average lies within any range that holds the samples since the last
      reset, and counts exactly those. */
  lemma {:induction false} AverageIsAmongSamples(c: Control, solves: seq<int>, lo: real, hi: real)
    requires c.count == 0 && Within(SinceReset(c, solves), lo, hi)
    ensures var d := After(c, solves);
      d.count == |SinceReset(c, solves)| && (d.count > 0 ==> lo <= d.ewma <= hi)
  {
    if solves != [] {
      var before, last := solves[..|solves| - 1], solves[|solves| - 1];
      if Plausible(last) && After(c, solves).count > 0 {
        WithinAppend(SinceReset(c, before), last, lo, hi);
        AverageIsAmongSamples(c, before, lo, hi);
      } else if !Plausible(last) {
        AverageIsAmongSamples(c, before, lo, hi);
      }
    }
  }

  // ---- The average in closed form ----

  /** 0.8 to the k. */
  function Fade(k: nat): real { if k == 0 then 1.0 else 0.8 * Fade(k - 1) }

  /** What sample i of n weighs: a fifth when it came, and four fifths of it after each
      later one; the first one weighed all. */
  function Weight(n: nat, i: nat): real
    requires i < n
  {
    if i == 0 then Fade(n - 1) else 0.2 * Fade(n - 1 - i)
  }

  /** The first k of n weighted samples, added up. */
  function WeightedSum(samples: seq<int>, n: nat, k: nat): real
    requires k <= n && k <= |samples|
  {
    if k == 0 then 0.0 else WeightedSum(samples, n, k - 1) + Weight(n, k - 1) * Secs(samples[k - 1])
  }

  lemma Fades(a: real, w: real, x: real)
    ensures 0.8 * a + (0.8 * w) * x == 0.8 * (a + w * x)
  {
  }

  lemma {:induction false} OlderFade(samples: seq<int>, last: int, k: nat)
    requires 0 < |samples| && k <= |samples|
    ensures WeightedSum(samples + [last], |samples| + 1, k) == 0.8 * WeightedSum(samples, |samples|, k)
  {
    if k > 0 {
      var n := |samples|;
      OlderFade(samples, last, k - 1);
      assert Weight(n + 1, k - 1) == 0.8 * Weight(n, k - 1);
      assert (samples + [last])[k - 1] == samples[k - 1];
      Fades(WeightedSum(samples, n, k - 1), Weight(n, k - 1), Secs(samples[k - 1]));
    }
  }

  lemma NewestWeighsAFifth(samples: seq<int>, last: int)
    ensures var all := samples + [last];
      WeightedSum(all, |all|, |all|)
      == if samples == [] then Secs(last)
         else 0.8 * WeightedSum(samples, |samples|, |samples|) + 0.2 * Secs(last)
  {
    var all := samples + [last];
    assert all[|samples|] == last;
    if samples != [] {
      OlderFade(samples, last, |samples|);
      assert Weight(|all|, |samples|) == 0.2;
    } else {
      assert WeightedSum(all, 1, 1) == 0.0 + Fade(0) * Secs(last);
    }
  }

  /** The average is the weighted sum of the samples since the last reset. */
  lemma {:induction false} AverageIsWeightedSum(c: Control, solves: seq<int>)
    requires c.count == 0
    ensures var d, since := After(c, solves), SinceReset(c, solves);
      d.count == |since| && (since != [] ==> d.ewma == WeightedSum(since, |since|, |since|))
  {
    if solves != [] {
      var before, last := solves[..|solves| - 1], solves[|solves| - 1];
      AverageIsWeightedSum(c, before);
      NewestWeighsAFifth(SinceReset(c, before), last);
    }
  }

  lemma FourAlike(c: Control, x: int)
    requires c.count == 0 && Plausible(x)
    ensures var d := After(c, [x, x, x, x]); d.count == 4 && d.ewma == Secs(x) && d.base == c.base && d.SameTargets(c)
  {
    var none: seq<int> := [];
    assert [x][..0] == none && [x, x][..1] == [x] && [x, x, x][..2] == [x, x] && [x, x, x, x][..3] == [x, x, x];
    assert After(c, [x]) == Recorded(c, x);
    assert After(c, [x, x]) == Recorded(After(c, [x]), x);
    assert After(c, [x, x, x]) == Recorded(After(c, [x, x]), x);
  }

  /** One outlier after four alike: it moves the base exactly when four times the usual
      solve time and the outlier together are outside five times the window. */
  lemma OutlierMovesIff(c: Control, x: int, y: int)
    requires c.count == 0 && Plausible(x) && Plausible(y)
    ensures var five := 4.0 * Secs(x) + Secs(y);
      After(c, [x, x, x, x, y]).base
      == if five < 5.0 * c.targetMin && c.base < c.max then c.base + 1
         else if five > 5.0 * c.targetMax && c.base > c.min then c.base - 1 else c.base
  {
    FourAlike(c, x);
    assert [x, x, x, x, y][..4] == [x, x, x, x];
    assert After(c, [x, x, x, x, y]) == Recorded(After(c, [x, x, x, x]), y);
  }

  // ---- Traffic inside the window ----

  predicate Calm(c: Control) { c.count > 0 ==> c.targetMin <= c.ewma <= c.targetMax }

  /** Solves inside the target window never move the base. */
  lemma {:induction false} InWindowNeverMoves(c: Control, solves: seq<int>)
    requires Calm(c) && Within(solves, c.targetMin, c.targetMax)
    ensures var d := After(c, solves); d.base == c.base && d.SameTargets(c) && Calm(d)
  {
    if solves != [] {
      var before := solves[..|solves| - 1];
      assert solves == before + [solves[|solves| - 1]];
      WithinAppend(before, solves[|solves| - 1], c.targetMin, c.targetMax);
      InWindowNeverMoves(c, before);
    }
  }

  // ---- Steady traffic moves the base exactly every five solves ----

  /** All solves are plausible and faster than the window. */
  predicate AllFast(c: Control, solves: seq<int>) {
    forall i :: 0 <= i < |solves| ==> Plausible(solves[i]) && Secs(solves[i]) < c.targetMin
  }

  /** All solves are plausible and slower than the window. */
  predicate AllSlow(c: Control, solves: seq<int>) {
    forall i :: 0 <= i < |solves| ==> Plausible(solves[i]) && Secs(solves[i]) > c.targetMax
  }

  function Least(a: int, b: int): int { if a < b then a else b }

  function Greatest(a: int, b: int): int { if a < b then b else a }

  /** A solve time that is faster than the window and slower than it at once: the
      targets are the wrong way round, which the constructor does not check. */
  predicate Crossed(c: Control, elapsed: int) { Plausible(elapsed) && c.targetMax < Secs(elapsed) < c.targetMin }

  /** The base can move, and some solve time falls on both sides of the window. */
  ghost predicate Inverted(c: Control) { c.min < c.max && exists e :: Crossed(c, e) }

  /** n fast solves in a row raise a fresh controller to min(max, base + n / 5). */
  lemma {:induction false} FastSolvesRaise(c: Control, solves: seq<int>)
    requires c.Bounded() && c.count == 0 && !Inverted(c) && AllFast(c, solves)
    ensures var d, n := After(c, solves), |solves|;
      && d.base == Least(c.max, c.base + n / 5) && d.SameTargets(c)
      && (d.count > 0 ==> d.ewma < c.targetMin && (c.min < c.max ==> d.ewma <= c.targetMax))
      && d.count == if n / 5 < c.max - c.base then n % 5 else n - 5 * (c.max - c.base)
  {
    if solves != [] {
      var last := solves[|solves| - 1];
      FastSolvesRaise(c, solves[..|solves| - 1]);
      assert c.min < c.max ==> !Crossed(c, last);
    }
  }

  /** n slow solves in a row lower a fresh controller to max(min, base - n / 5). */
  lemma {:induction false} SlowSolvesLower(c: Control, solves: seq<int>)
    requires c.Bounded() && c.count == 0 && !Inverted(c) && AllSlow(c, solves)
    ensures var d, n := After(c, solves), |solves|;
      && d.base == Greatest(c.min, c.base - n / 5) && d.SameTargets(c)
      && (d.count > 0 ==> d.ewma > c.targetMax && (c.min < c.max ==> d.ewma >= c.targetMin))
      && d.count == if n / 5 < c.base - c.min then n % 5 else n - 5 * (c.base - c.min)
  {
    if solves != [] {
      var last := solves[|solves| - 1];
      SlowSolvesLower(c, solves[..|solves| - 1]);
      assert c.min < c.max ==> !Crossed(c, last);
    }
  }

  // ---- With crossed targets both claims fail ----

  function Same(elapsed: int, n: nat): seq<int> { seq(n, _ => elapsed) }

  /** Crossed solves raise the base to the top, then lower and raise it in turn. */
  function Swinging(c: Control, n: nat): int {
    var room := c.max - c.base;
    if n / 5 <= room then c.base + n / 5 else if (n / 5 - room) % 2 == 0 then c.max else c.max - 1
  }

  lemma {:induction false} CrossedSolvesSwing(c: Control, elapsed: int, n: nat)
    requires c.Bounded() && c.min < c.max && c.count == 0 && Crossed(c, elapsed)
    ensures var d := After(c, Same(elapsed, n));
      && d.base == Swinging(c, n) && d.count == n % 5 && d.SameTargets(c)
      && (d.count > 0 ==> d.ewma == Secs(elapsed))
  {
    if n > 0 {
      CrossedSolvesSwing(c, elapsed, n - 1);
      assert Same(elapsed, n)[..n - 1] == Same(elapsed, n - 1);
    }
  }

  ghost predicate RaisesSteadily(c: Control) {
    forall solves :: AllFast(c, solves) ==> After(c, solves).base == Least(c.max, c.base + |solves| / 5)
  }

  ghost predicate LowersSteadily(c: Control) {
    forall solves :: AllSlow(c, solves) ==> After(c, solves).base == Greatest(c.min, c.base - |solves| / 5)
  }

  lemma CrossedRaisesUnsteadily(c: Control, e: int)
    requires c.Bounded() && c.count == 0 && c.min < c.max && Crossed(c, e)
    ensures !RaisesSteadily(c)
  {
    var n := 5 * (c.max - c.base + 1);
    CrossedSolvesSwing(c, e, n);
    assert n / 5 == c.max - c.base + 1 && |Same(e, n)| == n && AllFast(c, Same(e, n));
    hide After, AllFast;
  }

  lemma CrossedLowersUnsteadily(c: Control, e: int)
    requires c.Bounded() && c.count == 0 && c.min < c.max && Crossed(c, e)
    ensures !LowersSteadily(c)
  {
    var n := if c.base < c.max then 5 else 10;
    CrossedSolvesSwing(c, e, n);
    assert |Same(e, n)| == n && AllSlow(c, Same(e, n));
    hide After, AllSlow;
  }

  /** Steady fast or slow traffic moves the base as intended exactly when no solve
      time is on both sides of the window; targets in order are enough. */
  lemma SteadyIff(c: Control)
    requires c.Bounded() && c.count == 0
    ensures RaisesSteadily(c) <==> !Inverted(c)
    ensures LowersSteadily(c) <==> !Inverted(c)
    ensures c.targetMin <= c.targetMax ==> !Inverted(c)
  {
    if Inverted(c) {
      var e :| Crossed(c, e);
      CrossedRaisesUnsteadily(c, e);
      CrossedLowersUnsteadily(c, e);
    } else {
      forall solves | AllFast(c, solves) ensures After(c, solves).base == Least(c.max, c.base + |solves| / 5) {
        FastSolvesRaise(c, solves);
      }
      forall solves | AllSlow(c, solves) ensures After(c, solves).base == Greatest(c.min, c.base - |solves| / 5) {
        SlowSolvesLower(c, solves);
      }
    }
  }
}
