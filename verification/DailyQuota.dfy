/** The daily cap on challenges: a count that starts over when the day changes. */
module DailyQuota {

  datatype Count = Count(day: int, n: int)

  function Today(c: Count, day: int): Count { if c.day != day then Count(day, 0) else c }

  predicate Admits(c: Count, day: int, limit: int) { Today(c, day).n < limit }

  function Counted(c: Count, day: int, limit: int): Count {
    var t := Today(c, day);
    if t.n < limit then t.(n := t.n + 1) else t
  }

  class DailyCount {
    var day: int
    var n: int
    const limit: int

    constructor (limit: int, day: int)
      ensures View() == Count(day, 0) && this.limit == limit
    {
      this.day, this.n, this.limit := day, 0, limit;
    }

    function View(): Count
      reads this
    {
      Count(day, n)
    }

    method Allow(today: int) returns (ok: bool)
      modifies this`day, this`n
      ensures ok == old(Admits(View(), today, limit)) && View() == old(Counted(View(), today, limit))
    {
      if day != today {
        day := today;
        n := 0;
      }
      if n >= limit { return false; }
      n := n + 1;
      return true;
    }
  }

  function After(c: Count, limit: int, days: seq<int>): Count {
    if days == [] then c else Counted(After(c, limit, days[..|days| - 1]), days[|days| - 1], limit)
  }

  /** How many of the calls on day d were admitted. */
  function AdmittedOn(c: Count, limit: int, days: seq<int>, d: int): nat {
    if days == [] then 0
    else
      var k := |days| - 1;
      AdmittedOn(c, limit, days[..k], d)
      + if days[k] == d && Admits(After(c, limit, days[..k]), d, limit) then 1 else 0
  }

  function CallsOn(days: seq<int>, d: int): nat {
    if days == [] then 0
    else CallsOn(days[..|days| - 1], d) + if days[|days| - 1] == d then 1 else 0
  }

  predicate Ordered(from: int, days: seq<int>) {
    && (forall i :: 0 <= i < |days| ==> from <= days[i])
    && forall i, j :: 0 <= i < j < |days| ==> days[i] <= days[j]
  }

  function Least(a: int, b: int): int { if a < b then a else b }

  function LastDay(c: Count, days: seq<int>): int { if days == [] then c.day else days[|days| - 1] }

  /** While days do not go back, each day admits its first `limit` calls and no more. */
  lemma {:induction false} QuotaIsExact(c: Count, limit: nat, days: seq<int>, d: int)
    requires c.n == 0 && Ordered(c.day, days)
    ensures AdmittedOn(c, limit, days, d) == Least(limit, CallsOn(days, d))
    ensures var e := After(c, limit, days);
      && e.day == LastDay(c, days)
      && e.n == Least(limit, CallsOn(days, e.day))
    ensures d > LastDay(c, days) ==> CallsOn(days, d) == 0
  {
    if days != [] {
      var k := |days| - 1;
      QuotaIsExact(c, limit, days[..k], d);
      QuotaIsExact(c, limit, days[..k], days[k]);
    }
  }
}
