/** How many challenges a client is handed: its token bucket and its daily count are
    both asked on every call, whatever the other one answers. */
module ChallengeLimit {
  import opened Common
  import B = Buckets
  import Q = DailyQuota

  /** Both are at least one. */
  datatype Limits = Limits(perMin: int, perDay: int)
  {
    predicate Good() { perMin >= 1 && perDay >= 1 }

    function Cap(): real { perMin as real }

    function Flow(): int -> real { B.Steady(perMin as real / 60.0) }
  }

  /** What the tables hold about one address; nothing before its first call. */
  datatype Client = Client(bucket: Option<B.Bucket>, count: Option<Q.Count>)

  const STRANGER := Client(None, None)

  datatype Call = Call(at: int, day: int)

  function BucketFor(lim: Limits, c: Client, now: int): B.Bucket {
    if c.bucket.Some? then c.bucket.value else B.Bucket(lim.Cap(), now)
  }

  function CountFor(c: Client, day: int): Q.Count { if c.count.Some? then c.count.value else Q.Count(day, 0) }

  predicate BucketAdmits(lim: Limits, c: Client, call: Call) {
    B.Admits(BucketFor(lim, c, call.at), lim.Flow(), lim.Cap(), call.at)
  }

  predicate QuotaAdmits(lim: Limits, c: Client, call: Call) { Q.Admits(CountFor(c, call.day), call.day, lim.perDay) }

  function Next(lim: Limits, c: Client, call: Call): Client {
    Client(Some(B.Taken(BucketFor(lim, c, call.at), lim.Flow(), lim.Cap(), call.at)),
           Some(Q.Counted(CountFor(c, call.day), call.day, lim.perDay)))
  }

  // ---- Any calls of one client ----

  function After(lim: Limits, calls: seq<Call>): Client {
    if calls == [] then STRANGER else Next(lim, After(lim, calls[..|calls| - 1]), calls[|calls| - 1])
  }

  /** The last call was given a challenge. */
  predicate LastGranted(lim: Limits, calls: seq<Call>)
    requires calls != []
  {
    var c, call := After(lim, calls[..|calls| - 1]), calls[|calls| - 1];
    BucketAdmits(lim, c, call) && QuotaAdmits(lim, c, call)
  }

  function CallsOn(calls: seq<Call>, day: int): nat {
    if calls == [] then 0 else CallsOn(calls[..|calls| - 1], day) + if calls[|calls| - 1].day == day then 1 else 0
  }

  /** Challenges handed out on a day. */
  function GrantedOn(lim: Limits, calls: seq<Call>, day: int): nat {
    if calls == [] then 0
    else
      GrantedOn(lim, calls[..|calls| - 1], day)
      + if calls[|calls| - 1].day == day && LastGranted(lim, calls) then 1 else 0
  }

  /** Calls of a day that the bucket refused although the day's quota had room. */
  function WastedOn(lim: Limits, calls: seq<Call>, day: int): nat {
    if calls == [] then 0
    else
      var before, call := calls[..|calls| - 1], calls[|calls| - 1];
      WastedOn(lim, before, day)
      + if call.day == day && CallsOn(before, day) < lim.perDay && !BucketAdmits(lim, After(lim, before), call)
        then 1 else 0
  }

  /** Days do not go back. */
  predicate Ordered(calls: seq<Call>) {
    forall i, j :: 0 <= i < j < |calls| ==> calls[i].day <= calls[j].day
  }

  lemma {:induction false} NoneOnLaterDays(calls: seq<Call>, day: int)
    requires forall i :: 0 <= i < |calls| ==> calls[i].day < day
    ensures CallsOn(calls, day) == 0
  {
    if calls != [] { NoneOnLaterDays(calls[..|calls| - 1], day); }
  }

  /** The count is of the calls of its day, granted or not, up to the quota. */
  lemma {:induction false} CountIsCalls(lim: Limits, calls: seq<Call>)
    requires lim.Good() && Ordered(calls) && calls != []
    ensures var last := calls[|calls| - 1].day;
      After(lim, calls).count == Some(Q.Count(last, Q.Least(lim.perDay, CallsOn(calls, last))))
  {
    var before, call := calls[..|calls| - 1], calls[|calls| - 1];
    if before != [] {
      CountIsCalls(lim, before);
      if before[|before| - 1].day != call.day { NoneOnLaterDays(before, call.day); }
    }
  }

  /** A call is given a challenge exactly when the bucket admits it and fewer calls than
      the quota came before it on that day, refused ones included. */
  lemma GrantedIff(lim: Limits, calls: seq<Call>)
    requires lim.Good() && Ordered(calls) && calls != []
    ensures var before, call := calls[..|calls| - 1], calls[|calls| - 1];
      LastGranted(lim, calls) <==>
      BucketAdmits(lim, After(lim, before), call) && CallsOn(before, call.day) < lim.perDay
  {
    var before, call := calls[..|calls| - 1], calls[|calls| - 1];
    if before != [] {
      CountIsCalls(lim, before);
      if before[|before| - 1].day != call.day { NoneOnLaterDays(before, call.day); }
    }
  }

  /** A day's challenges are its calls up to the quota, less those that the bucket
      refused: every one of these uses up a place. */
  lemma {:induction false} ChallengesPerDay(lim: Limits, calls: seq<Call>, day: int)
    requires lim.Good() && Ordered(calls)
    ensures GrantedOn(lim, calls, day) + WastedOn(lim, calls, day) == Q.Least(lim.perDay, CallsOn(calls, day))
  {
    if calls != [] {
      ChallengesPerDay(lim, calls[..|calls| - 1], day);
      GrantedIff(lim, calls);
    }
  }

  /** Each call waits for a token of its own. */
  predicate Paced(lim: Limits, calls: seq<Call>) {
    forall i :: 0 < i < |calls| ==> Waits(lim, calls[i - 1].at, calls[i].at)
  }

  /** 60 / perMin seconds have passed. */
  predicate Waits(lim: Limits, from: int, to: int) { (to - from) * lim.perMin >= 60 * SECOND }

  lemma WaitsForOne(lim: Limits, from: int, to: int)
    requires lim.Good()
    ensures Waits(lim, from, to) <==> lim.Flow()(to - from) >= 1.0
  {
    var d := to - from;
    assert B.Secs(d) * SECOND as real == d as real;
    assert (d * lim.perMin) as real == d as real * lim.perMin as real;
    assert lim.Flow()(d) * (60 * SECOND) as real == (d * lim.perMin) as real;
  }

  lemma FullAdmits(lim: Limits, now: int)
    requires lim.Good()
    ensures var b := B.Bucket(lim.Cap(), now);
      && B.Admits(b, lim.Flow(), lim.Cap(), now)
      && B.Taken(b, lim.Flow(), lim.Cap(), now) == B.Bucket(lim.Cap() - 1.0, now)
  {
    assert B.Secs(0) == 0.0;
    assert lim.Flow()(0) == 0.0;
  }

  lemma WaitedAdmits(lim: Limits, b: B.Bucket, now: int)
    requires lim.Good() && b.tokens >= 0.0 && Waits(lim, b.last, now)
    ensures B.Admits(b, lim.Flow(), lim.Cap(), now) && B.Taken(b, lim.Flow(), lim.Cap(), now).tokens >= 0.0
  {
    WaitsForOne(lim, b.last, now);
  }

  lemma {:induction false} PacedIsAdmitted(lim: Limits, calls: seq<Call>)
    requires lim.Good() && Paced(lim, calls) && calls != []
    ensures BucketAdmits(lim, After(lim, calls[..|calls| - 1]), calls[|calls| - 1])
    ensures var b := After(lim, calls).bucket; b.Some? && b.value.tokens >= 0.0 && b.value.last == calls[|calls| - 1].at
  {
    var before, now := calls[..|calls| - 1], calls[|calls| - 1].at;
    if before == [] {
      FullAdmits(lim, now);
    } else {
      PacedIsAdmitted(lim, before);
      WaitedAdmits(lim, After(lim, before).bucket.value, now);
    }
  }

  /** A client that paces itself gets the day's whole quota. */
  lemma {:induction false} PacedWastesNothing(lim: Limits, calls: seq<Call>, day: int)
    requires lim.Good() && Ordered(calls) && Paced(lim, calls)
    ensures WastedOn(lim, calls, day) == 0
    ensures GrantedOn(lim, calls, day) == Q.Least(lim.perDay, CallsOn(calls, day))
  {
    ChallengesPerDay(lim, calls, day);
    if calls != [] {
      PacedWastesNothing(lim, calls[..|calls| - 1], day);
      PacedIsAdmitted(lim, calls);
      hide BucketAdmits, Waits, After, LastGranted, GrantedOn;
    }
  }

  // ---- A client that does not wait ----

  function Rush(call: Call, n: nat): seq<Call> { seq(n, _ => call) }

  lemma RushStep(call: Call, n: nat)
    requires n > 0
    ensures Rush(call, n)[..n - 1] == Rush(call, n - 1) && Rush(call, n)[n - 1] == call
  {
  }

  /** The bucket k calls into a rush. */
  function Drained(lim: Limits, now: int, k: nat): B.Bucket {
    B.Bucket(if k <= lim.perMin then (lim.perMin - k) as real else 0.0, now)
  }

  lemma DrainStep(lim: Limits, now: int, k: nat)
    requires lim.Good()
    ensures B.Admits(Drained(lim, now, k), lim.Flow(), lim.Cap(), now) <==> k < lim.perMin
    ensures B.Taken(Drained(lim, now, k), lim.Flow(), lim.Cap(), now) == Drained(lim, now, k + 1)
  {
    assert B.Secs(0) == 0.0;
    assert lim.Flow()(0) == 0.0;
  }

  lemma {:induction false} RushDrains(lim: Limits, call: Call, n: nat)
    requires lim.Good()
    ensures BucketFor(lim, After(lim, Rush(call, n)), call.at) == Drained(lim, call.at, n)
    ensures BucketAdmits(lim, After(lim, Rush(call, n)), call) <==> n < lim.perMin
    ensures CallsOn(Rush(call, n), call.day) == n
  {
    DrainStep(lim, call.at, n);
    if n > 0 {
      RushStep(call, n);
      RushDrains(lim, call, n - 1);
      DrainStep(lim, call.at, n - 1);
      hide Drained;
    }
  }

  lemma RushIsOrdered(call: Call, n: nat)
    ensures Ordered(Rush(call, n))
  {
  }

  /** Calls at one instant get a minute's worth of challenges, within the quota. */
  lemma {:induction false} RushGets(lim: Limits, call: Call, n: nat)
    requires lim.Good()
    ensures GrantedOn(lim, Rush(call, n), call.day) == Q.Least(n, Q.Least(lim.perMin, lim.perDay))
    ensures CallsOn(Rush(call, n), call.day) == n
  {
    RushDrains(lim, call, n);
    if n > 0 {
      RushGets(lim, call, n - 1);
      RushStep(call, n);
      RushIsOrdered(call, n);
      RushDrains(lim, call, n - 1);
      GrantedIff(lim, Rush(call, n));
      hide BucketAdmits, After, LastGranted, BucketFor, CallsOn, Ordered, Rush;
    }
  }

  /** A day begun with as many calls at once as the quota allows is over: whatever comes
      after them, it brings no more than the minute's worth they got. */
  lemma {:induction false} RushSpendsDay(lim: Limits, call: Call, later: seq<Call>)
    requires lim.Good() && Ordered(Rush(call, lim.perDay) + later)
    ensures GrantedOn(lim, Rush(call, lim.perDay) + later, call.day) == Q.Least(lim.perMin, lim.perDay)
    ensures CallsOn(Rush(call, lim.perDay) + later, call.day) >= lim.perDay
  {
    var rush := Rush(call, lim.perDay);
    if later == [] {
      assert rush + later == rush;
      RushGets(lim, call, lim.perDay);
    } else {
      var before := later[..|later| - 1];
      assert (rush + later)[..|rush + later| - 1] == rush + before;
      RushSpendsDay(lim, call, before);
      GrantedIff(lim, rush + later);
      hide LastGranted, BucketAdmits, After, Rush;
    }
  }

  // ---- The service's tables ----

  class ChallengeLimiter {
    const limits: Limits
    var buckets: map<string, B.TokenBucket>
    var counts: map<string, Q.DailyCount>

    /** Limits below one count as one. */
    constructor (perMin: int, perDay: int)
      ensures Valid() && forall ip :: ClientView(ip) == STRANGER
      ensures limits == Limits(if perMin < 1 then 1 else perMin, if perDay < 1 then 1 else perDay)
    {
      limits := Limits(if perMin < 1 then 1 else perMin, if perDay < 1 then 1 else perDay);
      buckets, counts := map[], map[];
    }

    /** Every address has a bucket and a count of its own, made with these limits. */
    ghost predicate Valid()
      reads this
    {
      && limits.Good()
      && (forall ip :: ip in buckets ==>
            buckets[ip].rps == limits.perMin as real / 60.0 && buckets[ip].cap == limits.Cap())
      && (forall ip :: ip in counts ==> counts[ip].limit == limits.perDay)
      && (forall x, y :: x in buckets && y in buckets && buckets[x] == buckets[y] ==> x == y)
      && (forall x, y :: x in counts && y in counts && counts[x] == counts[y] ==> x == y)
    }

    ghost function ClientView(ip: string): Client
      reads this, buckets.Values, counts.Values
    {
      Client(if ip in buckets then Some(buckets[ip].View()) else None,
             if ip in counts then Some(counts[ip].View()) else None)
    }

    /** The address's bucket, made full when missing. */
    method AskBucket(ip: string, now: int) returns (ok: bool, retryAfter: int)
      requires Valid()
      modifies this`buckets, buckets.Values
      ensures Valid() && fresh(buckets.Values - old(buckets.Values))
      ensures var b := BucketFor(limits, old(ClientView(ip)), now);
        && ok == B.Admits(b, limits.Flow(), limits.Cap(), now) && (ok ==> retryAfter == 0)
        && ClientView(ip) == old(ClientView(ip)).(bucket := Some(B.Taken(b, limits.Flow(), limits.Cap(), now)))
      ensures forall x :: x != ip ==> ClientView(x) == old(ClientView(x))
    {
      if ip !in buckets {
        var made := new B.TokenBucket(limits.Cap(), now, limits.perMin as real / 60.0, limits.Cap());
        buckets := buckets[ip := made];
      }
      hide B.Admits, B.Taken;
      ok, retryAfter := buckets[ip].Allow(now);
    }

    /** The address's daily count, made empty when missing. */
    method AskCount(ip: string, today: int) returns (ok: bool)
      requires Valid()
      modifies this`counts, counts.Values
      ensures Valid() && fresh(counts.Values - old(counts.Values))
      ensures var c := CountFor(old(ClientView(ip)), today);
        && ok == Q.Admits(c, today, limits.perDay)
        && ClientView(ip) == old(ClientView(ip)).(count := Some(Q.Counted(c, today, limits.perDay)))
      ensures forall x :: x != ip ==> ClientView(x) == old(ClientView(x))
    {
      if ip !in counts {
        var made := new Q.DailyCount(limits.perDay, today);
        counts := counts[ip := made];
      }
      hide Q.Admits, Q.Counted;
      ok := counts[ip].Allow(today);
    }

    /** Both are asked, whatever the other one answers. When only the count refuses there
        is no wait to report. */
    method Admit(ip: string, now: int, today: int) returns (ok: bool, retryAfter: int)
      requires Valid()
      modifies this, buckets.Values, counts.Values
      ensures Valid()
      ensures fresh(buckets.Values - old(buckets.Values)) && fresh(counts.Values - old(counts.Values))
      ensures var c, call := old(ClientView(ip)), Call(now, today);
        && ok == (BucketAdmits(limits, c, call) && QuotaAdmits(limits, c, call))
        && ClientView(ip) == Next(limits, c, call)
        && (BucketAdmits(limits, c, call) ==> retryAfter == 0)
      ensures forall x :: x != ip ==> ClientView(x) == old(ClientView(x))
    {
      var ok1, ok2;
      ok1, retryAfter := AskBucket(ip, now);
      ok2 := AskCount(ip, today);
      ok := ok1 && ok2;
    }
  }
}
