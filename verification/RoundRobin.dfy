/** The candidate order of the dispatcher and its fairness. */
module RoundRobin {
  import opened PoolSpec
  import StringOrder
  import opened Division

  /** The comparison sort.Slice is given: creation time, then id. */
  predicate Before(a: ProxyView, b: ProxyView) {
    if a.createdAt == b.createdAt then StringOrder.Less(a.id, b.id) else a.createdAt < b.createdAt
  }

  function CandidateIds(pool: Pool, bans: Bans, now: int): set<string> {
    set id | id in pool && pool[id].Available() && !Banned(bans, pool[id].ip, now)
  }

  /** `order` lists exactly the given ids, strictly increasing. */
  ghost predicate IsOrder(pool: Pool, ids: set<string>, order: seq<string>) {
    && (forall id :: id in order <==> id in ids)
    && (forall id :: id in order ==> id in pool)
    && (forall i, j :: 0 <= i < j < |order| ==> Before(pool[order[i]], pool[order[j]]))
  }

  /** The oldest first, and of equally old ones that whose id first differs downwards. */
  lemma OldestFirst(pool: Pool, ids: set<string>, order: seq<string>, i: nat, j: nat)
    requires IsOrder(pool, ids, order) && i < j < |order|
    ensures var a, b := pool[order[i]], pool[order[j]];
      || a.createdAt < b.createdAt
      || (a.createdAt == b.createdAt && exists k: nat :: StringOrder.FirstDiffer(a.id, b.id, k))
  {
    StringOrder.LessIff(pool[order[i]].id, pool[order[j]].id);
  }

  lemma BeforeIsStrict(a: ProxyView, b: ProxyView)
    ensures !(Before(a, b) && Before(b, a))
    ensures a.id != b.id ==> Before(a, b) || Before(b, a)
  {
    StringOrder.Total(a.id, b.id);
    if StringOrder.Less(a.id, b.id) { StringOrder.Asymmetric(a.id, b.id); }
  }

  /** The order does not depend on how the map was iterated: it is unique. */
  lemma {:induction false} OrderIsUnique(pool: Pool, ids: set<string>, s: seq<string>, t: seq<string>)
    requires IsOrder(pool, ids, s) && IsOrder(pool, ids, t)
    ensures s == t
    decreases |s|
  {
    if s == [] {
      OrderLength(pool, ids, s);
      OrderLength(pool, ids, t);
    } else {
      assert s[0] in s && s[0] in t;
      SameFirst(pool, ids, s, t);
      Rest(pool, ids, s);
      Rest(pool, ids, t);
      OrderIsUnique(pool, ids - {s[0]}, s[1..], t[1..]);
      assert s == [s[0]] + s[1..] && t == [t[0]] + t[1..];
    }
  }

  lemma SameFirst(pool: Pool, ids: set<string>, s: seq<string>, t: seq<string>)
    requires IsOrder(pool, ids, s) && IsOrder(pool, ids, t) && s != [] && t != []
    ensures s[0] == t[0]
  {
    assert s[0] in s && t[0] in t;
    var i :| 0 <= i < |t| && t[i] == s[0];
    var j :| 0 <= j < |s| && s[j] == t[0];
    BeforeIsStrict(pool[s[0]], pool[t[0]]);
  }

  lemma Rest(pool: Pool, ids: set<string>, s: seq<string>)
    requires IsOrder(pool, ids, s) && s != []
    ensures IsOrder(pool, ids - {s[0]}, s[1..])
  {
    forall id ensures id in s[1..] <==> id in ids - {s[0]} {
      if id in s[1..] {
        var i :| 1 <= i < |s| && s[i] == id;
        BeforeIsStrict(pool[s[0]], pool[s[i]]);
      }
      if id in ids - {s[0]} {
        var i :| 0 <= i < |s| && s[i] == id;
        assert s[1..][i - 1] == id;
      }
    }
  }

  lemma OrderLength(pool: Pool, ids: set<string>, order: seq<string>)
    requires IsOrder(pool, ids, order)
    ensures |order| == |ids|
    ensures forall i, j :: 0 <= i < j < |order| ==> order[i] != order[j]
    decreases |order|
  {
    if order == [] {
      assert ids == {};
    } else {
      Rest(pool, ids, order);
      OrderLength(pool, ids - {order[0]}, order[1..]);
      assert order[0] in order;
      forall i, j | 0 <= i < j < |order| ensures order[i] != order[j] {
        BeforeIsStrict(pool[order[i]], pool[order[j]]);
      }
    }
  }

  // ---- Fairness ----

  /** The id under the cursor in the candidate order. */
  ghost predicate Picks(pool: Pool, bans: Bans, now: int, rr: nat, id: string) {
    exists order :: IsOrder(pool, CandidateIds(pool, bans, now), order) && order != [] && id == order[rr % |order|]
  }

  /** One dispatch on the state the pool shows at `now`, as GetProxy performs it. */
  ghost predicate Dispatch(pool: Pool, bans: Bans, now: int, rr: nat, served: string, pool': Pool, rr': nat) {
    Picks(pool, bans, now, rr, served) && pool' == AcquiredPool(pool, served, now) && rr' == rr + 1
  }

  datatype Turn = Turn(pool: Pool, bans: Bans, now: int, rr: nat, served: string)

  /** Whenever a request comes the proxies in `ids` are the idle unbanned ones. */
  ghost predicate Alternates(turns: seq<Turn>, ids: set<string>) {
    forall k :: AlternatesAt(turns, ids, k)
  }

  ghost predicate AlternatesAt(turns: seq<Turn>, ids: set<string>, k: nat) {
    k < |turns| ==>
      && CandidateIds(turns[k].pool, turns[k].bans, turns[k].now) == ids
      && Serves(turns[k])
      && (k + 1 < |turns| ==> TurnStep(turns[k], turns[k + 1], ids))
  }

  ghost predicate Serves(t: Turn) {
    exists pool', rr' :: Served(t, pool', rr')
  }

  ghost predicate Served(t: Turn, pool': Pool, rr': nat) {
    Dispatch(t.pool, t.bans, t.now, t.rr, t.served, pool', rr')
  }

  /** The cursor moved with the dispatch only; ids and creation times never change. */
  ghost predicate TurnStep(t: Turn, u: Turn, ids: set<string>) {
    && (exists pool' :: Served(t, pool', u.rr))
    && forall id :: id in ids && id in t.pool ==>
         id in u.pool && u.pool[id].id == t.pool[id].id && u.pool[id].createdAt == t.pool[id].createdAt
  }

  // ---- Acquire and release in turn ----

  /** What else may happen, to other proxies and to the clock: these stay as they are and
      unbanned, and no other one becomes idle and unbanned. */
  ghost predicate Elsewhere(pool: Pool, bans: Bans, now: int, pool': Pool, bans': Bans, now': int, ids: set<string>) {
    && (forall id :: id in ids && id in pool ==>
          id in pool' && pool'[id] == pool[id] && (Banned(bans', pool[id].ip, now') ==> Banned(bans, pool[id].ip, now)))
    && CandidateIds(pool', bans', now') <= CandidateIds(pool, bans, now) + ids
  }

  /** From one request to the next: a proxy is dispatched, released again, and in between
      and after that other things may happen elsewhere. */
  ghost predicate Cycle(t: Turn, u: Turn, ids: set<string>) {
    exists pool1, pool2, bans2, now2 :: CycleBy(t, u, ids, pool1, pool2, bans2, now2)
  }

  ghost predicate CycleBy(t: Turn, u: Turn, ids: set<string>, pool1: Pool, pool2: Pool, bans2: Bans, now2: int) {
    && Served(t, pool1, u.rr)
    && Elsewhere(pool1, t.bans, t.now, pool2, bans2, now2, ids)
    && Elsewhere(ReleasedPool(pool2, t.served), bans2, now2, u.pool, u.bans, u.now, ids)
  }

  /** At first these are the idle unbanned proxies; then requests come one by one. */
  ghost predicate TakingTurns(turns: seq<Turn>, ids: set<string>) {
    && (turns != [] ==> CandidateIds(turns[0].pool, turns[0].bans, turns[0].now) == ids)
    && (forall k :: 0 <= k < |turns| ==> Serves(turns[k]))
    && forall k :: 0 <= k < |turns| - 1 ==> Cycle(turns[k], turns[k + 1], ids)
  }

  /** Acquire followed by release gives back the same candidates. */
  lemma AcquireReleaseRestores(pool: Pool, bans: Bans, now: int, id: string)
    requires id in CandidateIds(pool, bans, now)
    ensures CandidateIds(AcquiredPool(pool, id, now), bans, now) == CandidateIds(pool, bans, now) - {id}
    ensures CandidateIds(ReleasedPool(AcquiredPool(pool, id, now), id), bans, now) == CandidateIds(pool, bans, now)
  {
  }

  lemma PickIsCandidate(pool: Pool, bans: Bans, now: int, rr: nat, id: string)
    requires Picks(pool, bans, now, rr, id)
    ensures id in CandidateIds(pool, bans, now)
  {
    var ids := CandidateIds(pool, bans, now);
    var order :| IsOrder(pool, ids, order) && order != [] && id == order[rr % |order|];
    assert id in order;
  }

  /** While one of them is out, the others stay the idle unbanned ones. */
  lemma OutMeanwhile(pool: Pool, bans: Bans, now: int, id: string, pool2: Pool, bans2: Bans, now2: int,
                     ids: set<string>)
    requires CandidateIds(pool, bans, now) == ids && id in ids
    requires Elsewhere(AcquiredPool(pool, id, now), bans, now, pool2, bans2, now2, ids)
    ensures CandidateIds(pool2, bans2, now2) == ids - {id} && id in pool2
    ensures pool2[id] == pool[id].(state := Active, lastUsed := now, requests := pool[id].requests + 1)
    ensures !Banned(bans2, pool[id].ip, now2)
    ensures forall x :: x in ids && x != id ==> x in pool2 && pool2[x] == pool[x]
  {
    AcquireReleaseRestores(pool, bans, now, id);
    var pool1 := AcquiredPool(pool, id, now);
    forall x | x in ids ensures x in pool1 && pool1[x].ip == pool[x].ip && (x != id ==> pool1[x] == pool[x]) {}
    assert pool2[id] == pool1[id];
  }

  lemma BackAgain(pool2: Pool, bans2: Bans, now2: int, id: string, ids: set<string>, u: Turn)
    requires id in ids && CandidateIds(pool2, bans2, now2) == ids - {id} && id in pool2
    requires pool2[id].state == Active && !Banned(bans2, pool2[id].ip, now2)
    requires Elsewhere(ReleasedPool(pool2, id), bans2, now2, u.pool, u.bans, u.now, ids)
    ensures CandidateIds(u.pool, u.bans, u.now) == ids
    ensures forall x :: x in ids ==> x in u.pool && x in pool2
    ensures forall x :: x in ids ==> u.pool[x] == if x == id then pool2[x].(state := Idle) else pool2[x]
  {
    var back := ReleasedPool(pool2, id);
    assert back[id] == pool2[id].(state := Idle) && back.Keys == pool2.Keys;
    forall x | x in pool2 ensures x in CandidateIds(back, bans2, now2) <==> x in ids {
      assert x in CandidateIds(pool2, bans2, now2) <==> x in ids - {id};
      assert x != id ==> back[x] == pool2[x];
    }
    forall x | x in ids ensures x in pool2 { assert x != id ==> x in CandidateIds(pool2, bans2, now2); }
    assert CandidateIds(back, bans2, now2) == ids;
    forall x | x in ids ensures x in back && x in u.pool && u.pool[x] == back[x] {}
  }

  lemma CycleIsTurnStep(t: Turn, u: Turn, ids: set<string>)
    requires CandidateIds(t.pool, t.bans, t.now) == ids && Cycle(t, u, ids)
    ensures CandidateIds(u.pool, u.bans, u.now) == ids && TurnStep(t, u, ids)
  {
    var pool1, pool2, bans2, now2 :| CycleBy(t, u, ids, pool1, pool2, bans2, now2);
    PickIsCandidate(t.pool, t.bans, t.now, t.rr, t.served);
    OutMeanwhile(t.pool, t.bans, t.now, t.served, pool2, bans2, now2, ids);
    BackAgain(pool2, bans2, now2, t.served, ids, u);
    assert Served(t, pool1, u.rr);
  }

  lemma {:induction false} CandidatesStay(turns: seq<Turn>, ids: set<string>, k: nat)
    requires TakingTurns(turns, ids) && k < |turns|
    ensures CandidateIds(turns[k].pool, turns[k].bans, turns[k].now) == ids
  {
    hide Cycle, Serves, CandidateIds;
    if k > 0 {
      CandidatesStay(turns, ids, k - 1);
      CycleIsTurnStep(turns[k - 1], turns[k], ids);
    }
  }

  /** Each request finds the same candidates again. */
  lemma TurnsAlternate(turns: seq<Turn>, ids: set<string>)
    requires TakingTurns(turns, ids)
    ensures Alternates(turns, ids)
  {
    hide Cycle, Serves, CandidateIds, TurnStep;
    forall k: nat ensures AlternatesAt(turns, ids, k) {
      if k < |turns| {
        CandidatesStay(turns, ids, k);
        if k + 1 < |turns| { CycleIsTurnStep(turns[k], turns[k + 1], ids); }
      }
    }
  }

  function Count(turns: seq<Turn>, id: string): nat {
    if turns == [] then 0
    else Count(turns[..|turns| - 1], id) + if turns[|turns| - 1].served == id then 1 else 0
  }

  /** How often residue r (mod n) occurs among from, from+1, ..., from+k-1. */
  function Hits(from: nat, k: nat, n: nat, r: nat): nat
    requires n > 0
  {
    if k == 0 then 0 else Hits(from, k - 1, n, r) + if (from + k - 1) % n == r then 1 else 0
  }

  /** Among 0, ..., x-1 the residue r occurs (x + n-1 - r) / n times. */
  lemma NextMultiple(x: nat, n: nat, r: nat)
    requires r < n
    ensures (x + 1 + n - 1 - r) / n == (x + n - 1 - r) / n + if x % n == r then 1 else 0
  {
    var q, m := x / n, x % n;
    assert x == q * n + m;
    if m < r {
      DivisionIsUnique(x + n - 1 - r, n, q, m + n - 1 - r);
      DivisionIsUnique(x + n - r, n, q, m + n - r);
    } else if m == r {
      DivisionIsUnique(x + n - 1 - r, n, q, n - 1);
      DivisionIsUnique(x + n - r, n, q + 1, 0);
    } else {
      assert (q + 1) * n == q * n + n;
      DivisionIsUnique(x + n - 1 - r, n, q + 1, m - 1 - r);
      DivisionIsUnique(x + n - r, n, q + 1, m - r);
    }
  }

  lemma {:induction false} HitsClosedForm(from: nat, k: nat, n: nat, r: nat)
    requires r < n
    ensures Hits(from, k, n, r) == (from + k + n - 1 - r) / n - (from + n - 1 - r) / n
  {
    if k > 0 {
      HitsClosedForm(from, k - 1, n, r);
      NextMultiple(from + k - 1, n, r);
    }
  }

  /** Adding k to c moves the quotient by k/n, rounded down or up. */
  lemma QuotientOfSum(c: nat, k: nat, n: nat)
    requires n > 0
    ensures k / n <= (c + k) / n - c / n <= (k + n - 1) / n
  {
    var qc, mc, qk, mk := c / n, c % n, k / n, k % n;
    if mc + mk < n {
      DivisionIsUnique(c + k, n, qc + qk, mc + mk) by { assert (qc + qk) * n == qc * n + qk * n; }
    } else {
      DivisionIsUnique(c + k, n, qc + qk + 1, mc + mk - n) by { assert (qc + qk + 1) * n == qc * n + qk * n + n; }
    }
    if mk == 0 {
      DivisionIsUnique(k + n - 1, n, qk, n - 1);
    } else {
      DivisionIsUnique(k + n - 1, n, qk + 1, mk - 1) by { assert (qk + 1) * n == qk * n + n; }
    }
  }

  lemma HitsAreEven(from: nat, k: nat, n: nat, r: nat)
    requires r < n
    ensures k / n <= Hits(from, k, n, r) <= (k + n - 1) / n
  {
    HitsClosedForm(from, k, n, r);
    QuotientOfSum(from + n - 1 - r, k, n);
  }

  lemma TurnKeepsOrder(t: Turn, u: Turn, ids: set<string>, order: seq<string>)
    requires TurnStep(t, u, ids) && IsOrder(t.pool, ids, order)
    ensures IsOrder(u.pool, ids, order) && u.rr == t.rr + 1
  {
    var pool' :| Served(t, pool', u.rr);
    forall id | id in order ensures id in u.pool && id in t.pool {}
  }

  /** Turn k keeps the order and moves the cursor by one. */
  lemma {:induction false} TurnsKeepOrder(turns: seq<Turn>, ids: set<string>, order: seq<string>, k: nat)
    requires Alternates(turns, ids) && k < |turns| && IsOrder(turns[0].pool, ids, order)
    ensures turns[k].rr == turns[0].rr + k && IsOrder(turns[k].pool, ids, order)
  {
    if k > 0 {
      TurnsKeepOrder(turns, ids, order, k - 1);
      assert AlternatesAt(turns, ids, k - 1);
      TurnKeepsOrder(turns[k - 1], turns[k], ids, order);
    }
  }

  lemma ServedIs(t: Turn, order: seq<string>)
    requires Serves(t) && IsOrder(t.pool, CandidateIds(t.pool, t.bans, t.now), order)
    ensures order != [] && t.served == order[t.rr % |order|]
  {
    var ids := CandidateIds(t.pool, t.bans, t.now);
    var pool', rr' :| Served(t, pool', rr');
    var used :| IsOrder(t.pool, ids, used) && used != [] && t.served == used[t.rr % |used|];
    OrderIsUnique(t.pool, ids, used, order);
  }

  lemma AlternatingCycles(turns: seq<Turn>, ids: set<string>, order: seq<string>, k: nat)
    requires Alternates(turns, ids) && k < |turns| && IsOrder(turns[0].pool, ids, order)
    ensures order != [] && turns[k].served == order[(turns[0].rr + k) % |order|]
  {
    TurnsKeepOrder(turns, ids, order, k);
    assert AlternatesAt(turns, ids, k);
    ServedIs(turns[k], order);
  }

  /** Turn k serves the (rr + k)-th candidate, cyclically. */
  lemma TurnsCycle(turns: seq<Turn>, ids: set<string>, order: seq<string>, k: nat)
    requires TakingTurns(turns, ids) && k < |turns| && IsOrder(turns[0].pool, ids, order)
    ensures order != [] && turns[k].served == order[(turns[0].rr + k) % |order|]
  {
    TurnsAlternate(turns, ids);
    AlternatingCycles(turns, ids, order, k);
  }

  ghost predicate NoRepeats(order: seq<string>) {
    forall i, j :: 0 <= i < j < |order| ==> order[i] != order[j]
  }

  ghost predicate Cyclic(turns: seq<Turn>, order: seq<string>, from: nat) {
    order != [] && forall k :: 0 <= k < |turns| ==> turns[k].served == order[(from + k) % |order|]
  }

  lemma AllTurnsCycle(turns: seq<Turn>, ids: set<string>, order: seq<string>)
    requires TakingTurns(turns, ids) && turns != [] && IsOrder(turns[0].pool, ids, order)
    ensures |order| == |ids| && NoRepeats(order) && Cyclic(turns, order, turns[0].rr)
  {
    OrderLength(turns[0].pool, ids, order);
    TurnsCycle(turns, ids, order, 0);
    forall k | 0 <= k < |turns| ensures turns[k].served == order[(turns[0].rr + k) % |order|] {
      TurnsCycle(turns, ids, order, k);
    }
  }

  lemma {:induction false} CountIsHits(turns: seq<Turn>, order: seq<string>, from: nat, r: nat)
    requires r < |order| && NoRepeats(order) && Cyclic(turns, order, from)
    ensures Count(turns, order[r]) == Hits(from, |turns|, |order|, r)
  {
    if turns != [] {
      CountIsHits(turns[..|turns| - 1], order, from, r);
    }
  }

  lemma CyclicIsFair(turns: seq<Turn>, order: seq<string>, from: nat, r: nat)
    requires r < |order| && NoRepeats(order) && Cyclic(turns, order, from)
    ensures |turns| / |order| <= Count(turns, order[r]) <= (|turns| + |order| - 1) / |order|
  {
    CountIsHits(turns, order, from, r);
    HitsAreEven(from, |turns|, |order|, r);
  }

  /** Fairness: with n idle unbanned proxies at first, and acquire and release
      alternating, each of them has served k/n requests after k, rounded down or up,
      wherever the cursor started and whatever happens to other proxies meanwhile. */
  lemma RoundRobinIsFair(turns: seq<Turn>, ids: set<string>, order: seq<string>, id: string)
    requires TakingTurns(turns, ids) && turns != []
    requires IsOrder(turns[0].pool, ids, order) && id in ids
    ensures |order| == |ids| > 0 && |turns| / |order| <= Count(turns, id) <= (|turns| + |order| - 1) / |order|
  {
    var r :| 0 <= r < |order| && order[r] == id by { assert id in order; }
    AllTurnsCycle(turns, ids, order);
    CyclicIsFair(turns, order, turns[0].rr, r);
  }
}
