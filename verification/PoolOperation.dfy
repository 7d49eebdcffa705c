/** Ordinary operation on distinct addresses keeps the bound on the pool. */
module PoolOperation {
  import opened PoolSpec
  import opened PoolProtocol
  import opened PoolBound

  /** `home` says which proxy an address belongs to: no two ever share one. */
  predicate At(home: string -> string, ip: string, id: string) { ip != "" ==> home(ip) == id }

  ghost predicate Homed(home: string -> string, pool: Pool) {
    forall id :: id in pool ==> At(home, pool[id].ip, id)
  }

  /** A rate-limit mark on a proxy, pooled or not, with its own address. */
  predicate MarkedStep(home: string -> string, s: Sys, s': Sys, id: string, ip: string, until: int) {
    At(home, ip, id) && s' == s.(pool := LimitedPool(s.pool, id, s.now), bans := Extended(s.bans, ip, until))
  }

  /** Acquire, release, failure, or a health check that revives nobody. */
  predicate RecordStep(s: Sys, s': Sys, id: string) {
    || s' == s.(pool := AcquiredPool(s.pool, id, s.now))
    || s' == s.(pool := ReleasedPool(s.pool, id))
    || s' == s.(pool := UnhealthyPool(s.pool, id))
    || (id in s.pool && s.pool[id].state != Unhealthy && s' == s.(pool := CheckedPool(s.pool, id, true)))
    || s' == s.(pool := CheckedPool(s.pool, id, false))
  }

  predicate TimeStep(s: Sys, s': Sys, later: int, ips: set<string>) {
    s.now <= later && s' == s.(now := later, bans := Swept(s.bans, ips, later))
  }

  ghost predicate OperatingTaskStep(home: string -> string, s: Sys, s': Sys, a: nat) {
    || (exists v :: Arrives(home, s, s', a, v))
    || CreateFailed(s, s', a)
    || (exists todo :: Picked(s, s', a, todo))
    || (exists id :: Removed(s, s', a, id))
    || PruneEnded(s, s', a)
    || Finished(s, s', a)
  }

  predicate Arrives(home: string -> string, s: Sys, s': Sys, a: nat, v: ProxyView) {
    Created(s, s', a, v) && At(home, v.ip, v.id) && !Banned(s.bans, v.ip, s.now)
  }

  ghost predicate OperatingStart(home: string -> string, s: Sys, s': Sys) {
    exists v :: AllowedStart(NOTHING, s, s', v) && At(home, v.ip, v.id)
  }

  /** Ordinary operation: requests, marks, failures, checks, triggers, spawns, prunes
      and the clock, on addresses that are distinct and new containers that come up
      unbanned. */
  ghost predicate OperatingNext(home: string -> string, s: Sys, s': Sys) {
    || AllowedTrigger(NOTHING, s, s')
    || (exists a :: OperatingTaskStep(home, s, s', a))
    || OperatingStart(home, s, s')
    || StartFailed(s, s')
    || (exists id :: RecordStep(s, s', id))
    || (exists id, ip, until :: MarkedStep(home, s, s', id, ip, until))
    || (exists later, ips :: TimeStep(s, s', later, ips))
    || (exists todo :: RestoreDropped(s, s', todo))
    || (exists id :: Dropped(s, s', id))
    || (exists size :: AllowedResize(NOTHING, s, s', size))
  }

  ghost predicate OperatingRun(home: string -> string, run: seq<Sys>) {
    && |run| > 0 && Init(run[0]) && Homed(home, run[0].pool)
    && forall i :: 0 <= i < |run| - 1 ==> OperatingNext(home, run[i], run[i + 1])
  }

  lemma FreeInPlace(s: Sys, s': Sys)
    requires s'.pool.Keys == s.pool.Keys && s' == s.(pool := s'.pool, bans := s'.bans, now := s'.now)
    requires HealthyIds(s'.pool) <= HealthyIds(s.pool)
    requires StrandedIds(s'.pool, s'.bans, s'.now) <= StrandedIds(s.pool, s.bans, s.now)
    ensures AllowedInPlace(NOTHING, s, s')
  {
    NoNewIds(HealthyIds(s'.pool), HealthyIds(s.pool));
    NoNewIds(StrandedIds(s'.pool, s'.bans, s'.now), StrandedIds(s.pool, s.bans, s.now));
  }

  /** The same proxies at the same addresses, and none came back to life. */
  predicate NoneRevived(pool: Pool, pool': Pool) {
    && pool'.Keys == pool.Keys
    && forall id :: id in pool ==> pool'[id].ip == pool[id].ip && (pool'[id].Healthy() ==> pool[id].Healthy())
  }

  lemma NoneRevivedIsFree(home: string -> string, s: Sys, s': Sys)
    requires s' == s.(pool := s'.pool) && NoneRevived(s.pool, s'.pool) && Homed(home, s.pool)
    ensures AllowedInPlace(NOTHING, s, s') && Homed(home, s'.pool)
  {
    FreeInPlace(s, s');
    forall id | id in s'.pool ensures At(home, s'.pool[id].ip, id) { assert At(home, s.pool[id].ip, id); }
  }

  lemma CheckRevivesNone(pool: Pool, id: string, healthy: bool)
    requires healthy ==> id in pool && pool[id].state != Unhealthy
    ensures NoneRevived(pool, CheckedPool(pool, id, healthy))
  {
  }

  lemma UseRevivesNone(pool: Pool, id: string, now: int)
    ensures NoneRevived(pool, AcquiredPool(pool, id, now)) && NoneRevived(pool, ReleasedPool(pool, id))
    ensures NoneRevived(pool, UnhealthyPool(pool, id))
  {
  }

  lemma RecordStepIsFree(home: string -> string, s: Sys, s': Sys, id: string)
    requires RecordStep(s, s', id) && Homed(home, s.pool)
    ensures AllowedInPlace(NOTHING, s, s') && Homed(home, s'.pool)
  {
    assert NoneRevived(s.pool, s'.pool) by {
      hide NoneRevived, AcquiredPool, ReleasedPool, UnhealthyPool, CheckedPool;
      UseRevivesNone(s.pool, id, s.now);
      CheckRevivesNone(s.pool, id, false);
      if id in s.pool && s.pool[id].state != Unhealthy { CheckRevivesNone(s.pool, id, true); }
    }
    hide RecordStep, NoneRevived;
    NoneRevivedIsFree(home, s, s');
  }

  /** Where every address belongs to one proxy, a mark hides no other one. */
  lemma MarkIsFree(home: string -> string, s: Sys, s': Sys, id: string, ip: string, until: int)
    requires MarkedStep(home, s, s', id, ip, until) && Homed(home, s.pool)
    ensures AllowedInPlace(NOTHING, s, s') && Homed(home, s'.pool)
  {
    assert s'.pool.Keys == s.pool.Keys;
    forall x | x in s.pool && x != id
      ensures s'.pool[x] == s.pool[x] && (Banned(s'.bans, s.pool[x].ip, s.now) ==> Banned(s.bans, s.pool[x].ip, s.now))
    {
      assert At(home, s.pool[x].ip, x);
    }
    FreeInPlace(s, s');
  }

  lemma TimeStepIsFree(s: Sys, s': Sys, later: int, ips: set<string>)
    requires TimeStep(s, s', later, ips)
    ensures AllowedInPlace(NOTHING, s, s')
  {
    FreeInPlace(s, s');
  }

  lemma TaskStepStaysHome(home: string -> string, s: Sys, s': Sys, a: nat)
    requires OperatingTaskStep(home, s, s', a) && Homed(home, s.pool)
    ensures AllowedTaskStep(NOTHING, s, s', a) && Homed(home, s'.pool)
  {
    if v :| Arrives(home, s, s', a, v) {
      assert Created(s, s', a, v);
    } else if todo :| Picked(s, s', a, todo) {
      assert s'.pool == s.pool;
    } else if id :| Removed(s, s', a, id) {
      forall x | x in s'.pool ensures At(home, s'.pool[x].ip, x) { assert At(home, s.pool[x].ip, x); }
    } else {
      assert s'.pool == s.pool;
    }
  }

  lemma OperatingIsAllowed(home: string -> string, s: Sys, s': Sys)
    requires OperatingNext(home, s, s') && Homed(home, s.pool)
    ensures Allowed(NOTHING, s, s') && Homed(home, s'.pool)
  {
    if a :| OperatingTaskStep(home, s, s', a) {
      TaskStepStaysHome(home, s, s', a);
    } else if OperatingStart(home, s, s') {
      var v :| AllowedStart(NOTHING, s, s', v) && At(home, v.ip, v.id);
    } else if id :| RecordStep(s, s', id) {
      RecordStepIsFree(home, s, s', id);
    } else if id, ip, until :| MarkedStep(home, s, s', id, ip, until) {
      MarkIsFree(home, s, s', id, ip, until);
    } else if later, ips :| TimeStep(s, s', later, ips) {
      TimeStepIsFree(s, s', later, ips);
    } else if todo :| RestoreDropped(s, s', todo) {
    } else if id :| Dropped(s, s', id) {
    } else if size :| AllowedResize(NOTHING, s, s', size) {
    }
  }

  lemma {:induction false} OperatingRunIsAllowed(home: string -> string, run: seq<Sys>)
    requires OperatingRun(home, run)
    ensures AllowedRun(NOTHING, run) && Homed(home, run[|run| - 1].pool)
  {
    hide Allowed, OperatingNext;
    var k := |run| - 1;
    if k > 0 {
      assert OperatingNext(home, run[k - 1], run[k]);
      OperatingRunIsAllowed(home, run[..k]);
      OperatingIsAllowed(home, run[k - 1], run[k]);
      AllowedOneMore(NOTHING, run);
    }
  }

  /** While addresses are distinct, containers come up unbanned and nothing revives,
      is added or shrinks, ordinary operation keeps the bound in every interleaving,
      and usable plus pending within the size: rate-limit marks cannot break it. */
  lemma DistinctAddressesKeepBound(home: string -> string, run: seq<Sys>, i: nat)
    requires OperatingRun(home, run) && i < |run|
    ensures WithinBound(run[i]) && UsableWithinSize(run[i])
    ensures AtRest(run[i]) ==> |run[i].pool| <= run[i].size
  {
    OperatingRunIsAllowed(home, run);
    BoundHolds(run, i);
  }
}
