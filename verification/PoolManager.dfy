/** The pool manager itself: proxies are objects updated in place, the tables are
    fields, and each method is one lock-held section (or the part of a call up to
    the point where it would block). `now` is the clock reading the section takes. */
module PoolManager {
  import opened Common
  import opened PoolSpec
  import opened BanHistory
  import opened RoundRobin
  import StringOrder

  class Proxy {
    const id: string
    const container: string
    const region: string
    const server: string
    const createdAt: int
    var ip: string
    var state: ProxyState
    var lastUsed: int
    var requests: int
    var errors: int

    constructor (v: ProxyView)
      ensures View() == v
    {
      id, container, region, server, createdAt := v.id, v.container, v.region, v.server, v.createdAt;
      ip, state, lastUsed, requests, errors := v.ip, v.state, v.lastUsed, v.requests, v.errors;
    }

    function View(): ProxyView
      reads this
    {
      ProxyView(id, container, ip, region, server, createdAt, state, lastUsed, requests, errors)
    }

    method Acquire(now: int)
      modifies this
      ensures ip == old(ip) && View() == old(View()).(state := Active, lastUsed := now, requests := old(requests) + 1)
    {
      state, lastUsed, requests := Active, now, requests + 1;
    }
  }

  /** One insertion of a new container, and whether its address was a duplicate. */
  datatype Trial = Trial(container: string, dup: bool)

  class PoolManager {
    const ipBanDuration: int
    const cooldownDuration: int
    const stickyTTL: int
    const rotateAttempts: int
    var size: int
    var pool: map<string, Proxy>
    var sticky: map<string, string>
    var ipBans: Bans
    var regionBans: Bans
    var spawning: int
    var rr: nat
    var totalRequests: int
    var totalErrors: int
    ghost var marks: seq<Mark>  // every rate-limit mark so far
    ghost var clock: int        // the latest clock reading
    ghost var live: nat         // the spawn tasks launched and not yet done
    ghost var trials: seq<Trial>  // every insertion so far

    ghost predicate Valid()
      reads this`pool, this`ipBans, this`spawning, this`live
    {
      && (forall id :: id in pool ==> pool[id].id == id)
      && "" !in ipBans
      && spawning == live
    }

    /** From the latest clock reading on, the ban table answers as the history of
        rate-limit marks does. */
    ghost predicate Faithful()
      reads this`ipBans, this`marks, this`clock
    {
      Refines(ipBans, marks, clock)
    }

    function View(): Pool
      reads this`pool, pool.Values
    {
      map id | id in pool :: pool[id].View()
    }

    /** The idle and active proxies outside every ban window of the history. */
    ghost function Serving(now: int): set<string>
      reads this`pool, this`marks, pool.Values
    {
      set id | id in pool && (pool[id].state == Idle || pool[id].state == Active) && !BannedBy(marks, pool[id].ip, now)
    }

    /** The idle ones among them. */
    ghost function Waiting(now: int): set<string>
      reads this`pool, this`marks, pool.Values
    {
      set id | id in pool && pool[id].state == Idle && !BannedBy(marks, pool[id].ip, now)
    }

    constructor (size: int, ipBanDuration: int, cooldownDuration: int, stickyTTL: int, rotateAttempts: int)
      ensures Valid() && Faithful() && View() == map[] && sticky == map[] && ipBans == map[] && regionBans == map[]
      ensures live == 0 && rr == 0 && marks == [] && trials == [] && clock == 0 && this.size == size
    {
      this.size, this.ipBanDuration, this.cooldownDuration := size, ipBanDuration, cooldownDuration;
      this.stickyTTL, this.rotateAttempts := stickyTTL, rotateAttempts;
      pool, sticky, ipBans, regionBans := map[], map[], map[], map[];
      spawning, rr, totalRequests, totalErrors := 0, 0, 0, 0;
      marks, clock, live, trials := [], 0, 0, [];
      new;
      forall ip, t | 0 <= t ensures Banned(ipBans, ip, t) <==> BannedBy(marks, ip, t) {}
    }

    /** ipBannedLocked: looks one address up and drops its entry once expired. */
    method IpBanned(ip: string, now: int) returns (banned: bool)
      requires Valid()
      modifies this`ipBans
      ensures Valid() && Tidied(old(ipBans), ipBans, now)
      ensures banned == Banned(old(ipBans), ip, now)
      ensures banned <==> ip in old(ipBans) && now < old(ipBans)[ip]
      ensures ipBans == if banned then old(ipBans) else old(ipBans) - {ip}
    {
      banned := Banned(ipBans, ip, now);
      if ip in ipBans && !banned {
        ipBans := ipBans - {ip};
      }
    }

    /** usableCountLocked. */
    method UsableCount(now: int) returns (n: nat)
      requires Valid()
      modifies this`ipBans
      ensures Valid() && Tidied(old(ipBans), ipBans, now)
      ensures n == |UsableIds(old(View()), old(ipBans), now)|
    {
      ghost var bans0, view := ipBans, View();
      ghost var usable := UsableIds(view, bans0, now);
      n := 0;
      var ids := pool.Keys;
      var todo := ids;
      CountNone(usable, ids);
      while todo != {}
        invariant Valid() && todo <= ids
        invariant n == |usable - todo|
        invariant Tidied(bans0, ipBans, now)
        decreases todo
      {
        var id :| id in todo;
        assert view[id] == pool[id].View();
        CountOne(usable, todo, id);
        var pr := pool[id];
        if pr.state == Idle || pr.state == Active {
          var banned := IpBanned(pr.ip, now);
          if !banned { n := n + 1; }
        }
        todo := todo - {id};
      }
      CountAll(usable);
    }

    /** The candidates of a dispatch, in whatever order the map is iterated. */
    method Candidates(now: int) returns (cands: seq<Proxy>)
      requires Valid()
      modifies this`ipBans
      ensures Valid() && Tidied(old(ipBans), ipBans, now)
      ensures forall pr :: pr in cands ==> pr.id in pool && pool[pr.id] == pr
      ensures forall id :: id in pool ==>
        (pool[id] in cands <==> id in CandidateIds(old(View()), old(ipBans), now))
      ensures forall i, j :: 0 <= i < j < |cands| ==> cands[i] != cands[j]
    {
      ghost var bans0, view := ipBans, View();
      ghost var wanted := CandidateIds(view, bans0, now);
      cands := [];
      var ids := pool.Keys;
      var todo := ids;
      while todo != {}
        invariant Valid() && todo <= ids
        invariant forall pr :: pr in cands ==> pr.id in ids - todo && pool[pr.id] == pr
        invariant forall id :: id in ids - todo ==> (pool[id] in cands <==> id in wanted)
        invariant forall i, j :: 0 <= i < j < |cands| ==> cands[i] != cands[j]
        invariant Tidied(bans0, ipBans, now)
        decreases todo
      {
        var id :| id in todo;
        assert view[id] == pool[id].View();
        var pr := pool[id];
        if pr.state == Idle {
          var banned := IpBanned(pr.ip, now);
          if !banned { cands := cands + [pr]; }
        }
        todo := todo - {id};
      }
    }

    lemma WaitingAreCandidates(now: int)
      requires Faithful() && clock <= now
      ensures Waiting(now) == CandidateIds(View(), ipBans, now)
    {
      BansAgree(ipBans, marks, clock, now);
    }

    lemma ServingAreUsable(now: int)
      requires Faithful() && clock <= now
      ensures Serving(now) == UsableIds(View(), ipBans, now)
    {
      BansAgree(ipBans, marks, clock, now);
    }

    /** The pinned proxy of a conversation, when it may still be used. */
    ghost predicate Pinned(conversation: string, now: int)
      reads this, pool.Values
    {
      && conversation != "" && stickyTTL > 0
      && conversation in sticky && sticky[conversation] in Serving(now)
    }

    /** The sticky fast path of GetProxy. The proxy is in the pool, healthy, and
        outside every ban window of the history. */
    method StickyProxy(conversation: string, now: int) returns (r: Option<Proxy>)
      requires Valid() && Faithful() && clock <= now
      modifies this`ipBans, this`clock
      ensures Valid() && Faithful() && clock == now && Tidied(old(ipBans), ipBans, now)
      ensures r.Some? == old(Pinned(conversation, now))
      ensures r.Some? ==> r.value == pool[sticky[conversation]]
    {
      BansAgree(ipBans, marks, clock, now);
      r := None;
      if conversation != "" && stickyTTL > 0 && conversation in sticky {
        var id := sticky[conversation];
        if id in pool {
          var pr := pool[id];
          if pr.state == Idle || pr.state == Active {
            var banned := IpBanned(pr.ip, now);
            if !banned { r := Some(pr); }
          }
        }
      }
      TidiedRefines(old(ipBans), ipBans, marks, clock, now);
      clock := now;
    }

    /** The round-robin choice among the idle, unbanned proxies. */
    method Select(now: int) returns (r: Option<Proxy>)
      requires Valid()
      modifies this`ipBans
      ensures Valid() && Tidied(old(ipBans), ipBans, now)
      ensures r.None? ==> CandidateIds(old(View()), old(ipBans), now) == {}
      ensures r.Some? ==> r.value.id in pool && pool[r.value.id] == r.value
      ensures r.Some? ==> r.value.state == Idle && !Banned(old(ipBans), r.value.ip, now)
      ensures r.Some? ==> Picks(old(View()), old(ipBans), now, rr, r.value.id)
    {
      ghost var bans0, view := ipBans, View();
      ghost var wanted := CandidateIds(view, bans0, now);
      var cands := Candidates(now);
      if cands == [] {
        assert forall id :: id in pool ==> pool[id] !in cands;
        return None;
      }
      var sorted := SortCandidates(cands);
      SortedIsOrder(pool, view, wanted, sorted);
      var pr := sorted[rr % |sorted|];
      assert pr in sorted && IdsOf(sorted)[rr % |IdsOf(sorted)|] == pr.id;
      assert pr.id in wanted && view[pr.id] == pr.View();
      r := Some(pr);
    }

    /** The choice at `now`: nobody it names is in a ban window of the history. */
    method SelectAt(now: int) returns (r: Option<Proxy>)
      requires Valid() && Faithful() && clock <= now
      modifies this`ipBans, this`clock
      ensures Valid() && Faithful() && clock == now && Tidied(old(ipBans), ipBans, now)
      ensures r.None? <==> Waiting(now) == {}
      ensures r.Some? ==> r.value.id in Waiting(now) && pool[r.value.id] == r.value
      ensures r.Some? ==> Picks(old(View()), old(ipBans), now, rr, r.value.id)
    {
      WaitingAreCandidates(now);
      r := Select(now);
      assert Waiting(now) == old(Waiting(now));
      assert r.Some? ==> r.value.id in CandidateIds(old(View()), old(ipBans), now);
      TidiedRefines(old(ipBans), ipBans, marks, clock, now);
      clock := now;
    }

    /** One pass of GetProxy's loop: dispatch round-robin, or report that the
        caller has to wait. */
    method AcquireProxy(conversation: string, now: int) returns (r: Option<Proxy>)
      requires Valid() && Faithful() && clock <= now
      modifies this`ipBans, this`clock, this`rr, this`sticky, this`totalRequests, pool.Values
      ensures Valid() && Faithful() && clock == now && Tidied(old(ipBans), ipBans, now)
      ensures r.None? <==> old(Waiting(now)) == {}
      ensures r.None? ==> View() == old(View()) && rr == old(rr) && sticky == old(sticky)
      ensures r.None? ==> totalRequests == old(totalRequests)
      ensures r.Some? ==> r.value.id in old(Waiting(now)) && pool[r.value.id] == r.value
      ensures r.Some? ==>
        r.value.View() == old(View())[r.value.id].(state := Active, lastUsed := now,
                                                   requests := old(View())[r.value.id].requests + 1)
      ensures r.Some? ==> Dispatch(old(View()), old(ipBans), now, old(rr), r.value.id, View(), rr)
      ensures r.Some? ==> totalRequests == old(totalRequests) + 1
      ensures r.Some? ==> sticky == if conversation != "" then old(sticky)[conversation := r.value.id] else old(sticky)
    {
      hide Refines, Picks, Tidied;
      r := SelectAt(now);
      if r.Some? { HandOut(r.value, conversation, now); }
    }

    /** The bookkeeping of a dispatch. */
    method HandOut(pr: Proxy, conversation: string, now: int)
      requires Valid() && pr.id in pool && pool[pr.id] == pr && pr.state == Idle
      modifies this`rr, this`sticky, this`totalRequests, pr
      ensures Valid() && View() == AcquiredPool(old(View()), pr.id, now)
      ensures pr.View() == old(pr.View()).(state := Active, lastUsed := now, requests := old(pr.requests) + 1)
      ensures rr == old(rr) + 1 && totalRequests == old(totalRequests) + 1
      ensures sticky == if conversation != "" then old(sticky)[conversation := pr.id] else old(sticky)
    {
      Use(pr, now);
      Count(pr.id, conversation);
    }

    /** The cursor, the request count and the pin. */
    method Count(id: string, conversation: string)
      modifies this`rr, this`sticky, this`totalRequests
      ensures rr == old(rr) + 1 && totalRequests == old(totalRequests) + 1
      ensures sticky == if conversation != "" then old(sticky)[conversation := id] else old(sticky)
    {
      rr, totalRequests := rr + 1, totalRequests + 1;
      if conversation != "" { sticky := sticky[conversation := id]; }
    }

    method Use(pr: Proxy, now: int)
      requires Valid() && pr.id in pool && pool[pr.id] == pr && pr.state == Idle
      modifies pr
      ensures Valid() && View() == AcquiredPool(old(View()), pr.id, now)
      ensures pr.View() == old(pr.View()).(state := Active, lastUsed := now, requests := old(pr.requests) + 1)
    {
      pr.Acquire(now);
      RecordUpdated(pr);
    }

    twostate lemma RecordUpdated(pr: Proxy)
      requires pool == old(pool) && (forall id :: id in pool ==> pool[id].id == id)
      requires pr.id in pool && pool[pr.id] == pr
      requires forall id :: id in pool && id != pr.id ==> pool[id].View() == old(pool[id].View())
      ensures View() == old(View())[pr.id := pr.View()]
      ensures old(View())[pr.id] == old(pr.View())
    {
    }

    /** ReleaseProxy, for any proxy handle. */
    method ReleaseProxy(proxyId: string)
      requires Valid()
      modifies pool.Values
      ensures Valid() && View() == ReleasedPool(old(View()), proxyId)
      ensures proxyId in pool && old(pool[proxyId].state) == Active ==>
        pool[proxyId].View() == old(pool[proxyId].View()).(state := Idle)
      ensures forall id :: id in pool && (id != proxyId || old(pool[id].state) != Active) ==>
        pool[id].View() == old(pool[id].View())
    {
      if proxyId in pool {
        var pr := pool[proxyId];
        if pr.state == Active { pr.state := Idle; }
        RecordUpdated(pr);
      }
    }

    /** The lock-held part of ensurePoolCapacity: raise the spawn counter by the
        uncovered deficit and report how many tasks to launch. The counter stays
        equal to the number of live spawn tasks. */
    method ReserveSpawns(now: int) returns (toSpawn: nat)
      requires Valid() && Faithful() && clock <= now
      modifies this`ipBans, this`clock, this`spawning, this`live
      ensures Valid() && Faithful() && clock == now && Tidied(old(ipBans), ipBans, now)
      ensures toSpawn == Shortfall(size, |UsableIds(old(View()), old(ipBans), now)|, old(spawning))
      ensures var uncovered := size - |Serving(now)| - old(spawning); toSpawn == if uncovered > 0 then uncovered else 0
      ensures live == old(live) + toSpawn
    {
      ServingAreUsable(now);
      var usable := UsableCount(now);
      TidiedRefines(old(ipBans), ipBans, marks, clock, now);
      clock := now;
      var deficit := size - usable;
      var n := deficit - spawning;
      if n < 0 { n := 0; }
      if n > 0 { spawning := spawning + n; }
      toSpawn := n;
      live := live + toSpawn;
    }

    /** Called by a live spawn task when it is done: the counter goes on counting the
        live ones, and its zero guard never stops it. */
    method SpawnDone()
      requires Valid() && live > 0
      modifies this`spawning, this`live
      ensures Valid() && live == old(live) - 1 && spawning < old(spawning)
    {
      if spawning > 0 { spawning := spawning - 1; }
      live := live - 1;
    }

    /** The lock-held part of pruneDeadProxies. */
    method PickVictims() returns (toRemove: seq<string>)
      requires Valid()
      ensures forall i, j :: 0 <= i < j < |toRemove| ==> toRemove[i] != toRemove[j]
      ensures PruneChoice(View(), size, set id | id in toRemove)
    {
      toRemove := [];
      var ids := pool.Keys;
      var todo := ids;
      while todo != {}
        invariant todo <= ids
        invariant forall i, j :: 0 <= i < j < |toRemove| ==> toRemove[i] != toRemove[j]
        invariant forall id :: id in toRemove <==> id in ids - todo && !pool[id].View().Healthy()
        decreases todo
      {
        var id :| id in todo;
        if pool[id].state == Cooldown || pool[id].state == Unhealthy {
          toRemove := toRemove + [pool[id].id];
        }
        todo := todo - {id};
      }
      DistinctSize(toRemove);
      assert (set id | id in toRemove) == DeadIds(View()) && View().Keys == pool.Keys;
      var excess := |pool| - size;
      if excess > 0 && |toRemove| > excess {
        toRemove := toRemove[..excess];
        DistinctSize(toRemove);
      }
    }

    /** The lock-held part of RemoveProxy: the container to remove, if any. */
    method TakeOut(proxyId: string) returns (r: Option<string>)
      requires Valid()
      modifies this`pool
      ensures Valid() && View() == old(View()) - {proxyId}
      ensures r == if proxyId in old(pool) then Some(old(pool)[proxyId].container) else None
    {
      r := None;
      if proxyId in pool {
        r := Some(pool[proxyId].container);
        pool := pool - {proxyId};
      }
    }

    /** MarkRateLimited up to its capacity trigger. The handle need not be in the
        pool any more; its address and region are banned all the same. */
    method MarkRateLimited(proxy: Proxy, retrySecs: int, now: int)
      requires Valid() && Faithful() && clock <= now
      modifies this`ipBans, this`regionBans, this`marks, this`clock, this`totalErrors, pool.Values
      ensures Valid() && Faithful() && clock == now
      ensures marks == old(marks) + [Mark(proxy.ip, now + BanFor(ipBanDuration, retrySecs))]
      ensures ipBans == Extended(old(ipBans), proxy.ip, now + BanFor(ipBanDuration, retrySecs))
      ensures regionBans == if proxy.region == "" then old(regionBans)
                            else old(regionBans)[proxy.region := now + BanFor(ipBanDuration, retrySecs)]
      ensures View() == LimitedPool(old(View()), proxy.id, now)
      ensures proxy.id in pool ==>
        pool[proxy.id].View() == old(View())[proxy.id].(state := Cooldown, lastUsed := now,
                                                        errors := old(View())[proxy.id].errors + 1)
      ensures forall id :: id in pool && id != proxy.id ==> pool[id].View() == old(View())[id]
      ensures totalErrors == old(totalErrors) + if proxy.id in pool then 1 else 0
    {
      var banFor := ipBanDuration;
      if retrySecs > 0 {
        var d := Wrap64(retrySecs * SECOND);
        if d > banFor { banFor := d; }
      }
      hide Refines, Extended, LimitedPool;
      BanAddress(proxy.ip, now + banFor, now);
      if proxy.region != "" { regionBans := regionBans[proxy.region := now + banFor]; }
      assert View() == old(View());
      CoolDown(proxy.id, now);
    }

    /** banIPLocked. */
    method BanAddress(ip: string, until: int, now: int)
      requires Valid() && Faithful() && clock <= now
      modifies this`ipBans, this`marks, this`clock
      ensures Valid() && Faithful() && clock == now
      ensures marks == old(marks) + [Mark(ip, until)] && ipBans == Extended(old(ipBans), ip, until)
    {
      MarkRefines(ipBans, marks, clock, now, ip, until);
      if ip != "" && until > (if ip in ipBans then ipBans[ip] else 0) {
        ipBans := ipBans[ip := until];
      }
      marks, clock := marks + [Mark(ip, until)], now;
    }

    method CoolDown(proxyId: string, now: int)
      requires Valid()
      modifies this`totalErrors, pool.Values
      ensures Valid() && View() == LimitedPool(old(View()), proxyId, now)
      ensures proxyId in pool ==>
        pool[proxyId].View() == old(View())[proxyId].(state := Cooldown, lastUsed := now,
                                                      errors := old(View())[proxyId].errors + 1)
      ensures forall id :: id in pool && id != proxyId ==> pool[id].View() == old(View())[id]
      ensures totalErrors == old(totalErrors) + if proxyId in pool then 1 else 0
    {
      if proxyId in pool {
        var pr := pool[proxyId];
        pr.state, pr.lastUsed, pr.errors := Cooldown, now, pr.errors + 1;
        totalErrors := totalErrors + 1;
        RecordUpdated(pr);
      }
    }

    /** MarkUnhealthy up to its capacity trigger. */
    method MarkUnhealthy(proxyId: string) returns (topUp: bool)
      requires Valid()
      modifies this`totalErrors, pool.Values
      ensures Valid() && View() == UnhealthyPool(old(View()), proxyId)
      ensures proxyId in pool ==>
        pool[proxyId].View() == old(View())[proxyId].(state := Unhealthy, errors := old(View())[proxyId].errors + 1)
      ensures forall id :: id in pool && id != proxyId ==> pool[id].View() == old(View())[id]
      ensures topUp == (proxyId in pool) && totalErrors == old(totalErrors) + if topUp then 1 else 0
    {
      topUp := false;
      if proxyId in pool {
        var pr := pool[proxyId];
        pr.state, pr.errors := Unhealthy, pr.errors + 1;
        totalErrors := totalErrors + 1;
        topUp := true;
        RecordUpdated(pr);
      }
    }

    /** GetProxy up to the point where it would wait: the pinned proxy, or else a
        round-robin dispatch. `later` is the second clock reading. */
    method GetProxy(conversation: string, now: int, later: int) returns (r: Option<Proxy>)
      requires Valid() && Faithful() && clock <= now <= later
      modifies this`ipBans, this`clock, this`rr, this`sticky, this`totalRequests, pool.Values
      ensures Valid() && Faithful() && now <= clock <= later
      ensures r.None? <==> old(!Pinned(conversation, now) && Waiting(later) == {})
      ensures r.Some? ==> r.value.id in Serving(clock) && pool[r.value.id] == r.value
      ensures old(Pinned(conversation, now)) ==> r == old(Some(pool[sticky[conversation]])) && rr == old(rr)
      ensures old(Pinned(conversation, now)) || r.None? ==> View() == old(View())
      ensures old(!Pinned(conversation, now)) && r.Some? ==>
        r.value.id in old(Waiting(later)) && r.value.state == Active
    {
      r := StickyProxy(conversation, now);
      if r.None? { r := AcquireProxy(conversation, later); }
    }

    /** duplicateIPLocked. */
    method DuplicateIp(proxy: Proxy) returns (dup: bool)
      requires Valid()
      ensures dup == Duplicated(View(), proxy.View())
    {
      if proxy.ip == "" { return false; }
      var ids := pool.Keys;
      var todo := ids;
      while todo != {}
        invariant todo <= ids
        invariant forall id :: id in ids - todo ==>
          !(id != proxy.id && pool[id].ip == proxy.ip && pool[id].View().Healthy())
        decreases todo
      {
        var id :| id in todo;
        var pr := pool[id];
        todo := todo - {id};
        if pr.id == proxy.id || pr.ip == "" { continue; }
        if pr.ip == proxy.ip && (pr.state == Idle || pr.state == Active) {
          assert View()[id] == pr.View();
          return true;
        }
      }
      dup := false;
    }

    /** One verdict of checkAllProxies. */
    method ApplyCheck(proxyId: string, healthy: bool) returns (drifted: bool)
      requires Valid()
      modifies pool.Values
      ensures Valid() && View() == CheckedPool(old(View()), proxyId, healthy)
      ensures proxyId in pool ==> pool[proxyId].View() == old(View())[proxyId].(state := pool[proxyId].state)
      ensures proxyId in pool ==>
        pool[proxyId].state == match old(View())[proxyId].state
                               case Cooldown => Cooldown
                               case Active => if healthy then Active else Unhealthy
                               case _ => if healthy && !SharesAddress(View(), proxyId) then Idle else Unhealthy
      ensures forall id :: id in pool && id != proxyId ==> pool[id].View() == old(View())[id]
      ensures drifted ==> proxyId in pool && pool[proxyId].state == Unhealthy
    {
      ghost var before := View();
      drifted := Judge(proxyId, healthy);
      if proxyId in pool { CheckedIs(before, proxyId, healthy); }
      hide CheckedPool, SharesAddress;
      assert forall id :: id in pool ==> pool[id].View() == View()[id];
    }

    method Judge(proxyId: string, healthy: bool) returns (drifted: bool)
      requires Valid()
      modifies pool.Values
      ensures Valid() && View() == CheckedPool(old(View()), proxyId, healthy)
      ensures drifted ==> proxyId in pool && pool[proxyId].state == Unhealthy
    {
      drifted := false;
      if proxyId in pool {
        var pr := pool[proxyId];
        if !healthy && pr.state != Cooldown {
          pr.state := Unhealthy;
        } else if healthy && pr.state == Unhealthy {
          pr.state := Idle;
        }
        RecordUpdated(pr);
        if healthy && pr.state == Idle {
          var dup := DuplicateIp(pr);
          if dup {
            pr.state := Unhealthy;
            drifted := true;
          }
          RecordUpdated(pr);
        }
      }
    }

    /** restoreCooldownProxies up to its removals. */
    method RestoreCooldowns(now: int) returns (toRemove: set<string>)
      requires Valid() && Faithful() && clock <= now
      modifies this`ipBans, this`regionBans, this`clock, pool.Values
      ensures Valid() && Faithful() && clock == now
      ensures OnlyExpiredGone(old(ipBans), ipBans, now) && OnlyExpiredGone(old(regionBans), regionBans, now)
      ensures View() == RestoredPool(old(View()), |pool| > size, now, cooldownDuration)
      ensures forall id :: id in toRemove <==> id in pool && |pool| > size && Due(old(View())[id], now)
      ensures forall id :: id in pool ==>
        View()[id] == if Due(old(View())[id], now) && |pool| <= size then old(View())[id].(state := Idle, errors := 0)
                      else old(View())[id]
    {
      toRemove := RestoreRecords(now);
      ghost var restored := View();
      ClearBans(now);
      hide Refines, RestoredPool, OnlyExpiredGone;
      assert View() == restored;
    }

    /** The cooldown of this record is over. */
    ghost predicate Due(v: ProxyView, now: int) { v.state == Cooldown && v.lastUsed + cooldownDuration <= now }

    method ClearBans(now: int)
      requires Valid() && Faithful() && clock <= now
      modifies this`ipBans, this`regionBans, this`clock
      ensures Valid() && Faithful() && clock == now
      ensures ipBans == Swept(old(ipBans), old(ipBans).Keys, now)
      ensures OnlyExpiredGone(old(ipBans), ipBans, now) && OnlyExpiredGone(old(regionBans), regionBans, now)
    {
      SweepRefines(ipBans, marks, clock, now, ipBans.Keys);
      ipBans := ClearExpired(ipBans, now);
      regionBans := ClearExpired(regionBans, now);
      clock := now;
    }

    ghost predicate Holds(id: string, v: ProxyView)
      reads this`pool, pool.Values
    {
      id in pool && pool[id].View() == v
    }

    /** The record of id before or after its turn in the restore loop. */
    function Restoring(v: ProxyView, waiting: bool, over: bool, now: int): ProxyView {
      if waiting then v else RestoredView(v, over, now, cooldownDuration)
    }

    method RestoreRecords(now: int) returns (toRemove: set<string>)
      requires Valid()
      modifies pool.Values
      ensures Valid() && View() == RestoredPool(old(View()), |pool| > size, now, cooldownDuration)
      ensures forall id :: id in toRemove <==> id in pool && |pool| > size && Due(old(View())[id], now)
      ensures forall id :: id in pool ==>
        View()[id] == if Due(old(View())[id], now) && |pool| <= size then old(View())[id].(state := Idle, errors := 0)
                      else old(View())[id]
    {
      ghost var view := View();
      toRemove := RestoreEach(now);
      RestoredIs(view, |pool| > size, now, cooldownDuration);
      hide RestoredView, CooledDown;
      assert View() == RestoredPool(view, |pool| > size, now, cooldownDuration);
      hide RestoredPool;
    }

    /** The loop over the records. */
    method RestoreEach(now: int) returns (toRemove: set<string>)
      requires Valid()
      modifies pool.Values
      ensures Valid()
      ensures forall id :: id in pool ==>
        pool[id].View() == RestoredView(old(View())[id], |pool| > size, now, cooldownDuration)
      ensures forall id :: id in toRemove <==>
        id in pool && |pool| > size && CooledDown(old(View())[id], now, cooldownDuration)
    {
      hide RestoredView, CooledDown;
      var over := |pool| > size;
      ghost var view := View();
      toRemove := {};
      var ids := pool.Keys;
      var todo := ids;
      while todo != {}
        invariant todo <= ids
        invariant forall id :: id in ids ==> Holds(id, Restoring(view[id], id in todo, over, now))
        invariant forall id :: id in toRemove <==>
          id in ids && id !in todo && over && CooledDown(view[id], now, cooldownDuration)
        decreases todo
      {
        var id :| id in todo;
        assert Holds(id, view[id]);
        var drop := RestoreOne(pool[id], over, now);
        if drop { toRemove := toRemove + {id}; }
        todo := todo - {id};
      }
      forall id | id in pool ensures pool[id].View() == RestoredView(view[id], over, now, cooldownDuration) {
        assert Holds(id, Restoring(view[id], false, over, now));
      }
    }

    /** The body of the restore loop. */
    method RestoreOne(pr: Proxy, over: bool, now: int) returns (drop: bool)
      modifies pr
      ensures pr.View() == RestoredView(old(pr.View()), over, now, cooldownDuration)
      ensures drop == (over && CooledDown(old(pr.View()), now, cooldownDuration))
    {
      drop := false;
      if pr.state != Cooldown { return; }
      if now - pr.lastUsed < cooldownDuration { return; }
      if over { return true; }
      pr.state, pr.errors := Idle, 0;
    }

    /** What other goroutines may do between two lock-held sections: anything that
        keeps the manager valid, insertions of their own included. */
    method Interleave()
      requires Valid()
      modifies this, pool.Values
      ensures Valid() && fresh(pool.Values - old(pool.Values)) && old(trials) <= trials
    {
    }

    twostate lemma Inserted(proxy: Proxy)
      requires pool == old(pool)[proxy.id := proxy] && proxy.View() == old(proxy.View())
      requires forall id :: id in old(pool) ==> old(pool)[id].View() == old(pool[id].View())
      ensures View() == old(View())[proxy.id := proxy.View()]
    {
    }

    method InsertTried(proxy: Proxy) returns (dup: bool)
      requires Valid()
      modifies this`pool
      ensures Valid() && dup == old(Duplicated(View(), proxy.View()))
      ensures pool == if dup then old(pool) - {proxy.id} else old(pool)[proxy.id := proxy]
      ensures !dup ==> !Duplicated(View(), proxy.View())
    {
      hide Duplicated;
      InsertAnyway(proxy);
      dup := DuplicateIp(proxy);
      if dup { pool := pool - {proxy.id}; }
    }

    /** The lock-held section of rotateUntilUniqueIP: insert, look for a duplicate,
        and take the proxy out again if there is one. */
    method InsertUnlessDuplicate(proxy: Proxy) returns (dup: bool)
      requires Valid()
      modifies this`pool, this`trials
      ensures Valid() && dup == old(Duplicated(View(), proxy.View()))
      ensures pool == if dup then old(pool) - {proxy.id} else old(pool)[proxy.id := proxy]
      ensures trials == old(trials) + [Trial(proxy.container, dup)]
      ensures !dup ==> !Duplicated(View(), proxy.View())
    {
      dup := InsertTried(proxy);
      trials := trials + [Trial(proxy.container, dup)];
    }

    method InsertAnyway(proxy: Proxy)
      requires Valid()
      modifies this`pool
      ensures Valid() && pool == old(pool)[proxy.id := proxy]
      ensures Duplicated(View(), proxy.View()) == old(Duplicated(View(), proxy.View()))
    {
      pool := pool[proxy.id := proxy];
      Inserted(proxy);
      OwnRecordIsNoDuplicate(old(View()), proxy.View());
      hide Duplicated;
    }
  }

  /** All expired entries are gone, and no other. */
  ghost predicate OnlyExpiredGone(before: Bans, after: Bans, now: int) {
    && (forall ip :: ip in after <==> ip in before && now < before[ip])
    && forall ip :: ip in after ==> after[ip] == before[ip]
  }

  /** The loops that clear expired bans. */
  method ClearExpired(bans: Bans, now: int) returns (left: Bans)
    ensures left == Swept(bans, bans.Keys, now) && OnlyExpiredGone(bans, left, now)
  {
    left := bans;
    var todo := bans.Keys;
    while todo != {}
      invariant todo <= bans.Keys && left == Swept(bans, bans.Keys - todo, now)
      decreases todo
    {
      var ip :| ip in todo;
      if !(now < bans[ip]) { left := left - {ip}; }
      todo := todo - {ip};
    }
  }

  /** The comparison of the dispatcher on the records themselves. */
  predicate Earlier(a: Proxy, b: Proxy) {
    if a.createdAt == b.createdAt then StringOrder.Less(a.id, b.id) else a.createdAt < b.createdAt
  }

  ghost predicate Sorted(ps: seq<Proxy>) {
    forall i, j :: 0 <= i < j < |ps| ==> Earlier(ps[i], ps[j])
  }

  function IdsOf(ps: seq<Proxy>): (ids: seq<string>)
    ensures |ids| == |ps| && forall i :: 0 <= i < |ps| ==> ids[i] == ps[i].id
  {
    if ps == [] then [] else [ps[0].id] + IdsOf(ps[1..])
  }

  lemma EarlierIsTransitive(a: Proxy, b: Proxy, c: Proxy)
    requires Earlier(a, b) && Earlier(b, c)
    ensures Earlier(a, c)
  {
    if a.createdAt == b.createdAt == c.createdAt { StringOrder.Transitive(a.id, b.id, c.id); }
  }

  function InsertedAt(ps: seq<Proxy>, pr: Proxy, i: nat): (out: seq<Proxy>)
    requires i <= |ps|
    ensures |out| == |ps| + 1 && out[i] == pr
    ensures forall k :: 0 <= k < |ps| + 1 ==> out[k] == if k < i then ps[k] else if k == i then pr else ps[k - 1]
  {
    ps[..i] + [pr] + ps[i..]
  }

  lemma InsertedIsSorted(ps: seq<Proxy>, pr: Proxy, i: nat)
    requires Sorted(ps) && i <= |ps|
    requires forall j :: 0 <= j < i ==> Earlier(ps[j], pr)
    requires forall j :: i <= j < |ps| ==> Earlier(pr, ps[j])
    ensures Sorted(InsertedAt(ps, pr, i))
  {
  }

  lemma InsertedMembers(ps: seq<Proxy>, pr: Proxy, i: nat)
    requires i <= |ps|
    ensures forall q :: q in InsertedAt(ps, pr, i) <==> q == pr || q in ps
  {
    assert ps == ps[..i] + ps[i..];
  }

  lemma LaterOnesFollow(ps: seq<Proxy>, pr: Proxy, i: nat)
    requires Sorted(ps) && i < |ps| && ps[i].id != pr.id && !Earlier(ps[i], pr)
    ensures forall j :: i <= j < |ps| ==> Earlier(pr, ps[j])
  {
    StringOrder.Total(ps[i].id, pr.id);
    forall j | i <= j < |ps| ensures Earlier(pr, ps[j]) {
      if j > i { EarlierIsTransitive(pr, ps[i], ps[j]); }
    }
  }

  /** One insertion into a sorted list. */
  method Insert(ps: seq<Proxy>, pr: Proxy) returns (out: seq<Proxy>)
    requires Sorted(ps) && forall q :: q in ps ==> q.id != pr.id
    ensures Sorted(out) && (forall q :: q in out <==> q == pr || q in ps)
  {
    var i := 0;
    while i < |ps| && Earlier(ps[i], pr)
      invariant 0 <= i <= |ps|
      invariant forall j :: 0 <= j < i ==> Earlier(ps[j], pr)
    {
      i := i + 1;
    }
    if i < |ps| { LaterOnesFollow(ps, pr, i); }
    InsertedIsSorted(ps, pr, i);
    InsertedMembers(ps, pr, i);
    out := InsertedAt(ps, pr, i);
  }

  /** Stands for sort.Slice. */
  method SortCandidates(cands: seq<Proxy>) returns (sorted: seq<Proxy>)
    requires forall i, j :: 0 <= i < j < |cands| ==> cands[i].id != cands[j].id
    ensures Sorted(sorted) && (forall q :: q in sorted <==> q in cands) && (cands != [] ==> sorted != [])
  {
    sorted := [];
    for k := 0 to |cands|
      invariant Sorted(sorted) && forall q :: q in sorted <==> q in cands[..k]
    {
      assert cands[..k + 1] == cands[..k] + [cands[k]];
      sorted := Insert(sorted, cands[k]);
    }
    assert cands[..|cands|] == cands;
    assert cands != [] ==> cands[0] in sorted;
  }

  lemma CountNone(chosen: set<string>, ids: set<string>)
    requires chosen <= ids
    ensures |chosen - ids| == 0
  {
    assert chosen - ids == {};
  }

  lemma CountAll(chosen: set<string>)
    ensures |chosen - {}| == |chosen|
  {
    assert chosen - {} == chosen;
  }

  lemma CountOne(chosen: set<string>, todo: set<string>, id: string)
    requires id in todo
    ensures |chosen - (todo - {id})| == |chosen - todo| + if id in chosen then 1 else 0
  {
    assert chosen - (todo - {id}) == (chosen - todo) + (if id in chosen then {id} else {});
  }

  lemma BansAgree(bans: Bans, marks: seq<Mark>, clock: int, now: int)
    requires Refines(bans, marks, clock) && clock <= now
    ensures forall ip :: Banned(bans, ip, now) <==> BannedBy(marks, ip, now)
  {
  }

  lemma TidiedRefines(bans: Bans, bans': Bans, marks: seq<Mark>, clock: int, now: int)
    requires Refines(bans, marks, clock) && clock <= now && Tidied(bans, bans', now)
    ensures Refines(bans', marks, now)
    ensures forall ip :: Banned(bans, ip, now) <==> BannedBy(marks, ip, now)
  {
    forall ip, t | now <= t ensures Banned(bans', ip, t) <==> BannedBy(marks, ip, t) {
      assert Banned(bans, ip, t) <==> BannedBy(marks, ip, t);
    }
  }

  lemma SortedIsOrder(pool: map<string, Proxy>, view: Pool, ids: set<string>, sorted: seq<Proxy>)
    requires view.Keys == pool.Keys && ids <= pool.Keys && Sorted(sorted)
    requires forall id :: id in pool ==> pool[id].id == id == view[id].id && view[id].createdAt == pool[id].createdAt
    requires forall pr :: pr in sorted ==> pr.id in pool && pool[pr.id] == pr
    requires forall id :: id in pool ==> (pool[id] in sorted <==> id in ids)
    ensures IsOrder(view, ids, IdsOf(sorted))
  {
    var order := IdsOf(sorted);
    forall i | 0 <= i < |order| ensures order[i] in pool && pool[order[i]] == sorted[i] {
      assert sorted[i] in sorted;
    }
    forall id ensures id in order <==> id in ids {
      if id in order {
        var i :| 0 <= i < |order| && order[i] == id;
      }
      if id in ids {
        var i :| 0 <= i < |sorted| && sorted[i] == pool[id];
        assert order[i] == id;
      }
    }
    forall i, j | 0 <= i < j < |order| ensures Before(view[order[i]], view[order[j]]) {
      assert Earlier(sorted[i], sorted[j]);
    }
  }

  lemma {:induction false} DistinctSize(ids: seq<string>)
    requires forall i, j :: 0 <= i < j < |ids| ==> ids[i] != ids[j]
    ensures |set id | id in ids| == |ids|
  {
    if ids != [] {
      var k := |ids| - 1;
      DistinctSize(ids[..k]);
      assert (set id | id in ids) == (set id | id in ids[..k]) + {ids[k]};
      assert ids[k] !in ids[..k];
    }
  }
}
