/** The pool as values: what a proxy record holds, which proxies are usable, and
    what each lock-held section of the pool manager does to the shared maps.
    The class in PoolManager.dfy is proved against these definitions and the
    concurrent protocol in PoolProtocol.dfy is built from them. */
module PoolSpec {

  datatype ProxyState = Idle | Active | Cooldown | Unhealthy

  /** A snapshot of one proxy record. Times are nanoseconds. */
  datatype ProxyView = ProxyView(
    id: string, container: string, ip: string, region: string, server: string, createdAt: int,
    state: ProxyState, lastUsed: int, requests: int, errors: int)
  {
    predicate Healthy() { state == Idle || state == Active }

    predicate Available() { state == Idle }
  }

  type Pool = map<string, ProxyView>
  type Bans = map<string, int>

  /** An egress IP is banned while the clock has not reached its entry. */
  predicate Banned(bans: Bans, ip: string, now: int) {
    ip != "" && ip in bans && now < bans[ip]
  }

  function HealthyIds(pool: Pool): set<string> {
    set id | id in pool && pool[id].Healthy()
  }

  function DeadIds(pool: Pool): set<string> {
    set id | id in pool && !pool[id].Healthy()
  }

  function UsableIds(pool: Pool, bans: Bans, now: int): set<string> {
    set id | id in pool && pool[id].Healthy() && !Banned(bans, pool[id].ip, now)
  }

  /** Healthy proxies that the ban table currently hides from selection. */
  function StrandedIds(pool: Pool, bans: Bans, now: int): set<string> {
    set id | id in pool && pool[id].Healthy() && Banned(bans, pool[id].ip, now)
  }

  /** How many containers a capacity trigger launches. */
  function Shortfall(size: int, usable: int, spawning: int): int {
    if size - usable - spawning > 0 then size - usable - spawning else 0
  }

  /** The victims a prune may pick: every dead proxy, cut down to the excess
      when the pool is over its size and has more dead proxies than that. */
  predicate PruneChoice(pool: Pool, size: int, todo: set<string>) {
    var excess := |pool| - size;
    && todo <= DeadIds(pool)
    && if excess > 0 && |DeadIds(pool)| > excess then |todo| == excess else todo == DeadIds(pool)
  }

  /** The ban table after a mark, keeping the later deadline. */
  function Extended(bans: Bans, ip: string, until: int): Bans {
    if ip != "" && until > (if ip in bans then bans[ip] else 0) then bans[ip := until] else bans
  }

  /** The ban table after expired entries of some IPs were dropped. */
  function Swept(bans: Bans, ips: set<string>, now: int): Bans {
    map ip | ip in bans && (ip !in ips || now < bans[ip]) :: bans[ip]
  }

  /** Some expired entries, and no others, were dropped. */
  ghost predicate Tidied(bans: Bans, bans': Bans, now: int) {
    && (forall ip :: ip in bans' ==> ip in bans && bans'[ip] == bans[ip])
    && (forall ip :: ip in bans && ip !in bans' ==> bans[ip] <= now)
  }

  // ---- What each operation does to the records ----

  function AcquiredPool(pool: Pool, id: string, now: int): Pool {
    if id in pool && pool[id].Available()
    then pool[id := pool[id].(state := Active, lastUsed := now, requests := pool[id].requests + 1)] else pool
  }

  function ReleasedPool(pool: Pool, id: string): Pool {
    if id in pool && pool[id].state == Active then pool[id := pool[id].(state := Idle)] else pool
  }

  function LimitedPool(pool: Pool, id: string, now: int): Pool {
    if id in pool
    then pool[id := pool[id].(state := Cooldown, lastUsed := now, errors := pool[id].errors + 1)] else pool
  }

  function UnhealthyPool(pool: Pool, id: string): Pool {
    if id in pool then pool[id := pool[id].(state := Unhealthy, errors := pool[id].errors + 1)] else pool
  }

  /** Another live proxy already has this address. */
  predicate Duplicated(pool: Pool, v: ProxyView) {
    v.ip != "" && exists id :: id in pool && id != v.id && pool[id].ip == v.ip && pool[id].Healthy()
  }

  lemma OwnRecordIsNoDuplicate(pool: Pool, v: ProxyView)
    ensures Duplicated(pool[v.id := v], v) == Duplicated(pool, v)
  {
    if Duplicated(pool, v) {
      var id :| id in pool && id != v.id && pool[id].ip == v.ip && pool[id].Healthy();
      assert pool[v.id := v][id] == pool[id];
    }
  }

  /** Live proxies have pairwise distinct known addresses. */
  ghost predicate DistinctLive(pool: Pool) {
    forall a, b :: (a in pool && b in pool && pool[a].Healthy() && pool[b].Healthy()
                    && pool[a].ip == pool[b].ip != "") ==> a == b
  }

  /** One health-check verdict: fail, revive, and send an idle proxy whose address
      drifted into a duplicate back to unhealthy. */
  function CheckedPool(pool: Pool, id: string, healthy: bool): Pool {
    if id !in pool then pool
    else
      var v := pool[id];
      var v' := if !healthy && v.state != Cooldown then v.(state := Unhealthy)
                else if healthy && v.state == Unhealthy then v.(state := Idle) else v;
      if healthy && v'.state == Idle && Duplicated(pool, v') then pool[id := v'.(state := Unhealthy)]
      else pool[id := v']
  }

  /** Another idle or active proxy has this one's known address. */
  predicate SharesAddress(pool: Pool, id: string)
    requires id in pool
  {
    pool[id].ip != "" && exists other :: other in pool && other != id && pool[other].ip == pool[id].ip
                                         && (pool[other].state == Idle || pool[other].state == Active)
  }

  /** What a verdict does: cooling proxies are left alone, failed ones become unhealthy,
      the others idle unless their address is shared, and active ones stay active. */
  lemma CheckedIs(pool: Pool, id: string, healthy: bool)
    requires id in pool && pool[id].id == id
    ensures var pool', was := CheckedPool(pool, id, healthy), pool[id].state;
      && pool'.Keys == pool.Keys && (forall x :: x in pool && x != id ==> pool'[x] == pool[x])
      && pool'[id] == pool[id].(state := pool'[id].state)
      && (was == Cooldown ==> pool'[id].state == Cooldown)
      && (was != Cooldown && !healthy ==> pool'[id].state == Unhealthy)
      && (was == Active && healthy ==> pool'[id].state == Active)
      && ((was == Idle || was == Unhealthy) && healthy ==>
            pool'[id].state == if SharesAddress(pool', id) then Unhealthy else Idle)
  {
    var v := pool[id].(state := Idle);
    if Duplicated(pool, v) {
      var other :| other in pool && other != v.id && pool[other].ip == v.ip && pool[other].Healthy();
      assert CheckedPool(pool, id, healthy)[other] == pool[other];
    }
  }

  predicate CooledDown(v: ProxyView, now: int, cooldown: int) {
    v.state == Cooldown && now - v.lastUsed >= cooldown
  }

  function RestoredView(v: ProxyView, over: bool, now: int, cooldown: int): ProxyView {
    if CooledDown(v, now, cooldown) && !over then v.(state := Idle, errors := 0) else v
  }

  /** Expired cooldowns return to idle unless the pool is over its size. */
  function RestoredPool(pool: Pool, over: bool, now: int, cooldown: int): Pool {
    map id | id in pool :: RestoredView(pool[id], over, now, cooldown)
  }

  /** A restore brings exactly the cooling proxies back whose cooldown is over, with a
      clean error count, and none while the pool is over its size. */
  lemma RestoredIs(pool: Pool, over: bool, now: int, cooldown: int)
    ensures var pool' := RestoredPool(pool, over, now, cooldown);
      && pool'.Keys == pool.Keys
      && forall id :: id in pool ==>
           && (CooledDown(pool[id], now, cooldown)
               <==> pool[id].state == Cooldown && pool[id].lastUsed + cooldown <= now)
           && pool'[id] == if pool[id].state == Cooldown && pool[id].lastUsed + cooldown <= now && !over
                           then pool[id].(state := Idle, errors := 0) else pool[id]
  {
  }

  /** A proxy rate limited at `now` is not available again before its cooldown is over, and
      is so after it unless the pool is over its size. */
  lemma CooldownLastsIff(pool: Pool, id: string, now: int, later: int, over: bool, cooldown: int)
    requires id in pool
    ensures var limited := LimitedPool(pool, id, now);
      && !limited[id].Healthy()
      && (RestoredPool(limited, over, later, cooldown)[id].Available() <==> !over && now + cooldown <= later)
  {
  }

  /** Inserting a live proxy keeps live addresses distinct exactly when it is not
      a duplicate. */
  lemma InsertKeepsDistinctIff(pool: Pool, v: ProxyView)
    requires DistinctLive(pool) && v.Healthy()
    ensures DistinctLive(pool[v.id := v]) <==> !Duplicated(pool, v)
  {
    var pool' := pool[v.id := v];
    if Duplicated(pool, v) {
      var id :| id in pool && id != v.id && pool[id].ip == v.ip && pool[id].Healthy();
      assert pool'[id] == pool[id] && pool'[v.id] == v;
    }
  }

  /** A health check never leaves the checked proxy idle on a shared address, and
      a check that revives nobody keeps live addresses distinct. */
  lemma CheckGuardsAddresses(pool: Pool, id: string, healthy: bool)
    requires id in pool && pool[id].id == id
    ensures var pool' := CheckedPool(pool, id, healthy);
      && (healthy && pool'[id].state == Idle ==> !Duplicated(pool', pool'[id]))
      && (DistinctLive(pool) ==> DistinctLive(pool'))
  {
    var pool' := CheckedPool(pool, id, healthy);
    forall x | x in pool && x != id ensures pool'[x] == pool[x] {}
    if DistinctLive(pool) && pool'[id].Healthy() && !pool[id].Healthy() {
      InsertKeepsDistinctIff(pool, pool'[id]);
    }
  }

  lemma SplitHealthy(pool: Pool, bans: Bans, now: int)
    ensures |HealthyIds(pool)| == |UsableIds(pool, bans, now)| + |StrandedIds(pool, bans, now)|
    ensures |pool| == |HealthyIds(pool)| + |DeadIds(pool)|
  {
    assert HealthyIds(pool) == UsableIds(pool, bans, now) + StrandedIds(pool, bans, now);
    assert pool.Keys == HealthyIds(pool) + DeadIds(pool);
  }

  lemma SubsetSize<T>(a: set<T>, b: set<T>)
    requires a <= b
    ensures |a| <= |b|
  {
    assert b == a + (b - a);
  }

  /** Pruning in one undisturbed pass brings the pool to its size exactly when
      there are not more healthy proxies than that. */
  lemma PruneReachesSizeIff(pool: Pool, size: int, todo: set<string>)
    requires PruneChoice(pool, size, todo)
    ensures |pool - todo| <= size <==> |HealthyIds(pool)| <= size
    ensures |pool - todo| == if |pool| <= size || |HealthyIds(pool)| >= size then |HealthyIds(pool)| else size
    ensures HealthyIds(pool - todo) == HealthyIds(pool)
  {
    SplitHealthy(pool, map[], 0);
    assert (pool - todo).Keys == pool.Keys - todo;
    assert pool.Keys == (pool.Keys - todo) + todo;
    assert |pool - todo| == |pool| - |todo|;
  }
}
