/** The self-healing pool as a concurrent protocol. Each lock-held section is one
    atomic step; spawn tasks, prunes, marks, health checks, restores, resizes and
    manual additions interleave freely. */
module PoolProtocol {
  import opened PoolSpec

  /** Where a background task stands.
      - Creating: createProxy has not yet put its container in the pool
      - Pruning: about to pick the victims of its own prune
      - Removing: deleting the victims one lock-held section at a time. `later`
        is a history variable: the spawn tasks that inserted after the pick.
      - Finishing: through its prune, spawnDone still to come */
  datatype Phase =
    | Creating
    | Pruning(inserted: bool)
    | Removing(inserted: bool, todo: set<string>, later: set<nat>)
    | Finishing

  datatype Task = Task(spawner: bool, phase: Phase)
  {
    /** The task put a proxy in the pool and has not finished its own prune. */
    predicate Unsettled() {
      match phase
      case Pruning(inserted) => inserted
      case Removing(inserted, _, _) => inserted
      case _ => false
    }
  }

  /** `starting` counts the creators of Start still at work: they neither count in
      `spawning` nor prune. `debt` counts the arrivals that no deficit paid for:
      proxies that became healthy again, healthy proxies newly hidden by a ban (so
      that a trigger replaces them although they stay), manual additions, size
      reductions, and proxies of Start that arrive where a spawn task has already
      been launched in their place. */
  datatype Sys = Sys(
    pool: Pool, bans: Bans, now: int, size: int, spawning: int,
    tasks: map<nat, Task>, next: nat, debt: nat, starting: nat)

  function Pending(tasks: map<nat, Task>): set<nat> {
    set a | a in tasks && tasks[a].phase.Creating?
  }

  function Spawners(tasks: map<nat, Task>): set<nat> {
    set a | a in tasks && tasks[a].spawner
  }

  function Unsettled(tasks: map<nat, Task>): set<nat> {
    set a | a in tasks && tasks[a].Unsettled()
  }

  /** At rest, or when Start has just launched its creators. */
  predicate Init(s: Sys) {
    s.tasks == map[] && s.spawning == 0 && s.debt == 0 && |s.pool| + s.starting <= s.size
    && StrandedIds(s.pool, s.bans, s.now) == {}
  }

  // ---- Steps ----

  function Launched(tasks: map<nat, Task>, next: nat, n: nat): map<nat, Task>
    decreases n
  {
    if n == 0 then tasks else Launched(tasks[next := Task(true, Creating)], next + 1, n - 1)
  }

  /** ensurePoolCapacity: launch the uncovered deficit, or prune when there is none. */
  predicate Triggered(s: Sys, s': Sys) {
    var n := Shortfall(s.size, |UsableIds(s.pool, s.bans, s.now)|, s.spawning);
    s' == if n > 0
          then s.(spawning := s.spawning + n, tasks := Launched(s.tasks, s.next, n), next := s.next + n)
          else s.(tasks := s.tasks[s.next := Task(false, Pruning(false))], next := s.next + 1)
  }

  function Notified(t: Task, a: nat): Task {
    if t.phase.Removing? then t.(phase := t.phase.(later := t.phase.later + {a})) else t
  }

  function Notify(tasks: map<nat, Task>, a: nat): map<nat, Task> {
    map b | b in tasks :: Notified(tasks[b], a)
  }

  /** createProxy succeeded: the fresh proxy enters the pool idle. A container
      that arrives on a banned IP is a debt. */
  predicate Created(s: Sys, s': Sys, a: nat, v: ProxyView) {
    && a in s.tasks && s.tasks[a].phase == Creating && s.tasks[a].spawner
    && v.state == Idle
    && s' == s.(pool := s.pool[v.id := v],
                tasks := Notify(s.tasks, a)[a := Task(true, Pruning(true))],
                debt := s.debt + if Banned(s.bans, v.ip, s.now) then 1 else 0)
  }

  /** createProxy gave up; the task still prunes. */
  predicate CreateFailed(s: Sys, s': Sys, a: nat) {
    && a in s.tasks && s.tasks[a].phase == Creating && s.tasks[a].spawner
    && s' == s.(tasks := s.tasks[a := Task(true, Pruning(false))])
  }

  /** pruneDeadProxies picks its victims under the lock. */
  predicate Picked(s: Sys, s': Sys, a: nat, todo: set<string>) {
    && a in s.tasks && s.tasks[a].phase.Pruning?
    && PruneChoice(s.pool, s.size, todo)
    && s' == s.(tasks := s.tasks[a := s.tasks[a].(phase := Removing(s.tasks[a].phase.inserted, todo, {}))])
  }

  /** RemoveProxy on one victim; a no-op on the pool when it is already gone. */
  predicate Removed(s: Sys, s': Sys, a: nat, id: string) {
    && a in s.tasks && s.tasks[a].phase.Removing? && id in s.tasks[a].phase.todo
    && var p := s.tasks[a].phase;
    s' == s.(pool := s.pool - {id}, tasks := s.tasks[a := s.tasks[a].(phase := p.(todo := p.todo - {id}))])
  }

  predicate PruneEnded(s: Sys, s': Sys, a: nat) {
    && a in s.tasks && s.tasks[a].phase.Removing? && s.tasks[a].phase.todo == {}
    && s' == s.(tasks := s.tasks[a := s.tasks[a].(phase := Finishing)])
  }

  /** spawnDone, with its zero guard, or the return of a task that only pruned. */
  predicate Finished(s: Sys, s': Sys, a: nat) {
    && a in s.tasks && s.tasks[a].phase == Finishing
    && s' == s.(tasks := s.tasks - {a},
                spawning := if s.tasks[a].spawner && s.spawning > 0 then s.spawning - 1 else s.spawning)
  }

  /** One of Start's creators puts its proxy in the pool. */
  predicate StartInserted(s: Sys, s': Sys, v: ProxyView) {
    var room := |s.pool| < s.size && |HealthyIds(s.pool)| + |Pending(s.tasks)| < s.size;
    && s.starting > 0 && v.state == Idle
    && s' == s.(pool := s.pool[v.id := v], starting := s.starting - 1,
                debt := s.debt + (if room then 0 else 1) + if Banned(s.bans, v.ip, s.now) then 1 else 0)
  }

  predicate StartFailed(s: Sys, s': Sys) { s.starting > 0 && s' == s.(starting := s.starting - 1) }

  /** Anything that changes records, bans or the clock but not which ids are in
      the pool: acquiring, releasing, marking, health checks, cooldown restores,
      drift of an egress IP, time passing. Each proxy that turns healthy and
      each healthy proxy newly hidden by a ban is a debt. */
  predicate InPlace(s: Sys, s': Sys) {
    && s'.pool.Keys == s.pool.Keys
    && s' == s.(pool := s'.pool, bans := s'.bans, now := s'.now,
                debt := s.debt + |HealthyIds(s'.pool) - HealthyIds(s.pool)|
                        + |StrandedIds(s'.pool, s'.bans, s'.now) - StrandedIds(s.pool, s.bans, s.now)|)
  }

  /** restoreCooldownProxies found the pool over its size and drops expired ones. */
  predicate RestoreDropped(s: Sys, s': Sys, todo: set<string>) {
    && |s.pool| > s.size && todo <= DeadIds(s.pool)
    && s' == s.(tasks := s.tasks[s.next := Task(false, Removing(false, todo, {}))], next := s.next + 1)
  }

  /** AddVPNContainer and AddExternalProxy insert without a deficit. */
  predicate Added(s: Sys, s': Sys, v: ProxyView) {
    && v.state == Idle
    && s' == s.(pool := s.pool[v.id := v], debt := s.debt + 1)
  }

  /** RemoveProxy called from outside a prune. */
  predicate Dropped(s: Sys, s': Sys, id: string) {
    s' == s.(pool := s.pool - {id})
  }

  /** SetPoolSize; shrinking is a debt. */
  predicate Resized(s: Sys, s': Sys, size: int) {
    s' == s.(size := size, debt := s.debt + if size < s.size then s.size - size else 0)
  }

  /** The steps of one background task. */
  ghost predicate TaskStep(s: Sys, s': Sys, a: nat) {
    || (exists v :: Created(s, s', a, v))
    || CreateFailed(s, s', a)
    || (exists todo :: Picked(s, s', a, todo))
    || (exists id :: Removed(s, s', a, id))
    || PruneEnded(s, s', a)
    || Finished(s, s', a)
  }

  ghost predicate Next(s: Sys, s': Sys) {
    || Triggered(s, s')
    || (exists a :: TaskStep(s, s', a))
    || (exists v :: StartInserted(s, s', v))
    || StartFailed(s, s')
    || InPlace(s, s')
    || (exists todo :: RestoreDropped(s, s', todo))
    || (exists v :: Added(s, s', v))
    || (exists id :: Dropped(s, s', id))
    || (exists size :: Resized(s, s', size))
  }

  ghost predicate Run(run: seq<Sys>) {
    && |run| > 0 && Init(run[0])
    && forall i :: 0 <= i < |run| - 1 ==> Next(run[i], run[i + 1])
  }

  // ---- The inductive invariant ----

  /** Per-task facts: ids come from the counter, and only spawn tasks create or
      settle. */
  predicate TaskOk(s: Sys, a: nat) {
    a in s.tasks ==>
      && a < s.next
      && (s.tasks[a].phase.Creating? || s.tasks[a].Unsettled() ==> s.tasks[a].spawner)
  }

  ghost predicate CounterInv(s: Sys) {
    && s.spawning == |Spawners(s.tasks)|
    && s.spawning <= s.size + s.debt
    && forall a :: TaskOk(s, a)
  }

  predicate HealthInv(s: Sys) {
    && |HealthyIds(s.pool)| + |Pending(s.tasks)| <= s.size + s.debt
    && |StrandedIds(s.pool, s.bans, s.now)| <= s.debt
  }

  /** What one removing task still owes: once its victims are gone, only tasks
      that inserted after its pick can hold the pool above the bound. */
  predicate RemovalOk(s: Sys, a: nat) {
    a in s.tasks && s.tasks[a].Unsettled() && s.tasks[a].phase.Removing? ==>
      && a !in s.tasks[a].phase.later
      && |s.pool.Keys - s.tasks[a].phase.todo| <= s.size + s.debt + |s.tasks[a].phase.later * Unsettled(s.tasks)|
  }

  /** The history variables are nested: a later picker has fewer later inserters. */
  predicate LaterOk(s: Sys, a: nat, b: nat) {
    a in s.tasks && s.tasks[a].phase.Removing? && b in s.tasks[a].phase.later ==>
      && b < s.next
      && (b in s.tasks ==> !s.tasks[b].phase.Creating?)
      && (b in s.tasks && s.tasks[b].phase.Removing? ==> s.tasks[b].phase.later <= s.tasks[a].phase.later)
  }

  ghost predicate Inv(s: Sys) {
    && CounterInv(s) && HealthInv(s)
    && (forall a :: RemovalOk(s, a))
    && (forall a, b :: LaterOk(s, a, b))
    && |s.pool| <= s.size + s.debt + |Unsettled(s.tasks)|
  }

  // ---- Preservation, one step at a time ----

  /** The effect on the counted sets of replacing or adding one task. */
  lemma TaskSets(tasks: map<nat, Task>, a: nat, t: Task)
    requires a in tasks ==> tasks[a].spawner == t.spawner
    requires a !in tasks ==> !t.Unsettled()
    ensures var t' := tasks[a := t];
      && Pending(t') == (if t.phase.Creating? then Pending(tasks) + {a} else Pending(tasks) - {a})
      && Spawners(t') == (if t.spawner then Spawners(tasks) + {a} else Spawners(tasks))
      && Unsettled(t') == (if t.Unsettled() then Unsettled(tasks) + {a} else Unsettled(tasks) - {a})
  {
  }

  lemma NotifySets(tasks: map<nat, Task>, a: nat)
    ensures Pending(Notify(tasks, a)) == Pending(tasks)
    ensures Spawners(Notify(tasks, a)) == Spawners(tasks)
    ensures Unsettled(Notify(tasks, a)) == Unsettled(tasks)
  {
  }

  lemma {:induction false} LaunchedTasks(tasks: map<nat, Task>, next: nat, n: nat)
    requires forall a :: a in tasks ==> a < next
    ensures var t := Launched(tasks, next, n);
      && (forall a :: a in t <==> a in tasks || next <= a < next + n)
      && (forall a :: a in tasks ==> t[a] == tasks[a])
      && (forall a :: a in t && a !in tasks ==> t[a] == Task(true, Creating))
    decreases n
  {
    if n > 0 {
      LaunchedTasks(tasks[next := Task(true, Creating)], next + 1, n - 1);
    }
  }

  lemma {:induction false} LaunchedCounts(tasks: map<nat, Task>, next: nat, n: nat)
    requires forall a :: a in tasks ==> a < next
    ensures |Pending(Launched(tasks, next, n))| == |Pending(tasks)| + n
    ensures |Spawners(Launched(tasks, next, n))| == |Spawners(tasks)| + n
    ensures Unsettled(Launched(tasks, next, n)) == Unsettled(tasks)
    decreases n
  {
    if n > 0 {
      TaskSets(tasks, next, Task(true, Creating));
      assert next !in Pending(tasks) && next !in Spawners(tasks) && next !in Unsettled(tasks);
      LaunchedCounts(tasks[next := Task(true, Creating)], next + 1, n - 1);
    }
  }

  /** Replacing one task's phase keeps the history variables nested as long as
      its own one is kept or starts empty. */
  lemma LaterAfterUpdate(s: Sys, s': Sys, a: nat)
    requires forall x, y :: LaterOk(s, x, y)
    requires s'.next >= s.next && a in s'.tasks && s'.tasks == s.tasks[a := s'.tasks[a]]
    requires !s'.tasks[a].phase.Creating?
    requires s'.tasks[a].phase.Removing? ==>
      s'.tasks[a].phase.later == {}
      || (a in s.tasks && s.tasks[a].phase.Removing? && s'.tasks[a].phase.later == s.tasks[a].phase.later)
    ensures forall x, y :: LaterOk(s', x, y)
  {
    forall x, y ensures LaterOk(s', x, y) {
      assert LaterOk(s, x, y);
    }
  }

  lemma PendingAreSpawners(s: Sys)
    requires CounterInv(s)
    ensures |Pending(s.tasks)| <= s.spawning
  {
    forall a | a in Pending(s.tasks) ensures a in Spawners(s.tasks) { assert TaskOk(s, a); }
    SubsetSize(Pending(s.tasks), Spawners(s.tasks));
  }

  lemma LaunchKeepsTaskFacts(s: Sys, s': Sys, n: nat)
    requires Inv(s) && s' == s.(spawning := s.spawning + n, tasks := Launched(s.tasks, s.next, n), next := s.next + n)
    ensures |Spawners(s'.tasks)| == |Spawners(s.tasks)| + n && |Pending(s'.tasks)| == |Pending(s.tasks)| + n
    ensures Unsettled(s'.tasks) == Unsettled(s.tasks)
    ensures (forall a :: TaskOk(s', a)) && (forall a :: RemovalOk(s', a)) && (forall a, b :: LaterOk(s', a, b))
  {
    forall a | a in s.tasks ensures a < s.next { assert TaskOk(s, a); }
    LaunchedTasks(s.tasks, s.next, n);
    LaunchedCounts(s.tasks, s.next, n);
    hide Launched, Spawners, Pending, HealthInv;
    forall a ensures TaskOk(s', a) { assert TaskOk(s, a); }
    forall a ensures RemovalOk(s', a) { assert RemovalOk(s, a); }
    forall a, b ensures LaterOk(s', a, b) { assert LaterOk(s, a, b); }
  }

  lemma TriggeredKeeps(s: Sys, s': Sys)
    requires Inv(s) && Triggered(s, s')
    ensures Inv(s')
  {
    var n := Shortfall(s.size, |UsableIds(s.pool, s.bans, s.now)|, s.spawning);
    if n > 0 {
      LaunchKeepsTaskFacts(s, s', n);
      SplitHealthy(s.pool, s.bans, s.now);
      PendingAreSpawners(s);
    } else {
      BystanderKeeps(s, s', Task(false, Pruning(false)));
    }
  }

  /** A step on one task keeps the counter facts and does not raise the number
      of proxies still to come. */
  lemma CounterAfterUpdate(s: Sys, s': Sys, a: nat)
    requires CounterInv(s) && s'.next >= s.next && s'.spawning == s.spawning && s'.size == s.size && s'.debt == s.debt
    requires a in s'.tasks && s'.tasks == s.tasks[a := s'.tasks[a]]
    requires TaskOk(s', a) && !s'.tasks[a].phase.Creating?
    requires a in s.tasks ==> s.tasks[a].spawner == s'.tasks[a].spawner
    requires a !in s.tasks ==> !s'.tasks[a].spawner
    ensures CounterInv(s')
    ensures |Pending(s'.tasks)| <= |Pending(s.tasks)|
  {
    assert Spawners(s'.tasks) == Spawners(s.tasks);
    SubsetSize(Pending(s'.tasks), Pending(s.tasks));
    forall b ensures TaskOk(s', b) { assert TaskOk(s, b); }
  }

  lemma UnsettledAfterUpdate(s: Sys, s': Sys, a: nat)
    requires a in s'.tasks && s'.tasks == s.tasks[a := s'.tasks[a]]
    requires a in s.tasks ==> s'.tasks[a].Unsettled() == s.tasks[a].Unsettled()
    requires a !in s.tasks ==> !s'.tasks[a].Unsettled()
    ensures Unsettled(s'.tasks) == Unsettled(s.tasks)
  {
  }

  /** Every step on one task that leaves the pool alone. */
  lemma PhaseStepKeeps(s: Sys, s': Sys, a: nat)
    requires Inv(s) && s'.next >= s.next
    requires s' == s.(tasks := s'.tasks, next := s'.next) && a in s'.tasks && s'.tasks == s.tasks[a := s'.tasks[a]]
    requires TaskOk(s', a) && RemovalOk(s', a) && !s'.tasks[a].phase.Creating?
    requires a in s.tasks ==>
      s.tasks[a].spawner == s'.tasks[a].spawner && s.tasks[a].Unsettled() == s'.tasks[a].Unsettled()
    requires a !in s.tasks ==> !s'.tasks[a].spawner && !s'.tasks[a].Unsettled()
    requires s'.tasks[a].phase.Removing? ==> s'.tasks[a].phase.later == {}
    ensures Inv(s')
  {
    UnsettledAfterUpdate(s, s', a);
    CounterAfterUpdate(s, s', a);
    OtherRemovals(s, s', a);
    LaterAfterUpdate(s, s', a);
  }

  lemma OtherRemovals(s: Sys, s': Sys, a: nat)
    requires forall b :: RemovalOk(s, b)
    requires s'.size == s.size && s'.debt == s.debt && s'.pool.Keys <= s.pool.Keys
    requires a in s'.tasks && s'.tasks == s.tasks[a := s'.tasks[a]] && RemovalOk(s', a)
    requires Unsettled(s'.tasks) == Unsettled(s.tasks)
    ensures forall b :: RemovalOk(s', b)
  {
    forall b ensures RemovalOk(s', b) {
      assert RemovalOk(s, b);
      if b != a && b in s.tasks && s.tasks[b].phase.Removing? {
        SubsetSize(s'.pool.Keys - s.tasks[b].phase.todo, s.pool.Keys - s.tasks[b].phase.todo);
      }
    }
  }

  /** A task that only prunes changes none of the counted sets. */
  lemma BystanderKeeps(s: Sys, s': Sys, t: Task)
    requires Inv(s) && !t.spawner && !t.Unsettled() && !t.phase.Creating?
    requires t.phase.Removing? ==> t.phase.later == {}
    requires s' == s.(tasks := s.tasks[s.next := t], next := s.next + 1)
    ensures Inv(s')
  {
    assert TaskOk(s, s.next);
    PhaseStepKeeps(s, s', s.next);
  }

  lemma CreatedSets(s: Sys, s': Sys, a: nat, v: ProxyView)
    requires Created(s, s', a, v)
    ensures a in Pending(s.tasks) && a !in Unsettled(s.tasks)
    ensures Pending(s'.tasks) == Pending(s.tasks) - {a}
    ensures Spawners(s'.tasks) == Spawners(s.tasks)
    ensures Unsettled(s'.tasks) == Unsettled(s.tasks) + {a}
  {
    NotifySets(s.tasks, a);
    TaskSets(Notify(s.tasks, a), a, s'.tasks[a]);
  }

  lemma CreatedKeepsCounts(s: Sys, s': Sys, a: nat, v: ProxyView)
    requires CounterInv(s) && HealthInv(s) && Created(s, s', a, v)
    ensures CounterInv(s') && HealthInv(s')
  {
    CreatedSets(s, s', a, v);
    InsertionHealth(s, s', v);
    forall b ensures TaskOk(s', b) { assert TaskOk(s, b); }
  }

  lemma CreatedKeeps(s: Sys, s': Sys, a: nat, v: ProxyView)
    requires Inv(s) && Created(s, s', a, v)
    ensures Inv(s')
  {
    CreatedKeepsCounts(s, s', a, v);
    CreatedSets(s, s', a, v);
    InsertionHealth(s, s', v);
    forall b ensures RemovalOk(s', b) {
      assert RemovalOk(s, b) && LaterOk(s, b, a);
      CreatedKeepsBound(s, s', a, v, b);
    }
    forall x, y ensures LaterOk(s', x, y) {
      assert LaterOk(s, x, y) && LaterOk(s, y, a) && LaterOk(s, x, a) && TaskOk(s, a);
      CreatedKeepsLater(s, s', a, v, x, y);
    }
  }

  lemma CreatedKeepsLater(s: Sys, s': Sys, a: nat, v: ProxyView, x: nat, y: nat)
    requires Created(s, s', a, v) && TaskOk(s, a)
    requires LaterOk(s, x, y) && LaterOk(s, y, a) && LaterOk(s, x, a)
    ensures LaterOk(s', x, y)
  {
  }

  lemma InsertionHealth(s: Sys, s': Sys, v: ProxyView)
    requires s'.pool == s.pool[v.id := v] && s'.bans == s.bans && s'.now == s.now
    ensures |HealthyIds(s'.pool)| <= |HealthyIds(s.pool)| + 1
    ensures |StrandedIds(s'.pool, s'.bans, s'.now)|
         <= |StrandedIds(s.pool, s.bans, s.now)| + if Banned(s.bans, v.ip, s.now) then 1 else 0
    ensures |s'.pool| <= |s.pool| + 1
  {
    SubsetSize(HealthyIds(s'.pool), HealthyIds(s.pool) + {v.id});
    var extra := if Banned(s.bans, v.ip, s.now) then {v.id} else {};
    SubsetSize(StrandedIds(s'.pool, s.bans, s.now), StrandedIds(s.pool, s.bans, s.now) + extra);
    SubsetSize(s'.pool.Keys, s.pool.Keys + {v.id});
  }

  lemma CreatedKeepsBound(s: Sys, s': Sys, a: nat, v: ProxyView, b: nat)
    requires Created(s, s', a, v) && RemovalOk(s, b) && LaterOk(s, b, a)
    requires Unsettled(s'.tasks) == Unsettled(s.tasks) + {a}
    ensures RemovalOk(s', b)
  {
    if b in s.tasks && s.tasks[b].phase.Removing? && s.tasks[b].Unsettled() {
      var todo, later := s.tasks[b].phase.todo, s.tasks[b].phase.later;
      assert s'.tasks[b] == Notified(s.tasks[b], a);
      SubsetSize(s'.pool.Keys - todo, (s.pool.Keys - todo) + {v.id});
      assert (later + {a}) * Unsettled(s'.tasks) == later * Unsettled(s.tasks) + {a};
    }
  }

  lemma CreateFailedKeeps(s: Sys, s': Sys, a: nat)
    requires Inv(s) && CreateFailed(s, s', a)
    ensures Inv(s')
  {
    assert TaskOk(s, a);
    PhaseStepKeeps(s, s', a);
  }

  lemma PickedKeeps(s: Sys, s': Sys, a: nat, todo: set<string>)
    requires Inv(s) && Picked(s, s', a, todo)
    ensures Inv(s')
  {
    assert TaskOk(s, a);
    assert RemovalOk(s', a) by {
      PruneReachesSizeIff(s.pool, s.size, todo);
      assert (s.pool - todo).Keys == s.pool.Keys - todo;
    }
    PhaseStepKeeps(s, s', a);
  }

  lemma RemovedKeeps(s: Sys, s': Sys, a: nat, id: string)
    requires Inv(s) && Removed(s, s', a, id)
    ensures Inv(s')
  {
    assert TaskOk(s, a);
    CounterAfterUpdate(s, s', a);
    UnsettledAfterUpdate(s, s', a);
    RemovalHealth(s, s', id);
    assert RemovalOk(s', a) by {
      assert RemovalOk(s, a);
      SubsetSize(s'.pool.Keys - s'.tasks[a].phase.todo, s.pool.Keys - s.tasks[a].phase.todo);
    }
    OtherRemovals(s, s', a);
    LaterAfterUpdate(s, s', a);
  }

  lemma RemovalHealth(s: Sys, s': Sys, id: string)
    requires s'.pool == s.pool - {id} && s'.bans == s.bans && s'.now == s.now
    ensures |HealthyIds(s'.pool)| <= |HealthyIds(s.pool)|
    ensures |StrandedIds(s'.pool, s'.bans, s'.now)| <= |StrandedIds(s.pool, s.bans, s.now)|
    ensures |s'.pool| <= |s.pool|
  {
    SubsetSize(HealthyIds(s'.pool), HealthyIds(s.pool));
    SubsetSize(StrandedIds(s'.pool, s'.bans, s'.now), StrandedIds(s.pool, s.bans, s.now));
    SubsetSize(s'.pool.Keys, s.pool.Keys);
  }

  /** The heart of the ceiling: when a task ends its prune it stops counting,
      and its own removal bound pays for that. */
  lemma PruneEndedKeeps(s: Sys, s': Sys, a: nat)
    requires Inv(s) && PruneEnded(s, s', a)
    ensures Inv(s')
  {
    assert TaskOk(s, a);
    CounterAfterUpdate(s, s', a);
    TaskSets(s.tasks, a, s'.tasks[a]);
    assert |s'.pool| <= s'.size + s'.debt + |Unsettled(s'.tasks)| by {
      PruneEndedPays(s, s', a);
    }
    forall b ensures RemovalOk(s', b) {
      assert RemovalOk(s, b) && RemovalOk(s, a) && LaterOk(s, b, a);
      PruneEndedKeepsBound(s, s', a, b);
    }
    LaterAfterUpdate(s, s', a);
  }

  lemma PruneEndedPays(s: Sys, s': Sys, a: nat)
    requires Inv(s) && PruneEnded(s, s', a)
    requires Unsettled(s'.tasks) == Unsettled(s.tasks) - {a}
    ensures |s'.pool| <= s'.size + s'.debt + |Unsettled(s'.tasks)|
  {
    assert RemovalOk(s, a) && s.pool.Keys - {} == s.pool.Keys;
    if s.tasks[a].Unsettled() {
      SubsetSize(s.tasks[a].phase.later * Unsettled(s.tasks), Unsettled(s'.tasks));
    }
  }

  lemma PruneEndedKeepsBound(s: Sys, s': Sys, a: nat, b: nat)
    requires PruneEnded(s, s', a) && RemovalOk(s, a) && RemovalOk(s, b) && LaterOk(s, b, a)
    requires Unsettled(s'.tasks) == Unsettled(s.tasks) - {a}
    ensures RemovalOk(s', b)
  {
    if b != a && b in s.tasks && s.tasks[b].Unsettled() && s.tasks[b].phase.Removing? {
      var later := s.tasks[b].phase.later;
      if a in later && a in Unsettled(s.tasks) {
        assert s.pool.Keys - {} == s.pool.Keys;
        SubsetSize(s.pool.Keys - s.tasks[b].phase.todo, s.pool.Keys);
        SubsetSize(s.tasks[a].phase.later * Unsettled(s.tasks), later * Unsettled(s'.tasks));
      } else {
        assert later * Unsettled(s'.tasks) == later * Unsettled(s.tasks);
      }
    }
  }

  lemma FinishedSets(s: Sys, s': Sys, a: nat)
    requires Finished(s, s', a)
    ensures Pending(s'.tasks) == Pending(s.tasks) && Unsettled(s'.tasks) == Unsettled(s.tasks)
    ensures Spawners(s'.tasks) == Spawners(s.tasks) - {a}
  {
  }

  lemma FinishedKeepsCounter(s: Sys, s': Sys, a: nat)
    requires CounterInv(s) && Finished(s, s', a)
    ensures CounterInv(s')
    ensures s.tasks[a].spawner ==> s.spawning > 0
  {
    FinishedSets(s, s', a);
    assert s.tasks[a].spawner ==> a in Spawners(s.tasks);
    forall b ensures TaskOk(s', b) { assert TaskOk(s, b); }
  }

  lemma FinishedKeepsTaskFacts(s: Sys, s': Sys, a: nat)
    requires Inv(s) && Finished(s, s', a) && Unsettled(s'.tasks) == Unsettled(s.tasks)
    ensures (forall b :: RemovalOk(s', b)) && forall x, y :: LaterOk(s', x, y)
  {
    hide Unsettled, CounterInv, HealthInv;
    forall b ensures RemovalOk(s', b) { assert RemovalOk(s, b); }
    forall x, y ensures LaterOk(s', x, y) { assert LaterOk(s, x, y); }
  }

  /** spawnDone never meets its zero guard. */
  lemma FinishedKeeps(s: Sys, s': Sys, a: nat)
    requires Inv(s) && Finished(s, s', a)
    ensures Inv(s')
    ensures s.tasks[a].spawner ==> s.spawning > 0
  {
    FinishedKeepsCounter(s, s', a);
    FinishedSets(s, s', a);
    FinishedKeepsTaskFacts(s, s', a);
    hide Pending, Unsettled, Spawners, RemovalOk, LaterOk, CounterInv;
  }

  /** Outside the victims, the pool grows by no more than the allowance does. */
  predicate GrowthOk(s: Sys, s': Sys, todo: set<string>) {
    |s'.pool.Keys - todo| - |s.pool.Keys - todo| <= (s'.size + s'.debt) - (s.size + s.debt)
  }

  lemma SameTaskKeeps(s: Sys, s': Sys, a: nat)
    requires s'.tasks == s.tasks && s'.next == s.next && TaskOk(s, a) && RemovalOk(s, a)
    requires a in s.tasks && s.tasks[a].phase.Removing? ==> GrowthOk(s, s', s.tasks[a].phase.todo)
    ensures TaskOk(s', a) && RemovalOk(s', a)
  {
  }

  lemma SamePool(s: Sys, s': Sys)
    requires GrowthOk(s, s', {})
    ensures |s'.pool| - |s.pool| <= (s'.size + s'.debt) - (s.size + s.debt)
  {
    assert s'.pool.Keys - {} == s'.pool.Keys && s.pool.Keys - {} == s.pool.Keys;
  }

  lemma SameLater(s: Sys, s': Sys)
    requires (forall a, b :: LaterOk(s, a, b)) && s'.tasks == s.tasks && s'.next == s.next
    ensures forall a, b :: LaterOk(s', a, b)
  {
    forall a, b ensures LaterOk(s', a, b) { assert LaterOk(s, a, b); }
  }

  lemma SameRemovals(s: Sys, s': Sys)
    requires (forall a :: TaskOk(s, a)) && (forall a :: RemovalOk(s, a)) && s'.tasks == s.tasks && s'.next == s.next
    requires forall todo: set<string> :: GrowthOk(s, s', todo)
    ensures (forall a :: TaskOk(s', a)) && forall a :: RemovalOk(s', a)
  {
    forall a ensures TaskOk(s', a) && RemovalOk(s', a) {
      assert TaskOk(s, a) && RemovalOk(s, a);
      if a in s.tasks && s.tasks[a].phase.Removing? { assert GrowthOk(s, s', s.tasks[a].phase.todo); }
      SameTaskKeeps(s, s', a);
    }
  }

  /** Steps that leave the tasks alone keep the per-task facts as long as the pool
      grows by no more than the allowance. */
  lemma SameTasksKeep(s: Sys, s': Sys)
    requires Inv(s) && s'.tasks == s.tasks && s'.next == s.next && s'.spawning == s.spawning
    requires s.size + s.debt <= s'.size + s'.debt
    requires forall todo: set<string> :: GrowthOk(s, s', todo)
    ensures CounterInv(s') && (forall a :: RemovalOk(s', a)) && (forall a, b :: LaterOk(s', a, b))
    ensures |s'.pool| <= s'.size + s'.debt + |Unsettled(s'.tasks)|
  {
    SameRemovals(s, s');
    SameLater(s, s');
    assert GrowthOk(s, s', {});
    SamePool(s, s');
  }

  lemma InPlaceKeeps(s: Sys, s': Sys)
    requires Inv(s) && InPlace(s, s')
    ensures Inv(s')
  {
    var h, h' := HealthyIds(s.pool), HealthyIds(s'.pool);
    SubsetSize(h', h + (h' - h));
    var g, g' := StrandedIds(s.pool, s.bans, s.now), StrandedIds(s'.pool, s'.bans, s'.now);
    SubsetSize(g', g + (g' - g));
    SameTasksKeep(s, s');
  }

  lemma AddedKeeps(s: Sys, s': Sys, v: ProxyView)
    requires Inv(s) && Added(s, s', v)
    ensures Inv(s')
  {
    InsertionHealth(s, s', v);
    forall todo: set<string> ensures GrowthOk(s, s', todo) {
      SubsetSize(s'.pool.Keys - todo, (s.pool.Keys - todo) + {v.id});
    }
    SameTasksKeep(s, s');
  }

  lemma DroppedKeeps(s: Sys, s': Sys, id: string)
    requires Inv(s) && Dropped(s, s', id)
    ensures Inv(s')
  {
    RemovalHealth(s, s', id);
    forall todo: set<string> ensures GrowthOk(s, s', todo) {
      SubsetSize(s'.pool.Keys - todo, s.pool.Keys - todo);
    }
    SameTasksKeep(s, s');
  }

  lemma ResizedKeeps(s: Sys, s': Sys, size: int)
    requires Inv(s) && Resized(s, s', size)
    ensures Inv(s')
  {
    SameTasksKeep(s, s');
  }

  /** An insertion by Start: with room for it nothing is owed. */
  lemma StartInsertedKeeps(s: Sys, s': Sys, v: ProxyView)
    requires Inv(s) && StartInserted(s, s', v)
    ensures Inv(s')
  {
    InsertionHealth(s, s', v);
    if |s.pool| < s.size && |HealthyIds(s.pool)| + |Pending(s.tasks)| < s.size {
      forall a ensures TaskOk(s', a) && RemovalOk(s', a) {
        assert TaskOk(s, a) && RemovalOk(s, a);
        if a in s.tasks && s.tasks[a].phase.Removing? {
          SubsetSize(s'.pool.Keys - s.tasks[a].phase.todo, s'.pool.Keys);
        }
      }
      forall a, b ensures LaterOk(s', a, b) { assert LaterOk(s, a, b); }
    } else {
      forall todo: set<string> ensures GrowthOk(s, s', todo) {
        SubsetSize(s'.pool.Keys - todo, (s.pool.Keys - todo) + {v.id});
      }
      SameTasksKeep(s, s');
    }
  }

  lemma StartFailedKeeps(s: Sys, s': Sys)
    requires Inv(s) && StartFailed(s, s')
    ensures Inv(s')
  {
    forall a ensures TaskOk(s', a) && RemovalOk(s', a) { assert TaskOk(s, a) && RemovalOk(s, a); }
    forall a, b ensures LaterOk(s', a, b) { assert LaterOk(s, a, b); }
  }

  lemma TaskStepKeeps(s: Sys, s': Sys, a: nat)
    requires Inv(s) && TaskStep(s, s', a)
    ensures Inv(s')
  {
    if v :| Created(s, s', a, v) {
      CreatedKeeps(s, s', a, v);
    } else if CreateFailed(s, s', a) {
      CreateFailedKeeps(s, s', a);
    } else if todo :| Picked(s, s', a, todo) {
      PickedKeeps(s, s', a, todo);
    } else if id :| Removed(s, s', a, id) {
      RemovedKeeps(s, s', a, id);
    } else if PruneEnded(s, s', a) {
      PruneEndedKeeps(s, s', a);
    } else {
      FinishedKeeps(s, s', a);
    }
  }

  lemma NextKeeps(s: Sys, s': Sys)
    requires Inv(s) && Next(s, s')
    ensures Inv(s')
  {
    if Triggered(s, s') {
      TriggeredKeeps(s, s');
    } else if a :| TaskStep(s, s', a) {
      TaskStepKeeps(s, s', a);
    } else if v :| StartInserted(s, s', v) {
      StartInsertedKeeps(s, s', v);
    } else if StartFailed(s, s') {
      StartFailedKeeps(s, s');
    } else if InPlace(s, s') {
      InPlaceKeeps(s, s');
    } else if todo :| RestoreDropped(s, s', todo) {
      BystanderKeeps(s, s', Task(false, Removing(false, todo, {})));
    } else if v :| Added(s, s', v) {
      AddedKeeps(s, s', v);
    } else if id :| Dropped(s, s', id) {
      DroppedKeeps(s, s', id);
    } else {
      var size :| Resized(s, s', size);
      ResizedKeeps(s, s', size);
    }
  }

  lemma InitKeeps(s: Sys)
    requires Init(s)
    ensures Inv(s)
  {
    SplitHealthy(s.pool, s.bans, s.now);
  }

  lemma RunPrefix(run: seq<Sys>)
    requires Run(run) && |run| > 1
    ensures Run(run[..|run| - 1]) && Next(run[|run| - 2], run[|run| - 1])
  {
  }

  lemma {:induction false} RunKeeps(run: seq<Sys>)
    requires Run(run)
    ensures Inv(run[|run| - 1])
  {
    if |run| == 1 {
      InitKeeps(run[0]);
    } else {
      RunPrefix(run);
      RunKeeps(run[..|run| - 1]);
      NextKeeps(run[|run| - 2], run[|run| - 1]);
    }
  }

  // ---- What every run keeps ----

  /** The size stays what it was at the beginning of the run. */
  predicate ConstantSize(run: seq<Sys>) { forall i :: 0 <= i < |run| ==> run[i].size == run[0].size }

  lemma TaskStepSpawnsNone(s: Sys, s': Sys, a: nat)
    requires TaskStep(s, s', a)
    ensures s'.spawning <= s.spawning
  {
  }

  lemma NextKeepsSpawning(s: Sys, s': Sys)
    requires Next(s, s') && s'.size == s.size && s.spawning <= s.size
    ensures s'.spawning <= s'.size
  {
    if a :| TaskStep(s, s', a) { TaskStepSpawnsNone(s, s', a); }
  }

  lemma {:induction false} SpawningWithinSize(run: seq<Sys>)
    requires Run(run) && ConstantSize(run)
    ensures run[|run| - 1].spawning <= run[|run| - 1].size
  {
    var k := |run| - 1;
    if k > 0 {
      RunPrefix(run);
      assert run[k].size == run[k - 1].size;
      SpawningWithinSize(run[..k]);
      NextKeepsSpawning(run[k - 1], run[k]);
    }
  }

  /** In every interleaving the pool holds at most its size, plus the spawn tasks
      not yet through their own prune, plus the debt; the spawn counter is exactly
      the number of live spawn tasks, and within a fixed size whatever the debt. */
  lemma PoolCeiling(run: seq<Sys>, i: nat)
    requires Run(run) && i < |run|
    ensures var s := run[i];
      && |s.pool| <= s.size + s.debt + |Unsettled(s.tasks)|
      && |Unsettled(s.tasks)| <= s.spawning == |Spawners(s.tasks)| <= s.size + s.debt
      && |HealthyIds(s.pool)| + |Pending(s.tasks)| <= s.size + s.debt
      && (ConstantSize(run[..i + 1]) ==> s.spawning <= s.size)
  {
    RunKeeps(run[..i + 1]);
    var s := run[i];
    forall a | a in Unsettled(s.tasks) ensures a in Spawners(s.tasks) { assert TaskOk(s, a); }
    SubsetSize(Unsettled(s.tasks), Spawners(s.tasks));
    if ConstantSize(run[..i + 1]) { SpawningWithinSize(run[..i + 1]); }
  }

  /** The documented bound: without debt the pool never passes its size plus the
      replacements in flight, and is back within its size when none is. */
  lemma PoolCeilingWithoutDebt(run: seq<Sys>, i: nat)
    requires Run(run) && i < |run| && run[i].debt == 0
    ensures |run[i].pool| <= run[i].size + |Unsettled(run[i].tasks)| <= run[i].size + run[i].spawning <= 2 * run[i].size
    ensures run[i].tasks == map[] ==> |run[i].pool| <= run[i].size
  {
    PoolCeiling(run, i);
  }

  // ---- Which operations run up debt ----

  function DebtOf(pool: Pool, bans: Bans, now: int, pool': Pool, bans': Bans, now': int): nat {
    |HealthyIds(pool') - HealthyIds(pool)| + |StrandedIds(pool', bans', now') - StrandedIds(pool, bans, now)|
  }

  lemma NoDebt(pool: Pool, bans: Bans, now: int, pool': Pool, bans': Bans, now': int)
    requires HealthyIds(pool') <= HealthyIds(pool)
    requires StrandedIds(pool', bans', now') <= StrandedIds(pool, bans, now)
    ensures DebtOf(pool, bans, now, pool', bans', now') == 0
  {
    assert HealthyIds(pool') - HealthyIds(pool) == {};
    assert StrandedIds(pool', bans', now') - StrandedIds(pool, bans, now) == {};
  }

  /** Acquiring, releasing and failing a proxy are free. */
  lemma RecordOperationsAreFree(pool: Pool, bans: Bans, now: int, id: string, pool': Pool)
    requires || pool' == AcquiredPool(pool, id, now)
             || pool' == ReleasedPool(pool, id)
             || pool' == UnhealthyPool(pool, id)
    ensures DebtOf(pool, bans, now, pool', bans, now) == 0
  {
    assert pool'.Keys == pool.Keys;
    forall x | x in pool ensures pool'[x].ip == pool[x].ip && (pool'[x].Healthy() ==> pool[x].Healthy()) {}
    NoDebt(pool, bans, now, pool', bans, now);
  }

  /** Time passing is free, whatever expired bans are cleaned up meanwhile. */
  lemma TimeIsFree(pool: Pool, bans: Bans, now: int, later: int, ips: set<string>)
    requires now <= later
    ensures DebtOf(pool, bans, now, pool, Swept(bans, ips, later), later) == 0
  {
    NoDebt(pool, bans, now, pool, Swept(bans, ips, later), later);
  }

  /** Who a mark hides: other usable proxies on the banned address. */
  lemma MarkHides(pool: Pool, bans: Bans, now: int, id: string, bans': Bans, other: string)
    requires forall ip :: Banned(bans, ip, now) ==> Banned(bans', ip, now)
    ensures other in StrandedIds(LimitedPool(pool, id, now), bans', now) - StrandedIds(pool, bans, now)
       <==> other in UsableIds(pool, bans, now) && other != id && Banned(bans', pool[other].ip, now)
  {
  }

  lemma MarkRevivesNone(pool: Pool, now: int, id: string)
    ensures HealthyIds(LimitedPool(pool, id, now)) - HealthyIds(pool) == {}
  {
  }

  /** A rate-limit mark is free exactly when no other usable proxy shares the
      banned address until the new deadline takes effect. */
  lemma MarkIsFreeIff(pool: Pool, bans: Bans, now: int, id: string, ip: string, until: int)
    ensures DebtOf(pool, bans, now, LimitedPool(pool, id, now), Extended(bans, ip, until), now) == 0
       <==> (forall other :: other in UsableIds(pool, bans, now) && other != id ==>
               !Banned(Extended(bans, ip, until), pool[other].ip, now))
  {
    var pool', bans' := LimitedPool(pool, id, now), Extended(bans, ip, until);
    assert forall x :: Banned(bans, x, now) ==> Banned(bans', x, now);
    MarkRevivesNone(pool, now, id);
    var hidden := StrandedIds(pool', bans', now) - StrandedIds(pool, bans, now);
    forall other ensures other in hidden
      <==> other in UsableIds(pool, bans, now) && other != id && Banned(bans', pool[other].ip, now)
    {
      MarkHides(pool, bans, now, id, bans', other);
    }
    hide StrandedIds, HealthyIds, LimitedPool, Extended, Banned;
    assert hidden == {} <==> |hidden| == 0;
  }

  // ---- Triggers ----

  /** After a trigger as many spawn tasks are live as before, or as the deficit asks
      for when that is more. */
  lemma TriggerRaisesToDeficit(s: Sys, s': Sys)
    requires Inv(s) && Triggered(s, s')
    ensures var live, deficit := |Spawners(s.tasks)|, s.size - |UsableIds(s.pool, s.bans, s.now)|;
      |Spawners(s'.tasks)| == if live >= deficit then live else deficit
  {
    TriggeredKeeps(s, s');
  }

  /** Any number of back-to-back triggers launch together the uncovered deficit
      and no more. */
  lemma {:induction false} TriggersLaunchDeficitOnce(run: seq<Sys>)
    requires |run| >= 2 && Inv(run[0])
    requires forall i :: 0 <= i < |run| - 1 ==> Triggered(run[i], run[i + 1])
    ensures var first, last := run[0], run[|run| - 1];
      var n := Shortfall(first.size, |UsableIds(first.pool, first.bans, first.now)|, first.spawning);
      && last.pool == first.pool && last.bans == first.bans && last.now == first.now && last.size == first.size
      && |Spawners(last.tasks)| == |Spawners(first.tasks)| + n
      && last.spawning == first.spawning + n
      && Inv(last)
  {
    var k := |run| - 1;
    assert Triggered(run[k - 1], run[k]);
    if k > 1 {
      TriggersLaunchDeficitOnce(run[..k]);
    }
    TriggeredKeeps(run[k - 1], run[k]);
  }

  /** A trigger leaves the deficit fully covered exactly when it already was, or
      every live spawn task is still creating: tasks past their insertion keep
      counting against the deficit although they bring nothing more. */
  lemma TriggerCoversIff(s: Sys, s': Sys)
    requires Inv(s) && Triggered(s, s')
    ensures var usable := |UsableIds(s.pool, s.bans, s.now)|;
      usable + |Pending(s'.tasks)| >= s.size <==>
      usable + |Pending(s.tasks)| >= s.size || |Pending(s.tasks)| == s.spawning
  {
    PendingAreSpawners(s);
    var n := Shortfall(s.size, |UsableIds(s.pool, s.bans, s.now)|, s.spawning);
    if n > 0 {
      forall a | a in s.tasks ensures a < s.next { assert TaskOk(s, a); }
      LaunchedCounts(s.tasks, s.next, n);
    } else {
      assert TaskOk(s, s.next);
      TaskSets(s.tasks, s.next, Task(false, Pruning(false)));
      assert Pending(s'.tasks) == Pending(s.tasks);
    }
  }
}
