/** Where the pool settles, and where it does not. */
module PoolConvergence {
  import opened PoolSpec
  import opened PoolProtocol
  import opened PoolBound

  /** A victim some removing task still has to delete. */
  predicate Doomed(s: Sys, id: string, a: nat) {
    a in s.tasks && s.tasks[a].phase.Removing? && id in s.tasks[a].phase.todo
  }

  /** A task whose prune still has to pick its victims. */
  predicate YetToPick(s: Sys, a: nat) {
    a in s.tasks && (s.tasks[a].phase.Creating? || s.tasks[a].phase.Pruning?)
  }

  ghost predicate Covered(s: Sys, id: string) {
    (exists a :: Doomed(s, id, a)) || (exists a :: YetToPick(s, a))
  }

  /** The healthy proxies there are and those to come. */
  function Total(s: Sys): nat { |HealthyIds(s.pool)| + |Pending(s.tasks)| }

  /** No healthy proxy is banned, and prunes aim at dead proxies only. Any tasks may
      be in flight. */
  ghost predicate Steady(s: Sys) {
    && CounterInv(s)
    && StrandedIds(s.pool, s.bans, s.now) == {}
    && (forall a, id :: Doomed(s, id, a) ==> id !in HealthyIds(s.pool))
  }

  /** Healthy plus pending is exactly the size, and every dead proxy will be pruned. */
  ghost predicate Settling(s: Sys) {
    Steady(s) && Total(s) == s.size && forall id :: id in DeadIds(s.pool) ==> Covered(s, id)
  }

  /** A trigger now leaves nothing uncovered: healthy and pending proxies are no more
      than the size, and fewer only while every live spawn task is still creating. */
  predicate Coverable(s: Sys) {
    Total(s) <= s.size && (Total(s) == s.size || |Pending(s.tasks)| == s.spawning)
  }

  /** Every spawn succeeds with an id never seen before and an unbanned address. */
  ghost predicate CalmCreated(s: Sys, s': Sys, a: nat, v: ProxyView) {
    && Created(s, s', a, v)
    && v.id !in s.pool && (forall b :: !Doomed(s, v.id, b))
    && !Banned(s.bans, v.ip, s.now)
  }

  /** Requests come and go and time passes; nothing dies and nothing revives. */
  predicate CalmInPlace(s: Sys, s': Sys) {
    && InPlace(s, s')
    && HealthyIds(s'.pool) == HealthyIds(s.pool)
    && StrandedIds(s'.pool, s'.bans, s'.now) == {}
  }

  ghost predicate UndisturbedStep(s: Sys, s': Sys) {
    CalmInPlace(s, s') || exists a :: CalmTaskStep(s, s', a)
  }

  ghost predicate CalmNext(s: Sys, s': Sys) { Triggered(s, s') || UndisturbedStep(s, s') }

  ghost predicate CalmTaskStep(s: Sys, s': Sys, a: nat) {
    || (exists v :: CalmCreated(s, s', a, v))
    || (exists todo :: Picked(s, s', a, todo))
    || (exists id :: Removed(s, s', a, id))
    || PruneEnded(s, s', a)
    || Finished(s, s', a)
  }

  ghost predicate CalmRun(run: seq<Sys>) {
    |run| > 0 && forall i :: 0 <= i < |run| - 1 ==> CalmNext(run[i], run[i + 1])
  }

  /** A calm run without triggers. */
  ghost predicate Undisturbed(run: seq<Sys>) {
    |run| > 0 && forall i :: 0 <= i < |run| - 1 ==> UndisturbedStep(run[i], run[i + 1])
  }

  /** A quiet pool is one such state. */
  lemma QuietIsCoverable(q: Sys)
    requires q.tasks == map[] && q.spawning == 0 && StrandedIds(q.pool, q.bans, q.now) == {}
    requires |HealthyIds(q.pool)| <= q.size
    ensures Steady(q) && Coverable(q)
  {
    assert Pending(q.tasks) == {} && Spawners(q.tasks) == {};
    forall a ensures TaskOk(q, a) {}
  }

  lemma LaunchKeepsSteady(s: Sys, s': Sys)
    requires Steady(s) && Triggered(s, s')
    requires Shortfall(s.size, |UsableIds(s.pool, s.bans, s.now)|, s.spawning) > 0
    ensures Steady(s') && |Pending(s'.tasks)| == |Pending(s.tasks)| + (s.size - |HealthyIds(s.pool)| - s.spawning)
    ensures YetToPick(s', s.next)
  {
    SplitHealthy(s.pool, s.bans, s.now);
    forall a | a in s.tasks ensures a < s.next { assert TaskOk(s, a); }
    var n := Shortfall(s.size, |UsableIds(s.pool, s.bans, s.now)|, s.spawning);
    LaunchedTasks(s.tasks, s.next, n);
    LaunchedCounts(s.tasks, s.next, n);
    forall a ensures TaskOk(s', a) { assert TaskOk(s, a); }
    forall a, id | Doomed(s', id, a) ensures id !in HealthyIds(s'.pool) { assert Doomed(s, id, a); }
  }

  lemma PruneLaunchKeepsSteady(s: Sys, s': Sys)
    requires Steady(s) && s' == s.(tasks := s.tasks[s.next := Task(false, Pruning(false))], next := s.next + 1)
    ensures Steady(s') && Pending(s'.tasks) == Pending(s.tasks) && YetToPick(s', s.next)
  {
    assert TaskOk(s, s.next);
    CounterAfterUpdate(s, s', s.next);
    assert Pending(s'.tasks) == Pending(s.tasks);
    forall a, id | Doomed(s', id, a) ensures id !in HealthyIds(s'.pool) { assert Doomed(s, id, a); }
  }

  /** Any tasks may be in flight when the trigger fires: the pool is then settling if
      and only if the trigger covered the deficit. */
  lemma TriggerSettlesIff(q: Sys, s: Sys)
    requires Steady(q) && Triggered(q, s)
    ensures Steady(s) && s.size == q.size && Total(s) >= Total(q)
    ensures Settling(s) <==> Total(s) == s.size
    ensures Settling(s) <==> Coverable(q)
  {
    SplitHealthy(q.pool, q.bans, q.now);
    PendingAreSpawners(q);
    if Shortfall(q.size, |UsableIds(q.pool, q.bans, q.now)|, q.spawning) > 0 {
      LaunchKeepsSteady(q, s);
    } else {
      PruneLaunchKeepsSteady(q, s);
    }
  }

  lemma CreatedKeepsSteady(s: Sys, s': Sys, a: nat, v: ProxyView)
    requires Steady(s) && CalmCreated(s, s', a, v)
    ensures Steady(s') && Total(s') == Total(s) && YetToPick(s', a)
  {
    CreatedSets(s, s', a, v);
    forall b ensures TaskOk(s', b) { assert TaskOk(s, b); }
    InsertedHealth(s, s', v);
    forall b, id | Doomed(s', id, b) ensures id !in HealthyIds(s'.pool) { assert Doomed(s, id, b); }
  }

  lemma InsertedHealth(s: Sys, s': Sys, v: ProxyView)
    requires s'.pool == s.pool[v.id := v] && s'.bans == s.bans && s'.now == s.now
    requires v.id !in s.pool && v.Healthy() && !Banned(s.bans, v.ip, s.now)
    ensures HealthyIds(s'.pool) == HealthyIds(s.pool) + {v.id} && v.id !in HealthyIds(s.pool)
    ensures StrandedIds(s'.pool, s'.bans, s'.now) == StrandedIds(s.pool, s.bans, s.now)
  {
  }

  /** What covered a proxy covers it still. */
  lemma CoverKept(s: Sys, s': Sys)
    requires forall a, id :: Doomed(s, id, a) && id in s'.pool ==> Doomed(s', id, a)
    requires forall a :: YetToPick(s, a) ==> YetToPick(s', a)
    requires forall id :: id in DeadIds(s'.pool) ==> id in DeadIds(s.pool)
    ensures Settling(s) ==> forall id :: id in DeadIds(s'.pool) ==> Covered(s', id)
  {
    if Settling(s) {
      forall id | id in DeadIds(s'.pool) ensures Covered(s', id) {
        assert Covered(s, id);
        if a :| Doomed(s, id, a) { assert Doomed(s', id, a); }
        if a :| YetToPick(s, a) { assert YetToPick(s', a); }
      }
    }
  }

  lemma InPlaceKeepsSteady(s: Sys, s': Sys)
    requires Steady(s) && CalmInPlace(s, s')
    ensures Steady(s') && Total(s') == Total(s) && (Settling(s) ==> Settling(s'))
  {
    forall a ensures TaskOk(s', a) { assert TaskOk(s, a); }
    forall a, id | Doomed(s', id, a) ensures id !in HealthyIds(s'.pool) { assert Doomed(s, id, a); }
    forall id | id in DeadIds(s'.pool) ensures id in DeadIds(s.pool) {
      assert id in s'.pool.Keys && id !in HealthyIds(s'.pool);
    }
    CoverKept(s, s');
  }

  /** If nobody else is left to pick, nothing is pending, the pool holds exactly
      its size of usable proxies besides the dead ones, and the pick takes all of
      them. */
  lemma LastPickTakesAllDead(s: Sys, s': Sys, a: nat, todo: set<string>)
    requires Settling(s) && Picked(s, s', a, todo)
    ensures todo == DeadIds(s.pool) || exists b :: YetToPick(s', b)
  {
    SplitHealthy(s.pool, s.bans, s.now);
    if b :| b in Pending(s.tasks) {
      assert YetToPick(s', b);
    }
  }

  lemma PickedKeepsSteady(s: Sys, s': Sys, a: nat, todo: set<string>)
    requires Steady(s) && Picked(s, s', a, todo)
    ensures Steady(s') && Total(s') == Total(s) && (Settling(s) ==> Settling(s'))
  {
    assert TaskOk(s, a);
    CounterAfterUpdate(s, s', a);
    assert Pending(s'.tasks) == Pending(s.tasks);
    forall b, id | Doomed(s', id, b) ensures id !in HealthyIds(s'.pool) {
      assert b != a ==> Doomed(s, id, b);
    }
    if Settling(s) {
      LastPickTakesAllDead(s, s', a, todo);
      forall id | id in DeadIds(s'.pool) ensures Covered(s', id) {
        assert todo == DeadIds(s.pool) ==> Doomed(s', id, a);
      }
    }
  }

  /** A prune never deletes an idle or active proxy along the way. */
  lemma RemovedKeepsSteady(s: Sys, s': Sys, a: nat, id: string)
    requires Steady(s) && Removed(s, s', a, id)
    ensures Steady(s') && Total(s') == Total(s) && (Settling(s) ==> Settling(s'))
    ensures id in s.pool ==> id in DeadIds(s.pool)
    ensures HealthyIds(s'.pool) == HealthyIds(s.pool)
  {
    assert Doomed(s, id, a) && TaskOk(s, a);
    CounterAfterUpdate(s, s', a);
    assert Pending(s'.tasks) == Pending(s.tasks);
    assert HealthyIds(s'.pool) == HealthyIds(s.pool);
    assert StrandedIds(s'.pool, s.bans, s.now) == {};
    forall b, x | Doomed(s', x, b) ensures x !in HealthyIds(s'.pool) { assert Doomed(s, x, b); }
    CoverKept(s, s');
  }

  lemma PruneEndedKeepsSteady(s: Sys, s': Sys, a: nat)
    requires Steady(s) && PruneEnded(s, s', a)
    ensures Steady(s') && Total(s') == Total(s) && (Settling(s) ==> Settling(s'))
  {
    assert TaskOk(s, a);
    CounterAfterUpdate(s, s', a);
    assert Pending(s'.tasks) == Pending(s.tasks);
    forall b, x | Doomed(s', x, b) ensures x !in HealthyIds(s'.pool) { assert Doomed(s, x, b); }
    CoverKept(s, s');
  }

  lemma FinishedKeepsSteady(s: Sys, s': Sys, a: nat)
    requires Steady(s) && Finished(s, s', a)
    ensures Steady(s') && Total(s') == Total(s) && (Settling(s) ==> Settling(s'))
  {
    FinishedKeepsCounter(s, s', a);
    assert Pending(s'.tasks) == Pending(s.tasks);
    forall b, x | Doomed(s', x, b) ensures x !in HealthyIds(s'.pool) { assert Doomed(s, x, b); }
    CoverKept(s, s');
  }

  lemma CalmTaskStepKeepsSteady(s: Sys, s': Sys, a: nat)
    requires Steady(s) && CalmTaskStep(s, s', a)
    ensures Steady(s') && Total(s') == Total(s) && s'.size == s.size && (Settling(s) ==> Settling(s'))
  {
    if v :| CalmCreated(s, s', a, v) {
      CreatedKeepsSteady(s, s', a, v);
    } else if todo :| Picked(s, s', a, todo) {
      PickedKeepsSteady(s, s', a, todo);
    } else if id :| Removed(s, s', a, id) {
      RemovedKeepsSteady(s, s', a, id);
    } else if PruneEnded(s, s', a) {
      PruneEndedKeepsSteady(s, s', a);
    } else {
      FinishedKeepsSteady(s, s', a);
    }
  }

  /** Without a trigger the total stays what it is; a settling pool goes on settling. */
  lemma UndisturbedKeepsTotal(s: Sys, s': Sys)
    requires Steady(s) && UndisturbedStep(s, s')
    ensures Steady(s') && Total(s') == Total(s) && s'.size == s.size && (Settling(s) ==> Settling(s'))
  {
    if CalmInPlace(s, s') {
      InPlaceKeepsSteady(s, s');
    } else {
      var a :| CalmTaskStep(s, s', a);
      CalmTaskStepKeepsSteady(s, s', a);
    }
  }

  /** A trigger brings the total to the size when it covers the deficit; no other step
      changes whether it is there. */
  lemma CalmKeepsSteady(s: Sys, s': Sys)
    requires Steady(s) && CalmNext(s, s')
    ensures Steady(s') && s'.size == s.size && (Settling(s) ==> Settling(s'))
    ensures Total(s') == s.size <==> Total(s) == s.size || (Triggered(s, s') && Coverable(s))
  {
    if Triggered(s, s') {
      TriggerSettlesIff(s, s');
    } else {
      UndisturbedKeepsTotal(s, s');
    }
  }

  /** Settled: exactly its size, all usable, none dead, nothing in flight. */
  predicate Settled(s: Sys, size: int) {
    && |s.pool| == |UsableIds(s.pool, s.bans, s.now)| == size
    && DeadIds(s.pool) == {} && s.spawning == 0 && s.tasks == map[]
  }

  lemma NobodyCovers(s: Sys, id: string)
    requires s.tasks == map[]
    ensures !Covered(s, id)
  {
    forall a ensures !Doomed(s, id, a) && !YetToPick(s, a) {}
  }

  lemma RestIsSettled(s: Sys)
    requires Steady(s) && s.tasks == map[]
    ensures s.spawning == 0 && |UsableIds(s.pool, s.bans, s.now)| == Total(s)
    ensures Settling(s) ==> Settled(s, s.size)
  {
    assert Pending(s.tasks) == {} && Spawners(s.tasks) == {};
    SplitHealthy(s.pool, s.bans, s.now);
    if Settling(s) {
      forall id ensures id !in DeadIds(s.pool) { NobodyCovers(s, id); }
      assert DeadIds(s.pool) == {};
    }
  }

  /** A trigger of the run that covers the deficit. */
  predicate CoversAt(run: seq<Sys>, i: nat) {
    i < |run| - 1 && Triggered(run[i], run[i + 1]) && Coverable(run[i])
  }

  ghost predicate SomeCovers(run: seq<Sys>) { exists i :: CoversAt(run, i) }

  lemma CoversAtPrefix(run: seq<Sys>)
    requires |run| > 1
    ensures SomeCovers(run) <==> CoversAt(run, |run| - 2) || SomeCovers(run[..|run| - 1])
  {
    var k := |run| - 1;
    if i :| CoversAt(run, i) { assert i == k - 1 || CoversAt(run[..k], i); }
    if i :| CoversAt(run[..k], i) { assert CoversAt(run, i); }
  }

  /** Over a whole run from any steady state: the total is the size in the end exactly
      when it was so before or some trigger covered the deficit. */
  lemma {:induction false} TotalOfRun(run: seq<Sys>)
    requires CalmRun(run) && Steady(run[0])
    ensures var end := run[|run| - 1];
      && Steady(end) && end.size == run[0].size && (Settling(run[0]) ==> Settling(end))
      && (Total(end) == end.size <==> Total(run[0]) == run[0].size || SomeCovers(run))
  {
    var k := |run| - 1;
    if k > 0 {
      assert CalmNext(run[k - 1], run[k]);
      TotalOfRun(run[..k]);
      CalmKeepsSteady(run[k - 1], run[k]);
      CoversAtPrefix(run);
    }
  }

  /** Convergence: a trigger fires, whatever tasks are in flight, and covers the deficit.
      In any completion order, however many triggers follow, once the tasks are done the
      pool is exactly its size, all usable, none dead, and the spawn counter is zero. */
  lemma PoolConverges(q: Sys, run: seq<Sys>)
    requires Steady(q) && Coverable(q)
    requires CalmRun(run) && Triggered(q, run[0]) && run[|run| - 1].tasks == map[]
    ensures Settled(run[|run| - 1], q.size)
  {
    TriggerSettlesIff(q, run[0]);
    TotalOfRun(run);
    RestIsSettled(run[|run| - 1]);
  }

  /** A run from any steady state, at rest in the end, ends with as many usable proxies
      as the size exactly when that total was there before or some trigger covered the
      deficit. */
  lemma PoolReachesSizeIff(run: seq<Sys>)
    requires CalmRun(run) && Steady(run[0]) && run[|run| - 1].tasks == map[]
    ensures var end := run[|run| - 1];
      |UsableIds(end.pool, end.bans, end.now)| == run[0].size
      <==> Total(run[0]) == run[0].size || SomeCovers(run)
  {
    TotalOfRun(run);
    RestIsSettled(run[|run| - 1]);
  }

  lemma {:induction false} UndisturbedRunKeepsTotal(run: seq<Sys>)
    requires Undisturbed(run) && Steady(run[0])
    ensures var end := run[|run| - 1];
      Steady(end) && end.size == run[0].size && Total(end) == Total(run[0]) && (Settling(run[0]) ==> Settling(end))
  {
    var k := |run| - 1;
    if k > 0 {
      assert UndisturbedStep(run[k - 1], run[k]);
      UndisturbedRunKeepsTotal(run[..k]);
      UndisturbedKeepsTotal(run[k - 1], run[k]);
    }
  }

  /** Without a further trigger the pool rests at exactly the healthy and pending
      proxies the trigger left, and is settled if and only if it covered the deficit. */
  lemma TriggerRestsAt(q: Sys, run: seq<Sys>)
    requires Steady(q) && Undisturbed(run) && Triggered(q, run[0]) && run[|run| - 1].tasks == map[]
    ensures var end := run[|run| - 1];
      && |UsableIds(end.pool, end.bans, end.now)| == Total(run[0])
      && (Settled(end, q.size) <==> Coverable(q))
  {
    TriggerSettlesIff(q, run[0]);
    UndisturbedRunKeepsTotal(run);
    RestIsSettled(run[|run| - 1]);
  }

  // ---- Calm runs do come to rest ----

  /** How many steps a task has left, when no prune has more than `most` victims. */
  function Left(p: Phase, most: nat): nat {
    match p
    case Creating => most + 4
    case Pruning(_) => most + 3
    case Removing(_, todo, _) => |todo| + 2
    case Finishing => 1
  }

  /** The steps the tasks still have to take. */
  function Work(s: Sys, most: nat): set<(nat, nat)> {
    set a, k | a in s.tasks && 0 <= k < Left(s.tasks[a].phase, most) :: (a, k)
  }

  /** The dead proxies there are, and can be while nothing dies. */
  predicate Fits(s: Sys, most: nat) { |s.pool| + |Pending(s.tasks)| <= most }

  /** The task itself takes a step, the others keep theirs. */
  predicate Advances(s: Sys, s': Sys, a: nat, most: nat) {
    && s'.tasks.Keys <= s.tasks.Keys && a in s.tasks
    && (forall b :: b in s'.tasks && b != a ==> Left(s'.tasks[b].phase, most) == Left(s.tasks[b].phase, most))
    && (a in s'.tasks ==> Left(s'.tasks[a].phase, most) < Left(s.tasks[a].phase, most))
  }

  lemma UpdateAdvances(s: Sys, s': Sys, a: nat, most: nat)
    requires a in s.tasks && a in s'.tasks && s'.tasks == s.tasks[a := s'.tasks[a]]
    requires Left(s'.tasks[a].phase, most) < Left(s.tasks[a].phase, most)
    ensures Advances(s, s', a, most)
  {
  }

  lemma CreatedAdvances(s: Sys, s': Sys, a: nat, v: ProxyView, most: nat)
    requires Created(s, s', a, v)
    ensures Advances(s, s', a, most)
  {
    forall b | b in s'.tasks && b != a ensures Left(s'.tasks[b].phase, most) == Left(s.tasks[b].phase, most) {
      assert s'.tasks[b] == Notified(s.tasks[b], a);
    }
  }

  lemma PickedAdvances(s: Sys, s': Sys, a: nat, todo: set<string>, most: nat)
    requires Picked(s, s', a, todo) && |s.pool| <= most
    ensures Advances(s, s', a, most)
  {
    SubsetSize(todo, s.pool.Keys);
    UpdateAdvances(s, s', a, most);
  }

  lemma RemovedAdvances(s: Sys, s': Sys, a: nat, id: string, most: nat)
    requires Removed(s, s', a, id)
    ensures Advances(s, s', a, most)
  {
    var todo := s.tasks[a].phase.todo;
    assert todo == (todo - {id}) + {id};
    UpdateAdvances(s, s', a, most);
  }

  lemma StepAdvances(s: Sys, s': Sys, a: nat, most: nat)
    requires TaskStep(s, s', a) && |s.pool| <= most
    ensures Advances(s, s', a, most)
  {
    if v :| Created(s, s', a, v) {
      CreatedAdvances(s, s', a, v, most);
    } else if todo :| Picked(s, s', a, todo) {
      PickedAdvances(s, s', a, todo, most);
    } else if id :| Removed(s, s', a, id) {
      RemovedAdvances(s, s', a, id, most);
    } else if CreateFailed(s, s', a) || PruneEnded(s, s', a) {
      UpdateAdvances(s, s', a, most);
    }
  }

  lemma AdvanceIsWork(s: Sys, s': Sys, a: nat, most: nat)
    requires Advances(s, s', a, most)
    ensures Work(s', most) < Work(s, most)
  {
    var done := (a, Left(s.tasks[a].phase, most) - 1);
    assert done in Work(s, most) && done !in Work(s', most);
    forall b, k | (b, k) in Work(s', most) ensures (b, k) in Work(s, most) {}
  }

  /** Each step of a task leaves strictly less work. */
  lemma TaskStepsDecrease(s: Sys, s': Sys, a: nat, most: nat)
    requires TaskStep(s, s', a) && |s.pool| <= most
    ensures Work(s', most) < Work(s, most)
  {
    StepAdvances(s, s', a, most);
    AdvanceIsWork(s, s', a, most);
  }

  lemma CalmIsTaskStep(s: Sys, s': Sys, a: nat)
    requires CalmTaskStep(s, s', a)
    ensures TaskStep(s, s', a)
  {
    if v :| CalmCreated(s, s', a, v) {
      assert Created(s, s', a, v);
    } else if todo :| Picked(s, s', a, todo) {
    } else if id :| Removed(s, s', a, id) {
    }
  }

  lemma CreatedFits(s: Sys, s': Sys, a: nat, v: ProxyView, most: nat)
    requires Fits(s, most) && Created(s, s', a, v)
    ensures Fits(s', most)
  {
    CreatedSets(s, s', a, v);
    InsertionHealth(s, s', v);
    assert |Pending(s.tasks)| == |Pending(s'.tasks)| + 1 by {
      assert Pending(s.tasks) == Pending(s'.tasks) + {a};
    }
  }

  lemma NoLargerFits(s: Sys, s': Sys, most: nat)
    requires Fits(s, most) && s'.pool.Keys <= s.pool.Keys && Pending(s'.tasks) <= Pending(s.tasks)
    ensures Fits(s', most)
  {
    SubsetSize(s'.pool.Keys, s.pool.Keys);
    SubsetSize(Pending(s'.tasks), Pending(s.tasks));
  }

  lemma PickedFits(s: Sys, s': Sys, a: nat, todo: set<string>, most: nat)
    requires Fits(s, most) && Picked(s, s', a, todo)
    ensures Fits(s', most)
  {
    NoLargerFits(s, s', most);
  }

  lemma RemovedFits(s: Sys, s': Sys, a: nat, id: string, most: nat)
    requires Fits(s, most) && Removed(s, s', a, id)
    ensures Fits(s', most)
  {
    NoLargerFits(s, s', most);
  }

  lemma EndedFits(s: Sys, s': Sys, a: nat, most: nat)
    requires Fits(s, most) && (PruneEnded(s, s', a) || Finished(s, s', a))
    ensures Fits(s', most)
  {
    NoLargerFits(s, s', most);
  }

  lemma FitsKept(s: Sys, s': Sys, a: nat, most: nat)
    requires Fits(s, most) && CalmTaskStep(s, s', a)
    ensures Fits(s', most)
  {
    if v :| CalmCreated(s, s', a, v) {
      CreatedFits(s, s', a, v, most);
    } else if todo :| Picked(s, s', a, todo) {
      PickedFits(s, s', a, todo, most);
    } else if id :| Removed(s, s', a, id) {
      RemovedFits(s, s', a, id, most);
    } else {
      EndedFits(s, s', a, most);
    }
  }

  // ---- No task is ever stuck ----

  lemma {:induction false} SubsetOfSize<T>(all: set<T>, n: nat) returns (some: set<T>)
    requires n <= |all|
    ensures some <= all && |some| == n
  {
    if n == 0 {
      some := {};
    } else {
      var x :| x in all;
      var rest := SubsetOfSize(all - {x}, n - 1);
      some := rest + {x};
    }
  }

  predicate Longer(s: string, used: set<string>) { forall u :: u in used ==> |s| > |u| }

  /** There is always a name nobody has. */
  lemma {:induction false} FreshName(used: set<string>) returns (s: string)
    ensures s != "" && s !in used && Longer(s, used)
  {
    if used == {} {
      s := "x";
    } else {
      var u :| u in used;
      var t := FreshName(used - {u});
      s := t + u + "x";
      forall v | v in used ensures |s| > |v| { assert v != u ==> v in used - {u}; }
    }
  }

  function VictimIds(s: Sys): set<string> {
    set a, id | a in s.tasks && s.tasks[a].phase.Removing? && id in s.tasks[a].phase.todo :: id
  }

  /** A new container can always come up with a fresh id on an unbanned address. */
  lemma CanCreate(s: Sys, a: nat) returns (s': Sys)
    requires CounterInv(s) && a in s.tasks && s.tasks[a].phase.Creating?
    ensures CalmTaskStep(s, s', a)
  {
    assert TaskOk(s, a);
    var id := FreshName(s.pool.Keys + VictimIds(s));
    var ip := FreshName(s.bans.Keys);
    var v := ProxyView(id, id, ip, "", "", s.now, Idle, s.now, 0, 0);
    s' := s.(pool := s.pool[id := v], tasks := Notify(s.tasks, a)[a := Task(true, Pruning(true))]);
    forall b ensures !Doomed(s, id, b) { assert Doomed(s, id, b) ==> id in VictimIds(s); }
    assert Created(s, s', a, v) && CalmCreated(s, s', a, v);
  }

  /** In a settling pool every task can take its next calm step. */
  lemma TaskCanStep(s: Sys, a: nat) returns (s': Sys)
    requires CounterInv(s) && a in s.tasks
    ensures CalmTaskStep(s, s', a)
  {
    match s.tasks[a].phase
    case Creating =>
      s' := CanCreate(s, a);
    case Pruning(inserted) =>
      var todo := DeadIds(s.pool);
      if 0 < |s.pool| - s.size < |todo| {
        todo := SubsetOfSize(todo, |s.pool| - s.size);
      }
      s' := s.(tasks := s.tasks[a := s.tasks[a].(phase := Removing(inserted, todo, {}))]);
      assert Picked(s, s', a, todo);
    case Removing(inserted, todo, later) =>
      if todo == {} {
        s' := s.(tasks := s.tasks[a := s.tasks[a].(phase := Finishing)]);
        assert PruneEnded(s, s', a);
      } else {
        var id :| id in todo;
        s' := s.(pool := s.pool - {id},
                 tasks := s.tasks[a := s.tasks[a].(phase := Removing(inserted, todo - {id}, later))]);
        assert Removed(s, s', a, id);
      }
    case Finishing =>
      s' := s.(tasks := s.tasks - {a},
               spawning := if s.tasks[a].spawner && s.spawning > 0 then s.spawning - 1 else s.spawning);
      assert Finished(s, s', a);
  }

  // ---- Rest is reached ----

  lemma Prepend(s: Sys, run: seq<Sys>)
    requires Undisturbed(run) && UndisturbedStep(s, run[0])
    ensures Undisturbed([s] + run)
  {
    var longer := [s] + run;
    forall i | 0 <= i < |longer| - 1 ensures UndisturbedStep(longer[i], longer[i + 1]) {
      if i > 0 { assert UndisturbedStep(run[i - 1], run[i]); }
    }
  }

  /** From every steady state an undisturbed run leads to rest. */
  lemma {:induction false} RestIsReachable(s: Sys, most: nat) returns (run: seq<Sys>)
    requires Steady(s) && Fits(s, most)
    ensures Undisturbed(run) && run[0] == s && run[|run| - 1].tasks == map[]
    decreases Work(s, most)
  {
    if s.tasks == map[] {
      run := [s];
    } else {
      var a :| a in s.tasks;
      var s' := TaskCanStep(s, a);
      CalmTaskStepKeepsSteady(s, s', a);
      FitsKept(s, s', a, most);
      CalmIsTaskStep(s, s', a);
      TaskStepsDecrease(s, s', a, most);
      var rest := RestIsReachable(s', most);
      assert UndisturbedStep(s, s');
      Prepend(s, rest);
      run := [s] + rest;
    }
  }

  /** A pool just triggered, whatever is in flight, does come to rest, settled if and
      only if the trigger covered the deficit. */
  lemma PoolSettles(q: Sys, s: Sys) returns (run: seq<Sys>)
    requires Steady(q) && Triggered(q, s)
    ensures Undisturbed(run) && run[0] == s && run[|run| - 1].tasks == map[]
    ensures Settled(run[|run| - 1], q.size) <==> Coverable(q)
  {
    TriggerSettlesIff(q, s);
    run := RestIsReachable(s, |s.pool| + |Pending(s.tasks)|);
    TriggerRestsAt(q, run);
  }

  /** How often a background task moved. */
  function Moves(run: seq<Sys>): nat {
    if |run| <= 1 then 0
    else Moves(run[..|run| - 1]) + if run[|run| - 1].tasks != run[|run| - 2].tasks then 1 else 0
  }

  lemma UndisturbedStepWorks(s: Sys, s': Sys, most: nat)
    requires UndisturbedStep(s, s') && Fits(s, most)
    ensures Fits(s', most)
    ensures |Work(s', most)| + (if s'.tasks != s.tasks then 1 else 0) <= |Work(s, most)|
  {
    if CalmInPlace(s, s') {
      assert s'.tasks == s.tasks && |s'.pool.Keys| == |s.pool.Keys| && Work(s', most) == Work(s, most);
    } else {
      var a :| CalmTaskStep(s, s', a);
      FitsKept(s, s', a, most);
      CalmIsTaskStep(s, s', a);
      TaskStepsDecrease(s, s', a, most);
      ProperSubsetSize(Work(s', most), Work(s, most));
    }
  }

  lemma ProperSubsetSize<T>(a: set<T>, b: set<T>)
    requires a < b
    ensures |a| < |b|
  {
    var x :| x in b && x !in a;
    SubsetSize(a, b - {x});
  }

  /** Without further triggers the tasks move only so often, whatever requests do in
      between: every such run in which tasks keep moving comes to rest. */
  lemma {:induction false} MovesAreBounded(run: seq<Sys>, most: nat)
    requires Undisturbed(run) && Fits(run[0], most)
    ensures Fits(run[|run| - 1], most) && Moves(run) + |Work(run[|run| - 1], most)| <= |Work(run[0], most)|
  {
    var k := |run| - 1;
    if k > 0 {
      assert UndisturbedStep(run[k - 1], run[k]);
      MovesAreBounded(run[..k], most);
      UndisturbedStepWorks(run[k - 1], run[k], most);
    }
  }

  // ---- With spawns that fail ----

  /** Also a container may not come up. */
  ghost predicate FaultyStep(s: Sys, s': Sys) { UndisturbedStep(s, s') || SomeCreateFails(s, s') }

  ghost predicate SomeCreateFails(s: Sys, s': Sys) { exists a :: CreateFailed(s, s', a) }

  /** A task whose container did not come up prunes all the same; there is one proxy less
      to come, and nobody loses cover. */
  lemma FailedSpawnStillPrunes(s: Sys, s': Sys, a: nat)
    requires Steady(s) && CreateFailed(s, s', a)
    ensures Steady(s') && Total(s') == Total(s) - 1 && s'.size == s.size && YetToPick(s', a)
    ensures forall id :: id in DeadIds(s'.pool) ==> Covered(s', id)
  {
    assert TaskOk(s, a);
    CounterAfterUpdate(s, s', a);
    assert Pending(s.tasks) == Pending(s'.tasks) + {a};
    assert YetToPick(s', a);
    forall b, id | Doomed(s', id, b) ensures id !in HealthyIds(s'.pool) { assert Doomed(s, id, b); }
  }

  ghost predicate FaultyRun(run: seq<Sys>) {
    |run| > 0 && forall i :: 0 <= i < |run| - 1 ==> FaultyStep(run[i], run[i + 1])
  }

  ghost function Failures(run: seq<Sys>): nat {
    if |run| <= 1 then 0
    else Failures(run[..|run| - 1]) + if SomeCreateFails(run[|run| - 2], run[|run| - 1]) then 1 else 0
  }

  lemma FaultyKeepsTotal(s: Sys, s': Sys)
    requires Steady(s) && FaultyStep(s, s')
    ensures Steady(s') && s'.size == s.size
    ensures Total(s') + (if SomeCreateFails(s, s') then 1 else 0) == Total(s)
  {
    if a :| CreateFailed(s, s', a) {
      FailedSpawnStillPrunes(s, s', a);
    } else {
      UndisturbedKeepsTotal(s, s');
    }
  }

  lemma {:induction false} FailuresLowerTotal(run: seq<Sys>)
    requires FaultyRun(run) && Steady(run[0])
    ensures var end := run[|run| - 1];
      Steady(end) && end.size == run[0].size && Total(end) + Failures(run) == Total(run[0])
  {
    var k := |run| - 1;
    if k > 0 {
      assert FaultyStep(run[k - 1], run[k]);
      FailuresLowerTotal(run[..k]);
      FaultyKeepsTotal(run[k - 1], run[k]);
    }
  }

  /** Without a further trigger the pool rests at the healthy and pending proxies the trigger
      left, less one for every spawn that failed: nothing makes up for those. */
  lemma FailedSpawnsAreMissing(q: Sys, run: seq<Sys>)
    requires Steady(q) && FaultyRun(run) && Triggered(q, run[0]) && run[|run| - 1].tasks == map[]
    ensures var end := run[|run| - 1];
      |UsableIds(end.pool, end.bans, end.now)| + Failures(run) == Total(run[0])
  {
    TriggerSettlesIff(q, run[0]);
    FailuresLowerTotal(run);
    RestIsSettled(run[|run| - 1]);
  }

  // ---- Where steady states come from ----

  /** No proxy comes up under the id of one that is about to be removed. */
  ghost predicate FreshIds(s: Sys, s': Sys) {
    forall id, a :: Doomed(s, id, a) && id in HealthyIds(s'.pool) ==> id in HealthyIds(s.pool)
  }

  /** A step makes victims of dead proxies only. */
  predicate VictimOk(s: Sys, s': Sys, id: string, a: nat) {
    Doomed(s', id, a) ==> Doomed(s, id, a) || (s'.pool == s.pool && id in DeadIds(s.pool))
  }

  lemma TaskStepVictims(s: Sys, s': Sys, b: nat, id: string, a: nat)
    requires TaskStep(s, s', b)
    ensures VictimOk(s, s', id, a)
  {
    if v :| Created(s, s', b, v) {
      if a in s'.tasks && a != b { assert s'.tasks[a] == Notified(s.tasks[a], b); }
    }
  }

  lemma TriggerVictims(s: Sys, s': Sys, id: string, a: nat)
    requires CounterInv(s) && Triggered(s, s')
    ensures VictimOk(s, s', id, a)
  {
    forall b | b in s.tasks ensures b < s.next { assert TaskOk(s, b); }
    LaunchedTasks(s.tasks, s.next, Shortfall(s.size, |UsableIds(s.pool, s.bans, s.now)|, s.spawning));
  }

  lemma RestoreVictims(s: Sys, s': Sys, todo: set<string>, id: string, a: nat)
    requires RestoreDropped(s, s', todo)
    ensures VictimOk(s, s', id, a)
  {
  }

  lemma SameVictims(s: Sys, s': Sys, id: string, a: nat)
    requires s'.tasks == s.tasks
    ensures VictimOk(s, s', id, a)
  {
  }

  lemma OtherStepsKeepTasks(s: Sys, s': Sys)
    requires Allowed(NOTHING, s, s') && !AllowedTrigger(NOTHING, s, s')
    requires (forall a :: !AllowedTaskStep(NOTHING, s, s', a)) && forall todo :: !RestoreDropped(s, s', todo)
    ensures s'.tasks == s.tasks
  {
    hide AllowedTrigger, AllowedTaskStep, RestoreDropped;
  }

  lemma StepVictims(s: Sys, s': Sys, id: string, a: nat)
    requires CounterInv(s) && Allowed(NOTHING, s, s')
    ensures VictimOk(s, s', id, a)
  {
    hide VictimOk, AllowedInPlace, AllowedStart, AllowedResize;
    if AllowedTrigger(NOTHING, s, s') {
      TriggerVictims(s, s', id, a);
    } else if b :| AllowedTaskStep(NOTHING, s, s', b) {
      AllowedTaskStepIs(NOTHING, s, s', b);
      TaskStepVictims(s, s', b, id, a);
    } else if todo :| RestoreDropped(s, s', todo) {
      RestoreVictims(s, s', todo, id, a);
    } else {
      OtherStepsKeepTasks(s, s');
      SameVictims(s, s', id, a);
    }
  }

  ghost predicate VictimsDead(s: Sys) { forall a, id :: Doomed(s, id, a) ==> id !in HealthyIds(s.pool) }

  lemma StepKeepsVictimsDead(s: Sys, s': Sys)
    requires Clean(s) && VictimsDead(s) && Allowed(NOTHING, s, s') && FreshIds(s, s')
    ensures VictimsDead(s')
  {
    hide Allowed, CounterInv;
    forall a, id | Doomed(s', id, a) ensures id !in HealthyIds(s'.pool) {
      StepVictims(s, s', id, a);
      assert Doomed(s, id, a) ==> id !in HealthyIds(s.pool);
    }
  }

  lemma CleanIsSteady(s: Sys)
    requires Clean(s) && VictimsDead(s)
    ensures Steady(s) && Total(s) <= s.size
  {
  }

  lemma {:induction false} VictimsStayDead(run: seq<Sys>)
    requires AllowedRun(NOTHING, run) && forall i :: 0 <= i < |run| - 1 ==> FreshIds(run[i], run[i + 1])
    ensures VictimsDead(run[|run| - 1])
  {
    hide Clean, Allowed, FreshIds;
    var k := |run| - 1;
    if k > 0 {
      VictimsStayDead(run[..k]);
      CleanRun(run[..k]);
      assert Allowed(NOTHING, run[k - 1], run[k]) && FreshIds(run[k - 1], run[k]);
      hide AllowedRun, VictimsDead;
      StepKeepsVictimsDead(run[k - 1], run[k]);
    }
  }

  /** Where nothing of what breaks the bound happens and ids are fresh, every moment of
      every run, with any tasks in flight, is one the results above start from. */
  lemma EveryMomentIsSteady(run: seq<Sys>)
    requires AllowedRun(NOTHING, run) && forall i :: 0 <= i < |run| - 1 ==> FreshIds(run[i], run[i + 1])
    ensures Steady(run[|run| - 1]) && Total(run[|run| - 1]) <= run[|run| - 1].size
  {
    CleanRun(run);
    VictimsStayDead(run);
    CleanIsSteady(run[|run| - 1]);
  }
}
