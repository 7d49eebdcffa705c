/** When the documented bound on the pool holds: never more than the size plus the
    replacements in flight. */
module PoolBound {
  import opened PoolSpec
  import opened PoolProtocol

  /** What may happen to the pool in an environment, each thing on its own:
      - revives: a dead proxy comes back, by a health check or a restored cooldown
      - hides: a healthy proxy stays in the pool while its address gets banned
      - arrivesBanned: a new container comes up on a banned address
      - adds: proxies are added by hand
      - shrinks: the size is reduced
      - overlaps: spawn tasks are launched while creators of Start are at work */
  datatype World = World(revives: bool, hides: bool, arrivesBanned: bool, adds: bool, shrinks: bool, overlaps: bool)

  const NOTHING := World(false, false, false, false, false, false)

  ghost predicate AllowedTaskStep(w: World, s: Sys, s': Sys, a: nat) {
    || (exists v :: Created(s, s', a, v) && (w.arrivesBanned || !Banned(s.bans, v.ip, s.now)))
    || CreateFailed(s, s', a)
    || (exists todo :: Picked(s, s', a, todo))
    || (exists id :: Removed(s, s', a, id))
    || PruneEnded(s, s', a)
    || Finished(s, s', a)
  }

  ghost predicate AllowedInPlace(w: World, s: Sys, s': Sys) {
    && InPlace(s, s')
    && (w.revives || HealthyIds(s'.pool) <= HealthyIds(s.pool))
    && (w.hides || StrandedIds(s'.pool, s'.bans, s'.now) <= StrandedIds(s.pool, s.bans, s.now))
  }

  ghost predicate AllowedTrigger(w: World, s: Sys, s': Sys) {
    Triggered(s, s') && (w.overlaps || s.starting == 0 || s'.spawning == s.spawning)
  }

  ghost predicate AllowedStart(w: World, s: Sys, s': Sys, v: ProxyView) {
    StartInserted(s, s', v) && (w.arrivesBanned || !Banned(s.bans, v.ip, s.now))
  }

  ghost predicate AllowedResize(w: World, s: Sys, s': Sys, size: int) {
    Resized(s, s', size) && (w.shrinks || size >= s.size)
  }

  ghost predicate Allowed(w: World, s: Sys, s': Sys) {
    || AllowedTrigger(w, s, s')
    || (exists a :: AllowedTaskStep(w, s, s', a))
    || (exists v :: AllowedStart(w, s, s', v))
    || StartFailed(s, s')
    || AllowedInPlace(w, s, s')
    || (exists todo :: RestoreDropped(s, s', todo))
    || (w.adds && exists v :: Added(s, s', v))
    || (exists id :: Dropped(s, s', id))
    || (exists size :: AllowedResize(w, s, s', size))
  }

  lemma AllowedOneMore(w: World, run: seq<Sys>)
    requires |run| > 1 && AllowedRun(w, run[..|run| - 1]) && Allowed(w, run[|run| - 2], run[|run| - 1])
    ensures AllowedRun(w, run)
  {
    var init := run[..|run| - 1];
    forall i | 0 <= i < |run| - 1 ensures Allowed(w, run[i], run[i + 1]) {
      if i < |run| - 2 { assert Allowed(w, init[i], init[i + 1]); }
    }
  }

  ghost predicate AllowedRun(w: World, run: seq<Sys>) {
    && |run| > 0 && Init(run[0])
    && forall i :: 0 <= i < |run| - 1 ==> Allowed(w, run[i], run[i + 1])
  }

  /** The documented bound. */
  predicate WithinBound(s: Sys) { |s.pool| <= s.size + |Unsettled(s.tasks)| }

  /** Usable and pending proxies, and live spawn tasks, are no more than the size; no
      healthy proxy is banned. */
  ghost predicate UsableWithinSize(s: Sys) {
    && |UsableIds(s.pool, s.bans, s.now)| + |Pending(s.tasks)| <= s.size
    && UsableIds(s.pool, s.bans, s.now) == HealthyIds(s.pool)
    && |Spawners(s.tasks)| == s.spawning <= s.size
  }

  /** Nothing is in flight. */
  predicate AtRest(s: Sys) { s.tasks == map[] && s.starting == 0 }

  // ---- Where nothing of the kind happens, the bound holds ----

  /** The protocol's invariant without debt; creators of Start have room left, and
      no spawn task competes with them. */
  ghost predicate Clean(s: Sys) {
    && Inv(s) && s.debt == 0
    && (s.starting > 0 ==> Pending(s.tasks) == {} && |s.pool| + s.starting <= s.size)
  }

  lemma AllowedTaskStepIs(w: World, s: Sys, s': Sys, a: nat)
    requires AllowedTaskStep(w, s, s', a)
    ensures TaskStep(s, s', a)
  {
    if v :| Created(s, s', a, v) {
    } else if todo :| Picked(s, s', a, todo) {
    } else if id :| Removed(s, s', a, id) {
    }
  }

  lemma NoNewIds(a: set<string>, b: set<string>)
    requires a <= b
    ensures |a - b| == 0
  {
    assert a - b == {};
  }

  lemma CleanTrigger(s: Sys, s': Sys)
    requires Clean(s) && AllowedTrigger(NOTHING, s, s')
    ensures Clean(s')
  {
    TriggeredKeeps(s, s');
    if s.starting > 0 {
      assert Pending(s'.tasks) == Pending(s.tasks);
    }
  }

  lemma NonePending(tasks: map<nat, Task>)
    ensures Pending(tasks) == {} <==> forall b :: b in tasks ==> !tasks[b].phase.Creating?
  {
    if b :| b in tasks && tasks[b].phase.Creating? { assert b in Pending(tasks); }
  }

  /** With nothing pending no task adds to the pool. */
  lemma TaskStepShrinks(s: Sys, s': Sys, a: nat)
    requires TaskStep(s, s', a) && Pending(s.tasks) == {}
    ensures Pending(s'.tasks) == {} && |s'.pool| <= |s.pool|
  {
    NonePending(s.tasks);
    NonePending(s'.tasks);
    hide Pending, PruneChoice;
    assert a in s.tasks && !s.tasks[a].phase.Creating?;
    if id :| Removed(s, s', a, id) { RemovalHealth(s, s', id); }
  }

  lemma FreeTaskStep(s: Sys, s': Sys, a: nat)
    requires AllowedTaskStep(NOTHING, s, s', a)
    ensures s'.debt == s.debt && s'.starting == s.starting && s'.size == s.size
  {
  }

  lemma CleanTaskStep(s: Sys, s': Sys, a: nat)
    requires Clean(s) && AllowedTaskStep(NOTHING, s, s', a)
    ensures Clean(s')
  {
    AllowedTaskStepIs(NOTHING, s, s', a);
    TaskStepKeeps(s, s', a);
    FreeTaskStep(s, s', a);
    if s.starting > 0 { TaskStepShrinks(s, s', a); }
  }

  lemma CleanStart(s: Sys, s': Sys, v: ProxyView)
    requires Clean(s) && AllowedStart(NOTHING, s, s', v)
    ensures Clean(s')
  {
    StartInsertedKeeps(s, s', v);
    SplitHealthy(s.pool, s.bans, s.now);
    SubsetSize(s'.pool.Keys, s.pool.Keys + {v.id});
  }

  lemma CleanInPlace(s: Sys, s': Sys)
    requires Clean(s) && AllowedInPlace(NOTHING, s, s')
    ensures Clean(s')
  {
    InPlaceKeeps(s, s');
    NoNewIds(HealthyIds(s'.pool), HealthyIds(s.pool));
    NoNewIds(StrandedIds(s'.pool, s'.bans, s'.now), StrandedIds(s.pool, s.bans, s.now));
    assert |s'.pool.Keys| == |s.pool.Keys|;
  }

  lemma CleanRestore(s: Sys, s': Sys, todo: set<string>)
    requires Clean(s) && RestoreDropped(s, s', todo)
    ensures Clean(s')
  {
    BystanderKeeps(s, s', Task(false, Removing(false, todo, {})));
    assert Pending(s'.tasks) <= Pending(s.tasks);
  }

  lemma CleanDropped(s: Sys, s': Sys, id: string)
    requires Clean(s) && Dropped(s, s', id)
    ensures Clean(s')
  {
    DroppedKeeps(s, s', id);
    RemovalHealth(s, s', id);
  }

  lemma CleanStartFailed(s: Sys, s': Sys)
    requires Clean(s) && StartFailed(s, s')
    ensures Clean(s')
  {
    StartFailedKeeps(s, s');
  }

  lemma CleanResized(s: Sys, s': Sys, size: int)
    requires Clean(s) && AllowedResize(NOTHING, s, s', size)
    ensures Clean(s')
  {
    ResizedKeeps(s, s', size);
  }

  lemma CleanKeeps(s: Sys, s': Sys)
    requires Clean(s) && Allowed(NOTHING, s, s')
    ensures Clean(s')
  {
    hide Clean, AllowedTrigger, AllowedTaskStep, AllowedStart, AllowedInPlace, AllowedResize, RestoreDropped;
    hide StartFailed, Dropped;
    if AllowedTrigger(NOTHING, s, s') {
      CleanTrigger(s, s');
    } else if a :| AllowedTaskStep(NOTHING, s, s', a) {
      CleanTaskStep(s, s', a);
    } else if v :| AllowedStart(NOTHING, s, s', v) {
      CleanStart(s, s', v);
    } else if StartFailed(s, s') {
      CleanStartFailed(s, s');
    } else if AllowedInPlace(NOTHING, s, s') {
      CleanInPlace(s, s');
    } else if todo :| RestoreDropped(s, s', todo) {
      CleanRestore(s, s', todo);
    } else if id :| Dropped(s, s', id) {
      CleanDropped(s, s', id);
    } else {
      var size :| AllowedResize(NOTHING, s, s', size);
      CleanResized(s, s', size);
    }
  }

  lemma {:induction false} CleanRun(run: seq<Sys>)
    requires AllowedRun(NOTHING, run)
    ensures Clean(run[|run| - 1])
  {
    var k := |run| - 1;
    if k == 0 {
      assert Run(run);
      RunKeeps(run);
    } else {
      assert Allowed(NOTHING, run[k - 1], run[k]);
      CleanRun(run[..k]);
      CleanKeeps(run[k - 1], run[k]);
    }
  }

  lemma UsableIsHealthy(s: Sys)
    requires Inv(s) && s.debt == 0
    ensures UsableWithinSize(s)
  {
    assert StrandedIds(s.pool, s.bans, s.now) == {};
    forall id | id in HealthyIds(s.pool) ensures id in UsableIds(s.pool, s.bans, s.now) {
      assert id !in StrandedIds(s.pool, s.bans, s.now);
    }
    assert UsableIds(s.pool, s.bans, s.now) == HealthyIds(s.pool);
  }

  /** In such an environment the bound holds at every moment of every run, usable plus
      pending never passes the size, nor does the spawn counter, and at rest the pool is
      within its size. */
  lemma BoundHolds(run: seq<Sys>, i: nat)
    requires AllowedRun(NOTHING, run) && i < |run|
    ensures WithinBound(run[i]) && UsableWithinSize(run[i])
    ensures AtRest(run[i]) ==> |run[i].pool| <= run[i].size
  {
    CleanRun(run[..i + 1]);
    UsableIsHealthy(run[i]);
  }

  // ---- Each of them breaks it ----

  const P := ProxyView("p", "p", "1.1.1.1", "NL", "NL#1", 0, Idle, 0, 0, 0)
  const Q := ProxyView("q", "q", "2.2.2.2", "NL", "NL#2", 0, Idle, 0, 0, 0)
  const UP: Pool := map["p" := P]
  const DOWN: Pool := map["p" := P.(state := Unhealthy)]
  const BOTH: Pool := UP["q" := Q]
  const P_BANNED: Bans := map["1.1.1.1" := 10]

  /** A pool of size 1 with nothing in flight. */
  function Quiet(pool: Pool, bans: Bans, debt: nat, next: nat): Sys {
    Sys(pool, bans, 0, 1, 0, map[], next, debt, 0)
  }

  /** A pool of size 1 with one spawn task. */
  function Busy(pool: Pool, bans: Bans, debt: nat, phase: Phase, starting: nat, a: nat): Sys {
    Sys(pool, bans, 0, 1, 1, map[a := Task(true, phase)], a + 1, debt, starting)
  }

  lemma Extend(w: World, run: seq<Sys>, s: Sys) returns (longer: seq<Sys>)
    requires AllowedRun(w, run) && Allowed(w, run[|run| - 1], s)
    ensures AllowedRun(w, longer) && longer[|longer| - 1] == s && longer[0] == run[0]
  {
    longer := run + [s];
  }

  lemma TriggerLaunches(pool: Pool, bans: Bans, debt: nat, starting: nat, a: nat)
    requires UsableIds(pool, bans, 0) == {}
    ensures Triggered(Sys(pool, bans, 0, 1, 0, map[], a, debt, starting), Busy(pool, bans, debt, Creating, starting, a))
  {
    var t: map<nat, Task> := map[];
    assert Launched(t, a, 1) == Launched(t[a := Task(true, Creating)], a + 1, 0);
  }

  lemma SpawnStages(pool: Pool, pool': Pool, bans: Bans, debt: nat, debt': nat, a: nat, v: ProxyView)
    requires v.state == Idle && pool' == pool[v.id := v] && DeadIds(pool') == {}
    requires debt' == debt + if Banned(bans, v.ip, 0) then 1 else 0
    ensures Created(Busy(pool, bans, debt, Creating, 0, a), Busy(pool', bans, debt', Pruning(true), 0, a), a, v)
    ensures var pruning, removing :=
        Busy(pool', bans, debt', Pruning(true), 0, a), Busy(pool', bans, debt', Removing(true, {}, {}), 0, a);
      && Picked(pruning, removing, a, {})
      && PruneEnded(removing, Busy(pool', bans, debt', Finishing, 0, a), a)
    ensures Finished(Busy(pool', bans, debt', Finishing, 0, a), Quiet(pool', bans, debt', a + 1), a)
  {
  }

  /** The spawn task completes, and the pool is at rest. */
  lemma SpawnCompletes(w: World, run: seq<Sys>, pool: Pool, bans: Bans, debt: nat, a: nat, v: ProxyView)
    returns (longer: seq<Sys>)
    requires AllowedRun(w, run) && run[|run| - 1] == Busy(pool, bans, debt, Creating, 0, a)
    requires v.state == Idle && DeadIds(pool[v.id := v]) == {} && (w.arrivesBanned || !Banned(bans, v.ip, 0))
    ensures AllowedRun(w, longer) && longer[0] == run[0]
    ensures longer[|longer| - 1]
         == Quiet(pool[v.id := v], bans, debt + if Banned(bans, v.ip, 0) then 1 else 0, a + 1)
  {
    var pool', debt' := pool[v.id := v], debt + if Banned(bans, v.ip, 0) then 1 else 0;
    SpawnStages(pool, pool', bans, debt, debt', a, v);
    var pruning, removing, finishing := Busy(pool', bans, debt', Pruning(true), 0, a),
      Busy(pool', bans, debt', Removing(true, {}, {}), 0, a), Busy(pool', bans, debt', Finishing, 0, a);
    assert AllowedTaskStep(w, run[|run| - 1], pruning, a) && AllowedTaskStep(w, pruning, removing, a);
    longer := Extend(w, run, pruning);
    longer := Extend(w, longer, removing);
    assert AllowedTaskStep(w, removing, finishing, a);
    longer := Extend(w, longer, finishing);
    assert AllowedTaskStep(w, finishing, Quiet(pool', bans, debt', a + 1), a);
    longer := Extend(w, longer, Quiet(pool', bans, debt', a + 1));
  }

  /** From here on the spawn task completes and the pool rests over its size. */
  lemma Overshoots(w: World, run: seq<Sys>, bans: Bans, a: nat) returns (longer: seq<Sys>)
    requires AllowedRun(w, run) && run[|run| - 1] == Busy(UP, bans, 1, Creating, 0, a) && !Banned(bans, "2.2.2.2", 0)
    ensures AllowedRun(w, longer) && longer[|longer| - 1] == Quiet(BOTH, bans, 1, a + 1) && longer[0] == run[0]
  {
    longer := SpawnCompletes(w, run, UP, bans, 1, a, Q);
  }

  predicate Overfull(run: seq<Sys>) {
    |run| > 0 && var end := run[|run| - 1]; AtRest(end) && |end.pool| > end.size
  }

  lemma TwoIsOver(bans: Bans)
    ensures |UP| == 1 && |BOTH| == 2
  {
    assert UP.Keys == {"p"} && BOTH.Keys == {"p", "q"};
  }

  /** The only proxy fails, its replacement is launched, a health check revives it. */
  lemma RevivalOverfills(w: World) returns (run: seq<Sys>)
    requires w.revives
    ensures AllowedRun(w, run) && Overfull(run)
  {
    TwoIsOver(map[]);
    var up, down := Quiet(UP, map[], 0, 0), Quiet(DOWN, map[], 0, 0);
    assert UP.Keys == DOWN.Keys && HealthyIds(DOWN) == {} && HealthyIds(UP) == {"p"};
    NoDebt(UP, map[], 0, DOWN, map[], 0);
    assert AllowedInPlace(w, up, down);
    TriggerLaunches(DOWN, map[], 0, 0, 0);
    var busy, revived := Busy(DOWN, map[], 0, Creating, 0, 0), Busy(UP, map[], 1, Creating, 0, 0);
    assert AllowedTrigger(w, down, busy);
    assert AllowedInPlace(w, busy, revived) by {
      assert HealthyIds(UP) - HealthyIds(DOWN) == {"p"};
      assert StrandedIds(UP, map[], 0) - StrandedIds(DOWN, map[], 0) == {};
    }
    run := [up];
    run := Extend(w, run, down);
    run := Extend(w, run, busy);
    run := Extend(w, run, revived);
    run := Overshoots(w, run, map[], 0);
  }

  /** The only proxy's address is banned on account of another proxy, already gone,
      that had it too. */
  lemma HidingOverfills(w: World) returns (run: seq<Sys>)
    requires w.hides
    ensures AllowedRun(w, run) && Overfull(run)
  {
    TwoIsOver(P_BANNED);
    var up, hidden := Quiet(UP, map[], 0, 0), Quiet(UP, P_BANNED, 1, 0);
    assert StrandedIds(UP, P_BANNED, 0) == {"p"} && StrandedIds(UP, map[], 0) == {};
    assert StrandedIds(UP, P_BANNED, 0) - StrandedIds(UP, map[], 0) == {"p"};
    assert HealthyIds(UP) - HealthyIds(UP) == {};
    assert AllowedInPlace(w, up, hidden);
    TriggerLaunches(UP, P_BANNED, 1, 0, 0);
    assert AllowedTrigger(w, hidden, Busy(UP, P_BANNED, 1, Creating, 0, 0));
    run := [up];
    run := Extend(w, run, hidden);
    run := Extend(w, run, Busy(UP, P_BANNED, 1, Creating, 0, 0));
    run := Overshoots(w, run, P_BANNED, 0);
  }

  /** A replacement is launched for an empty pool and comes up on a banned address. */
  lemma ArrivesBanned(w: World) returns (run: seq<Sys>)
    requires w.arrivesBanned
    ensures AllowedRun(w, run)
    ensures run[0] == Quiet(map[], P_BANNED, 0, 0) && run[|run| - 1] == Quiet(UP, P_BANNED, 1, 1)
  {
    var empty, busy := Quiet(map[], P_BANNED, 0, 0), Busy(map[], P_BANNED, 0, Creating, 0, 0);
    TriggerLaunches(map[], P_BANNED, 0, 0, 0);
    assert AllowedTrigger(w, empty, busy);
    run := Extend(w, [empty], busy);
    hide Allowed, AllowedRun;
    run := SpawnCompletes(w, run, map[], P_BANNED, 0, 0, P);
  }

  /** A pool at rest whose only proxy was banned and pruned: the replacement comes up on
      the banned address, and the next trigger launches another. */
  lemma BannedArrivalOverfills(w: World) returns (run: seq<Sys>)
    requires w.arrivesBanned
    ensures AllowedRun(w, run) && Overfull(run) && AtRest(run[0]) && run[0].pool == map[]
  {
    TwoIsOver(P_BANNED);
    var up, busy := Quiet(UP, P_BANNED, 1, 1), Busy(UP, P_BANNED, 1, Creating, 0, 1);
    run := ArrivesBanned(w);
    assert UsableIds(UP, P_BANNED, 0) == {};
    TriggerLaunches(UP, P_BANNED, 1, 0, 1);
    assert AllowedTrigger(w, up, busy);
    run := Extend(w, run, busy);
    hide Allowed, AllowedRun;
    run := Overshoots(w, run, P_BANNED, 1);
  }

  /** A capacity trigger, as SetPoolSize fires, while Start's creator is at work. */
  lemma OverlapOverfills(w: World) returns (run: seq<Sys>)
    requires w.overlaps
    ensures AllowedRun(w, run) && Overfull(run)
  {
    TwoIsOver(map[]);
    var empty := Sys(map[], map[], 0, 1, 0, map[], 0, 0, 1);
    var busy, arrived := Busy(map[], map[], 0, Creating, 1, 0), Busy(UP, map[], 1, Creating, 0, 0);
    TriggerLaunches(map[], map[], 0, 1, 0);
    assert AllowedTrigger(w, empty, busy);
    assert AllowedStart(w, busy, arrived, P) by { assert Pending(busy.tasks) == {0}; }
    run := [empty];
    run := Extend(w, run, busy);
    run := Extend(w, run, arrived);
    run := Overshoots(w, run, map[], 0);
  }

  lemma AdditionOverfills(w: World) returns (run: seq<Sys>)
    requires w.adds
    ensures AllowedRun(w, run) && Overfull(run)
  {
    TwoIsOver(map[]);
    var up, both := Quiet(UP, map[], 0, 0), Quiet(BOTH, map[], 1, 0);
    assert Added(up, both, Q);
    run := [up];
    run := Extend(w, run, both);
  }

  lemma ShrinkingOverfills(w: World) returns (run: seq<Sys>)
    requires w.shrinks
    ensures AllowedRun(w, run) && Overfull(run)
  {
    TwoIsOver(map[]);
    var start := Sys(BOTH, map[], 0, 2, 0, map[], 0, 0, 0);
    var less := Quiet(BOTH, map[], 1, 0);
    assert AllowedResize(w, start, less, 1);
    run := [start];
    run := Extend(w, run, less);
  }

  ghost predicate BoundKept(run: seq<Sys>) { forall i :: 0 <= i < |run| ==> WithinBound(run[i]) }

  lemma OverfullBreaks(run: seq<Sys>)
    requires Overfull(run)
    ensures !BoundKept(run)
  {
    assert Unsettled(run[|run| - 1].tasks) == {};
    assert !WithinBound(run[|run| - 1]);
  }

  /** Exactly where none of the six things happens, every run keeps the bound; any
      one of them alone leaves some pool resting over its size. */
  lemma BoundHoldsIff(w: World)
    ensures (forall run :: AllowedRun(w, run) ==> BoundKept(run)) <==> w == NOTHING
    ensures w != NOTHING ==> exists run :: AllowedRun(w, run) && Overfull(run)
  {
    if w == NOTHING {
      forall run | AllowedRun(w, run) ensures BoundKept(run) {
        forall i | 0 <= i < |run| ensures WithinBound(run[i]) { BoundHolds(run, i); }
      }
    } else {
      var run;
      if w.revives {
        run := RevivalOverfills(w);
      } else if w.hides {
        run := HidingOverfills(w);
      } else if w.arrivesBanned {
        run := BannedArrivalOverfills(w);
      } else if w.adds {
        run := AdditionOverfills(w);
      } else if w.shrinks {
        run := ShrinkingOverfills(w);
      } else {
        run := OverlapOverfills(w);
      }
      OverfullBreaks(run);
    }
  }

  // ---- A trigger that leaves a deficit ----

  /** A spawn task inserts its proxy, the proxy dies, and the trigger that follows
      launches nothing because the task still counts: with nothing out of the
      ordinary no proxy is usable and none is on its way. */
  lemma TriggerLeavesDeficit() returns (run: seq<Sys>)
    ensures AllowedRun(NOTHING, run) && |run| > 1 && Triggered(run[|run| - 2], run[|run| - 1])
    ensures var end := run[|run| - 1];
      UsableIds(end.pool, end.bans, end.now) == {} && Pending(end.tasks) == {} && end.size == 1
  {
    run := OneArrives();
    DiesUnnoticed();
    run := Extend(NOTHING, run, Busy(DOWN, map[], 0, Pruning(true), 0, 0));
    run := run + [Unserved()];
    AllowedOneMore(NOTHING, run);
  }

  lemma OneArrives() returns (run: seq<Sys>)
    ensures AllowedRun(NOTHING, run) && run[|run| - 1] == Busy(UP, map[], 0, Pruning(true), 0, 0)
  {
    var start, creating, arrived :=
      Quiet(map[], map[], 0, 0), Busy(map[], map[], 0, Creating, 0, 0), Busy(UP, map[], 0, Pruning(true), 0, 0);
    TriggerLaunches(map[], map[], 0, 0, 0);
    assert AllowedTrigger(NOTHING, start, creating);
    run := Extend(NOTHING, [start], creating);
    assert Created(creating, arrived, 0, P) && AllowedTaskStep(NOTHING, creating, arrived, 0);
    run := Extend(NOTHING, run, arrived);
  }

  function Unserved(): Sys {
    Busy(DOWN, map[], 0, Pruning(true), 0, 0)
    .(tasks := map[0 := Task(true, Pruning(true)), 1 := Task(false, Pruning(false))], next := 2)
  }

  lemma DiesUnnoticed()
    ensures AllowedInPlace(NOTHING, Busy(UP, map[], 0, Pruning(true), 0, 0), Busy(DOWN, map[], 0, Pruning(true), 0, 0))
    ensures AllowedTrigger(NOTHING, Busy(DOWN, map[], 0, Pruning(true), 0, 0), Unserved())
    ensures UsableIds(DOWN, map[], 0) == {} && Pending(Unserved().tasks) == {}
  {
    assert HealthyIds(DOWN) == {} && UP.Keys == DOWN.Keys;
    NoDebt(UP, map[], 0, DOWN, map[], 0);
  }
}
