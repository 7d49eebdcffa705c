/** A 429 while Start is at work, step by step. The size is 2; Start's first proxy is
    rate limited before its second one is up, so two spawn tasks are launched beside
    it. */
module PoolOvershoot {
  import opened PoolSpec
  import opened PoolProtocol
  import opened PoolBound

  const R := Q.(id := "r", ip := "3.3.3.3")
  const S := Q.(id := "s", ip := "4.4.4.4")
  const LIMITED: Pool := map["p" := P.(state := Cooldown, errors := 1)]
  const TWO: Pool := LIMITED["q" := Q]
  const THREE: Pool := TWO["r" := R]
  const FOUR: Pool := THREE["s" := S]
  const OVER: Pool := map["q" := Q, "r" := R, "s" := S]

  /** A pool of size 2 whose first proxy, once there, is rate limited. */
  function Starting(pool: Pool, bans: Bans, spawning: int, tasks: map<nat, Task>, next: nat, debt: nat, starting: nat)
    : Sys
  {
    Sys(pool, bans, 0, 2, spawning, tasks, next, debt, starting)
  }

  function Spawns(a: Phase, b: Phase): map<nat, Task> { map[0 := Task(true, a), 1 := Task(true, b)] }

  function Spawning(pool: Pool, a: Phase, b: Phase, debt: nat, starting: nat): Sys {
    Starting(pool, P_BANNED, 2, Spawns(a, b), 2, debt, starting)
  }

  function LastOne(phase: Phase): Sys { Starting(OVER, P_BANNED, 1, map[1 := Task(true, phase)], 2, 1, 0) }

  lemma StartBegins()
    ensures StartInserted(Starting(map[], map[], 0, map[], 0, 0, 2), Starting(UP, map[], 0, map[], 0, 0, 1), P)
  {
    var none: Pool := map[];
    assert HealthyIds(none) == {};
  }

  lemma FirstIsLimited()
    ensures LIMITED == LimitedPool(UP, "p", 0) && P_BANNED == Extended(map[], "1.1.1.1", 10)
  {
  }

  lemma LimitedSets()
    ensures LIMITED.Keys == UP.Keys == {"p"} && HealthyIds(LIMITED) == {} && StrandedIds(LIMITED, P_BANNED, 0) == {}
  {
  }

  lemma FirstMarked()
    ensures AllowedInPlace(NOTHING, Starting(UP, map[], 0, map[], 0, 0, 1),
                           Starting(LimitedPool(UP, "p", 0), Extended(map[], "1.1.1.1", 10), 0, map[], 0, 0, 1))
  {
    FirstIsLimited();
    LimitedSets();
    hide LimitedPool, Extended;
    NoDebt(UP, map[], 0, LIMITED, P_BANNED, 0);
    hide HealthyIds, StrandedIds;
  }

  lemma StartIsOvertaken()
    ensures Triggered(Starting(LIMITED, P_BANNED, 0, map[], 0, 0, 1), Spawning(LIMITED, Creating, Creating, 0, 1))
    ensures StartInserted(Spawning(LIMITED, Creating, Creating, 0, 1), Spawning(TWO, Creating, Creating, 1, 0), Q)
  {
    assert UsableIds(LIMITED, P_BANNED, 0) == {} && HealthyIds(LIMITED) == {};
    var t: map<nat, Task> := map[];
    var t1 := t[0 := Task(true, Creating)];
    assert Launched(t, 0, 2) == Launched(t1, 1, 1) == Launched(t1[1 := Task(true, Creating)], 2, 0);
    assert Pending(Spawns(Creating, Creating)) == {0, 1};
  }

  lemma FirstArrives()
    ensures Created(Spawning(TWO, Creating, Creating, 1, 0), Spawning(THREE, Pruning(true), Creating, 1, 0), 0, R)
  {
    assert Notify(Spawns(Creating, Creating), 0) == Spawns(Creating, Creating);
  }

  lemma SecondArrives()
    ensures Created(Spawning(THREE, Pruning(true), Creating, 1, 0),
                    Spawning(FOUR, Pruning(true), Pruning(true), 1, 0), 1, S)
  {
    assert Notify(Spawns(Pruning(true), Creating), 1) == Spawns(Pruning(true), Creating);
  }

  lemma FirstPrunes()
    ensures Picked(Spawning(FOUR, Pruning(true), Pruning(true), 1, 0),
                   Spawning(FOUR, Removing(true, {"p"}, {}), Pruning(true), 1, 0), 0, {"p"})
    ensures Removed(Spawning(FOUR, Removing(true, {"p"}, {}), Pruning(true), 1, 0),
                    Spawning(OVER, Removing(true, {}, {}), Pruning(true), 1, 0), 0, "p")
  {
    assert FOUR.Keys == {"p", "q", "r", "s"} && DeadIds(FOUR) == {"p"};
    assert {"p"} - {"p"} == {};
    assert FOUR - {"p"} == OVER;
  }

  lemma FirstFinishes()
    ensures PruneEnded(Spawning(OVER, Removing(true, {}, {}), Pruning(true), 1, 0),
                       Spawning(OVER, Finishing, Pruning(true), 1, 0), 0)
    ensures Finished(Spawning(OVER, Finishing, Pruning(true), 1, 0), LastOne(Pruning(true)), 0)
  {
    assert Spawns(Finishing, Pruning(true)) - {0} == map[1 := Task(true, Pruning(true))];
  }

  lemma SecondFinishes()
    ensures Picked(LastOne(Pruning(true)), LastOne(Removing(true, {}, {})), 1, {})
    ensures PruneEnded(LastOne(Removing(true, {}, {})), LastOne(Finishing), 1)
    ensures Finished(LastOne(Finishing), Starting(OVER, P_BANNED, 0, map[], 2, 1, 0), 1)
  {
    assert DeadIds(OVER) == {};
    var t: map<nat, Task> := map[1 := Task(true, Finishing)];
    assert t - {1} == map[];
  }

  lemma TaskExtend(w: World, run: seq<Sys>, s: Sys, a: nat) returns (longer: seq<Sys>)
    requires AllowedRun(w, run) && AllowedTaskStep(w, run[|run| - 1], s, a)
    ensures AllowedRun(w, longer) && longer[|longer| - 1] == s
  {
    longer := Extend(w, run, s);
  }

  lemma FirstLimitedRun(w: World) returns (run: seq<Sys>)
    ensures AllowedRun(w, run) && run[|run| - 1] == Starting(LIMITED, P_BANNED, 0, map[], 0, 0, 1)
  {
    var none, first := Starting(map[], map[], 0, map[], 0, 0, 2), Starting(UP, map[], 0, map[], 0, 0, 1);
    StartBegins();
    assert Init(none) && AllowedStart(w, none, first, P);
    run := Extend(w, [none], first);
    FirstMarked();
    FirstIsLimited();
    hide Extended, LimitedPool, Init;
    assert AllowedInPlace(w, first, Starting(LIMITED, P_BANNED, 0, map[], 0, 0, 1));
    run := Extend(w, run, Starting(LIMITED, P_BANNED, 0, map[], 0, 0, 1));
  }

  lemma TriggerExtend(w: World, run: seq<Sys>, s: Sys) returns (longer: seq<Sys>)
    requires AllowedRun(w, run) && Triggered(run[|run| - 1], s) && w.overlaps
    ensures AllowedRun(w, longer) && longer[|longer| - 1] == s
  {
    hide Triggered;
    longer := Extend(w, run, s);
  }

  lemma StartExtend(w: World, run: seq<Sys>, s: Sys, v: ProxyView) returns (longer: seq<Sys>)
    requires AllowedRun(w, run) && StartInserted(run[|run| - 1], s, v) && !Banned(run[|run| - 1].bans, v.ip, 0)
    requires run[|run| - 1].now == 0
    ensures AllowedRun(w, longer) && longer[|longer| - 1] == s
  {
    hide StartInserted;
    assert AllowedStart(w, run[|run| - 1], s, v);
    longer := Extend(w, run, s);
  }

  lemma StartBeginsRun(w: World) returns (run: seq<Sys>)
    requires w.overlaps
    ensures AllowedRun(w, run) && run[|run| - 1] == Spawning(TWO, Creating, Creating, 1, 0)
  {
    hide AllowedRun, Triggered, StartInserted;
    run := FirstLimitedRun(w);
    StartIsOvertaken();
    run := TriggerExtend(w, run, Spawning(LIMITED, Creating, Creating, 0, 1));
    run := StartExtend(w, run, Spawning(TWO, Creating, Creating, 1, 0), Q);
  }

  lemma SpawnsArriveRun(w: World, run: seq<Sys>) returns (longer: seq<Sys>)
    requires AllowedRun(w, run) && run[|run| - 1] == Spawning(TWO, Creating, Creating, 1, 0)
    ensures AllowedRun(w, longer) && longer[|longer| - 1] == Spawning(FOUR, Pruning(true), Pruning(true), 1, 0)
  {
    FirstArrives();
    SecondArrives();
    longer := TaskExtend(w, run, Spawning(THREE, Pruning(true), Creating, 1, 0), 0);
    longer := TaskExtend(w, longer, Spawning(FOUR, Pruning(true), Pruning(true), 1, 0), 1);
  }

  lemma FirstFinishesRun(w: World, run: seq<Sys>) returns (longer: seq<Sys>)
    requires AllowedRun(w, run) && run[|run| - 1] == Spawning(FOUR, Pruning(true), Pruning(true), 1, 0)
    ensures AllowedRun(w, longer) && longer[|longer| - 1] == LastOne(Pruning(true))
  {
    FirstPrunes();
    longer := TaskExtend(w, run, Spawning(FOUR, Removing(true, {"p"}, {}), Pruning(true), 1, 0), 0);
    longer := TaskExtend(w, longer, Spawning(OVER, Removing(true, {}, {}), Pruning(true), 1, 0), 0);
    FirstFinishes();
    longer := TaskExtend(w, longer, Spawning(OVER, Finishing, Pruning(true), 1, 0), 0);
    longer := TaskExtend(w, longer, LastOne(Pruning(true)), 0);
  }

  lemma SecondFinishesRun(w: World, run: seq<Sys>) returns (longer: seq<Sys>)
    requires AllowedRun(w, run) && run[|run| - 1] == LastOne(Pruning(true))
    ensures AllowedRun(w, longer) && longer[|longer| - 1] == Starting(OVER, P_BANNED, 0, map[], 2, 1, 0)
  {
    SecondFinishes();
    longer := TaskExtend(w, run, LastOne(Removing(true, {}, {})), 1);
    longer := TaskExtend(w, longer, LastOne(Finishing), 1);
    longer := TaskExtend(w, longer, Starting(OVER, P_BANNED, 0, map[], 2, 1, 0), 1);
  }

  /** Nothing revives, is hidden, added or shrunk, every address is distinct and
      unbanned, and the pool of size 2 rests at 3. */
  lemma StartOverfills(w: World) returns (run: seq<Sys>)
    requires w.overlaps
    ensures AllowedRun(w, run) && Overfull(run) && |run[|run| - 1].pool| == 3 && run[|run| - 1].size == 2
  {
    run := StartBeginsRun(w);
    run := SpawnsArriveRun(w, run);
    run := FirstFinishesRun(w, run);
    run := SecondFinishesRun(w, run);
    assert OVER.Keys == {"q", "r", "s"};
  }
}
