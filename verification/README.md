# A verified model of the gateway's hard core

Four parts of the gateway are modelled here and properties of them are proved for
every input, every run and every interleaving:

1. **The self-healing proxy pool.** `PoolSpec` says on plain values what each
   lock-held section does to the pool, the ban tables and the counters.
   `PoolManager` is the manager itself, a class whose methods update its tables in
   place, proved against `PoolSpec`. `PoolProtocol` lets triggers, spawn tasks,
   prunes, marks, health checks, restores, resizes and manual additions interleave
   and proves the ceiling on the pool; `PoolBound` says in exactly which
   environments the documented bound holds, `PoolOperation` that ordinary operation
   on distinct addresses is one, `PoolOvershoot` how start-up breaks it;
   `PoolConvergence` proves where, and when exactly, the pool settles.
   `RoundRobin`, `BanHistory` and `Rotation` cover fairness, ban windows and
   duplicate-address rotation.
2. **The proof-of-work key gate.** `ProofOfWork`, `Decimal`, `Challenge` and
   `Solver` cover the difficulty metric, preimages, counters and the multi-lane
   solver; `PowStore` and `Redemption` the single-use redemption protocol;
   `Buckets`, `BurstGate`, `KeyLimits` and `PlanLimit` the limits on issued keys,
   `DailyQuota` and `ChallengeLimit` those on challenges; `Difficulty` the adaptive
   difficulty.
3. **The stream interceptor and the tool rounds.** `ToolCalls` assembles streamed
   fragments, `Stream` withholds and releases lines, `ToolRounds` runs the bounded
   multi-round loops.
4. **Server selection.** `ServerSelect`.

Times are integers of nanoseconds (Unix seconds in the store) and are passed in.
SHA-256 and BLAKE3 are uninterpreted functions, the SQLite tables are maps with
atomic operations, floating-point arithmetic is exact real arithmetic, and the
container manager, the upstream and the searches are arbitrary functions.

## Findings

Where the code does not do what its comments or the natural reading promise, the
model follows the code, and a lemma gives the exact condition or a run that shows it.

- *The pool "never grows past ProxyPoolSize + the deficit being created"*
  (`internal/proxy/pool.go:426-427`) holds in every run exactly where six things do
  not happen: a dead proxy comes back, a healthy proxy's address gets banned while it
  stays, a container comes up on a banned address, proxies are added by hand, the
  size is reduced, or spawn tasks are launched while the creators of `Start` are
  still at work. Any one of them alone leaves some pool resting over its size for
  good: `PoolBound.BoundHoldsIff`, with a run for each. In general the bound holds
  with the arrivals that no deficit paid for added (`PoolProtocol.PoolCeiling`).
- *Start* creates its proxies in the background while requests are already served
  (`internal/proxy/pool.go:94-117`), outside the spawn counter and without a prune. A
  429 on the first proxy before the second is up leaves a pool of size 2 with three
  proxies: `PoolOvershoot.StartOverfills`. Once Start is done, rate-limit marks
  cannot break the bound while addresses are distinct:
  `PoolOperation.DistinctAddressesKeepBound`.
- *A trigger covers "the exact deficit"* only if every live spawn task is still
  creating (or the deficit was covered already): `PoolProtocol.TriggerCoversIff`. In
  `PoolBound.TriggerLeavesDeficit` a spawned proxy dies before its task is done, and
  the trigger that follows launches nothing for it.
- *The pool "settles at exactly ProxyPoolSize usable containers"*
  (`internal/proxy/pool.go:424-427`) after a trigger if and only if that trigger
  covered the deficit, whatever spawns and prunes were in flight when it fired
  (`PoolConvergence.TriggerRestsAt`); otherwise it rests at the proxies there were and
  those to come, until another trigger covers the rest
  (`PoolConvergence.PoolReachesSizeIff`). Each spawn that fails leaves it one short
  (`PoolConvergence.FailedSpawnsAreMissing`).
- *The ban lasts max(IPBanDuration, Retry-After)* only up to 9 223 372 036 seconds,
  where the nanosecond count wraps around: `BanHistory.BanForIsMaxIff`. One second
  more is not honoured at all: `BanHistory.OverlongRetryAfterIsIgnored`.
- *The wait that `tokenBucket.allow` reports* is truncated to whole nanoseconds and
  so may be one nanosecond short, as for a rate of three a second
  (`Buckets.TruncatedWaitFails`); the Retry-After header, which adds a second, is
  always enough: `Buckets.ReportedWait`.
- *The wait that the RPM limit reports* divides the missing part of a token by the rate
  per minute where the refill is per second (`internal/handler/pow.go:460-467`): it is a
  sixtieth of the real one, so that who waits just that long finds no token
  (`KeyLimits.HintIsTooShort`). The Retry-After header, at least a second, is always
  enough exactly for plans of 60 requests a minute or more:
  `KeyLimits.HeaderSufficesIff`.
- *The burst limit holds for every second* exactly when the cooldown lasts at least
  a second: `BurstGate.BoundedIff`.
- *A request without a token is refused* unless it lacks so little of one that the
  reported hint truncates to zero, since the caller blocks on a positive hint only
  (`internal/handler/handler.go:235-236`): `KeyLimits.PassedIff`. The requests that are
  let past the caller stay within the plan exactly when the burst rule is on and no
  faster than the plan's rate: 60 times its limit at most the plan, with a cooldown of
  a second or more (`PlanLimit.PlanKeptIff`, which also says it for shorter ones). By
  default the limit is 5 and the plans are 100, 250 and 500 a minute
  (`internal/config/config.go:202-205`), so that only the third is kept to:
  `PlanLimit.DefaultBurstKeepsIff`. A client of the other two that sends its requests
  just before enough tokens are there passes more in the long run. With the burst gate
  off any number pass at one instant: `PlanLimit.FloodPasses`.
- *The daily cap on challenges* counts calls, not challenges: a call that the bucket
  refuses uses up a place (`internal/handler/pow.go:209-215`). A client gets its calls
  up to the cap less those the bucket refused of them
  (`ChallengeLimit.ChallengesPerDay`); 60 calls at once get the default minute's worth
  of 6 and nothing more that day (`ChallengeLimit.RushSpendsDay`). A call refused by
  the cap alone reports no wait (`ChallengeLimit.ChallengeLimiter.Admit`), so that its
  Retry-After header says one second.
- *Fast solves raise and slow solves lower the base* exactly when no solve time lies
  on the fast and the slow side at once. The targets are never compared, so
  misordered ones would make the base swing: `Difficulty.SteadyIff`. The only caller
  passes 30 and 90 (`internal/handler/pow.go:53`), so this does not happen as the
  gateway stands.
- *The streamed session ends with one [DONE]* exactly when a last answer came, is not
  a web_search turn, and held a [DONE] itself. Calls met when no round is left are
  withheld from the client and not run either:
  `ToolRounds.AtMostOneDoneReachesClient`. Against a model that only ever asks for
  searches every session sends the client nothing at all:
  `ToolRounds.EndlessSearchGetsNoDone`.
- *The branch that makes up a usage chunk* (`internal/handler/handler.go:1185-1197`)
  never runs: the output of `Stream.HandleStreamResponse` never contains one.
- *The bonus after n redemptions is min(n, 8)* as long as every bonus update took
  effect; each one that did not takes one off n: `Redemption.BonusCounts`.

## Model

| member | source | states |
|---|---|---|
| `PoolProtocol.PoolCeiling` | internal/proxy/pool.go:421-506 | in every interleaving, Start's included, the pool is within its size plus the spawn tasks not yet through their own prune plus the debt; the spawn counter equals the live spawn tasks and is within a fixed size whatever the debt; healthy plus pending is within size plus debt |
| `PoolProtocol.PoolCeilingWithoutDebt` | internal/proxy/pool.go:421-427 | a state without debt is within the documented bound, and within its size when nothing is in flight; `PoolBound.BoundHoldsIff` says where there is no debt |
| `PoolProtocol.SpawningWithinSize` | internal/proxy/pool.go:428-441 | with a fixed size the spawn counter never passes it, in any run |
| `PoolProtocol.RunKeeps` | internal/proxy/pool.go:428-506 | the inductive invariant (counter, health, removal and later-inserter facts) holds after every run |
| `PoolProtocol.TriggeredKeeps` | internal/proxy/pool.go:428-464 | a trigger keeps the invariant |
| `PoolProtocol.CreatedKeeps` | internal/proxy/pool.go:155-163 | an insertion keeps the invariant while other tasks are between picking and deleting their victims |
| `PoolProtocol.PickedKeeps` | internal/proxy/pool.go:480-492 | picking victims keeps the invariant: what is left after them is within the bound |
| `PoolProtocol.RemovedKeeps` | internal/proxy/pool.go:501-506 | deleting one victim keeps the invariant, also when it is already gone |
| `PoolProtocol.PruneEndedKeeps` | internal/proxy/pool.go:480-506 | a spawn task that ends its prune stops counting, and its removals have paid for that |
| `PoolProtocol.FinishedKeeps` | internal/proxy/pool.go:467-473 | spawnDone never meets its zero guard |
| `PoolProtocol.StartInsertedKeeps` | internal/proxy/pool.go:108-117 | a proxy brought up by Start keeps the invariant, and owes nothing while there is room for it |
| `PoolProtocol.RecordOperationsAreFree` | internal/proxy/pool.go:361-363 | acquiring, releasing and failing a proxy add no debt |
| `PoolProtocol.TimeIsFree` | internal/proxy/pool.go:306-310 | time passing and the clean-up of expired bans add no debt |
| `PoolProtocol.MarkIsFreeIff` | internal/proxy/pool.go:516-571 | a rate-limit mark adds no debt exactly when it hides no other usable proxy |
| `PoolProtocol.TriggerRaisesToDeficit` | internal/proxy/pool.go:431-440 | after a trigger as many spawn tasks are live as before, or as the deficit asks for when that is more |
| `PoolProtocol.TriggersLaunchDeficitOnce` | internal/proxy/pool.go:421-441 | any number of back-to-back triggers together launch exactly the uncovered deficit |
| `PoolProtocol.TriggerCoversIff` | internal/proxy/pool.go:431-440 | when a trigger leaves usable plus pending at the size or above |
| `PoolBound.BoundHoldsIff` | internal/proxy/pool.go:421-427 | every run of an environment keeps the documented bound if and only if none of six things happens in it; any one of them leaves a pool resting over its size |
| `PoolBound.BoundHolds` | internal/proxy/pool.go:421-506 | where none of them happens the bound holds at every moment, usable plus pending and the spawn counter are within the size, and at rest the pool is |
| `PoolBound.RevivalOverfills` | internal/proxy/pool.go:834-836 | a run to rest over the size: a failed proxy is replaced, then revived by a health check |
| `PoolBound.HidingOverfills` | internal/proxy/pool.go:526-531 | a run to rest over the size: a healthy proxy's address is banned on another one's account |
| `PoolBound.BannedArrivalOverfills` | internal/proxy/pool.go:411-419 | a run from rest to rest over the size: the replacement for a banned and pruned proxy comes up on a banned address |
| `PoolBound.AdditionOverfills` | internal/proxy/pool.go:673-675 | a run to rest over the size: a container is added by hand |
| `PoolBound.ShrinkingOverfills` | internal/proxy/pool.go:663-670 | a run to rest over the size: the size is reduced |
| `PoolBound.OverlapOverfills` | internal/proxy/pool.go:108-117 | a run to rest over the size: a trigger fires while Start's creator is at work |
| `PoolBound.TriggerLeavesDeficit` | internal/proxy/pool.go:431-440 | a run in which nothing out of the ordinary happens and a trigger leaves the deficit uncovered |
| `PoolOvershoot.StartOverfills` | internal/proxy/pool.go:108-117 | a 429 during Start leaves a pool of size 2 at rest with three proxies, though nothing revives, is hidden, added or shrunk |
| `PoolOperation.MarkIsFree` | internal/proxy/pool.go:516-571 | where every address belongs to one proxy, a rate-limit mark hides no other one |
| `PoolOperation.DistinctAddressesKeepBound` | internal/proxy/pool.go:421-571 | on distinct addresses, with unbanned arrivals and without revival, addition, shrinking or overlap with Start, requests, marks, failures, checks, triggers, spawns and prunes keep the bound, and usable plus pending within the size, in every interleaving |
| `PoolConvergence.TriggerSettlesIff` | internal/proxy/pool.go:428-464 | with any spawns and prunes in flight, a trigger starts the settling invariant (healthy plus pending is the size, every dead proxy has a prune to come) if and only if it covers the deficit |
| `PoolConvergence.UndisturbedKeepsTotal` | internal/proxy/pool.go:453-506 | without a trigger, and while nothing dies and every spawn succeeds, healthy plus pending never changes, and a settling pool goes on settling |
| `PoolConvergence.CalmKeepsSteady` | internal/proxy/pool.go:428-506 | a trigger brings healthy plus pending to the size exactly when it covers the deficit; no step takes it away from there |
| `PoolConvergence.LastPickTakesAllDead` | internal/proxy/pool.go:480-492 | the last prune to pick takes every dead proxy |
| `PoolConvergence.RemovedKeepsSteady` | internal/proxy/pool.go:501-506 | a prune never deletes an idle or active proxy along the way |
| `PoolConvergence.PoolConverges` | internal/proxy/pool.go:424-427 | from a trigger that covers the deficit, whatever is in flight when it fires, in any completion order and with any triggers after it: once no task is in flight the pool is exactly ProxyPoolSize usable proxies, none dead, and the spawn counter is zero |
| `PoolConvergence.PoolReachesSizeIff` | internal/proxy/pool.go:424-427 | a calm run that comes to rest ends with exactly ProxyPoolSize usable proxies if and only if healthy plus pending was that before or some trigger of the run covered the deficit |
| `PoolConvergence.TriggerRestsAt` | internal/proxy/pool.go:424-427 | without a further trigger the pool rests at exactly the healthy and pending proxies the trigger left, and is settled if and only if the trigger covered the deficit |
| `PoolConvergence.QuietIsCoverable` | internal/proxy/pool.go:428-441 | a pool with nothing in flight, no banned healthy proxy and at most its size healthy is one whose deficit a trigger covers |
| `PoolConvergence.PoolSettles` | internal/proxy/pool.go:424-427 | a pool just triggered, whatever is in flight, can come to rest, settled if and only if the trigger covered the deficit |
| `PoolConvergence.RestIsReachable` | internal/proxy/pool.go:453-463 | from every such state, with any tasks in flight, a calm run without triggers leads to rest |
| `PoolConvergence.TaskStepsDecrease` | internal/proxy/pool.go:453-463 | every step of a background task leaves strictly less work |
| `PoolConvergence.TaskCanStep` | internal/proxy/pool.go:453-463 | every background task of a settling state has a next calm step; a pending one can always come up with a fresh id on an unbanned address |
| `PoolConvergence.MovesAreBounded` | internal/proxy/pool.go:453-463 | without further triggers the tasks move only boundedly often, whatever requests do in between |
| `PoolConvergence.FailedSpawnStillPrunes` | internal/proxy/pool.go:458-463 | a spawn whose container does not come up leaves one proxy less to come and prunes all the same |
| `PoolConvergence.FailedSpawnsAreMissing` | internal/proxy/pool.go:453-463 | with failing spawns the pool rests at what the trigger left less one for each failure |
| `PoolConvergence.EveryMomentIsSteady` | internal/proxy/pool.go:421-427 | where the documented bound holds, and no proxy comes up under the id of one about to be removed, the convergence results start from every moment of every run, whatever is in flight |
| `PoolSpec.InsertKeepsDistinctIff` | internal/proxy/pool.go:127-142 | inserting a live proxy keeps live addresses distinct exactly when it is no duplicate |
| `PoolSpec.CheckGuardsAddresses` | internal/proxy/pool.go:829-856 | a health check never leaves the checked proxy idle on a shared address and keeps live addresses distinct |
| `PoolSpec.CheckedIs` | internal/proxy/pool.go:829-856 | a verdict leaves cooling proxies alone, fails the failed, keeps active ones active and makes the others idle unless their address is shared |
| `PoolSpec.RestoredIs` | internal/proxy/pool.go:906-933 | exactly the proxies come back, with a clean error count, that have cooled for the cooldown, and none while the pool is over its size |
| `PoolSpec.CooldownLastsIff` | internal/proxy/pool.go:534-538 | a proxy marked at some time is available after a restore exactly from that time plus the cooldown on, unless the pool is over its size |
| `PoolSpec.PruneReachesSizeIff` | internal/proxy/pool.go:480-506 | one undisturbed prune brings the pool within its size exactly when there are not more healthy proxies than that, and touches no healthy one |
| `PoolManager.PoolManager.IpBanned` | internal/proxy/pool.go:298-311 | banned exactly while the entry lies in the future; an expired entry, and no other, is deleted |
| `PoolManager.PoolManager.UsableCount` | internal/proxy/pool.go:411-419 | the number of healthy unbanned proxies, in any iteration order |
| `PoolManager.PoolManager.Candidates` | internal/proxy/pool.go:342-347 | exactly the idle unbanned proxies, without repetition |
| `PoolManager.SortCandidates` | internal/proxy/pool.go:352-357 | a strictly ordered list of the same proxies |
| `PoolManager.PoolManager.Select` | internal/proxy/pool.go:342-359 | the proxy under the cursor in the unique candidate order, or none exactly when there is no candidate |
| `PoolManager.PoolManager.SelectAt` | internal/proxy/pool.go:337-353 | nobody exactly when no proxy is idle and outside all ban windows of the history, else the one of these under the cursor |
| `PoolManager.PoolManager.StickyProxy` | internal/proxy/pool.go:323-335 | returns the pinned proxy exactly when it is in the pool, idle or active, and outside every ban window of the history |
| `PoolManager.PoolManager.AcquireProxy` | internal/proxy/pool.go:338-375 | waits exactly when no proxy is idle and outside all ban windows; else the picked one becomes active, with its last use and request count, and nobody else changes; the dispatch is counted and the conversation pinned |
| `PoolManager.PoolManager.HandOut` | internal/proxy/pool.go:358-369 | the records, cursor, counters and pins after a dispatch |
| `PoolManager.PoolManager.GetProxy` | internal/proxy/pool.go:321-388 | the pinned proxy if it may be used, with nothing changed, else the dispatched one; none exactly when neither exists |
| `PoolManager.PoolManager.ReleaseProxy` | internal/proxy/pool.go:391-400 | an active pooled proxy of that id becomes idle with all else kept; every other record stays, and so does one in any other state |
| `PoolManager.PoolManager.ReserveSpawns` | internal/proxy/pool.go:428-441 | reserves the size less the idle and active unbanned proxies less the spawn tasks under way, if that is positive; the counter stays equal to the live spawn tasks |
| `PoolManager.PoolManager.SpawnDone` | internal/proxy/pool.go:467-473 | called by a live spawn task, it leaves the counter equal to the live tasks, its zero guard never in the way |
| `PoolManager.PoolManager.PickVictims` | internal/proxy/pool.go:480-492 | distinct dead proxies: all of them, or the excess when the pool is over its size by less |
| `PoolManager.PoolManager.TakeOut` | internal/proxy/pool.go:603-621 | exactly that id leaves the pool and its container is handed over for removal |
| `PoolManager.PoolManager.MarkRateLimited` | internal/proxy/pool.go:516-551 | bans address and region for the ban length; a pooled proxy gets state cooldown, its last use and one error more, no other record changes; the mark is on the history |
| `PoolManager.PoolManager.BanAddress` | internal/proxy/pool.go:564-571 | keeps the later deadline, and the table stays faithful to the history |
| `PoolManager.PoolManager.CoolDown` | internal/proxy/pool.go:534-538 | state cooldown, last use now, one error more, and nothing else |
| `PoolManager.PoolManager.MarkUnhealthy` | internal/proxy/pool.go:577-600 | state unhealthy, one error more, and nothing else; a top-up follows when the proxy was there |
| `PoolManager.PoolManager.DuplicateIp` | internal/proxy/pool.go:127-142 | true exactly when another live proxy has the same known address |
| `PoolManager.PoolManager.ApplyCheck` | internal/proxy/pool.go:829-856 | the verdict's state on that record and no other change |
| `PoolManager.PoolManager.RestoreCooldowns` | internal/proxy/pool.go:887-933 | exactly the proxies whose cooldown is over return to idle with a clean error count, or are all to be removed when the pool is over its size; exactly the expired bans go |
| `PoolManager.PoolManager.RestoreRecords` | internal/proxy/pool.go:906-933 | the same, on the records |
| `PoolManager.PoolManager.RestoreEach` | internal/proxy/pool.go:906-933 | the loop over the records, in any order |
| `PoolManager.PoolManager.ClearBans` | internal/proxy/pool.go:892-904 | exactly the expired entries go |
| `PoolManager.PoolManager.InsertUnlessDuplicate` | internal/proxy/pool.go:156-166 | the proxy stays in the pool exactly when it was no duplicate, and the try is on record |
| `RoundRobin.OrderIsUnique` | internal/proxy/pool.go:349-357 | the candidate order does not depend on how the map was iterated |
| `RoundRobin.OldestFirst` | internal/proxy/pool.go:352-357 | the order is by creation time, then by the first place where the ids differ |
| `RoundRobin.AcquireReleaseRestores` | internal/proxy/pool.go:391-400 | acquiring takes exactly that candidate away, and releasing it gives the same candidates back |
| `RoundRobin.TurnsAlternate` | internal/proxy/pool.go:341-400 | when requests are served one by one and released, whatever happens to other proxies, each finds the same candidates |
| `RoundRobin.TurnsCycle` | internal/proxy/pool.go:358-359 | turn k serves the (cursor + k)-th candidate, cyclically, whatever happens to other proxies meanwhile |
| `RoundRobin.RoundRobinIsFair` | internal/proxy/pool.go:341-363 | with n idle unbanned proxies at first and acquire and release in turn, each has served k/n of k requests, rounded down or up, from any cursor and whatever happens to other proxies |
| `BanHistory.BansAreHistory` | internal/proxy/pool.go:298-311 | an address is banned exactly when some past mark on it still runs, whatever was lazily deleted |
| `BanHistory.MarkRefines` | internal/proxy/pool.go:564-571 | adding a mark keeps table and history in agreement |
| `BanHistory.SweepRefines` | internal/proxy/pool.go:892-897 | deleting expired entries keeps them in agreement |
| `BanHistory.BanForIsMaxIff` | internal/proxy/pool.go:516-524 | when the ban length is the maximum of the configured one and Retry-After |
| `BanHistory.NoRetryAfter` | internal/proxy/pool.go:516-524 | without a Retry-After the configured length is used |
| `BanHistory.OverlongRetryAfterIsIgnored` | internal/proxy/pool.go:516-524 | a longer Retry-After for which it is not |
| `Rotation.RotateUntilUniqueIP` | internal/proxy/pool.go:149-202 | terminates within the attempts; the given container and those created in its place are exactly the removed ones and the kept one, in order; each removed one was inserted and met a duplicate, on the manager's own record; a duplicate is kept only when that many insertions as there are attempts met one; other goroutines may act between its sections |
| `Rotation.Attempt` | internal/proxy/pool.go:206-239 | one attempt accounts for every container it created and every insertion it made |
| `Rotation.AttemptAfter` | internal/proxy/pool.go:206-239 | an attempt's calls, containers and insertions are added to those of the attempts before it |
| `Rotation.CreateProxy` | internal/proxy/pool.go:206-261 | at most 3 times max(1, ProxyIPRotateAttempts) CreateEx calls are made; the containers they created are exactly the removed ones, each recorded as a duplicate, and the kept one; when that is a duplicate, the last ProxyIPRotateAttempts calls all created one |
| `ProofOfWork.LeadingZeroBits` | internal/pow/pow.go:94-108 | the count is the position of the highest set bit of the digest read as one number |
| `ProofOfWork.LeadingZerosUnique` | cmd/powsolver/main.go:140-155 | that property determines the count, so solver and server agree on it |
| `ProofOfWork.DifficultyIsNumeric` | internal/pow/pow.go:94-114 | at least k leading zero bits if and only if the number is below 2^(bits - k) |
| `ProofOfWork.Satisfies` | internal/pow/pow.go:112-114 | the numeric meaning, for any difficulty |
| `Challenge.PreimageInjective` | internal/pow/pow.go:75-78 | without bars in the fields, equal preimages come from equal fields and equal counters |
| `Challenge.Verify` | internal/pow/pow.go:118-135 | accepts exactly when one of the first eight counters wins, and reports the first winner's bits |
| `Challenge.CounterToBytes` | internal/pow/pow.go:157-165 | the buffer filled in place is the zero-padded decimal text |
| `Challenge.CounterRoundTrip` | internal/pow/pow.go:157-177 | parsing undoes printing for counters below 10^10 |
| `Challenge.CounterTextRoundTrip` | internal/pow/pow.go:168-177 | parsing succeeds on exactly the ten-digit texts, and printing undoes it |
| `Decimal.DecIntInjective` | internal/pow/pow.go:75-78 | distinct integers print differently |
| `Solver.StepKeeps` | cmd/powsolver/main.go:82-122 | every load, hash and store keeps: a lane's counter follows its tries, it passed over no hit, and `found` is some lane's first hit before `done` is set |
| `Solver.PublishedCounterIsAccepted` | cmd/powsolver/main.go:102-106 | whatever lane stored last, the published counter is accepted by Verify and is the first hit of a lane |
| `Solver.StoppedMeansSolved` | cmd/powsolver/main.go:123-129 | lanes stop only because a solution was published |
| `Solver.LanesStopOnceSolved` | cmd/powsolver/main.go:86-107 | once a solution is published the lanes together take at most two steps each, and only when all have stopped can none go on |
| `Solver.LanesPartition` | cmd/powsolver/main.go:90-107 | each 64-bit counter belongs to exactly one lane at exactly one try |
| `Solver.HitWins` | cmd/powsolver/main.go:92-102 | a counter the solver takes for a solution wins at the server, also one of more than ten digits |
| `Solver.PreimagesAgree` | cmd/powsolver/main.go:46-51 | the solver's one format string is byte for byte the server's preimage, for every counter |
| `PowStore.Store.InsertChallenge` | internal/pow/store.go:114-120 | a second insertion of a stored id fails and changes nothing |
| `PowStore.Store.GetChallenge` | internal/pow/store.go:123-137 | a challenge inserted is found as it was until it is long expired and cleaned up, and its used flag says whether it was consumed |
| `PowStore.Store.ConsumeChallenge` | internal/pow/store.go:141-152 | wins exactly on a row that is there, unused and unexpired, sets its used flag and nothing else; never twice for one challenge |
| `PowStore.Store.CleanupExpired` | internal/pow/store.go:156-165 | exactly the challenges expired for two hours and the expired keys go, the others stay as they are |
| `PowStore.Store.InsertAPIKey` | internal/pow/store.go:178-184 | a key hash is stored at most once |
| `PowStore.Store.BumpIPBonus` | internal/pow/store.go:224-238 | the bonus is the number of redemptions, up to the cap |
| `PowStore.Store.IPBonus` | internal/pow/store.go:241-249 | what the redemptions so far make the bonus worth: their number up to the cap, and nothing after a day without one |
| `PowStore.BonusIsHistory` | internal/pow/store.go:224-238 | the table row is determined by the history of its raises |
| `Redemption.NextKeeps` | internal/handler/pow.go:282-396 | every statement of every request, minting, each statement of the clean-up, and every database error, whether the failing statement took effect or not, keeps the invariant |
| `Redemption.ConsumeKeeps` | internal/pow/store.go:141-152 | the single-use guard keeps winners of one challenge apart |
| `Redemption.OneKeyPerChallenge` | internal/handler/pow.go:341-353 | every stored key was made for a challenge, and no two for the same one |
| `Redemption.OneIssuePerChallenge` | internal/handler/pow.go:341-353 | no two requests that a key was ever stored for named the same challenge |
| `Redemption.KeysAreEarned` | internal/handler/pow.go:282-396 | every row of the key table traces to a stored challenge of the same binding and plan, a winning counter among the first eight, at least half a second, and a consumption before expiry; its lifetime is the configured one |
| `Redemption.BonusCounts` | internal/pow/store.go:224-238 | the bonus of a binding after n redemptions, less the updates that took no effect |
| `Redemption.FetchedIs` | internal/handler/pow.go:288-303 | no id, an unknown one, or the row as it stands |
| `Redemption.ExaminedIff` | internal/handler/pow.go:304-341 | a request passes the checks exactly when it is in time, its challenge unused, half a second old and bound to it, the algorithm not another, and one of the first eight counters wins under the hashed text; else it gets the status of the first check that fails |
| `Redemption.SolvedIff` | internal/pow/pow.go:75-135 | a winning counter, spelled out: one of the first eight, one to twenty characters, whose hash with the seven fields is below the power of two |
| `Redemption.ConsumedIff` | internal/pow/store.go:141-152 | the consume statement wins exactly on a row that is there, unused and unexpired, and changes nothing but its used flag |
| `Redemption.FailedIs` | internal/handler/pow.go:290-392 | a failing statement is answered with 500 and stores no key |
| `Redemption.HonestGetsKey` | internal/handler/pow.go:282-396 | from every moment of every run, a request that meets these conditions, with no failing statement and no other consumer, has a run to a stored key of the challenge's plan, rate and lifetime that it is told of |
| `Buckets.TokenBucket.Allow` | internal/handler/pow.go:148-161 | refill, cap, take or report the wait |
| `Buckets.BucketConforms` | internal/handler/pow.go:148-161 | over any calls in time order, any window admits at most the capacity plus the inflow of the window |
| `Buckets.PacedIsNeverRefused` | internal/handler/pow.go:148-161 | a caller that starts with a token and paces itself is never refused |
| `Buckets.RetryAdmittedIff` | internal/handler/pow.go:159-160 | a retry is admitted exactly from the exact waiting time on |
| `Buckets.ReportedWait` | internal/handler/pow.go:159-160 | the reported wait is the least that works, up to its truncation |
| `Buckets.TruncatedWaitFails` | internal/handler/pow.go:159-160 | a refill for which the reported wait is a nanosecond short |
| `DailyQuota.DailyCount.Allow` | internal/handler/pow.go:169-180 | one count, started over when the day changes |
| `DailyQuota.QuotaIsExact` | internal/handler/pow.go:169-180 | while days do not go back, each day admits exactly its first `limit` calls |
| `ChallengeLimit.GrantedIff` | internal/handler/pow.go:201-222 | a call gets a challenge exactly when the bucket admits it and fewer calls than the cap came before it that day, refused ones included |
| `ChallengeLimit.ChallengesPerDay` | internal/handler/pow.go:209-215 | a day's challenges are its calls up to the cap, less those of them that the bucket refused |
| `ChallengeLimit.PacedWastesNothing` | internal/handler/pow.go:201-222 | a client that waits for a token before each call gets the day's whole cap |
| `ChallengeLimit.RushGets` | internal/handler/pow.go:201-222 | n calls at one instant get n challenges up to the minute's worth and the cap |
| `ChallengeLimit.RushSpendsDay` | internal/handler/pow.go:209-215 | after as many calls at once as the cap allows, the day brings no further challenge, whatever calls follow |
| `ChallengeLimit.ChallengeLimiter.constructor` | internal/handler/pow.go:203-214 | limits below one count as one; no address is known |
| `ChallengeLimit.ChallengeLimiter.AskBucket` | internal/handler/pow.go:203-209 | the address's bucket, made full when missing, and no other, answers and changes |
| `ChallengeLimit.ChallengeLimiter.AskCount` | internal/handler/pow.go:210-215 | the address's count, made empty when missing, and no other, answers and changes |
| `ChallengeLimit.ChallengeLimiter.Admit` | internal/handler/pow.go:201-222 | a call passes when both admit it, each takes its own effect whatever the other answers, and a refusal by the count alone reports no wait |
| `BurstGate.WindowIsHistory` | internal/handler/pow.go:436-443 | the compacted list is always the requests of the last second since the last trip, those refused by a cooldown left out |
| `BurstGate.TripsIff` | internal/handler/pow.go:443-450 | a request trips exactly when it is one too many among those |
| `BurstGate.CoolingIff` | internal/handler/pow.go:421-426 | a request is refused as cooling exactly from the last trip until the cooldown is over; refusals do not extend it |
| `BurstGate.BurstIsBounded` | internal/handler/pow.go:429-451 | no span of a second or less, and no longer than the cooldown, lets more than the limit through |
| `BurstGate.ShortCooldownLeaks` | internal/handler/pow.go:429-451 | with a shorter cooldown, a run that lets limit + 1 through within a second |
| `BurstGate.BoundedIff` | internal/handler/pow.go:429-451 | the bound holds for every run exactly when the cooldown lasts at least a second |
| `KeyLimits.PassedIff` | internal/handler/pow.go:453-471 | when a request gets past the caller, and when it is answered as fine |
| `KeyLimits.TokenIsBackIff` | internal/handler/pow.go:459-469 | after a refusal a token is there again exactly 60 times the missing part over the rate seconds later |
| `KeyLimits.HintIsTooShort` | internal/handler/pow.go:465-467 | the reported wait is a sixtieth of that, and waiting just so long is never enough |
| `KeyLimits.HeaderSufficesIff` | internal/handler/handler.go:235-243 | the Retry-After header of such a refusal is always enough exactly for plans of 60 a minute or more |
| `KeyLimits.KeyBurstIsBounded` | internal/handler/handler.go:235-243 | no span of a second or less, and no longer than the cooldown, passes more of a key's requests than the burst limit, whatever the plan |
| `KeyLimits.TripSilencesKey` | internal/handler/pow.go:421-426 | from a trip to the end of its cooldown every request is refused with the time left and changes nothing; the trip itself reports the whole cooldown |
| `KeyLimits.BucketOfRun` | internal/handler/pow.go:453-471 | the stored bucket is one full bucket that saw exactly the requests which reached it |
| `KeyLimits.PlanIsBounded` | internal/handler/pow.go:453-471 | over any window a key is answered as fine at most rpm + rpm/60 per second of the window times; what passes without a token besides is `PlanLimit.PlanKeptIff`'s subject |
| `KeyLimits.PacedIsNeverRateLimited` | internal/handler/pow.go:459-468 | a caller that waits 60/rpm seconds between requests is never refused by the RPM stage |
| `PlanLimit.PlanKeptIff` | internal/handler/handler.go:235-243 | for every rule and plan: all requests that pass stay within the plan, over every window of every run, if and only if the burst rule is on and no faster than the plan's rate |
| `PlanLimit.SlowerObeysPlan` | internal/handler/handler.go:235-243 | with such a rule everything that passes is within the plan, truncated hints included |
| `PlanLimit.RunPasses` | internal/handler/pow.go:453-471 | batches sent just before enough tokens are there pass in full, every one of them |
| `PlanLimit.PlanLeaks` | internal/handler/handler.go:235-243 | such batches exceed the plan in the end |
| `PlanLimit.FloodPasses` | internal/handler/pow.go:465-468 | n requests that find no token and all pass at one instant, for any n and any plan, with the burst gate off |
| `PlanLimit.UngatedPlanLeaks` | internal/handler/handler.go:235-243 | with the burst gate off no plan bounds the requests that pass |
| `PlanLimit.DefaultBurstKeepsIff` | internal/config/config.go:202-206 | with the default burst rule a plan is kept exactly from 300 a minute on |
| `KeyLimits.BurstWin.Note` | internal/handler/pow.go:436-446 | the in-place compaction keeps exactly the entries after the cutoff, in order; too long a list is emptied |
| `KeyLimits.Draw` | internal/handler/pow.go:459-471 | the RPM arithmetic |
| `KeyLimits.KeyLimiter.Record` | internal/handler/pow.go:432-446 | the key's list, and no other key's, takes the request |
| `KeyLimits.KeyLimiter.TakeToken` | internal/handler/pow.go:454-471 | the key's bucket, made full when missing |
| `KeyLimits.KeyLimiter.Judge` | internal/handler/pow.go:428-472 | burst stage, then RPM stage, for a key in no cooldown |
| `KeyLimits.KeyLimiter.CheckKeyLimits` | internal/handler/pow.go:412-472 | answer and new state of the key are the specification's, other keys are untouched, a plan without a rate is not limited |
| `Difficulty.Difficulty.constructor` | internal/pow/difficulty.go:33-50 | misordered bounds are swapped and the base is brought between them |
| `Difficulty.Difficulty.Current` | internal/pow/difficulty.go:55-71 | the value between the bounds nearest to the sum of the bits |
| `Difficulty.CurrentIsMonotone` | internal/pow/difficulty.go:55-71 | more bits never report less, and at most that many more |
| `Difficulty.Difficulty.RecordSolve` | internal/pow/difficulty.go:82-113 | a solve outside a day is ignored; the first is the average, a later one moves it by a fifth of the distance; from the fifth on the base moves one bit when the average is outside the window, and counting starts anew |
| `Difficulty.BaseMovesSlowly` | internal/pow/difficulty.go:101-112 | in every run the base stays within its bounds and every bit of movement takes five solves |
| `Difficulty.AverageIsAmongSamples` | internal/pow/difficulty.go:91-97 | the average lies within any range holding the samples since the last reset, and counts exactly those |
| `Difficulty.AverageIsWeightedSum` | internal/pow/difficulty.go:91-97 | the average of the samples since the last reset in closed form: each weighs a fifth when it comes and four fifths of that after each later one |
| `Difficulty.OutlierMovesIff` | internal/pow/difficulty.go:91-112 | when one outlier after four equal solves moves the base |
| `Difficulty.InWindowNeverMoves` | internal/pow/difficulty.go:105-112 | solves inside the target window never move the base |
| `Difficulty.FastSolvesRaise` | internal/pow/difficulty.go:105-108 | n fast solves raise a fresh controller to exactly min(max, base + n/5) |
| `Difficulty.SlowSolvesLower` | internal/pow/difficulty.go:109-112 | n slow solves lower it to exactly max(min, base - n/5) |
| `Difficulty.CrossedSolvesSwing` | internal/pow/difficulty.go:105-112 | with crossed targets the same solves raise the base to the top and then swing it |
| `Difficulty.SteadyIff` | internal/pow/difficulty.go:105-112 | when steady traffic moves the base as intended |
| `ToolCalls.Feed` | internal/handler/handler.go:1233-1250 | one fragment updates the accumulators so that they mean the fragments so far |
| `ToolCalls.AssembleToolCalls` | internal/handler/tools.go:40-63 | per index the last non-empty id, type and name and the joined arguments, in first-appearance order, nameless calls dropped |
| `ToolCalls.OnlyWebSearch` | internal/handler/tools.go:118-125 | true exactly for a non-empty list of calls all named web_search |
| `ToolCalls.AssembledIs` | internal/handler/tools.go:40-63 | the call of each named index, read off its fragments, stands behind those of the named indexes before it, and there are no others |
| `ToolCalls.GatheredIs` | internal/handler/handler.go:1233-1250 | what is gathered for an index is the last non-empty id, type and name said about it and all its arguments joined |
| `ToolCalls.OrderIsFirstAppearance` | internal/handler/handler.go:1233-1240 | indexes are listed by their first appearance |
| `ToolCalls.OrderListsAll` | internal/handler/handler.go:1233-1240 | exactly the indexes that occur are listed |
| `ToolCalls.InterleavingIsIrrelevant` | internal/handler/handler.go:1230-1251 | re-interleaving the indexes does not change the calls |
| `ToolCalls.FragmentationIsIrrelevant` | internal/handler/handler.go:1230-1251 | cutting the arguments of a fragment in two does not change the calls |
| `Stream.FeedChoice` | internal/handler/handler.go:1233-1250 | a choice's fragments go into the accumulators in order |
| `Stream.FeedChunk` | internal/handler/handler.go:1230-1255 | a chunk's fragments, and whether it has any or ends a tool-call turn |
| `Stream.FeedLine` | internal/handler/handler.go:1223-1256 | the same for a data line, parsable or not |
| `Stream.OnData` | internal/handler/handler.go:1223-1267 | a data line is withheld if it is a tool-call chunk, and else follows what was withheld |
| `Stream.OnDone` | internal/handler/handler.go:1175-1204 | a [DONE] ends an intercepted turn exactly when its calls are all the gateway's, each named web_search, and else follows what was withheld |
| `Stream.HandleStreamResponse` | internal/handler/handler.go:1143-1286 | output, usage and calls are exactly those of the specification; no usage chunk is ever made up |
| `Stream.TranscriptIsComplete` | internal/handler/handler.go:1258-1270 | data lines released, followed by those held back, are exactly the data lines read, in order; other lines are exactly those read |
| `Stream.ReleasedEndsPlain` | internal/handler/handler.go:1258-1270 | what is released ends with a data line that is no tool-call chunk |
| `Stream.RelayedTurn` | internal/handler/handler.go:1143-1286 | a turn not taken over reaches the client whole, with an error event at the end exactly when it broke off; unchanged line by line when nothing is to be intercepted |
| `Stream.TakenTurn` | internal/handler/handler.go:1175-1182 | a turn taken over shows exactly the data lines up to the last one without a tool-call fragment or tool-call finish; every call handed over is named web_search |
| `Stream.HandedOverIff` | internal/handler/handler.go:1175-1182 | calls are handed over exactly when interception is on and, before some [DONE], a chunk ended a tool-call turn and all calls assembled are named web_search; they are those before the first such place |
| `Stream.ForeignCallsAreRelayed` | internal/handler/handler.go:1175-1204 | a turn in which a call of any other name is assembled is never taken over: the client gets all data lines and every [DONE] |
| `Stream.ReportedIs` | internal/handler/handler.go:1226-1229 | the usage of a turn is that of the last chunk that reports a positive total |
| `Stream.NothingReported` | internal/handler/handler.go:1226-1229 | without one it is zero |
| `Stream.DeltasAreAll` | internal/handler/handler.go:1230-1251 | the fragments of a turn are those of all choices of all its chunks, in order |
| `Stream.DoneIsPassedOnIff` | internal/handler/handler.go:1175-1204 | with one [DONE] upstream the client sees it exactly when the turn is not taken over |
| `ToolRounds.ExecWebSearchTools` | internal/handler/tools.go:159-173 | one result per call, in order |
| `ToolRounds.AppendToolResults` | internal/handler/tools.go:177-203 | the messages, then one assistant turn with the calls, then each call's result under its id and name, position by position |
| `ToolRounds.RequestOfRound` | internal/handler/tools.go:177-203 | the body of each round is that of the round before plus that round's assistant turn and results |
| `ToolRounds.StreamWithToolRounds` | internal/handler/tools.go:244-284 | each turn answers the original messages plus one assistant turn and its results per round; prompt, completion and total tokens are the sums over the turns; the output is theirs in order; and why it stopped |
| `ToolRounds.TotalAddsUp` | internal/handler/tools.go:265-268 | each of the three token counts is the sum over the turns |
| `ToolRounds.OutputIsAll` | internal/handler/tools.go:264-265 | what every turn wrote is part of the output, in order and unbroken |
| `ToolRounds.ProceedStream` | internal/handler/tools.go:265-282 | one turn: relayed, and its calls run when it is to go on |
| `ToolRounds.RoundsAreWebSearches` | internal/handler/tools.go:270-276 | at most WebSearchMaxRounds rounds run, every call of them named web_search, none without the service |
| `ToolRounds.AtMostOneDoneReachesClient` | internal/handler/tools.go:263-271 | how many [DONE] the client sees over all rounds |
| `ToolRounds.EndlessSearchGetsNoDone` | internal/handler/tools.go:263-271 | against a model that only ever asks for searches every session, for every number of rounds, runs all its rounds and sends the client nothing, although every answer ended with [DONE] |
| `ToolRounds.MessageToolCalls` | internal/handler/tools.go:96-108 | the calls that are objects, in order |
| `ToolRounds.CallsInAre` | internal/handler/tools.go:96-108 | an answer's calls are its entries that are objects, no more and no less |
| `ToolRounds.CompleteWithToolRounds` | internal/handler/tools.go:290-363 | exactly one response is written: the last answer as it came or a gateway error; rounds and messages add up, and prompt, completion and total tokens are the sums over the answers |
| `ToolRounds.Proceed` | internal/handler/tools.go:323-361 | one answer: passed on, or answered by the gateway |
| `ToolRounds.RoundsAreBounded` | internal/handler/tools.go:327-349 | at most WebSearchMaxRounds rounds run, each on the calls of an answer with a good status, all named web_search |
| `ToolRounds.AnswersAddUp` | internal/handler/tools.go:330-333 | each of the three token counts is the sum over the answers |
| `ToolRounds.PassedOnAnswer` | internal/handler/tools.go:334-361 | an answer is passed on only without the service, a round left, a good status, web_search calls alone, or a body to extend |
| `ServerSelect.Collect` | internal/protonvpn/client.go:390-428 | exactly the admissible servers, in reading order |
| `ServerSelect.Best` | internal/protonvpn/client.go:461-469 | the highest score, then the least load, then the earliest |
| `ServerSelect.FirstBestIsUnique` | internal/protonvpn/client.go:461-469 | there is only one such server |
| `ServerSelect.SelectServer` | internal/protonvpn/client.go:376-477 | fails exactly when no online server with a key exists in the region and outside the banned countries; an avoided one is returned only when all are avoided; of those in play the highest score, then the least load, then the first |

## Left out

- Docker, SOCKS5, login and certificates, SQL text, JSON, HTTP headers, configuration, metrics, logging and search providers: calls into other systems.
- The retry loops of chat completions and model listing, pricing and route normalization: they would add only easy members.
- AddExternalProxy, RefreshPool, ForceRotate and CompositeManager: ids are assumed fresh, which the first two break; the protocol has manual additions and removals as steps.
- A pool manager without a container manager, and Close: the pool is open and can create containers.
- The wake-up channel and the waiting loop of GetProxy: a call is modelled up to where it would block.
- Failed container removals: the record is gone in either case.
- The sticky path of GetProxy deletes an expired ban under a read lock, so that two such calls may write the ban map at once; every locked section is atomic here.
- The LastCheck time of a proxy, and the region ban, which overwrites instead of keeping the later deadline, in the ban history.
- `PoolManager.PoolManager.MarkRateLimited`: the Retry-After text is given as the number it parses to, 0 when absent or unparsable.
- `PoolManager.PoolManager.AcquireProxy`: the clock is read once for the dispatch and for LastUsed, and the cursor does not overflow.
- `PoolManager.SortCandidates`: an insertion sort stands for sort.Slice; only its result matters.
- `PoolConvergence.PoolConverges`: assumes, as the documentation does, that every spawn succeeds with a fresh id and an unbanned address and that nothing dies or revives meanwhile, and that Start is done.
- `Redemption.OneKeyPerChallenge`: challenge ids are assumed never to repeat, as random UUIDs are.
- The key cache, which answers until the process ends whatever the expiry in the store, and listing keys.
- `Challenge.CounterToBytes`: counters of more than ten digits, on which the original panics.
- The solver's report of "no solution" when the solution is counter 0, and its progress output.
- `KeyLimits.KeyLimiter.CheckKeyLimits`: the time left of a cooldown is computed from the same clock reading as the check; the original reads the clock a second time, so a request in the last instant may be let through. The burst list is a sequence overwritten in place, not a heap array.
- `Difficulty.Difficulty.Current`: escalation is a given number of bits; how it is raised and when it expires is not modelled.
- `Stream.HandleStreamResponse`: writes to the client never fail, and a client that cannot be flushed is not modelled.
- `ToolRounds.StreamWithToolRounds`: a round's upstream answer is a function of the round and its body; the attempts on fresh proxies behind it are part of that function.
- Overflow of request and token counters.
