/** The native solver: lanes scanning counters and publishing through two shared
    atomics. Each load, hash and store is one step of the interleaving. */
module Solver {
  import opened Common
  import opened Decimal
  import opened Division
  import opened Challenge
  import opened ProofOfWork

  const U64: nat := 0x1_0000_0000_0000_0000

  /** The solver's own preimage, one format string. */
  function SolverPreimage(c: Challenge, counter: nat): string {
    "pow-v" + DecInt(c.version) + "|" + c.id + "|" + c.resource + "|" + c.algo + "|" + DecInt(c.difficulty)
    + "|" + c.salt + "|" + c.bind + "|" + Padded(Dec(counter), COUNTER_DIGITS)
  }

  /** Its own choice of the hash. */
  function SolverDigest(h: Hashes, c: Challenge, counter: nat): Digest {
    var pre := SolverPreimage(c, counter);
    if c.algo == ALGO_SHA256 then h.sha256(pre) else h.blake3(pre)
  }

  /** A counter the solver may publish: it has leading zero bits enough. */
  predicate Hit(h: Hashes, c: Challenge, counter: nat) { Meets(SolverDigest(h, c, counter), c.difficulty) }

  lemma JoinedOneMore(field: string, fields: seq<string>, last: string)
    ensures Joined([field] + fields, last) == field + "|" + Joined(fields, last)
  {
    assert ([field] + fields)[1..] == fields;
  }

  lemma JoinedTail(c: Challenge, last: string)
    ensures Joined([DecInt(c.difficulty), c.salt, c.bind], last)
         == DecInt(c.difficulty) + "|" + (c.salt + "|" + (c.bind + "|" + last))
  {
    JoinedOneMore(c.bind, [], last);
    JoinedOneMore(c.salt, [c.bind], last);
    JoinedOneMore(DecInt(c.difficulty), [c.salt, c.bind], last);
    assert [c.salt] + [c.bind] == [c.salt, c.bind] && [c.bind] + [] == [c.bind];
    assert [DecInt(c.difficulty)] + [c.salt, c.bind] == [DecInt(c.difficulty), c.salt, c.bind];
  }

  lemma JoinedHead(c: Challenge, last: string)
    ensures Joined(HashedFields(c), last)
         == "pow-v" + DecInt(c.version) + "|" + (c.id + "|" + (c.resource + "|" + (c.algo + "|"
            + Joined([DecInt(c.difficulty), c.salt, c.bind], last))))
  {
    var tail := [DecInt(c.difficulty), c.salt, c.bind];
    JoinedOneMore(c.algo, tail, last);
    JoinedOneMore(c.resource, [c.algo] + tail, last);
    JoinedOneMore(c.id, [c.resource] + ([c.algo] + tail), last);
    JoinedOneMore("pow-v" + DecInt(c.version), [c.id] + ([c.resource] + ([c.algo] + tail)), last);
    assert HashedFields(c) == ["pow-v" + DecInt(c.version)] + ([c.id] + ([c.resource] + ([c.algo] + tail)));
  }

  /** Byte for byte the server's preimage, whatever the counter. */
  lemma PreimagesAgree(c: Challenge, counter: nat)
    ensures SolverPreimage(c, counter) == Preimage(c, Padded(Dec(counter), COUNTER_DIGITS))
  {
    var last := Padded(Dec(counter), COUNTER_DIGITS);
    JoinedHead(c, last);
    JoinedTail(c, last);
    Flatten("pow-v" + DecInt(c.version), c.id, c.resource, c.algo, DecInt(c.difficulty), c.salt, c.bind, last);
  }

  lemma Flatten(a: string, b: string, c: string, d: string, e: string, f: string, g: string, last: string)
    ensures a + "|" + b + "|" + c + "|" + d + "|" + e + "|" + f + "|" + g + "|" + last
         == a + "|" + (b + "|" + (c + "|" + (d + "|" + (e + "|" + (f + "|" + (g + "|" + last))))))
  {
  }

  /** Where a lane stands: about to load `done`, about to hash, about to set `done`
      after storing `found`, or finished. `tries` is a history variable. */
  datatype Pc = Top | Hashing | Publishing | Stopped
  datatype Lane = Lane(pc: Pc, counter: nat, tries: nat)
  datatype Sys = Sys(lanes: seq<Lane>, found: nat, done: bool)

  predicate Init(s: Sys) {
    && s.found == 0 && !s.done
    && forall i :: 0 <= i < |s.lanes| ==> s.lanes[i] == Lane(Top, i % U64, 0)
  }

  function Moved(l: Lane, workers: nat): Lane {
    Lane(Top, (l.counter + workers) % U64, l.tries + 1)
  }

  predicate LaneStep(h: Hashes, c: Challenge, s: Sys, s': Sys, i: nat) {
    i < |s.lanes| &&
    var l := s.lanes[i];
    match l.pc
    case Top => s' == s.(lanes := s.lanes[i := l.(pc := if s.done then Stopped else Hashing)])
    case Hashing =>
      if Hit(h, c, l.counter)
      then s' == s.(lanes := s.lanes[i := l.(pc := Publishing)], found := l.counter)
      else s' == s.(lanes := s.lanes[i := Moved(l, |s.lanes|)])
    case Publishing => s' == s.(lanes := s.lanes[i := l.(pc := Stopped)], done := true)
    case Stopped => false
  }

  ghost predicate Run(h: Hashes, c: Challenge, run: seq<Sys>) {
    && |run| > 0 && Init(run[0])
    && forall k :: 0 <= k < |run| - 1 ==> Next(h, c, run[k], run[k + 1])
  }

  ghost predicate Next(h: Hashes, c: Challenge, s: Sys, s': Sys) {
    exists i :: LaneStep(h, c, s, s', i)
  }

  function LaneCounter(lane: nat, workers: nat, n: nat): nat { (lane + n * workers) % U64 }

  /** The n-th counter of the lane is its first hit. */
  ghost predicate FirstHit(h: Hashes, c: Challenge, workers: nat, lane: nat, n: nat) {
    && Hit(h, c, LaneCounter(lane, workers, n))
    && forall m :: 0 <= m < n ==> !Hit(h, c, LaneCounter(lane, workers, m))
  }

  ghost predicate LaneOk(h: Hashes, c: Challenge, s: Sys, i: nat) {
    i < |s.lanes| ==>
      var l := s.lanes[i];
      && l.counter == LaneCounter(i, |s.lanes|, l.tries)
      && (forall m :: 0 <= m < l.tries ==> !Hit(h, c, LaneCounter(i, |s.lanes|, m)))
      && (l.pc == Publishing ==> Found(h, c, s))
      && (l.pc == Stopped ==> s.done)
  }

  /** Whatever `found` holds is the first hit of some lane. */
  ghost predicate Found(h: Hashes, c: Challenge, s: Sys) {
    exists lane: nat, n: nat :: FoundBy(h, c, s, lane, n)
  }

  ghost predicate FoundBy(h: Hashes, c: Challenge, s: Sys, lane: nat, n: nat) {
    lane < |s.lanes| && FirstHit(h, c, |s.lanes|, lane, n) && s.found == LaneCounter(lane, |s.lanes|, n)
  }

  ghost predicate Inv(h: Hashes, c: Challenge, s: Sys) {
    && (forall i :: LaneOk(h, c, s, i))
    && (s.done ==> Found(h, c, s))
  }

  lemma NextCounter(lane: nat, workers: nat, n: nat)
    ensures (LaneCounter(lane, workers, n) + workers) % U64 == LaneCounter(lane, workers, n + 1)
  {
    var x := lane + n * workers;
    assert lane + (n + 1) * workers == x + workers;
    AddThenMod(x, workers);
  }

  lemma AddThenMod(x: nat, y: nat)
    ensures (x % U64 + y) % U64 == (x + y) % U64
  {
    var q, m := x / U64, x % U64;
    assert x + y == q * U64 + (m + y);
    var q', m' := (m + y) / U64, (m + y) % U64;
    DivisionIsUnique(x + y, U64, q + q', m');
  }

  lemma FoundKeeps(h: Hashes, c: Challenge, s: Sys, s': Sys)
    requires Found(h, c, s) && |s'.lanes| == |s.lanes| && s'.found == s.found
    ensures Found(h, c, s')
  {
    var lane: nat, n: nat :| FoundBy(h, c, s, lane, n);
    assert FoundBy(h, c, s', lane, n);
  }

  lemma PublishingKeeps(h: Hashes, c: Challenge, s: Sys, s': Sys, i: nat)
    requires LaneOk(h, c, s, i) && LaneStep(h, c, s, s', i)
    ensures Found(h, c, s) || (s.lanes[i].pc == Hashing && Hit(h, c, s.lanes[i].counter)) ==> Found(h, c, s')
  {
    var l := s.lanes[i];
    if l.pc == Hashing && Hit(h, c, l.counter) {
      assert FoundBy(h, c, s', i, l.tries);
    } else if Found(h, c, s) {
      FoundKeeps(h, c, s, s');
    }
  }

  lemma StepKeeps(h: Hashes, c: Challenge, s: Sys, s': Sys, i: nat)
    requires Inv(h, c, s) && LaneStep(h, c, s, s', i)
    ensures Inv(h, c, s')
  {
    assert LaneOk(h, c, s, i);
    PublishingKeeps(h, c, s, s', i);
    forall j ensures LaneOk(h, c, s', j) {
      assert LaneOk(h, c, s, j);
      if j == i { OwnLaneOk(h, c, s, s', i); }
    }
  }

  lemma OwnLaneOk(h: Hashes, c: Challenge, s: Sys, s': Sys, i: nat)
    requires LaneOk(h, c, s, i) && LaneStep(h, c, s, s', i)
    requires Found(h, c, s) || (s.lanes[i].pc == Hashing && Hit(h, c, s.lanes[i].counter)) ==> Found(h, c, s')
    ensures LaneOk(h, c, s', i)
  {
    NextCounter(i, |s.lanes|, s.lanes[i].tries);
  }

  lemma {:induction false} RunKeeps(h: Hashes, c: Challenge, run: seq<Sys>)
    requires Run(h, c, run)
    ensures Inv(h, c, run[|run| - 1])
  {
    var k := |run| - 1;
    if k == 0 {
      forall i ensures LaneOk(h, c, run[0], i) {}
    } else {
      RunKeeps(h, c, run[..k]);
      assert Next(h, c, run[k - 1], run[k]);
      var i :| LaneStep(h, c, run[k - 1], run[k], i);
      StepKeeps(h, c, run[k - 1], run[k], i);
    }
  }

  lemma HitWins(h: Hashes, c: Challenge, counter: nat)
    requires counter < U64 && Hit(h, c, counter)
    ensures Wins(h, c, Padded(Dec(counter), COUNTER_DIGITS))
  {
    PreimagesAgree(c, counter);
    SixtyFourBitsFit();
    DecLength(counter, 20);
    DecIsNumber(counter);
  }

  /** Whichever lane published last, in any interleaving: once some lane has set
      `done`, the server's Verify accepts the text the client sends for `found`,
      which is the first hit of one of the lanes. */
  lemma PublishedCounterIsAccepted(h: Hashes, c: Challenge, run: seq<Sys>)
    requires Run(h, c, run) && run[|run| - 1].done
    ensures var s := run[|run| - 1];
      Wins(h, c, Padded(Dec(s.found), COUNTER_DIGITS)) && Found(h, c, s)
  {
    RunKeeps(h, c, run);
    HitWins(h, c, run[|run| - 1].found);
  }

  predicate AllStopped(s: Sys) {
    forall i :: 0 <= i < |s.lanes| ==> s.lanes[i].pc == Stopped
  }

  /** All lanes can only have stopped because a solution was published. */
  lemma StoppedMeansSolved(h: Hashes, c: Challenge, run: seq<Sys>)
    requires Run(h, c, run) && |run[|run| - 1].lanes| > 0 && AllStopped(run[|run| - 1])
    ensures run[|run| - 1].done && Wins(h, c, Padded(Dec(run[|run| - 1].found), COUNTER_DIGITS))
  {
    RunKeeps(h, c, run);
    assert LaneOk(h, c, run[|run| - 1], 0);
    PublishedCounterIsAccepted(h, c, run);
  }

  // ---- Once solved, the lanes stop ----

  /** How many steps a lane has left once `done` is set. */
  function StepsLeft(pc: Pc): nat {
    match pc
    case Hashing => 2
    case Top => 1
    case Publishing => 1
    case Stopped => 0
  }

  function AllLeft(lanes: seq<Lane>): nat {
    if lanes == [] then 0 else AllLeft(lanes[..|lanes| - 1]) + StepsLeft(lanes[|lanes| - 1].pc)
  }

  lemma {:induction false} AllLeftUpdate(lanes: seq<Lane>, i: nat, l: Lane)
    requires i < |lanes|
    ensures AllLeft(lanes[i := l]) == AllLeft(lanes) - StepsLeft(lanes[i].pc) + StepsLeft(l.pc)
  {
    var k := |lanes| - 1;
    if i < k {
      AllLeftUpdate(lanes[..k], i, l);
      assert lanes[i := l][..k] == lanes[..k][i := l];
    } else {
      assert lanes[i := l][..k] == lanes[..k];
    }
  }

  lemma {:induction false} TwoEach(lanes: seq<Lane>)
    ensures AllLeft(lanes) <= 2 * |lanes|
    ensures AllLeft(lanes) == 0 <==> forall i :: 0 <= i < |lanes| ==> lanes[i].pc == Stopped
  {
    if lanes != [] { TwoEach(lanes[..|lanes| - 1]); }
  }

  lemma StepTowardsStop(h: Hashes, c: Challenge, s: Sys, s': Sys, i: nat)
    requires s.done && LaneStep(h, c, s, s', i)
    ensures s'.done && |s'.lanes| == |s.lanes| && AllLeft(s'.lanes) < AllLeft(s.lanes)
  {
    AllLeftUpdate(s.lanes, i, s'.lanes[i]);
    assert s'.lanes == s.lanes[i := s'.lanes[i]];
  }

  /** From the moment a solution is published the lanes together take at most two steps
      each; only when all have stopped can none go on. */
  lemma {:induction false} LanesStopOnceSolved(h: Hashes, c: Challenge, run: seq<Sys>)
    requires |run| > 0 && run[0].done && forall k :: 0 <= k < |run| - 1 ==> Next(h, c, run[k], run[k + 1])
    ensures var end := run[|run| - 1];
      && end.done && |end.lanes| == |run[0].lanes|
      && |run| - 1 + AllLeft(end.lanes) <= AllLeft(run[0].lanes) <= 2 * |run[0].lanes|
      && (AllStopped(end) || exists next :: Next(h, c, end, next))
  {
    var k := |run| - 1;
    TwoEach(run[0].lanes);
    if k > 0 {
      LanesStopOnceSolved(h, c, run[..k]);
      assert Next(h, c, run[k - 1], run[k]);
      var i :| LaneStep(h, c, run[k - 1], run[k], i);
      StepTowardsStop(h, c, run[k - 1], run[k], i);
    }
    CanStep(h, c, run[k]);
  }

  lemma CanStep(h: Hashes, c: Challenge, s: Sys)
    ensures AllStopped(s) || exists next :: Next(h, c, s, next)
  {
    if !AllStopped(s) {
      var i: nat :| i < |s.lanes| && s.lanes[i].pc != Stopped;
      var l := s.lanes[i];
      var next := match l.pc
        case Top => s.(lanes := s.lanes[i := l.(pc := if s.done then Pc.Stopped else Hashing)])
        case Hashing =>
          if Hit(h, c, l.counter) then s.(lanes := s.lanes[i := l.(pc := Publishing)], found := l.counter)
          else s.(lanes := s.lanes[i := Moved(l, |s.lanes|)])
        case Publishing => s.(lanes := s.lanes[i := l.(pc := Pc.Stopped)], done := true)
        case Stopped => s;
      assert LaneStep(h, c, s, next, i);
      assert Next(h, c, s, next);
    }
  }

  /** The lanes partition the counters: each 64-bit counter belongs to exactly one
      lane, at exactly one try, before any wrap-around. */
  lemma LanesPartition(workers: nat, counter: nat, lane: nat, n: nat)
    requires workers > 0 && counter < U64 && lane < workers
    ensures lane + n * workers == counter <==> lane == counter % workers && n == counter / workers
    ensures lane + n * workers == counter ==> LaneCounter(lane, workers, n) == counter
  {
    if lane + n * workers == counter {
      DivisionIsUnique(counter, workers, n, lane);
    }
  }
}
