/** Container creation with duplicate-address rotation. CreateEx is the function
    `answers`: its k-th call yields a container's record, or an error. */
module Rotation {
  import opened Common
  import opened PoolSpec
  import opened PoolManager

  function AtLeast1(n: int): nat { if n < 1 then 1 else n }

  /** What came of it: the proxy kept, the containers passed to Remove, the CreateEx
      calls made, and whether the kept one's address was a duplicate when it was
      last tried. */
  datatype Outcome = Outcome(kept: Option<Proxy>, removed: seq<string>, calls: nat, duplicate: bool)

  function ContainerOf(kept: Option<Proxy>): seq<string> {
    if kept.Some? then [kept.value.container] else []
  }

  /** The containers that n calls of CreateEx, from the given one on, brought up. */
  function Created(answers: nat -> Option<ProxyView>, from: nat, n: nat): seq<string> {
    if n == 0 then []
    else
      var v := answers(from + n - 1);
      Created(answers, from, n - 1) + if v.Some? then [v.value.container] else []
  }

  lemma {:induction false} CreatedSplit(answers: nat -> Option<ProxyView>, from: nat, m: nat, n: nat)
    ensures Created(answers, from, m + n) == Created(answers, from, m) + Created(answers, from + m, n)
  {
    if n > 0 { CreatedSplit(answers, from, m, n - 1); }
  }

  function ContainerIn(v: Option<ProxyView>): seq<string> { if v.Some? then [v.value.container] else [] }

  lemma OneMoreCreated(answers: nat -> Option<ProxyView>, from: nat, n: nat, before: seq<string>, all: seq<string>)
    requires before + Created(answers, from, n) == all
    ensures before + Created(answers, from, n + 1) == all + ContainerIn(answers(from + n))
  {
  }

  /** After one more first attempt and its rotations. */
  lemma AttemptAccounts(answers: nat -> Option<ProxyView>, calls: nat, more: nat, removed: seq<string>,
                        kept: seq<string>)
    requires answers(calls).Some?
    requires [answers(calls).value.container] + Created(answers, calls + 1, more) == removed + kept
    ensures Created(answers, 0, calls + 1 + more) == Created(answers, 0, calls) + removed + kept
  {
    CreatedSplit(answers, 0, calls + 1, more);
    OneMoreCreated(answers, 0, calls, [], Created(answers, 0, calls));
    assert Created(answers, 0, calls) + [answers(calls).value.container] + Created(answers, calls + 1, more)
        == Created(answers, 0, calls) + (removed + kept);
  }

  // ---- The insertions ----

  function Duplicates(containers: seq<string>): seq<Trial> {
    seq(|containers|, i requires 0 <= i < |containers| => Trial(containers[i], true))
  }

  /** The insertions an outcome claims: every removed container was a duplicate. */
  function TrialsOf(o: Outcome): seq<Trial> {
    Duplicates(o.removed) + if o.kept.Some? then [Trial(o.kept.value.container, o.duplicate)] else []
  }

  /** `own` occurs in `log`, in order, others in between. */
  predicate Subsequence(own: seq<Trial>, log: seq<Trial>) {
    if own == [] then true
    else if log == [] then false
    else
      var k, n := |own| - 1, |log| - 1;
      (own[k] == log[n] && Subsequence(own[..k], log[..n])) || Subsequence(own, log[..n])
  }

  /** The manager's record of insertions grew from `before` to `after` and holds
      these in between. */
  predicate Recorded(own: seq<Trial>, before: seq<Trial>, after: seq<Trial>) {
    before <= after && Subsequence(own, after[|before|..])
  }

  lemma {:induction false} SubsequenceOfLonger(own: seq<Trial>, log: seq<Trial>, more: seq<Trial>)
    requires Subsequence(own, log)
    ensures Subsequence(own, log + more)
  {
    if more == [] {
      assert log + more == log;
    } else {
      var k := |more| - 1;
      SubsequenceOfLonger(own, log, more[..k]);
      assert (log + more)[..|log| + k] == log + more[..k];
    }
  }

  lemma SubsequenceAppend(own: seq<Trial>, log: seq<Trial>, t: Trial)
    requires Subsequence(own, log)
    ensures Subsequence(own + [t], log + [t])
  {
    assert (own + [t])[..|own|] == own && (log + [t])[..|log|] == log;
  }

  lemma {:induction false} SubsequenceConcat(a: seq<Trial>, l: seq<Trial>, b: seq<Trial>, m: seq<Trial>)
    requires Subsequence(a, l) && Subsequence(b, m)
    ensures Subsequence(a + b, l + m)
  {
    if b == [] {
      assert a + b == a;
      SubsequenceOfLonger(a, l, m);
    } else {
      var k, n := |b| - 1, |m| - 1;
      assert (l + m)[..|l| + n] == l + m[..n] && (a + b)[..|a| + k] == a + b[..k];
      if b[k] == m[n] && Subsequence(b[..k], m[..n]) {
        SubsequenceConcat(a, l, b[..k], m[..n]);
      } else {
        SubsequenceConcat(a, l, b, m[..n]);
      }
    }
  }

  lemma RecordedLater(own: seq<Trial>, before: seq<Trial>, after: seq<Trial>, later: seq<Trial>)
    requires Recorded(own, before, after) && after <= later
    ensures Recorded(own, before, later)
  {
    var n := |before|;
    assert later[n..] == after[n..] + later[|after|..];
    SubsequenceOfLonger(own, after[n..], later[|after|..]);
  }

  lemma RecordedOneMore(own: seq<Trial>, before: seq<Trial>, after: seq<Trial>, t: Trial, later: seq<Trial>)
    requires Recorded(own, before, after) && after + [t] <= later
    ensures Recorded(own + [t], before, later)
  {
    var n := |before|;
    SubsequenceAppend(own, after[n..], t);
    assert (after + [t])[n..] == after[n..] + [t];
    RecordedLater(own + [t], before, after + [t], later);
  }

  lemma RecordedBoth(a: seq<Trial>, before: seq<Trial>, middle: seq<Trial>, b: seq<Trial>, after: seq<Trial>)
    requires Recorded(a, before, middle) && Recorded(b, middle, after)
    ensures Recorded(a + b, before, after)
  {
    SubsequenceConcat(a, middle[|before|..], b, after[|middle|..]);
    assert after[|before|..] == middle[|before|..] + after[|middle|..];
  }

  lemma RecordedNothing(before: seq<Trial>, after: seq<Trial>)
    requires before <= after
    ensures Recorded([], before, after)
  {
  }

  /** The given container and those created in its place are each kept or removed. A
      duplicate is kept only after as many insertions as there are attempts. */
  predicate Settled(o: Outcome, first: string, attempts: nat, answers: nat -> Option<ProxyView>, used: nat) {
    && o.calls < attempts
    && [first] + Created(answers, used, o.calls) == o.removed + ContainerOf(o.kept)
    && (o.kept.Some? ==> |o.removed| == o.calls)
    && (o.kept.Some? && o.duplicate ==> |o.removed| + 1 == attempts)
  }

  /** One insertion, and what others do before the next section if it failed. */
  method TryInsert(pm: PoolManager, proxy: Proxy) returns (dup: bool)
    requires pm.Valid()
    modifies pm, pm.pool.Values, proxy
    ensures pm.Valid() && fresh(pm.pool.Values - old(pm.pool.Values) - {proxy})
    ensures old(pm.trials) + [Trial(proxy.container, dup)] <= pm.trials
    ensures !dup ==> proxy.id in pm.pool && pm.pool[proxy.id] == proxy && !Duplicated(pm.View(), proxy.View())
  {
    dup := pm.InsertUnlessDuplicate(proxy);
    if dup { pm.Interleave(); }
  }

  /** The duplicate container is removed and another one asked for. */
  method Replace(pm: PoolManager, answer: Option<ProxyView>) returns (np: Option<Proxy>)
    requires pm.Valid()
    modifies pm, pm.pool.Values
    ensures pm.Valid() && fresh(pm.pool.Values - old(pm.pool.Values)) && old(pm.trials) <= pm.trials
    ensures np.Some? <==> answer.Some?
    ensures np.Some? ==> fresh(np.value) && np.value.container == answer.value.container
  {
    pm.Interleave();
    np := None;
    if answer.Some? {
      var proxy := new Proxy(answer.value);
      np := Some(proxy);
    }
  }

  /** After i replacements: these containers were removed, all as duplicates, and the
      current one is about to be tried. */
  predicate Trying(first: string, answers: nat -> Option<ProxyView>, used: nat, removed: seq<string>, current: string,
                   before: seq<Trial>, after: seq<Trial>) {
    && [first] + Created(answers, used, |removed|) == removed + [current]
    && Recorded(Duplicates(removed), before, after)
  }

  lemma TriedIsOver(first: string, answers: nat -> Option<ProxyView>, used: nat, removed: seq<string>, kept: Proxy,
                    dup: bool, attempts: nat, before: seq<Trial>, middle: seq<Trial>, after: seq<Trial>)
    requires Trying(first, answers, used, removed, kept.container, before, middle) && |removed| < attempts
    requires middle + [Trial(kept.container, dup)] <= after && (dup ==> |removed| + 1 == attempts)
    ensures var o := Outcome(Some(kept), removed, |removed|, dup);
      Settled(o, first, attempts, answers, used) && Recorded(TrialsOf(o), before, after)
  {
    RecordedOneMore(Duplicates(removed), before, middle, Trial(kept.container, dup), after);
  }

  /** The current one was a duplicate too and is removed; the next answer is in. */
  lemma TriesOn(first: string, answers: nat -> Option<ProxyView>, used: nat, removed: seq<string>, current: string,
                attempts: nat, before: seq<Trial>, middle: seq<Trial>, after: seq<Trial>, later: seq<Trial>)
    requires Trying(first, answers, used, removed, current, before, middle) && |removed| + 1 < attempts
    requires middle + [Trial(current, true)] <= after <= later
    ensures var more := removed + [current];
      match answers(used + |removed|)
      case Some(v) => Trying(first, answers, used, more, v.container, before, later)
      case None =>
        var o := Outcome(None, more, |more|, false);
        Settled(o, first, attempts, answers, used) && Recorded(TrialsOf(o), before, later)
  {
    var more := removed + [current];
    RecordedOneMore(Duplicates(removed), before, middle, Trial(current, true), after);
    assert Duplicates(more) == Duplicates(removed) + [Trial(current, true)];
    RecordedLater(Duplicates(more), before, after, later);
    OneMoreCreated(answers, used, |removed|, [first], more);
    assert TrialsOf(Outcome(None, more, |more|, false)) == Duplicates(more);
  }

  /** Insert the container, and replace it while its address duplicates a live one.
      Every container ends up kept or removed, a removed one only because its
      insertion met a duplicate; a duplicate is kept only when every one of the
      attempts met one. */
  method RotateUntilUniqueIP(pm: PoolManager, first: Proxy, answers: nat -> Option<ProxyView>, used: nat)
    returns (o: Outcome)
    requires pm.Valid()
    modifies pm, pm.pool.Values, first
    ensures pm.Valid() && fresh(pm.pool.Values - old(pm.pool.Values) - {first})
    ensures Settled(o, first.container, AtLeast1(pm.rotateAttempts), answers, used)
    ensures Recorded(TrialsOf(o), old(pm.trials), pm.trials)
    ensures o.kept.Some? ==> o.kept.value.id in pm.pool && pm.pool[o.kept.value.id] == o.kept.value
    ensures o.kept.Some? && !o.duplicate ==> !Duplicated(pm.View(), o.kept.value.View())
  {
    var attempts := AtLeast1(pm.rotateAttempts);
    var proxy := first;
    var removed: seq<string> := [];
    var i := 0;
    var dup;
    while true
      invariant pm.Valid() && fresh(pm.pool.Values - old(pm.pool.Values) - {first})
      invariant 0 <= i == |removed| < attempts && (proxy == first || fresh(proxy))
      invariant Trying(first.container, answers, used, removed, proxy.container, old(pm.trials), pm.trials)
      decreases attempts - i
    {
      ghost var middle := pm.trials;
      dup := TryInsert(pm, proxy);
      ghost var after := pm.trials;
      if !dup || i >= attempts - 1 {
        TriedIsOver(first.container, answers, used, removed, proxy, dup, attempts, old(pm.trials), middle, after);
        if dup { pm.InsertAnyway(proxy); }
        break;
      }
      var np := Replace(pm, answers(used + i));
      TriesOn(first.container, answers, used, removed, proxy.container, attempts, old(pm.trials), middle, after,
              pm.trials);
      removed, i := removed + [proxy.container], i + 1;
      if np.None? { return Outcome(None, removed, i, false); }
      proxy := np.value;
    }
    return Outcome(Some(proxy), removed, i, dup);
  }

  /** The last n calls all created containers: the n duplicates in a row. */
  predicate AllCreated(answers: nat -> Option<ProxyView>, calls: nat, n: nat) {
    n <= calls && |Created(answers, calls - n, n)| == n
  }

  /** What an attempt adds to the calls made before it. */
  predicate Accounts(o: Outcome, answers: nat -> Option<ProxyView>, calls: nat, attempts: nat) {
    && o.calls <= attempts
    && Created(answers, 0, calls + o.calls) == Created(answers, 0, calls) + o.removed + ContainerOf(o.kept)
    && (o.kept.Some? && o.duplicate ==> AllCreated(answers, calls + o.calls, attempts))
  }

  lemma FailedAccounts(answers: nat -> Option<ProxyView>, calls: nat, attempts: nat)
    requires answers(calls).None? && attempts > 0
    ensures Accounts(Outcome(None, [], 1, false), answers, calls, attempts)
  {
    OneMoreCreated(answers, 0, calls, [], Created(answers, 0, calls));
  }

  lemma SettledAccounts(turn: Outcome, answers: nat -> Option<ProxyView>, calls: nat, attempts: nat)
    requires answers(calls).Some? && Settled(turn, answers(calls).value.container, attempts, answers, calls + 1)
    ensures Accounts(turn.(calls := turn.calls + 1), answers, calls, attempts)
  {
    AttemptAccounts(answers, calls, turn.calls, turn.removed, ContainerOf(turn.kept));
    CreatedSplit(answers, calls, 1, turn.calls);
    assert Created(answers, calls, 1) == Created(answers, calls, 0) + [answers(calls).value.container];
    assert |Created(answers, calls, 1 + turn.calls)| == |turn.removed + ContainerOf(turn.kept)|;
  }

  /** One attempt of createProxy, with its rotations. */
  method Attempt(pm: PoolManager, answers: nat -> Option<ProxyView>, calls: nat) returns (o: Outcome)
    requires pm.Valid()
    modifies pm, pm.pool.Values
    ensures pm.Valid() && fresh(pm.pool.Values - old(pm.pool.Values))
    ensures Accounts(o, answers, calls, AtLeast1(pm.rotateAttempts))
    ensures Recorded(TrialsOf(o), old(pm.trials), pm.trials)
    ensures o.kept.Some? ==> o.kept.value.id in pm.pool && pm.pool[o.kept.value.id] == o.kept.value
    ensures o.kept.Some? && !o.duplicate ==> !Duplicated(pm.View(), o.kept.value.View())
  {
    pm.Interleave();
    RecordedNothing(old(pm.trials), pm.trials);
    var v := answers(calls);
    if v.None? {
      FailedAccounts(answers, calls, AtLeast1(pm.rotateAttempts));
      return Outcome(None, [], 1, false);
    }
    ghost var before := pm.trials;
    var first := new Proxy(v.value);
    var turn := RotateUntilUniqueIP(pm, first, answers, calls + 1);
    SettledAccounts(turn, answers, calls, AtLeast1(pm.rotateAttempts));
    RecordedBoth([], old(pm.trials), before, TrialsOf(turn), pm.trials);
    assert [] + TrialsOf(turn) == TrialsOf(turn.(calls := turn.calls + 1));
    return turn.(calls := turn.calls + 1);
  }

  const MAX_ATTEMPTS: nat := 3

  /** The calls that so many attempts may make. */
  function Budget(attempts: nat, each: nat): nat { if attempts == 0 then 0 else Budget(attempts - 1, each) + each }

  lemma BudgetIs(each: nat)
    ensures Budget(MAX_ATTEMPTS, each) == MAX_ATTEMPTS * each
    ensures Budget(0, each) <= Budget(1, each) <= Budget(2, each) <= Budget(MAX_ATTEMPTS, each)
  {
    assert Budget(1, each) == each && Budget(2, each) == 2 * each;
  }

  /** So many attempts created and removed these containers, all duplicates. */
  predicate Spent(removed: seq<string>, answers: nat -> Option<ProxyView>, calls: nat, attempts: nat, each: nat,
                  before: seq<Trial>, after: seq<Trial>) {
    && calls <= Budget(attempts, each)
    && removed == Created(answers, 0, calls) && Recorded(Duplicates(removed), before, after)
  }

  /** Every container created is the kept one or was removed as a duplicate. */
  predicate Accounted(o: Outcome, answers: nat -> Option<ProxyView>, each: nat, before: seq<Trial>, after: seq<Trial>) {
    && o.calls <= MAX_ATTEMPTS * each
    && Created(answers, 0, o.calls) == o.removed + ContainerOf(o.kept)
    && Recorded(TrialsOf(o), before, after)
    && (o.kept.Some? && o.duplicate ==> AllCreated(answers, o.calls, each))
  }

  lemma SpentIsAccounted(removed: seq<string>, answers: nat -> Option<ProxyView>, calls: nat, attempts: nat, each: nat,
                         before: seq<Trial>, after: seq<Trial>)
    requires Spent(removed, answers, calls, attempts, each, before, after) && attempts <= MAX_ATTEMPTS
    ensures Accounted(Outcome(None, removed, calls, false), answers, each, before, after)
  {
    BudgetIs(each);
    assert TrialsOf(Outcome(None, removed, calls, false)) == Duplicates(removed);
  }

  lemma TrialsAdd(removed: seq<string>, turn: Outcome, o: Outcome)
    requires o.kept == turn.kept && o.duplicate == turn.duplicate && o.removed == removed + turn.removed
    ensures Duplicates(removed) + TrialsOf(turn) == TrialsOf(o)
    ensures o.kept.None? ==> TrialsOf(o) == Duplicates(o.removed)
  {
    assert Duplicates(removed) + Duplicates(turn.removed) == Duplicates(o.removed);
  }

  lemma SpentAndTurn(removed: seq<string>, answers: nat -> Option<ProxyView>, calls: nat, attempts: nat, each: nat,
                     before: seq<Trial>, middle: seq<Trial>, turn: Outcome, after: seq<Trial>)
    requires Spent(removed, answers, calls, attempts, each, before, middle) && attempts < MAX_ATTEMPTS
    requires Accounts(turn, answers, calls, each) && Recorded(TrialsOf(turn), middle, after)
    ensures var o := Outcome(turn.kept, removed + turn.removed, calls + turn.calls, turn.duplicate);
      && (o.kept.Some? ==> Accounted(o, answers, each, before, after))
      && (o.kept.None? ==> Spent(o.removed, answers, o.calls, attempts + 1, each, before, after))
  {
    var o := Outcome(turn.kept, removed + turn.removed, calls + turn.calls, turn.duplicate);
    BudgetIs(each);
    RecordedBoth(Duplicates(removed), before, middle, TrialsOf(turn), after);
    TrialsAdd(removed, turn, o);
    hide Recorded, Created, Duplicates, TrialsOf, AllCreated;
  }

  /** The next attempt, added to what the attempts before it spent. */
  method AttemptAfter(pm: PoolManager, answers: nat -> Option<ProxyView>, removed: seq<string>, calls: nat,
                      ghost attempts: nat, ghost before: seq<Trial>)
    returns (o: Outcome)
    requires pm.Valid() && attempts < MAX_ATTEMPTS
    requires Spent(removed, answers, calls, attempts, AtLeast1(pm.rotateAttempts), before, pm.trials)
    modifies pm, pm.pool.Values
    ensures pm.Valid() && fresh(pm.pool.Values - old(pm.pool.Values))
    ensures o.kept.Some? ==> Accounted(o, answers, AtLeast1(pm.rotateAttempts), before, pm.trials)
    ensures o.kept.None? ==>
      Spent(o.removed, answers, o.calls, attempts + 1, AtLeast1(pm.rotateAttempts), before, pm.trials)
    ensures o.kept.Some? ==> o.kept.value.id in pm.pool && pm.pool[o.kept.value.id] == o.kept.value
    ensures o.kept.Some? && !o.duplicate ==> !Duplicated(pm.View(), o.kept.value.View())
  {
    ghost var middle := pm.trials;
    var turn := Attempt(pm, answers, calls);
    SpentAndTurn(removed, answers, calls, attempts, AtLeast1(pm.rotateAttempts), before, middle, turn, pm.trials);
    o := Outcome(turn.kept, removed + turn.removed, calls + turn.calls, turn.duplicate);
  }

  /** createProxy: up to three attempts, each with its own rotations. `cancelled`
      says whether the context ended during the back-off before an attempt. */
  method CreateProxy(pm: PoolManager, answers: nat -> Option<ProxyView>, cancelled: nat -> bool)
    returns (o: Outcome)
    requires pm.Valid()
    modifies pm, pm.pool.Values
    ensures pm.Valid()
    ensures Accounted(o, answers, AtLeast1(pm.rotateAttempts), old(pm.trials), pm.trials)
    ensures var each := if pm.rotateAttempts < 1 then 1 else pm.rotateAttempts;
      o.calls <= 3 * each && (o.kept.Some? && o.duplicate ==> AllCreated(answers, o.calls, each))
    ensures o.kept.Some? ==> o.kept.value.id in pm.pool && pm.pool[o.kept.value.id] == o.kept.value
    ensures o.kept.Some? && !o.duplicate ==> !Duplicated(pm.View(), o.kept.value.View())
  {
    o := Outcome(None, [], 0, false);
    assert Spent([], answers, 0, 0, AtLeast1(pm.rotateAttempts), old(pm.trials), pm.trials);
    hide Spent, Accounted, PoolManager.Valid, Duplicated;
    var attempt := 1;
    while attempt <= MAX_ATTEMPTS
      invariant 1 <= attempt <= MAX_ATTEMPTS + 1 && o == Outcome(None, o.removed, o.calls, false)
      invariant pm.Valid() && fresh(pm.pool.Values - old(pm.pool.Values))
      invariant Spent(o.removed, answers, o.calls, attempt - 1, AtLeast1(pm.rotateAttempts), old(pm.trials), pm.trials)
      decreases MAX_ATTEMPTS - attempt
    {
      if attempt > 1 && cancelled(attempt) { break; }
      o := AttemptAfter(pm, answers, o.removed, o.calls, attempt - 1, old(pm.trials));
      if o.kept.Some? { return; }
      o, attempt := o.(duplicate := false), attempt + 1;
    }
    SpentIsAccounted(o.removed, answers, o.calls, attempt - 1, AtLeast1(pm.rotateAttempts), old(pm.trials), pm.trials);
  }
}
