/** The gateway's web_search loop: a turn whose calls are all the gateway's is
    answered by running them and asking again, for a bounded number of rounds. */
module ToolRounds {
  import opened Common
  import opened ToolCalls
  import opened Stream

  datatype Message =
    | Original(text: string)
    | Assistant(calls: seq<Call>)
    | ToolResult(callId: string, name: string, content: string)

  /** A request body: its messages, or text that is no JSON object. */
  datatype Body = Body(messages: seq<Message>) | Malformed

  /** One executed round. */
  datatype Step = Step(calls: seq<Call>, results: seq<string>)

  datatype Reply = Reply(lines: seq<Line>, interrupted: bool)

  /** The world: the upstream's answer to a round's body, the outcome of a search. */
  datatype World = World(fetch: (nat, Body) -> Option<Reply>, search: (nat, nat, Call) -> string)

  // ---- The conversation ----

  function Results(search: (nat, nat, Call) -> string, round: nat, calls: seq<Call>): seq<string> {
    seq(|calls|, i requires 0 <= i < |calls| => search(round, i, calls[i]))
  }

  /** One assistant turn, then the result of each of its calls. */
  function TurnOf(step: Step): seq<Message>
    requires |step.results| == |step.calls|
  {
    [Assistant(step.calls)]
    + seq(|step.calls|, i requires 0 <= i < |step.calls| =>
            ToolResult(step.calls[i].id, step.calls[i].name, step.results[i]))
  }

  predicate Matched(steps: seq<Step>) {
    forall t :: 0 <= t < |steps| ==> |steps[t].results| == |steps[t].calls|
  }

  function TurnsOf(steps: seq<Step>): seq<Message>
    requires Matched(steps)
  {
    if steps == [] then [] else TurnsOf(steps[..|steps| - 1]) + TurnOf(steps[|steps| - 1])
  }

  /** The body after some rounds. */
  function Conversation(body: Body, steps: seq<Step>): Body
    requires Matched(steps)
  {
    if body.Malformed? then Malformed else Body(body.messages + TurnsOf(steps))
  }

  method ExecWebSearchTools(search: (nat, nat, Call) -> string, round: nat, calls: seq<Call>)
    returns (results: seq<string>)
    ensures results == Results(search, round, calls) && |results| == |calls|
    ensures forall i :: 0 <= i < |calls| ==> results[i] == search(round, i, calls[i])
  {
    results := [];
    for i := 0 to |calls|
      invariant |results| == i
      invariant forall k :: 0 <= k < i ==> results[k] == search(round, k, calls[k])
    {
      results := results + [search(round, i, calls[i])];
    }
  }

  /** Fails exactly on a body that is no JSON object. */
  method AppendToolResults(body: Body, calls: seq<Call>, results: seq<string>) returns (next: Option<Body>)
    requires |results| == |calls|
    ensures next == if body.Malformed? then None else Some(Body(body.messages + TurnOf(Step(calls, results))))
    ensures next.Some? ==>
      && next.value.Body? && var n, msgs := |body.messages|, next.value.messages;
      && |msgs| == n + 1 + |calls| && msgs[..n] == body.messages && msgs[n] == Assistant(calls)
      && forall i :: 0 <= i < |calls| ==> msgs[n + 1 + i] == ToolResult(calls[i].id, calls[i].name, results[i])
  {
    if body.Malformed? { return None; }
    var msgs := body.messages + [Assistant(calls)];
    ghost var all := body.messages + TurnOf(Step(calls, results));
    for i := 0 to |calls|
      invariant msgs == all[..|body.messages| + 1 + i]
    {
      msgs := msgs + [ToolResult(calls[i].id, calls[i].name, results[i])];
    }
    assert all[..|all|] == all;
    return Some(Body(msgs));
  }

  lemma ConversationAppend(body: Body, steps: seq<Step>, step: Step)
    requires Matched(steps + [step]) && Matched(steps) && |step.results| == |step.calls|
    ensures body.Body? ==>
      Conversation(body, steps + [step]) == Body(Conversation(body, steps).messages + TurnOf(step))
  {
    assert (steps + [step])[..|steps|] == steps;
  }

  /** The body of a round is that of the round before it, then one assistant turn with that
      round's calls, then the result of each call under its id and name. */
  lemma RequestOfRound(body: Body, steps: seq<Step>, t: nat)
    requires Matched(steps) && t < |steps| && Matched(steps[..t]) && Matched(steps[..t + 1])
    ensures Conversation(body, []) == body
    ensures var before, after := Conversation(body, steps[..t]), Conversation(body, steps[..t + 1]);
      body.Body? ==>
        && before.Body? && after.Body? && var n, calls := |before.messages|, steps[t].calls;
        && |after.messages| == n + 1 + |calls|
        && after.messages[..n] == before.messages && after.messages[n] == Assistant(calls)
        && forall i :: 0 <= i < |calls| ==>
             after.messages[n + 1 + i] == ToolResult(calls[i].id, calls[i].name, steps[t].results[i])
  {
    assert steps[..t + 1] == steps[..t] + [steps[t]];
    ConversationAppend(body, steps[..t], steps[t]);
    assert body.Body? ==> body.messages + [] == body.messages;
  }

  // ---- Streaming ----

  function Add(a: Usage, b: Usage): Usage {
    Usage(a.prompt + b.prompt, a.completion + b.completion, a.total + b.total)
  }

  function Total(turns: seq<StreamResult>): Usage {
    if turns == [] then ZERO else Add(Total(turns[..|turns| - 1]), turns[|turns| - 1].usage)
  }

  function Output(turns: seq<StreamResult>): seq<Out> {
    if turns == [] then [] else Output(turns[..|turns| - 1]) + turns[|turns| - 1].out
  }

  // ---- The sums ----

  function Sum(xs: seq<int>): int { if xs == [] then 0 else Sum(xs[..|xs| - 1]) + xs[|xs| - 1] }

  function Prompts(us: seq<Usage>): seq<int> { seq(|us|, i requires 0 <= i < |us| => us[i].prompt) }

  function Completions(us: seq<Usage>): seq<int> { seq(|us|, i requires 0 <= i < |us| => us[i].completion) }

  function Totals(us: seq<Usage>): seq<int> { seq(|us|, i requires 0 <= i < |us| => us[i].total) }

  /** Prompt, completion and total tokens are the sums of these. */
  predicate AddsUp(usage: Usage, us: seq<Usage>) {
    usage.prompt == Sum(Prompts(us)) && usage.completion == Sum(Completions(us)) && usage.total == Sum(Totals(us))
  }

  lemma AddsUpMore(usage: Usage, us: seq<Usage>)
    requires us != [] && AddsUp(usage, us[..|us| - 1])
    ensures AddsUp(Add(usage, us[|us| - 1]), us)
  {
    var k := |us| - 1;
    assert Prompts(us)[..k] == Prompts(us[..k]) && Completions(us)[..k] == Completions(us[..k]);
    assert Totals(us)[..k] == Totals(us[..k]);
  }

  function UsagesOf(turns: seq<StreamResult>): seq<Usage> {
    seq(|turns|, i requires 0 <= i < |turns| => turns[i].usage)
  }

  lemma {:induction false} TotalAddsUp(turns: seq<StreamResult>)
    ensures AddsUp(Total(turns), UsagesOf(turns))
  {
    if turns != [] {
      var k := |turns| - 1;
      TotalAddsUp(turns[..k]);
      assert UsagesOf(turns)[..k] == UsagesOf(turns[..k]);
      AddsUpMore(Total(turns[..k]), UsagesOf(turns));
    }
  }

  lemma OutputStep(turns: seq<StreamResult>, turn: StreamResult)
    ensures Output(turns + [turn]) == Output(turns) + turn.out
  {
    assert (turns + [turn])[..|turns|] == turns;
  }

  /** The output of some turns is what each of them wrote, one after the other. */
  lemma {:induction false} OutputIsAll(a: seq<StreamResult>, turn: StreamResult, b: seq<StreamResult>)
    ensures Output(a) + turn.out <= Output(a + [turn] + b)
    ensures Output([]) == [] && (b == [] ==> Output(a + [turn] + b) == Output(a) + turn.out)
  {
    if b == [] {
      assert a + [turn] + b == a + [turn];
      OutputStep(a, turn);
    } else {
      var k := |b| - 1;
      OutputIsAll(a, turn, b[..k]);
      assert a + [turn] + b == a + [turn] + b[..k] + [b[k]];
      OutputStep(a + [turn] + b[..k], b[k]);
    }
  }

  /** A whole streamed request: what was written, the usage reported, the turns read
      from upstream and the rounds executed. */
  datatype Session = Session(out: seq<Out>, usage: Usage, turns: seq<StreamResult>, steps: seq<Step>)

  function ReplyOf(world: World, body: Body, first: Reply, steps: seq<Step>, t: nat): Option<Reply>
    requires t <= |steps| && Matched(steps[..t])
  {
    if t == 0 then Some(first) else world.fetch(t, Conversation(body, steps[..t]))
  }

  /** Round t ran the calls of turn t. */
  ghost predicate RanRound(world: World, turns: seq<StreamResult>, steps: seq<Step>, t: nat)
    requires t < |turns| && t < |steps|
  {
    && steps[t].calls == turns[t].calls != []
    && steps[t].results == Results(world.search, t, steps[t].calls)
  }

  ghost predicate ReadTurn(world: World, body: Body, first: Reply, intercept: bool, turns: seq<StreamResult>,
                           steps: seq<Step>, t: nat)
    requires t < |turns| && t <= |steps| && Matched(steps[..t])
  {
    var reply := ReplyOf(world, body, first, steps, t);
    reply.Some? && turns[t] == Streamed(reply.value.lines, reply.value.interrupted, intercept)
  }

  /** The turns and rounds are what upstream and the searches made them. */
  ghost predicate Genuine(world: World, max: int, body: Body, first: Reply, intercept: bool,
                          turns: seq<StreamResult>, steps: seq<Step>) {
    && |steps| <= |turns| <= |steps| + 1
    && (steps != [] ==> |steps| <= max && body.Body?)
    && Matched(steps)
    && (forall t :: 0 <= t < |steps| ==> RanRound(world, turns, steps, t))
    && (forall t :: 0 <= t < |turns| ==> ReadTurn(world, body, first, intercept, turns, steps, t))
  }

  lemma GenuineStep(world: World, max: int, body: Body, first: Reply, intercept: bool,
                    turns: seq<StreamResult>, steps: seq<Step>, step: Step)
    requires Genuine(world, max, body, first, intercept, turns, steps) && |turns| == |steps| + 1
    requires |steps| < max && body.Body? && step.calls == turns[|steps|].calls != []
    requires step.results == Results(world.search, |steps|, step.calls)
    ensures Genuine(world, max, body, first, intercept, turns, steps + [step])
  {
    var more := steps + [step];
    assert Matched(more);
    forall t | 0 <= t < |more| ensures RanRound(world, turns, more, t) {
      if t < |steps| { assert RanRound(world, turns, steps, t); }
    }
    forall t | 0 <= t < |turns| ensures ReadTurn(world, body, first, intercept, turns, more, t) {
      assert ReadTurn(world, body, first, intercept, turns, steps, t);
      assert more[..t] == steps[..t];
    }
  }

  lemma GenuineTurn(world: World, max: int, body: Body, first: Reply, intercept: bool,
                    turns: seq<StreamResult>, steps: seq<Step>, turn: StreamResult)
    requires Genuine(world, max, body, first, intercept, turns, steps) && |turns| == |steps|
    requires var reply := ReplyOf(world, body, first, steps, |steps|);
      reply.Some? && turn == Streamed(reply.value.lines, reply.value.interrupted, intercept)
    ensures Genuine(world, max, body, first, intercept, turns + [turn], steps)
  {
    var more := turns + [turn];
    forall t | 0 <= t < |steps| ensures RanRound(world, more, steps, t) {
      assert RanRound(world, turns, steps, t);
    }
    forall t | 0 <= t < |more| ensures ReadTurn(world, body, first, intercept, more, steps, t) {
      if t < |turns| { assert ReadTurn(world, body, first, intercept, turns, steps, t); }
    }
  }

  /** Why a session stops: the upstream gave up, or after a last turn there was
      nothing more to run, no round left or no body to extend. */
  ghost predicate Ended(world: World, max: int, body: Body, first: Reply, s: Session)
    requires Matched(s.steps) && |s.steps| <= |s.turns| <= |s.steps| + 1
  {
    var n := |s.steps|;
    if |s.turns| == n then
      && ReplyOf(world, body, first, s.steps, n) == None
      && s.out == Output(s.turns) + [ErrorEvent]
    else if s.turns[n].calls == [] || n >= max then s.out == Output(s.turns)
    else body.Malformed? && s.out == Output(s.turns) + [ErrorEvent]
  }

  /** The session so far adds up and `cur` is the next body to send. */
  ghost predicate Consistent(world: World, max: int, body: Body, first: Reply, svc: bool, s: Session, cur: Body) {
    && Genuine(world, max, body, first, svc, s.turns, s.steps)
    && s.out == Output(s.turns) && s.usage == Total(s.turns)
    && cur == Conversation(body, s.steps)
  }

  function WithTurn(s: Session, turn: StreamResult): Session {
    Session(s.out + turn.out, Add(s.usage, turn.usage), s.turns + [turn], s.steps)
  }

  lemma TurnKeeps(world: World, max: int, body: Body, first: Reply, svc: bool, s: Session, cur: Body,
                  reply: Reply, turn: StreamResult)
    requires Consistent(world, max, body, first, svc, s, cur) && |s.turns| == |s.steps|
    requires Some(reply) == if s.steps == [] then Some(first) else world.fetch(|s.steps|, cur)
    requires turn == Streamed(reply.lines, reply.interrupted, svc)
    ensures Consistent(world, max, body, first, svc, WithTurn(s, turn), cur)
  {
    assert s.steps[..|s.steps|] == s.steps;
    GenuineTurn(world, max, body, first, svc, s.turns, s.steps, turn);
    assert (s.turns + [turn])[..|s.turns|] == s.turns;
  }

  lemma RoundKeeps(world: World, max: int, body: Body, first: Reply, svc: bool, s: Session, cur: Body, step: Step)
    requires Consistent(world, max, body, first, svc, s, cur) && |s.turns| == |s.steps| + 1
    requires |s.steps| < max && cur.Body? && step.calls == s.turns[|s.steps|].calls != []
    requires step.results == Results(world.search, |s.steps|, step.calls)
    ensures Consistent(world, max, body, first, svc, s.(steps := s.steps + [step]), Body(cur.messages + TurnOf(step)))
  {
    GenuineStep(world, max, body, first, svc, s.turns, s.steps, step);
    ConversationAppend(body, s.steps, step);
  }

  /** The whole story of a session. */
  ghost predicate Complete(world: World, max: int, body: Body, first: Reply, svc: bool, s: Session) {
    && Genuine(world, max, body, first, svc, s.turns, s.steps)
    && Ended(world, max, body, first, s)
    && s.usage == Total(s.turns)
  }

  lemma GivesUp(world: World, max: int, body: Body, first: Reply, svc: bool, s: Session, cur: Body)
    requires Consistent(world, max, body, first, svc, s, cur) && |s.turns| == |s.steps| > 0
    requires world.fetch(|s.steps|, cur) == None
    ensures Complete(world, max, body, first, svc, s.(out := s.out + [ErrorEvent]))
  {
    assert s.steps[..|s.steps|] == s.steps;
  }

  lemma Stops(world: World, max: int, body: Body, first: Reply, svc: bool, s: Session, cur: Body)
    requires Consistent(world, max, body, first, svc, s, cur) && |s.turns| == |s.steps| + 1
    ensures s.turns[|s.steps|].calls == [] || |s.steps| >= max ==> Complete(world, max, body, first, svc, s)
    ensures s.turns[|s.steps|].calls != [] && |s.steps| < max && cur.Malformed?
      ==> Complete(world, max, body, first, svc, s.(out := s.out + [ErrorEvent]))
  {
  }

  lemma Begins(world: World, max: int, body: Body, first: Reply, svc: bool)
    ensures Consistent(world, max, body, first, svc, Session([], ZERO, [], []), body)
  {
  }

  /** One turn: it is read and relayed, and its calls, if it is to go on, are run. */
  method ProceedStream(world: World, maxRounds: int, ghost body: Body, ghost first: Reply, includeUsage: bool,
                       svc: bool, s: Session, cur: Body, reply: Reply)
    returns (s': Session, next: Option<Body>)
    requires Consistent(world, maxRounds, body, first, svc, s, cur) && |s.turns| == |s.steps|
    requires Some(reply) == if s.steps == [] then Some(first) else world.fetch(|s.steps|, cur)
    ensures next == None ==> Complete(world, maxRounds, body, first, svc, s')
    ensures next.Some? ==> |s.steps| < maxRounds && |s'.turns| == |s'.steps| == |s.steps| + 1
    ensures next.Some? ==> Consistent(world, maxRounds, body, first, svc, s', next.value)
  {
    hide Genuine, RanRound, ReadTurn, ReplyOf, Ended, Results, TurnOf, TurnsOf, Streamed, Output, Total;
    var round := |s.steps|;
    var turn := HandleStreamResponse(reply.lines, reply.interrupted, includeUsage, svc);
    TurnKeeps(world, maxRounds, body, first, svc, s, cur, reply, turn);
    s', next := WithTurn(s, turn), None;
    Stops(world, maxRounds, body, first, svc, s', cur);
    if |turn.calls| == 0 || round >= maxRounds { return; }
    var results := ExecWebSearchTools(world.search, round, turn.calls);
    next := AppendToolResults(cur, turn.calls, results);
    if next == None {
      s' := s'.(out := s'.out + [ErrorEvent]);
    } else {
      RoundKeeps(world, maxRounds, body, first, svc, s', cur, Step(turn.calls, results));
      s' := s'.(steps := s'.steps + [Step(turn.calls, results)]);
    }
  }

  method StreamWithToolRounds(world: World, maxRounds: int, body: Body, first: Reply, includeUsage: bool, svc: bool)
    returns (s: Session)
    ensures Complete(world, maxRounds, body, first, svc, s)
    ensures AddsUp(s.usage, UsagesOf(s.turns))
  {
    hide Genuine, RanRound, ReadTurn, ReplyOf, Ended, Streamed, Output, Total;
    Begins(world, maxRounds, body, first, svc);
    s := Session([], ZERO, [], []);
    var cur, resp, round := body, Some(first), 0;
    while true
      invariant round == |s.steps| == |s.turns|
      invariant Consistent(world, maxRounds, body, first, svc, s, cur)
      invariant resp == if round == 0 then Some(first) else None
      decreases maxRounds - round
    {
      if resp == None { resp := world.fetch(round, cur); }
      if resp == None {
        GivesUp(world, maxRounds, body, first, svc, s, cur);
        TotalAddsUp(s.turns);
        return s.(out := s.out + [ErrorEvent]);
      }
      var next;
      s, next := ProceedStream(world, maxRounds, body, first, includeUsage, svc, s, cur, resp.value);
      if next == None {
        TotalAddsUp(s.turns);
        return;
      }
      cur, resp, round := next.value, None, round + 1;
    }
  }

  // ---- What the client of a streamed session sees ----

  lemma SentOneMore(a: seq<Out>, o: Out)
    ensures Sent(a + [o]) == if o.Relayed? then Sent(a) + [o.line] else Sent(a)
  {
    assert (a + [o])[..|a|] == a;
  }

  lemma {:induction false} SentAppend(a: seq<Out>, b: seq<Out>)
    ensures Sent(a + b) == Sent(a) + Sent(b)
  {
    if b == [] {
      assert a + b == a;
    } else {
      var init, o := b[..|b| - 1], b[|b| - 1];
      assert b == init + [o] && a + b == (a + init) + [o];
      SentAppend(a, init);
      SentOneMore(init, o);
      SentOneMore(a + init, o);
      if o.Relayed? { assert Sent(a) + Sent(init) + [o.line] == Sent(a) + (Sent(init) + [o.line]); }
    }
  }

  lemma CallsMeanTakenOver(lines: seq<Line>, interrupted: bool, intercept: bool)
    ensures var calls := Streamed(lines, interrupted, intercept).calls;
      && (calls != [] <==> TakenOver(lines, intercept).Some?)
      && (calls != [] ==> intercept && AllWebSearch(calls))
  {
  }

  /** Every executed round ran a non-empty list of the gateway's own calls, with one
      result each; at most `max` rounds ran, none without the search service. */
  lemma RoundsAreWebSearches(world: World, max: int, body: Body, first: Reply, svc: bool, s: Session, t: nat)
    requires Genuine(world, max, body, first, svc, s.turns, s.steps) && t < |s.steps|
    ensures |s.steps| <= max && svc && |s.steps[t].results| == |s.steps[t].calls| > 0
    ensures forall c :: c in s.steps[t].calls ==> c.name == "web_search"
  {
    assert RanRound(world, s.turns, s.steps, t) && ReadTurn(world, body, first, svc, s.turns, s.steps, t);
    var reply := ReplyOf(world, body, first, s.steps, t).value;
    CallsMeanTakenOver(reply.lines, reply.interrupted, svc);
  }

  /** Upstream ends each of its answers with at most one [DONE]. */
  ghost predicate OneDoneEach(world: World, body: Body, first: Reply, steps: seq<Step>, n: nat)
    requires n <= |steps| + 1 && Matched(steps)
  {
    forall t :: 0 <= t < n ==> AtMostOneDone(ReplyOf(world, body, first, steps, t))
  }

  predicate AtMostOneDone(reply: Option<Reply>) { reply.Some? ==> Dones(reply.value.lines) <= 1 }

  function DonesIn(reply: Option<Reply>): nat { if reply.Some? then Dones(reply.value.lines) else 0 }

  function TurnDones(turn: StreamResult): nat { Dones(Sent(turn.out)) }

  lemma TurnDonesAre(world: World, body: Body, first: Reply, svc: bool, turns: seq<StreamResult>, steps: seq<Step>,
                     t: nat)
    requires t < |turns| && t <= |steps| && Matched(steps) && ReadTurn(world, body, first, svc, turns, steps, t)
    requires AtMostOneDone(ReplyOf(world, body, first, steps, t))
    ensures TurnDones(turns[t])
         == if turns[t].calls != [] then 0 else DonesIn(ReplyOf(world, body, first, steps, t))
  {
    var reply := ReplyOf(world, body, first, steps, t).value;
    CallsMeanTakenOver(reply.lines, reply.interrupted, svc);
    DoneIsPassedOnIff(reply.lines, reply.interrupted, svc);
  }

  lemma {:induction false} OutputDones(turns: seq<StreamResult>)
    requires forall t :: 0 <= t < |turns| ==> TurnDones(turns[t]) == 0
    ensures Dones(Sent(Output(turns))) == 0
  {
    if turns != [] {
      var k := |turns| - 1;
      OutputDones(turns[..k]);
      SentAppend(Output(turns[..k]), turns[k].out);
      DonesAppend(Sent(Output(turns[..k])), Sent(turns[k].out));
    }
  }

  lemma RoundsSendNoDone(world: World, max: int, body: Body, first: Reply, svc: bool, s: Session)
    requires Genuine(world, max, body, first, svc, s.turns, s.steps)
    requires OneDoneEach(world, body, first, s.steps, |s.turns|)
    ensures Dones(Sent(Output(s.turns[..|s.steps|]))) == 0
  {
    var n := |s.steps|;
    forall t | 0 <= t < n ensures TurnDones(s.turns[..n][t]) == 0 {
      assert RanRound(world, s.turns, s.steps, t) && ReadTurn(world, body, first, svc, s.turns, s.steps, t);
      assert AtMostOneDone(ReplyOf(world, body, first, s.steps, t));
      TurnDonesAre(world, body, first, svc, s.turns, s.steps, t);
    }
    OutputDones(s.turns[..n]);
  }

  lemma OutputOneMore(turns: seq<StreamResult>, turn: StreamResult)
    ensures Dones(Sent(Output(turns + [turn]))) == Dones(Sent(Output(turns))) + TurnDones(turn)
  {
    assert (turns + [turn])[..|turns|] == turns;
    SentAppend(Output(turns), turn.out);
    DonesAppend(Sent(Output(turns)), Sent(turn.out));
  }

  lemma ErrorIsNoDone(out: seq<Out>)
    ensures Sent(out + [ErrorEvent]) == Sent(out)
  {
    SentOneMore(out, ErrorEvent);
  }

  lemma SessionDones(world: World, max: int, body: Body, first: Reply, svc: bool, s: Session)
    requires Complete(world, max, body, first, svc, s) && OneDoneEach(world, body, first, s.steps, |s.turns|)
    ensures Dones(Sent(s.out)) == if |s.turns| == |s.steps| + 1 then TurnDones(s.turns[|s.steps|]) else 0
  {
    var n := |s.steps|;
    assert Dones(Sent(s.out)) == Dones(Sent(Output(s.turns))) by { ErrorIsNoDone(Output(s.turns)); }
    RoundsSendNoDone(world, max, body, first, svc, s);
    if |s.turns| == n + 1 {
      assert s.turns == s.turns[..n] + [s.turns[n]];
      OutputOneMore(s.turns[..n], s.turns[n]);
    } else {
      assert s.turns[..n] == s.turns;
    }
  }

  lemma LastTurnDones(world: World, max: int, body: Body, first: Reply, svc: bool, s: Session)
    requires Complete(world, max, body, first, svc, s) && OneDoneEach(world, body, first, s.steps, |s.turns|)
    requires |s.turns| == |s.steps| + 1
    ensures var n := |s.steps|;
      TurnDones(s.turns[n]) == if s.turns[n].calls == [] then DonesIn(ReplyOf(world, body, first, s.steps, n)) else 0
    ensures DonesIn(ReplyOf(world, body, first, s.steps, |s.steps|)) <= 1
  {
    var n := |s.steps|;
    assert ReadTurn(world, body, first, svc, s.turns, s.steps, n);
    assert AtMostOneDone(ReplyOf(world, body, first, s.steps, n));
    TurnDonesAre(world, body, first, svc, s.turns, s.steps, n);
  }

  /** However many rounds ran, the client sees at most one [DONE]: the last answer's,
      exactly when a last answer came and was not itself a web_search turn. A
      web_search turn met when no round is left ends the stream without [DONE]. */
  lemma AtMostOneDoneReachesClient(world: World, max: int, body: Body, first: Reply, svc: bool, s: Session)
    requires Complete(world, max, body, first, svc, s) && OneDoneEach(world, body, first, s.steps, |s.turns|)
    ensures var n := |s.steps|;
      Dones(Sent(s.out)) == if |s.turns| == n + 1 && s.turns[n].calls == []
                            then DonesIn(ReplyOf(world, body, first, s.steps, n)) else 0
    ensures Dones(Sent(s.out)) <= 1
  {
    SessionDones(world, max, body, first, svc, s);
    if |s.turns| == |s.steps| + 1 { LastTurnDones(world, max, body, first, svc, s); }
  }

  // ---- A session that ends without [DONE] ----

  const QUERY := Delta(0, "call_1", "function", WEB_SEARCH, "{}")
  const SEARCH := Call("call_1", "function", WEB_SEARCH, "{}")

  /** A model that only ever asks for one more search. */
  const SEARCHES: seq<Line> := [Data("chunk", Some(Chunk(None, [Choice([QUERY], true)]))), Done("[DONE]")]

  const SEARCH_TURN := StreamResult([], ZERO, [SEARCH])

  lemma OneFragment()
    ensures Part([QUERY], 0) == [QUERY] && Order([QUERY]) == [0]
    ensures Gathered([QUERY]) == Accum("call_1", "function", WEB_SEARCH, "{}")
  {
    var none: seq<Delta> := [];
    assert [QUERY][..0] == none && none + [QUERY] == [QUERY] && "" + "{}" == "{}";
    GatheredAppend(none, QUERY);
    PartAppend(none, QUERY, 0);
    OrderAppend(none, QUERY);
  }

  lemma OneQuery()
    ensures Assembled([QUERY]) == [SEARCH] && AllWebSearch([SEARCH])
  {
    OneFragment();
    assert CallOf(Gathered([QUERY])) == SEARCH;
    hide Gathered, Part, Order;
    assert [0][..0] == [] && CallsFor([QUERY], []) == [];
    assert CallsFor([QUERY], [0]) == [] + [SEARCH];
  }

  lemma QueryIsRead(line: Line)
    requires line == SEARCHES[0]
    ensures Tool(line) && Finishes(line) && Deltas([line]) == [QUERY] && Finished([line])
    ensures Released([line], true) == [] && Reported([line]) == ZERO && Dones([line]) == 0
  {
    var choice := Choice([QUERY], true);
    assert choice in line.chunk.value.choices;
    LinesAppend([], line);
    ReleasedStep([], line, true);
    assert [] + [line] == [line] && line in [line];
    assert [choice][..0] == [] && DeltasOf([choice]) == DeltasOf([]) + [QUERY];
  }

  lemma SearchesAreTaken(interrupted: bool)
    ensures Streamed(SEARCHES, interrupted, true) == SEARCH_TURN && Dones(SEARCHES) == 1
  {
    var line := SEARCHES[0];
    QueryIsRead(line);
    OneQuery();
    assert SEARCHES[..1] == [line];
    assert !Intercepts(SEARCHES, 0) && Intercepts(SEARCHES, 1);
    assert Interception(SEARCHES, 0) == Interception(SEARCHES, 1) == Some(1);
    assert Relay([]) == [];
  }

  lemma {:induction false} SearchesShowNothing(turns: seq<StreamResult>)
    requires forall t :: 0 <= t < |turns| ==> turns[t] == SEARCH_TURN
    ensures Output(turns) == []
  {
    if turns != [] { SearchesShowNothing(turns[..|turns| - 1]); }
  }

  lemma EveryTurnSearches(world: World, max: nat, body: Body, s: Session, t: nat)
    requires forall n, b :: world.fetch(n, b) == Some(Reply(SEARCHES, false))
    requires Genuine(world, max, body, Reply(SEARCHES, false), true, s.turns, s.steps) && t < |s.turns|
    ensures s.turns[t] == SEARCH_TURN
  {
    assert ReadTurn(world, body, Reply(SEARCHES, false), true, s.turns, s.steps, t);
    SearchesAreTaken(false);
  }

  /** Against such a model, and whatever the number of rounds, every session runs all its
      rounds; the last search is neither run nor shown, and although every answer ended
      with [DONE] the client is sent nothing at all. */
  lemma EndlessSearchGetsNoDone(world: World, max: nat, messages: seq<Message>, s: Session)
    requires forall t, b :: world.fetch(t, b) == Some(Reply(SEARCHES, false))
    requires Complete(world, max, Body(messages), Reply(SEARCHES, false), true, s)
    ensures |s.steps| == max && |s.turns| == max + 1 && s.turns[max].calls == [SEARCH]
    ensures s.out == [] && Dones(SEARCHES) == 1
  {
    SearchesAreTaken(false);
    forall t | 0 <= t < |s.turns| ensures s.turns[t] == SEARCH_TURN {
      EveryTurnSearches(world, max, Body(messages), s, t);
    }
    SearchesShowNothing(s.turns);
  }

  // ---- Without streaming ----

  /** A whole answer. An entry of tool_calls that is no object is skipped; a body
      that could not be read has no text. */
  datatype Answer = Answer(status: int, text: Option<string>, entries: seq<Option<Call>>, usage: Option<Usage>)

  datatype Written = PassedOn(status: int, text: string) | BadGateway

  datatype WorldOnce = WorldOnce(fetch: (nat, Body) -> Option<Answer>, search: (nat, nat, Call) -> string)

  function CallsIn(entries: seq<Option<Call>>): seq<Call> {
    if entries == [] then []
    else
      var last := entries[|entries| - 1];
      CallsIn(entries[..|entries| - 1]) + if last.Some? then [last.value] else []
  }

  method MessageToolCalls(entries: seq<Option<Call>>) returns (calls: seq<Call>)
    ensures calls == CallsIn(entries)
  {
    calls := [];
    for i := 0 to |entries|
      invariant calls == CallsIn(entries[..i])
    {
      assert entries[..i + 1][..i] == entries[..i];
      if entries[i].Some? { calls := calls + [entries[i].value]; }
    }
    assert entries[..|entries|] == entries;
  }

  /** The gateway answers this turn itself. */
  predicate Interceptable(answer: Answer, svc: bool, round: int, max: int) {
    svc && AllWebSearch(CallsIn(answer.entries)) && round < max && 200 <= answer.status < 300
  }

  function UsageOf(answer: Answer): Usage { if answer.usage.Some? then answer.usage.value else ZERO }

  function TotalOf(answers: seq<Answer>): Usage {
    if answers == [] then ZERO else Add(TotalOf(answers[..|answers| - 1]), UsageOf(answers[|answers| - 1]))
  }

  /** The usages of the answers, zero where there is none. */
  function AnswerUsages(answers: seq<Answer>): seq<Usage> {
    seq(|answers|, i requires 0 <= i < |answers| =>
          if answers[i].usage.Some? then answers[i].usage.value else Usage(0, 0, 0))
  }

  lemma {:induction false} AnswersAddUp(answers: seq<Answer>)
    ensures AddsUp(TotalOf(answers), AnswerUsages(answers))
  {
    if answers != [] {
      var k := |answers| - 1;
      AnswersAddUp(answers[..k]);
      assert AnswerUsages(answers)[..k] == AnswerUsages(answers[..k]);
      AddsUpMore(TotalOf(answers[..k]), AnswerUsages(answers));
    }
  }

  /** The calls of an answer are its entries that are objects. */
  lemma {:induction false} CallsInAre(a: seq<Option<Call>>, c: Call, b: seq<Option<Call>>)
    ensures CallsIn([]) == [] && CallsIn(a + [None]) == CallsIn(a) && CallsIn(a + [Some(c)]) == CallsIn(a) + [c]
    ensures (forall i :: 0 <= i < |b| ==> b[i].None?) ==> CallsIn(b) == []
  {
    assert (a + [None])[..|a|] == a && (a + [Some(c)])[..|a|] == a;
    if b != [] { CallsInAre(a, c, b[..|b| - 1]); }
  }

  /** What was written, the usage, the answers read and the rounds executed. */
  datatype Exchange = Exchange(written: seq<Written>, usage: Usage, answers: seq<Answer>, steps: seq<Step>)

  function AnswerTo(world: WorldOnce, body: Body, first: Answer, steps: seq<Step>): Option<Answer>
    requires Matched(steps)
  {
    if steps == [] then Some(first) else world.fetch(|steps|, Conversation(body, steps))
  }

  /** Each executed round ran the web_search calls of the answer to the conversation
      that the rounds before it had built. */
  ghost predicate Ran(world: WorldOnce, max: int, body: Body, first: Answer, svc: bool,
                      answers: seq<Answer>, steps: seq<Step>)
    decreases |steps|
  {
    && Matched(steps) && |answers| == |steps|
    && (steps != [] ==>
          var n := |steps| - 1;
          && Ran(world, max, body, first, svc, answers[..n], steps[..n])
          && RanLast(world, max, body, first, svc, answers[n], steps[..n], steps[n]))
  }

  ghost predicate RanLast(world: WorldOnce, max: int, body: Body, first: Answer, svc: bool, answer: Answer,
                          before: seq<Step>, step: Step)
    requires Matched(before)
  {
    && body.Body? && Interceptable(answer, svc, |before|, max)
    && AnswerTo(world, body, first, before) == Some(answer)
    && step.calls == CallsIn(answer.entries) && step.results == Results(world.search, |before|, step.calls)
  }

  /** The calls of a good answer, all named web_search. */
  predicate WebSearches(answer: Answer, calls: seq<Call>) {
    && 200 <= answer.status < 300 && calls == CallsIn(answer.entries) != []
    && forall c :: c in calls ==> c.name == "web_search"
  }

  lemma LastIsWebSearches(world: WorldOnce, max: int, body: Body, first: Answer, svc: bool, answer: Answer,
                          before: seq<Step>, step: Step)
    requires Matched(before) && RanLast(world, max, body, first, svc, answer, before, step)
    ensures |before| < max && svc && WebSearches(answer, step.calls)
  {
  }

  lemma {:induction false} RoundsAreBounded(world: WorldOnce, max: int, body: Body, first: Answer, svc: bool,
                                            answers: seq<Answer>, steps: seq<Step>)
    requires Ran(world, max, body, first, svc, answers, steps)
    ensures steps != [] ==> |steps| <= max && svc
    ensures forall t :: 0 <= t < |steps| ==> WebSearches(answers[t], steps[t].calls)
  {
    hide WebSearches, RanLast, CallsIn;
    if steps != [] {
      var n := |steps| - 1;
      RoundsAreBounded(world, max, body, first, svc, answers[..n], steps[..n]);
      LastIsWebSearches(world, max, body, first, svc, answers[n], steps[..n], steps[n]);
      forall t | 0 <= t < |steps| ensures WebSearches(answers[t], steps[t].calls) {
        if t < n { assert WebSearches(answers[..n][t], steps[..n][t].calls); }
      }
    }
  }

  lemma RanStep(world: WorldOnce, max: int, body: Body, first: Answer, svc: bool,
                answers: seq<Answer>, steps: seq<Step>, answer: Answer, step: Step)
    requires Ran(world, max, body, first, svc, answers, steps)
    requires RanLast(world, max, body, first, svc, answer, steps, step)
    ensures Ran(world, max, body, first, svc, answers + [answer], steps + [step])
    ensures Conversation(body, steps + [step]) == Body(Conversation(body, steps).messages + TurnOf(step))
  {
    assert (steps + [step])[..|steps|] == steps && (answers + [answer])[..|answers|] == answers;
    ConversationAppend(body, steps, step);
  }

  lemma TotalAppend(answers: seq<Answer>, answer: Answer)
    ensures TotalOf(answers + [answer]) == Add(TotalOf(answers), UsageOf(answer))
  {
    assert (answers + [answer])[..|answers|] == answers;
  }

  /** How an exchange ends: with the last answer as it came, unless the gateway could
      have answered it; or with a gateway error when none came that could be read. */
  ghost predicate Answered(world: WorldOnce, max: int, body: Body, first: Answer, svc: bool, x: Exchange)
    requires Matched(x.steps)
  {
    var last := AnswerTo(world, body, first, x.steps);
    if last == None || last.value.text == None then
      x.written == [BadGateway] && |x.answers| == |x.steps|
    else
      && x.written == [PassedOn(last.value.status, last.value.text.value)]
      && |x.answers| == |x.steps| + 1 && x.answers[|x.steps|] == last.value
      && (Interceptable(last.value, svc, |x.steps|, max) ==> body.Malformed?)
  }

  /** The whole story of an exchange. */
  ghost predicate Accounted(world: WorldOnce, max: int, body: Body, first: Answer, svc: bool, x: Exchange) {
    && |x.steps| <= |x.answers|
    && Ran(world, max, body, first, svc, x.answers[..|x.steps|], x.steps)
    && Answered(world, max, body, first, svc, x)
    && x.usage == TotalOf(x.answers)
  }

  /** An answer is passed on only if the gateway could not answer it: no service, no round
      left, no good answer made of web_search calls, or no body to extend. */
  lemma PassedOnAnswer(world: WorldOnce, max: int, body: Body, first: Answer, svc: bool, x: Exchange)
    requires Accounted(world, max, body, first, svc, x) && |x.answers| == |x.steps| + 1
    ensures var last := x.answers[|x.steps|];
      && last.text.Some? && x.written == [PassedOn(last.status, last.text.value)]
      && (body.Malformed? || !svc || |x.steps| >= max || !WebSearches(last, CallsIn(last.entries)))
  {
    hide Ran, CallsIn;
  }

  /** The rounds so far add up and `cur` is the next body to send. */
  ghost predicate Underway(world: WorldOnce, max: int, body: Body, first: Answer, svc: bool, x: Exchange, cur: Body) {
    && Ran(world, max, body, first, svc, x.answers, x.steps)
    && x.usage == TotalOf(x.answers)
    && cur == Conversation(body, x.steps)
  }

  /** The next answer, as the rounds so far make it. */
  ghost predicate Next(world: WorldOnce, first: Answer, steps: seq<Step>, cur: Body, resp: Option<Answer>) {
    resp == if steps == [] then Some(first) else world.fetch(|steps|, cur)
  }

  function WithAnswer(x: Exchange, answer: Answer): Exchange {
    Exchange([PassedOn(answer.status, if answer.text.Some? then answer.text.value else "")],
             Add(x.usage, UsageOf(answer)), x.answers + [answer], x.steps)
  }

  lemma EndsAnswered(world: WorldOnce, max: int, body: Body, first: Answer, svc: bool, x: Exchange, answer: Answer)
    requires Matched(x.steps) && |x.answers| == |x.steps| && AnswerTo(world, body, first, x.steps) == Some(answer)
    requires answer.text.Some? && (Interceptable(answer, svc, |x.steps|, max) ==> body.Malformed?)
    ensures Answered(world, max, body, first, svc, WithAnswer(x, answer))
  {
  }

  lemma EndsWith(world: WorldOnce, max: int, body: Body, first: Answer, svc: bool, x: Exchange, cur: Body,
                 answer: Answer)
    requires Underway(world, max, body, first, svc, x, cur) && Next(world, first, x.steps, cur, Some(answer))
    requires answer.text.Some? && (Interceptable(answer, svc, |x.steps|, max) ==> cur.Malformed?)
    ensures Accounted(world, max, body, first, svc, WithAnswer(x, answer))
  {
    var last := WithAnswer(x, answer);
    assert last.steps == x.steps && last.answers[..|x.steps|] == x.answers;
    assert last.usage == TotalOf(last.answers) by { TotalAppend(x.answers, answer); }
    EndsAnswered(world, max, body, first, svc, x, answer);
  }

  lemma EndsInError(world: WorldOnce, max: int, body: Body, first: Answer, svc: bool, x: Exchange, cur: Body,
                    resp: Option<Answer>)
    requires Underway(world, max, body, first, svc, x, cur) && Next(world, first, x.steps, cur, resp)
    requires resp == None || resp.value.text == None
    ensures Accounted(world, max, body, first, svc, x.(written := [BadGateway]))
  {
    assert x.answers[..|x.steps|] == x.answers;
  }

  lemma GoesOn(world: WorldOnce, max: int, body: Body, first: Answer, svc: bool, x: Exchange, cur: Body,
               answer: Answer, step: Step)
    requires Underway(world, max, body, first, svc, x, cur) && Next(world, first, x.steps, cur, Some(answer))
    requires Interceptable(answer, svc, |x.steps|, max) && cur.Body?
    requires step.calls == CallsIn(answer.entries) && step.results == Results(world.search, |x.steps|, step.calls)
    ensures Underway(world, max, body, first, svc, WithAnswer(x, answer).(steps := x.steps + [step]),
                     Body(cur.messages + TurnOf(step)))
  {
    RanStep(world, max, body, first, svc, x.answers, x.steps, answer, step);
    TotalAppend(x.answers, answer);
  }

  /** What becomes of one answer: it is passed on, or the gateway answers it and has a
      next body to send. */
  method Proceed(world: WorldOnce, maxRounds: int, ghost body: Body, ghost first: Answer, svc: bool, x: Exchange,
                 cur: Body, answer: Answer) returns (x': Exchange, next: Option<Body>)
    requires Underway(world, maxRounds, body, first, svc, x, cur) && Next(world, first, x.steps, cur, Some(answer))
    requires answer.text.Some?
    ensures next == None ==> Accounted(world, maxRounds, body, first, svc, x') && |x'.written| == 1
    ensures next.Some? ==> |x.steps| < maxRounds && |x'.steps| == |x.steps| + 1
    ensures next.Some? ==> Underway(world, maxRounds, body, first, svc, x', next.value)
  {
    hide Ran, RanLast, Answered, Results, TurnOf, TurnsOf, CallsIn, TotalOf, Matched;
    var round := |x.steps|;
    var calls := MessageToolCalls(answer.entries);
    var own := OnlyWebSearch(calls);
    var interceptable := svc && own && round < maxRounds && answer.status >= 200 && answer.status < 300;
    x', next := WithAnswer(x, answer), None;
    if interceptable {
      var results := ExecWebSearchTools(world.search, round, calls);
      next := AppendToolResults(cur, calls, results);
      if next.Some? {
        GoesOn(world, maxRounds, body, first, svc, x, cur, answer, Step(calls, results));
        x' := x'.(steps := x.steps + [Step(calls, results)]);
      }
    }
    if next == None { EndsWith(world, maxRounds, body, first, svc, x, cur, answer); }
  }

  lemma UnderwayAtFirst(world: WorldOnce, max: int, body: Body, first: Answer, svc: bool)
    ensures Underway(world, max, body, first, svc, Exchange([], ZERO, [], []), body)
  {
  }

  /** Whatever happens, exactly one response is written. */
  method CompleteWithToolRounds(world: WorldOnce, maxRounds: int, body: Body, first: Answer, svc: bool)
    returns (x: Exchange)
    ensures Accounted(world, maxRounds, body, first, svc, x) && |x.written| == 1
    ensures AddsUp(x.usage, AnswerUsages(x.answers))
  {
    hide Ran, RanLast, Answered, TotalOf;
    UnderwayAtFirst(world, maxRounds, body, first, svc);
    var cur, resp, round := body, Some(first), 0;
    x := Exchange([], ZERO, [], []);
    while true
      invariant round == |x.steps|
      invariant Underway(world, maxRounds, body, first, svc, x, cur)
      invariant resp == if round == 0 then Some(first) else None
      decreases maxRounds - round
    {
      if resp == None { resp := world.fetch(round, cur); }
      if resp == None || resp.value.text == None {
        EndsInError(world, maxRounds, body, first, svc, x, cur, resp);
        AnswersAddUp(x.answers);
        return x.(written := [BadGateway]);
      }
      var next;
      x, next := Proceed(world, maxRounds, body, first, svc, x, cur, resp.value);
      if next == None {
        AnswersAddUp(x.answers);
        return;
      }
      cur, resp, round := next.value, None, round + 1;
    }
  }
}
