/** Relaying a streamed completion line by line, withholding tool-call chunks until
    it is known whose calls they are. */
module Stream {
  import opened Common
  import opened ToolCalls

  datatype Usage = Usage(prompt: int, completion: int, total: int)

  /** `finish` says that the finish reason is "tool_calls". */
  datatype Choice = Choice(deltas: seq<Delta>, finish: bool)

  datatype Chunk = Chunk(usage: Option<Usage>, choices: seq<Choice>)

  /** A line of the upstream body: without the data prefix, the [DONE] marker, or
      data, which parses as a chunk or not. */
  datatype Line = Other(text: string) | Done(text: string) | Data(text: string, chunk: Option<Chunk>)

  /** What the client is sent. */
  datatype Out = Relayed(line: Line) | Synthesized(usage: Usage) | ErrorEvent

  const ZERO := Usage(0, 0, 0)

  // ---- What the lines say ----

  function DeltasOf(choices: seq<Choice>): seq<Delta> {
    if choices == [] then [] else DeltasOf(choices[..|choices| - 1]) + choices[|choices| - 1].deltas
  }

  function LineDeltas(x: Line): seq<Delta> {
    if x.Data? && x.chunk.Some? then DeltasOf(x.chunk.value.choices) else []
  }

  predicate Finishes(x: Line) {
    x.Data? && x.chunk.Some? && exists c :: c in x.chunk.value.choices && c.finish
  }

  /** A chunk that carries tool-call fragments or ends a tool-call turn. */
  predicate Tool(x: Line) {
    && x.Data? && x.chunk.Some?
    && exists c :: c in x.chunk.value.choices && (c.deltas != [] || c.finish)
  }

  predicate Reports(x: Line) {
    x.Data? && x.chunk.Some? && x.chunk.value.usage.Some? && x.chunk.value.usage.value.total > 0
  }

  /** All fragments of the lines, in order. */
  function Deltas(lines: seq<Line>): seq<Delta> {
    if lines == [] then [] else Deltas(lines[..|lines| - 1]) + LineDeltas(lines[|lines| - 1])
  }

  /** The last usage reported. */
  function Reported(lines: seq<Line>): Usage {
    if lines == [] then ZERO
    else
      var x := lines[|lines| - 1];
      if Reports(x) then x.chunk.value.usage.value else Reported(lines[..|lines| - 1])
  }

  predicate Finished(lines: seq<Line>) { exists x :: x in lines && Finishes(x) }

  /** The [DONE] at d ends a turn whose calls are all the gateway's. */
  predicate Intercepts(lines: seq<Line>, d: nat) {
    d < |lines| && lines[d].Done? && Finished(lines[..d]) && AllWebSearch(Assembled(Deltas(lines[..d])))
  }

  /** The first intercepted [DONE] from `from` on. */
  function Interception(lines: seq<Line>, from: nat): (d: Option<nat>)
    ensures d.Some? ==> from <= d.value && Intercepts(lines, d.value)
    ensures forall k :: from <= k && (d.Some? ==> k < d.value) ==> !Intercepts(lines, k)
    decreases |lines| - from
  {
    if from >= |lines| then None
    else if Intercepts(lines, from) then Some(from)
    else Interception(lines, from + 1)
  }

  // ---- What is relayed ----

  /** The lines with the data prefix, [DONE] included. */
  function DataOf(lines: seq<Line>): seq<Line> {
    if lines == [] then []
    else
      var k := |lines| - 1;
      DataOf(lines[..k]) + if lines[k].Other? then [] else [lines[k]]
  }

  function OthersOf(lines: seq<Line>): seq<Line> {
    if lines == [] then []
    else
      var k := |lines| - 1;
      OthersOf(lines[..k]) + if lines[k].Other? then [lines[k]] else []
  }

  /** The tool-call chunks after the last data line that is none. */
  function Tail(lines: seq<Line>): seq<Line> {
    if lines == [] then []
    else
      var k := |lines| - 1;
      if lines[k].Other? then Tail(lines[..k])
      else if Tool(lines[k]) then Tail(lines[..k]) + [lines[k]]
      else []
  }

  /** The lines withheld after reading `lines`. */
  function Held(lines: seq<Line>, intercept: bool): seq<Line> { if intercept then Tail(lines) else [] }

  /** The lines passed on after reading `lines`: other lines at once, tool-call
      chunks together with the next data line that is none. */
  function Released(lines: seq<Line>, intercept: bool): seq<Line> {
    if lines == [] then []
    else
      var k := |lines| - 1;
      var before := Released(lines[..k], intercept);
      if lines[k].Other? then before + [lines[k]]
      else if intercept && Tool(lines[k]) then before
      else before + Held(lines[..k], intercept) + [lines[k]]
  }

  lemma OneMore(lines: seq<Line>, x: Line)
    ensures DataOf(lines + [x]) == if x.Other? then DataOf(lines) else DataOf(lines) + [x]
    ensures OthersOf(lines + [x]) == if x.Other? then OthersOf(lines) + [x] else OthersOf(lines)
  {
    assert (lines + [x])[..|lines|] == lines;
  }

  lemma {:induction false} DataOfAppend(a: seq<Line>, b: seq<Line>)
    ensures DataOf(a + b) == DataOf(a) + DataOf(b)
  {
    if b == [] {
      assert a + b == a;
    } else {
      var init, x := b[..|b| - 1], b[|b| - 1];
      assert b == init + [x] && a + b == (a + init) + [x];
      DataOfAppend(a, init);
      OneMore(init, x);
      OneMore(a + init, x);
      if !x.Other? { assert DataOf(a) + DataOf(init) + [x] == DataOf(a) + (DataOf(init) + [x]); }
    }
  }

  lemma {:induction false} OthersOfAppend(a: seq<Line>, b: seq<Line>)
    ensures OthersOf(a + b) == OthersOf(a) + OthersOf(b)
  {
    if b == [] {
      assert a + b == a;
    } else {
      var init, x := b[..|b| - 1], b[|b| - 1];
      assert b == init + [x] && a + b == (a + init) + [x];
      OthersOfAppend(a, init);
      OneMore(init, x);
      OneMore(a + init, x);
      if x.Other? { assert OthersOf(a) + OthersOf(init) + [x] == OthersOf(a) + (OthersOf(init) + [x]); }
    }
  }

  predicate AllTools(lines: seq<Line>) { forall i :: 0 <= i < |lines| ==> Tool(lines[i]) }

  /** Only tool-call chunks are held back. */
  lemma {:induction false} HeldAreTools(lines: seq<Line>, intercept: bool)
    ensures AllTools(Held(lines, intercept))
  {
    if lines != [] { HeldAreTools(lines[..|lines| - 1], intercept); }
  }

  lemma {:induction false} ToolsAreData(lines: seq<Line>)
    requires AllTools(lines)
    ensures DataOf(lines) == lines && OthersOf(lines) == []
  {
    if lines != [] {
      var init, x := lines[..|lines| - 1], lines[|lines| - 1];
      assert lines == init + [x] && Tool(x);
      ToolsAreData(init);
      OneMore(init, x);
    }
  }

  lemma HeldIsData(lines: seq<Line>, intercept: bool)
    ensures DataOf(Held(lines, intercept)) == Held(lines, intercept)
    ensures OthersOf(Held(lines, intercept)) == []
  {
    HeldAreTools(lines, intercept);
    ToolsAreData(Held(lines, intercept));
  }

  lemma ReleasedStep(lines: seq<Line>, x: Line, intercept: bool)
    ensures var before, held := Released(lines, intercept), Held(lines, intercept);
      if x.Other? then Released(lines + [x], intercept) == before + [x] && Held(lines + [x], intercept) == held
      else if intercept && Tool(x) then
        Released(lines + [x], intercept) == before && Held(lines + [x], intercept) == held + [x]
      else Released(lines + [x], intercept) == before + held + [x] && Held(lines + [x], intercept) == []
  {
    assert (lines + [x])[..|lines|] == lines;
  }

  lemma {:induction false} DataIsComplete(lines: seq<Line>, intercept: bool)
    ensures DataOf(Released(lines, intercept)) + Held(lines, intercept) == DataOf(lines)
  {
    if lines != [] {
      var init, x := lines[..|lines| - 1], lines[|lines| - 1];
      assert lines == init + [x];
      DataIsComplete(init, intercept);
      var before, held := Released(init, intercept), Held(init, intercept);
      ReleasedStep(init, x, intercept);
      OneMore(init, x);
      OneMore(before, x);
      HeldIsData(init, intercept);
      DataOfAppend(before, held);
      OneMore(before + held, x);
      if !x.Other? && intercept && Tool(x) {
        assert DataOf(before) + (held + [x]) == DataOf(before) + held + [x];
      }
    }
  }

  lemma {:induction false} OthersAreComplete(lines: seq<Line>, intercept: bool)
    ensures OthersOf(Released(lines, intercept)) == OthersOf(lines)
  {
    if lines != [] {
      var init, x := lines[..|lines| - 1], lines[|lines| - 1];
      assert lines == init + [x];
      OthersAreComplete(init, intercept);
      var before, held := Released(init, intercept), Held(init, intercept);
      ReleasedStep(init, x, intercept);
      OneMore(init, x);
      OneMore(before, x);
      HeldIsData(init, intercept);
      OthersOfAppend(before, held);
      OneMore(before + held, x);
    }
  }

  /** Nothing is lost, duplicated or reordered: the data lines released so far
      followed by those held back are exactly the data lines read, and the other
      lines are exactly those read. */
  lemma TranscriptIsComplete(lines: seq<Line>, intercept: bool)
    ensures DataOf(Released(lines, intercept)) + Held(lines, intercept) == DataOf(lines)
    ensures OthersOf(Released(lines, intercept)) == OthersOf(lines)
  {
    DataIsComplete(lines, intercept);
    OthersAreComplete(lines, intercept);
  }

  predicate EndsPlain(lines: seq<Line>) { lines != [] ==> !Tool(lines[|lines| - 1]) }

  /** The released data lines end with one that is no tool-call chunk. */
  lemma {:induction false} ReleasedEndsPlain(lines: seq<Line>)
    ensures EndsPlain(DataOf(Released(lines, true)))
  {
    if lines != [] {
      var init, x := lines[..|lines| - 1], lines[|lines| - 1];
      assert lines == init + [x];
      ReleasedEndsPlain(init);
      ReleasedStep(init, x, true);
      OneMore(Released(init, true), x);
      OneMore(Released(init, true) + Held(init, true), x);
    }
  }

  /** A client that intercepts nothing is sent the lines as they are. */
  lemma {:induction false} UninterceptedIsVerbatim(lines: seq<Line>)
    ensures Released(lines, false) == lines
  {
    if lines != [] {
      UninterceptedIsVerbatim(lines[..|lines| - 1]);
      assert lines == lines[..|lines| - 1] + [lines[|lines| - 1]];
    }
  }

  // ---- The handler ----

  method FeedChoice(deltas: seq<Delta>, accs: map<int, Accum>, order: seq<int>, ghost ds: seq<Delta>)
    returns (accs': map<int, Accum>, order': seq<int>)
    requires Accumulated(accs, order, ds)
    ensures Accumulated(accs', order', ds + deltas)
  {
    accs', order' := accs, order;
    assert ds + deltas[..0] == ds;
    for m := 0 to |deltas|
      invariant Accumulated(accs', order', ds + deltas[..m])
    {
      accs', order' := Feed(accs', order', deltas[m], ds + deltas[..m]);
      assert ds + deltas[..m] + [deltas[m]] == ds + deltas[..m + 1];
    }
    assert deltas[..|deltas|] == deltas;
  }

  lemma DeltasAppend(ds: seq<Delta>, choices: seq<Choice>, c: Choice)
    ensures ds + DeltasOf(choices + [c]) == ds + DeltasOf(choices) + c.deltas
  {
    assert (choices + [c])[..|choices|] == choices;
  }

  predicate SomeFragments(choices: seq<Choice>) { exists c :: c in choices && c.deltas != [] }

  predicate SomeFinish(choices: seq<Choice>) { exists c :: c in choices && c.finish }

  lemma SomeStep(choices: seq<Choice>, ch: Choice)
    ensures SomeFragments(choices + [ch]) <==> SomeFragments(choices) || ch.deltas != []
    ensures SomeFinish(choices + [ch]) <==> SomeFinish(choices) || ch.finish
  {
    var all := choices + [ch];
    assert ch in all && forall c :: c in choices ==> c in all;
  }

  method FeedChunk(chunk: Chunk, accs: map<int, Accum>, order: seq<int>, ghost ds: seq<Delta>)
    returns (accs': map<int, Accum>, order': seq<int>, hasToolDelta: bool, isFinish: bool)
    requires Accumulated(accs, order, ds)
    ensures Accumulated(accs', order', ds + DeltasOf(chunk.choices))
    ensures hasToolDelta <==> exists c :: c in chunk.choices && c.deltas != []
    ensures isFinish <==> exists c :: c in chunk.choices && c.finish
  {
    accs', order', hasToolDelta, isFinish := accs, order, false, false;
    assert ds + DeltasOf(chunk.choices[..0]) == ds;
    for k := 0 to |chunk.choices|
      invariant Accumulated(accs', order', ds + DeltasOf(chunk.choices[..k]))
      invariant hasToolDelta <==> SomeFragments(chunk.choices[..k])
      invariant isFinish <==> SomeFinish(chunk.choices[..k])
    {
      var ch := chunk.choices[k];
      ghost var fed := ds + DeltasOf(chunk.choices[..k]);
      assert chunk.choices[..k + 1] == chunk.choices[..k] + [ch];
      SomeStep(chunk.choices[..k], ch);
      hide SomeFragments, SomeFinish;
      DeltasAppend(ds, chunk.choices[..k], ch);
      if |ch.deltas| > 0 {
        hasToolDelta := true;
        accs', order' := FeedChoice(ch.deltas, accs', order', fed);
      } else {
        assert fed + ch.deltas == fed;
      }
      if ch.finish { isFinish := true; }
    }
    assert chunk.choices[..|chunk.choices|] == chunk.choices;
  }

  lemma LinesAppend(lines: seq<Line>, x: Line)
    ensures Deltas(lines + [x]) == if LineDeltas(x) == [] then Deltas(lines) else Deltas(lines) + LineDeltas(x)
    ensures Finished(lines + [x]) <==> Finished(lines) || Finishes(x)
    ensures Reported(lines + [x]) == if Reports(x) then x.chunk.value.usage.value else Reported(lines)
  {
    assert (lines + [x])[..|lines|] == lines;
    assert x in lines + [x];
    if Finished(lines) {
      var y :| y in lines && Finishes(y);
      assert y in lines + [x];
    }
  }

  /** Feeds a data line's fragments; says whether it has any and whether it ends a
      tool-call turn. An unparsable line has none. */
  method FeedLine(line: Line, accs: map<int, Accum>, order: seq<int>, ghost lines: seq<Line>)
    returns (accs': map<int, Accum>, order': seq<int>, hasToolDelta: bool, isFinish: bool)
    requires line.Data? && Accumulated(accs, order, Deltas(lines))
    ensures Accumulated(accs', order', Deltas(lines + [line]))
    ensures isFinish <==> Finishes(line)
    ensures hasToolDelta || isFinish <==> Tool(line)
  {
    LinesAppend(lines, line);
    accs', order', hasToolDelta, isFinish := accs, order, false, false;
    if line.chunk.Some? {
      accs', order', hasToolDelta, isFinish := FeedChunk(line.chunk.value, accs, order, Deltas(lines));
      assert Deltas(lines) + [] == Deltas(lines);
    }
  }

  datatype StreamResult = StreamResult(out: seq<Out>, usage: Usage, calls: seq<Call>)

  function Relay(lines: seq<Line>): seq<Out> { seq(|lines|, i requires 0 <= i < |lines| => Relayed(lines[i])) }

  /** Where the turn is taken over by the gateway, if anywhere. */
  function TakenOver(lines: seq<Line>, intercept: bool): Option<nat> {
    if intercept then Interception(lines, 0) else None
  }

  function Streamed(lines: seq<Line>, interrupted: bool, intercept: bool): StreamResult {
    match TakenOver(lines, intercept)
    case Some(d) =>
      StreamResult(Relay(Released(lines[..d], true)), Reported(lines[..d]), Assembled(Deltas(lines[..d])))
    case None =>
      StreamResult(Relay(Released(lines, intercept) + Held(lines, intercept))
                   + if interrupted then [ErrorEvent] else [],
                   Reported(lines), [])
  }

  /** The state of the loop after some lines. */
  ghost predicate Read(lines: seq<Line>, intercept: bool, out: seq<Out>, buffered: seq<Line>, usage: Usage,
                       finished: bool) {
    && out == Relay(Released(lines, intercept)) && buffered == Held(lines, intercept)
    && usage == Reported(lines) && finished == (intercept && Finished(lines))
  }

  lemma RelayAppend(a: seq<Line>, b: seq<Line>)
    ensures Relay(a + b) == Relay(a) + Relay(b)
  {
  }

  /** A tool-call chunk joins the withheld lines. */
  lemma Withholds(lines: seq<Line>, x: Line, out: seq<Out>, buffered: seq<Line>, usage: Usage, finished: bool)
    requires Read(lines, true, out, buffered, usage, finished) && Tool(x)
    ensures Read(lines + [x], true, out, buffered + [x],
                 if Reports(x) then x.chunk.value.usage.value else usage, finished || Finishes(x))
  {
    LinesAppend(lines, x);
    ReleasedStep(lines, x, true);
  }

  /** Any other data line releases what was withheld and follows it. */
  lemma Flushes(lines: seq<Line>, x: Line, intercept: bool, out: seq<Out>, buffered: seq<Line>, usage: Usage,
                finished: bool)
    requires Read(lines, intercept, out, buffered, usage, finished) && !x.Other? && !(intercept && Tool(x))
    ensures Read(lines + [x], intercept, out + Relay(buffered) + [Relayed(x)], [],
                 if Reports(x) then x.chunk.value.usage.value else usage, finished)
  {
    assert Finished(lines + [x]) && intercept <==> finished by {
      LinesAppend(lines, x);
      assert Finishes(x) ==> Tool(x);
    }
    assert Reported(lines + [x]) == if Reports(x) then x.chunk.value.usage.value else usage by {
      LinesAppend(lines, x);
    }
    ReleasedStep(lines, x, intercept);
    RelayAppend(Released(lines, intercept), buffered);
    RelayAppend(Released(lines, intercept) + buffered, [x]);
  }

  /** A line without the data prefix passes at once. */
  lemma Passes(lines: seq<Line>, x: Line, intercept: bool, out: seq<Out>, buffered: seq<Line>, usage: Usage,
               finished: bool)
    requires Read(lines, intercept, out, buffered, usage, finished) && x.Other?
    ensures Read(lines + [x], intercept, out + [Relayed(x)], buffered, usage, finished)
  {
    LinesAppend(lines, x);
    ReleasedStep(lines, x, intercept);
    RelayAppend(Released(lines, intercept), [x]);
  }

  /** The handler's variables. */
  datatype Turn = Turn(out: seq<Out>, buffered: seq<Line>, usage: Usage, sawUsageChunk: bool, finishToolCalls: bool,
                       accs: map<int, Accum>, callOrder: seq<int>)

  ghost predicate After(t: Turn, lines: seq<Line>, intercept: bool) {
    && Read(lines, intercept, t.out, t.buffered, t.usage, t.finishToolCalls)
    && Accumulated(t.accs, t.callOrder, Deltas(lines))
    && (t.usage.total > 0 ==> t.sawUsageChunk)
  }

  method OnData(line: Line, t: Turn, interceptTools: bool, ghost lines: seq<Line>) returns (t': Turn)
    requires line.Data? && After(t, lines, interceptTools)
    ensures After(t', lines + [line], interceptTools)
  {
    t' := t;
    var chunk := line.chunk;
    if chunk.Some? && chunk.value.usage.Some? && chunk.value.usage.value.total > 0 {
      t' := t'.(usage := chunk.value.usage.value, sawUsageChunk := true);
    }
    var accs, callOrder, hasToolDelta, isFinish := FeedLine(line, t.accs, t.callOrder, lines);
    t' := t'.(accs := accs, callOrder := callOrder);
    if interceptTools && (hasToolDelta || isFinish) {
      Withholds(lines, line, t.out, t.buffered, t.usage, t.finishToolCalls);
      if isFinish { t' := t'.(finishToolCalls := true); }
      t' := t'.(buffered := t.buffered + [line]);
    } else {
      Flushes(lines, line, interceptTools, t.out, t.buffered, t.usage, t.finishToolCalls);
      t' := t'.(out := t.out + Relay(t.buffered) + [Relayed(line)], buffered := []);
    }
  }

  method OnDone(line: Line, t: Turn, includeUsage: bool, interceptTools: bool, ghost lines: seq<Line>)
    returns (t': Turn, calls: seq<Call>)
    requires line.Done? && After(t, lines, interceptTools)
    ensures calls != [] <==> interceptTools && Finished(lines) && AllWebSearch(Assembled(Deltas(lines)))
    ensures calls != [] ==> t' == t && calls == Assembled(Deltas(lines))
    ensures forall i :: 0 <= i < |calls| ==> calls[i].name == "web_search"
    ensures calls == [] ==> After(t', lines + [line], interceptTools)
  {
    LinesAppend(lines, line);
    calls := AssembleToolCalls(t.accs, t.callOrder, Deltas(lines));
    var own := OnlyWebSearch(calls);
    if interceptTools && t.finishToolCalls && own { return t, calls; }
    Flushes(lines, line, interceptTools, t.out, t.buffered, t.usage, t.finishToolCalls);
    var out := t.out + Relay(t.buffered);
    if includeUsage && !t.sawUsageChunk && t.usage.total > 0 {
      out := out + [Synthesized(t.usage)];
    }
    return t.(out := out + [Relayed(line)], buffered := []), [];
  }

  method OnOther(line: Line, t: Turn, interceptTools: bool, ghost lines: seq<Line>) returns (t': Turn)
    requires line.Other? && After(t, lines, interceptTools)
    ensures After(t', lines + [line], interceptTools)
  {
    LinesAppend(lines, line);
    Passes(lines, line, interceptTools, t.out, t.buffered, t.usage, t.finishToolCalls);
    t' := t.(out := t.out + [Relayed(line)]);
  }

  method OnLine(line: Line, t: Turn, includeUsage: bool, interceptTools: bool, ghost lines: seq<Line>)
    returns (t': Turn, calls: seq<Call>)
    requires After(t, lines, interceptTools)
    ensures calls != [] <==>
      line.Done? && interceptTools && Finished(lines) && AllWebSearch(Assembled(Deltas(lines)))
    ensures calls != [] ==> t' == t && calls == Assembled(Deltas(lines))
    ensures calls == [] ==> After(t', lines + [line], interceptTools)
  {
    calls := [];
    if line.Done? {
      t', calls := OnDone(line, t, includeUsage, interceptTools, lines);
    } else if line.Data? {
      t' := OnData(line, t, interceptTools, lines);
    } else {
      t' := OnOther(line, t, interceptTools, lines);
    }
  }

  /** The end of the body: nothing withheld is lost, a broken connection is told. */
  method OnEnd(t: Turn, interrupted: bool, interceptTools: bool, ghost lines: seq<Line>)
    returns (result: StreamResult)
    requires After(t, lines, interceptTools) && TakenOver(lines, interceptTools) == None
    ensures result == Streamed(lines, interrupted, interceptTools)
  {
    RelayAppend(Released(lines, interceptTools), t.buffered);
    var out := t.out;
    if |t.buffered| > 0 { out := out + Relay(t.buffered); }
    if interrupted { out := out + [ErrorEvent]; }
    return StreamResult(out, t.usage, []);
  }

  /** includeUsage asks for a usage chunk; none ever has to be made up, because any
      usage the handler knows of was in a chunk it relayed. */
  method HandleStreamResponse(lines: seq<Line>, interrupted: bool, includeUsage: bool, interceptTools: bool)
    returns (result: StreamResult)
    ensures result == Streamed(lines, interrupted, interceptTools)
  {
    var t := Turn([], [], ZERO, false, false, map[], []);
    assert After(t, [], interceptTools);
    hide After, Assembled, Deltas, Finished, AllWebSearch;
    for i := 0 to |lines|
      invariant After(t, lines[..i], interceptTools)
      invariant interceptTools ==> Interception(lines, 0) == Interception(lines, i)
    {
      assert lines[..i + 1] == lines[..i] + [lines[i]];
      var calls;
      t, calls := OnLine(lines[i], t, includeUsage, interceptTools, lines[..i]);
      assert Intercepts(lines, i) && interceptTools <==> calls != [];
      if calls != [] { return StreamResult(t.out, t.usage, calls); }
    }
    assert lines[..|lines|] == lines;
    result := OnEnd(t, interrupted, interceptTools, lines);
  }

  // ---- What the client sees of a turn ----

  /** The upstream lines among what was sent. */
  function Sent(out: seq<Out>): seq<Line> {
    if out == [] then []
    else
      var last := out[|out| - 1];
      Sent(out[..|out| - 1]) + if last.Relayed? then [last.line] else []
  }

  lemma {:induction false} SentRelay(lines: seq<Line>)
    ensures Sent(Relay(lines)) == lines
  {
    if lines != [] {
      var k := |lines| - 1;
      SentRelay(lines[..k]);
      assert Relay(lines)[..k] == Relay(lines[..k]);
    }
  }

  lemma SentRelayError(lines: seq<Line>)
    ensures Sent(Relay(lines) + [ErrorEvent]) == lines
  {
    SentRelay(lines);
    assert (Relay(lines) + [ErrorEvent])[..|lines|] == Relay(lines);
  }

  /** How often [DONE] occurs. */
  function Dones(lines: seq<Line>): nat {
    if lines == [] then 0 else Dones(lines[..|lines| - 1]) + if lines[|lines| - 1].Done? then 1 else 0
  }

  lemma DonesAppend(a: seq<Line>, b: seq<Line>)
    ensures Dones(a + b) == Dones(a) + Dones(b)
  {
    if b == [] {
      assert a + b == a;
    } else {
      var k := |b| - 1;
      assert (a + b)[..|a| + k] == a + b[..k];
      DonesAppend(a, b[..k]);
    }
  }

  lemma {:induction false} DonesAreData(lines: seq<Line>)
    ensures Dones(DataOf(lines)) == Dones(lines)
  {
    if lines != [] {
      var init, x := lines[..|lines| - 1], lines[|lines| - 1];
      assert lines == init + [x];
      DonesAreData(init);
      OneMore(init, x);
      DonesAppend(DataOf(init), [x]);
    }
  }

  lemma {:induction false} ToolsHaveNoDone(lines: seq<Line>)
    requires AllTools(lines)
    ensures Dones(lines) == 0
  {
    if lines != [] {
      assert Tool(lines[|lines| - 1]);
      ToolsHaveNoDone(lines[..|lines| - 1]);
    }
  }

  lemma ReleasedDones(lines: seq<Line>, intercept: bool)
    ensures Dones(Released(lines, intercept)) == Dones(lines)
  {
    var released, held := Released(lines, intercept), Held(lines, intercept);
    TranscriptIsComplete(lines, intercept);
    HeldAreTools(lines, intercept);
    DonesAreData(lines);
    DonesAreData(released);
    DonesAppend(DataOf(released), held);
    ToolsHaveNoDone(held);
  }

  lemma SentOfRelayed(lines: seq<Line>, interrupted: bool, intercept: bool)
    requires TakenOver(lines, intercept) == None
    ensures Sent(Streamed(lines, interrupted, intercept).out) == Released(lines, intercept) + Held(lines, intercept)
  {
    var all := Released(lines, intercept) + Held(lines, intercept);
    SentRelay(all);
    SentRelayError(all);
    assert Relay(all) + [] == Relay(all);
  }

  /** A broken connection, and nothing else, is told at the end. */
  lemma BreakIsTold(lines: seq<Line>, interrupted: bool, intercept: bool)
    requires TakenOver(lines, intercept) == None
    ensures var out := Streamed(lines, interrupted, intercept).out;
      && (ErrorEvent in out <==> interrupted) && (interrupted ==> out[|out| - 1] == ErrorEvent)
  {
    var all := Relay(Released(lines, intercept) + Held(lines, intercept));
    assert ErrorEvent !in all && (all + [ErrorEvent])[|all|] == ErrorEvent;
  }

  /** A turn that is not taken over reaches the client whole: every data line in
      order, every other line in order, and every line in place when nothing is to
      be intercepted. */
  lemma RelayedTurn(lines: seq<Line>, interrupted: bool, intercept: bool)
    requires TakenOver(lines, intercept) == None
    ensures var r := Streamed(lines, interrupted, intercept);
      && DataOf(Sent(r.out)) == DataOf(lines)
      && OthersOf(Sent(r.out)) == OthersOf(lines)
      && Dones(Sent(r.out)) == Dones(lines)
      && (!intercept ==> Sent(r.out) == lines)
      && r.calls == []
      && (ErrorEvent in r.out <==> interrupted)
      && (interrupted ==> r.out[|r.out| - 1] == ErrorEvent)
  {
    BreakIsTold(lines, interrupted, intercept);
    var released, held := Released(lines, intercept), Held(lines, intercept);
    SentOfRelayed(lines, interrupted, intercept);
    hide Relay, Released, Held, Sent;
    TranscriptIsComplete(lines, intercept);
    HeldIsData(lines, intercept);
    HeldAreTools(lines, intercept);
    DataOfAppend(released, held);
    OthersOfAppend(released, held);
    ReleasedDones(lines, intercept);
    DonesAppend(released, held);
    ToolsHaveNoDone(held);
    if !intercept { UninterceptedIsVerbatim(lines); }
  }

  /** A chunk with a tool-call fragment, or with the finish reason that ends such a turn. */
  predicate CarriesCalls(x: Line) {
    && x.Data? && x.chunk.Some?
    && exists i :: 0 <= i < |x.chunk.value.choices|
                   && (x.chunk.value.choices[i].deltas != [] || x.chunk.value.choices[i].finish)
  }

  lemma ToolIs(x: Line)
    ensures Tool(x) <==> CarriesCalls(x)
  {
    if Tool(x) {
      var c :| c in x.chunk.value.choices && (c.deltas != [] || c.finish);
      var i :| 0 <= i < |x.chunk.value.choices| && x.chunk.value.choices[i] == c;
    }
  }

  /** At the [DONE] at d the gateway takes over: a chunk before it ended a tool-call turn,
      calls were assembled, and every one of them is named web_search. */
  predicate Handover(lines: seq<Line>, d: nat) {
    && d < |lines| && lines[d].Done?
    && (exists k :: 0 <= k < d && lines[k].Data? && lines[k].chunk.Some?
                    && exists c :: c in lines[k].chunk.value.choices && c.finish)
    && Assembled(Deltas(lines[..d])) != []
    && forall c :: c in Assembled(Deltas(lines[..d])) ==> c.name == "web_search"
  }

  lemma InterceptsIs(lines: seq<Line>, d: nat)
    ensures Intercepts(lines, d) <==> Handover(lines, d)
  {
    if d < |lines| {
      var read := lines[..d];
      if Finished(read) {
        var x :| x in read && Finishes(x);
        var k :| 0 <= k < |read| && read[k] == x;
        assert lines[k] == x;
      }
      if k :| 0 <= k < d && Finishes(lines[k]) { assert lines[k] in read; }
    }
  }

  predicate FirstHandover(lines: seq<Line>, d: nat) {
    Handover(lines, d) && forall e: nat :: e < d ==> !Handover(lines, e)
  }

  /** These are the calls assembled before the first place to take over. */
  ghost predicate CallsOfFirst(lines: seq<Line>, calls: seq<Call>) {
    exists d: nat :: FirstHandover(lines, d) && calls == Assembled(Deltas(lines[..d]))
  }

  /** A turn hands calls over exactly when interception is on and some [DONE] is a place to
      take over; then they are those assembled before the first one, all named web_search. */
  lemma HandedOverIff(lines: seq<Line>, interrupted: bool, intercept: bool)
    ensures Streamed(lines, interrupted, intercept).calls != [] <==> intercept && exists d: nat :: Handover(lines, d)
    ensures forall c :: c in Streamed(lines, interrupted, intercept).calls ==> c.name == "web_search"
    ensures Streamed(lines, interrupted, intercept).calls != [] ==>
      CallsOfFirst(lines, Streamed(lines, interrupted, intercept).calls)
  {
    forall d: nat ensures Intercepts(lines, d) <==> Handover(lines, d) { InterceptsIs(lines, d); }
    hide Intercepts;
    if TakenOver(lines, intercept).Some? {
      var d := TakenOver(lines, intercept).value;
      assert FirstHandover(lines, d);
      hide Handover, FirstHandover;
      assert CallsOfFirst(lines, Assembled(Deltas(lines[..d])));
    }
  }

  /** A turn in which the client's own calls are assembled, before whatever [DONE], is never
      taken over: the client gets all its data lines and every [DONE]. */
  lemma ForeignCallsAreRelayed(lines: seq<Line>, interrupted: bool, intercept: bool)
    requires forall d :: 0 <= d < |lines| && lines[d].Done? ==>
      exists c :: c in Assembled(Deltas(lines[..d])) && c.name != "web_search"
    ensures var r := Streamed(lines, interrupted, intercept);
      && r.calls == [] && DataOf(Sent(r.out)) == DataOf(lines) && OthersOf(Sent(r.out)) == OthersOf(lines)
      && Dones(Sent(r.out)) == Dones(lines)
  {
    forall d: nat ensures !Intercepts(lines, d) { InterceptsIs(lines, d); }
    RelayedTurn(lines, interrupted, intercept);
  }

  predicate PositiveUsage(x: Line) {
    x.Data? && x.chunk.Some? && x.chunk.value.usage.Some? && x.chunk.value.usage.value.total > 0
  }

  /** The line at k is the last that reports a positive total. */
  predicate LastPositive(lines: seq<Line>, k: nat) {
    k < |lines| && PositiveUsage(lines[k]) && forall m :: k < m < |lines| ==> !PositiveUsage(lines[m])
  }

  /** The usage of a turn is that of the last chunk that reports a positive total. */
  lemma {:induction false} ReportedIs(lines: seq<Line>, k: nat)
    requires LastPositive(lines, k)
    ensures Reported(lines) == lines[k].chunk.value.usage.value
  {
    var n := |lines| - 1;
    if k < n { ReportedIs(lines[..n], k); }
  }

  lemma {:induction false} NothingReported(lines: seq<Line>)
    requires forall k :: 0 <= k < |lines| ==> !PositiveUsage(lines[k])
    ensures Reported(lines) == Usage(0, 0, 0)
  {
    if lines != [] { NothingReported(lines[..|lines| - 1]); }
  }

  /** The fragments of a turn are those of its choices, one after the other. */
  lemma DeltasAreAll(a: seq<Line>, b: seq<Line>, text: string, usage: Option<Usage>, cs: seq<Choice>, c: Choice)
    ensures Deltas([]) == [] && Deltas(a + b) == Deltas(a) + Deltas(b)
    ensures Deltas([Data(text, Some(Chunk(usage, cs + [c])))])
         == Deltas([Data(text, Some(Chunk(usage, cs)))]) + c.deltas
    ensures Deltas([Data(text, Some(Chunk(usage, [])))]) == Deltas([Data(text, None)]) == []
    ensures Deltas([Done(text)]) == Deltas([Other(text)]) == []
  {
    DeltasOfAppend(a, b);
    DeltasOfOne(Data(text, Some(Chunk(usage, cs + [c]))));
    DeltasOfOne(Data(text, Some(Chunk(usage, cs))));
    DeltasOfOne(Data(text, Some(Chunk(usage, []))));
    DeltasOfOne(Data(text, None));
    DeltasOfOne(Done(text));
    DeltasOfOne(Other(text));
    assert (cs + [c])[..|cs|] == cs;
  }

  lemma DeltasOfOne(x: Line)
    ensures Deltas([x]) == LineDeltas(x)
  {
    assert [x][..0] == [];
  }

  lemma DeltasStep(lines: seq<Line>, x: Line)
    ensures Deltas(lines + [x]) == Deltas(lines) + LineDeltas(x)
  {
    assert (lines + [x])[..|lines|] == lines;
  }

  lemma DeltasGlue(p: seq<Delta>, q: seq<Delta>, r: seq<Delta>)
    ensures (p + q) + r == p + (q + r)
  {
  }

  lemma {:induction false} DeltasOfAppend(a: seq<Line>, b: seq<Line>)
    ensures Deltas(a + b) == Deltas(a) + Deltas(b)
  {
    if b == [] {
      assert a + b == a && Deltas(b) == [];
    } else {
      hide Deltas, LineDeltas;
      var init, x := b[..|b| - 1], b[|b| - 1];
      assert b == init + [x] && a + b == (a + init) + [x];
      DeltasOfAppend(a, init);
      DeltasStep(init, x);
      DeltasStep(a + init, x);
      DeltasGlue(Deltas(a), Deltas(init), LineDeltas(x));
    }
  }

  /** A turn taken over at a [DONE] shows the client exactly the data lines up to the
      last one that is no tool-call chunk; what it does not see are the tool-call
      chunks after that, the [DONE], and the rest of the body. The calls handed
      over are all the gateway's own. */
  lemma TakenTurn(lines: seq<Line>, interrupted: bool)
    requires TakenOver(lines, true).Some?
    ensures var r, read := Streamed(lines, interrupted, true), lines[..TakenOver(lines, true).value];
      && DataOf(Sent(r.out)) + Tail(read) == DataOf(read)
      && EndsPlain(DataOf(Sent(r.out)))
      && AllTools(Tail(read))
      && OthersOf(Sent(r.out)) == OthersOf(read)
      && Dones(Sent(r.out)) == Dones(read)
      && (DataOf(Sent(r.out)) != [] ==> !CarriesCalls(DataOf(Sent(r.out))[|DataOf(Sent(r.out))| - 1]))
      && (forall x :: x in Tail(read) ==> CarriesCalls(x))
      && r.calls != [] && forall c :: c in r.calls ==> c.name == "web_search"
  {
    var read := lines[..TakenOver(lines, true).value];
    forall x ensures Tool(x) <==> CarriesCalls(x) { ToolIs(x); }
    SentRelay(Released(read, true));
    TranscriptIsComplete(read, true);
    HeldAreTools(read, true);
    ReleasedEndsPlain(read);
    ReleasedDones(read, true);
  }

  lemma OnlyDone(lines: seq<Line>, d: nat)
    requires d < |lines| && lines[d].Done? && Dones(lines) <= 1
    ensures Dones(lines[..d]) == 0 && Dones(lines) == 1
  {
    assert lines == lines[..d] + [lines[d]] + lines[d + 1..];
    DonesAppend(lines[..d] + [lines[d]], lines[d + 1..]);
    DonesAppend(lines[..d], [lines[d]]);
  }

  /** With one [DONE] upstream, the client sees it exactly when the turn is its own. */
  lemma DoneIsPassedOnIff(lines: seq<Line>, interrupted: bool, intercept: bool)
    requires Dones(lines) <= 1
    ensures Dones(Sent(Streamed(lines, interrupted, intercept).out))
         == if TakenOver(lines, intercept).Some? then 0 else Dones(lines)
  {
    if TakenOver(lines, intercept).Some? {
      TakenTurn(lines, interrupted);
      OnlyDone(lines, TakenOver(lines, intercept).value);
    } else {
      RelayedTurn(lines, interrupted, intercept);
    }
  }
}
