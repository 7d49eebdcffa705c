/** Tool calls assembled from streamed fragments. */
module ToolCalls {

  /** One entry of a chunk's tool_calls; a missing field reads as empty. */
  datatype Delta = Delta(index: int, id: string, typ: string, name: string, args: string)

  /** What has been gathered for one index. */
  datatype Accum = Accum(id: string, typ: string, name: string, args: string)

  datatype Call = Call(id: string, typ: string, name: string, args: string)

  const WEB_SEARCH := "web_search"
  const EMPTY := Accum("", "", "", "")

  // ---- What the fragments mean ----

  /** The fragments of one index, in order. */
  function Part(ds: seq<Delta>, index: int): seq<Delta> {
    if ds == [] then []
    else
      var k := |ds| - 1;
      Part(ds[..k], index) + if ds[k].index == index then [ds[k]] else []
  }

  /** The indexes in order of first appearance. */
  function Order(ds: seq<Delta>): seq<int> {
    if ds == [] then []
    else
      var k := |ds| - 1;
      var before := Order(ds[..k]);
      before + if ds[k].index in before then [] else [ds[k].index]
  }

  function Latest(before: string, next: string): string { if next != "" then next else before }

  /** Last non-empty id, type and name; all arguments joined. */
  function Gathered(ds: seq<Delta>): Accum {
    if ds == [] then EMPTY
    else
      var k := |ds| - 1;
      var a := Gathered(ds[..k]);
      Accum(Latest(a.id, ds[k].id), Latest(a.typ, ds[k].typ), Latest(a.name, ds[k].name), a.args + ds[k].args)
  }

  function CallOf(a: Accum): Call { Call(a.id, if a.typ == "" then "function" else a.typ, a.name, a.args) }

  /** The named calls of the listed indexes; a nameless one is dropped. */
  function CallsFor(ds: seq<Delta>, order: seq<int>): seq<Call> {
    if order == [] then []
    else
      var k := |order| - 1;
      var a := Gathered(Part(ds, order[k]));
      CallsFor(ds, order[..k]) + if a.name == "" then [] else [CallOf(a)]
  }

  function Assembled(ds: seq<Delta>): seq<Call> { CallsFor(ds, Order(ds)) }

  predicate AllWebSearch(calls: seq<Call>) {
    calls != [] && forall i :: 0 <= i < |calls| ==> calls[i].name == WEB_SEARCH
  }

  /** allWebSearch: there are calls and each is of the gateway's tool. */
  method OnlyWebSearch(calls: seq<Call>) returns (only: bool)
    ensures only == AllWebSearch(calls)
    ensures only <==> calls != [] && forall i :: 0 <= i < |calls| ==> calls[i].name == "web_search"
  {
    for i := 0 to |calls|
      invariant forall j :: 0 <= j < i ==> calls[j].name == "web_search"
    {
      if calls[i].name != WEB_SEARCH { return false; }
    }
    only := |calls| > 0;
  }

  // ---- What the assembled calls are, fragment by fragment ----

  datatype Field = Id | Type | Name

  function TextOf(d: Delta, f: Field): string {
    match f
    case Id => d.id
    case Type => d.typ
    case Name => d.name
  }

  /** The last non-empty text said about an index. */
  function LastSaid(ds: seq<Delta>, index: int, f: Field): string {
    if ds == [] then ""
    else
      var d := ds[|ds| - 1];
      if d.index == index && TextOf(d, f) != "" then TextOf(d, f) else LastSaid(ds[..|ds| - 1], index, f)
  }

  /** All arguments said about an index, one after the other. */
  function AllArgs(ds: seq<Delta>, index: int): string {
    if ds == [] then ""
    else
      var before, d := AllArgs(ds[..|ds| - 1], index), ds[|ds| - 1];
      if d.index == index then before + d.args else before
  }

  /** The call that was spelled out for an index; without a type it is a function. */
  function CallFor(ds: seq<Delta>, index: int): Call {
    var typ := LastSaid(ds, index, Type);
    Call(LastSaid(ds, index, Id), if typ == "" then "function" else typ, LastSaid(ds, index, Name), AllArgs(ds, index))
  }

  lemma {:induction false} GatheredIs(ds: seq<Delta>, index: int)
    ensures Gathered(Part(ds, index))
         == Accum(LastSaid(ds, index, Id), LastSaid(ds, index, Type), LastSaid(ds, index, Name), AllArgs(ds, index))
  {
    if ds != [] {
      var init, d := ds[..|ds| - 1], ds[|ds| - 1];
      GatheredIs(init, index);
      if d.index == index {
        assert Part(ds, index) == Part(init, index) + [d];
        GatheredAppend(Part(init, index), d);
      } else {
        assert Part(ds, index) == Part(init, index);
      }
    }
  }

  /** How many of the indexes were given a name. */
  function Named(ds: seq<Delta>, order: seq<int>): nat {
    if order == [] then 0
    else Named(ds, order[..|order| - 1]) + if LastSaid(ds, order[|order| - 1], Name) == "" then 0 else 1
  }

  lemma CallsForStep(ds: seq<Delta>, order: seq<int>)
    requires order != []
    ensures var init, index := order[..|order| - 1], order[|order| - 1];
      CallsFor(ds, order)
      == CallsFor(ds, init) + if LastSaid(ds, index, Name) == "" then [] else [CallFor(ds, index)]
  {
    GatheredIs(ds, order[|order| - 1]);
  }

  lemma {:induction false} CallsForAt(ds: seq<Delta>, order: seq<int>, k: nat)
    requires k < |order|
    ensures |CallsFor(ds, order)| == Named(ds, order)
    ensures LastSaid(ds, order[k], Name) != "" ==>
      Named(ds, order[..k]) < Named(ds, order) && CallsFor(ds, order)[Named(ds, order[..k])] == CallFor(ds, order[k])
  {
    hide CallFor, LastSaid;
    var m := |order| - 1;
    CallsForStep(ds, order);
    if m > 0 {
      CallsForAt(ds, order[..m], if k < m then k else 0);
      assert k < m ==> order[..m][..k] == order[..k];
    }
    hide CallsFor;
  }

  predicate Occurs(ds: seq<Delta>, index: int, i: nat) { i < |ds| && ds[i].index == index }

  /** The index occurs at i and not before. */
  predicate FirstAt(ds: seq<Delta>, index: int, i: nat) {
    Occurs(ds, index, i) && forall j :: 0 <= j < i ==> !Occurs(ds, index, j)
  }

  lemma SameFirst(ds: seq<Delta>, n: nat, index: int, i: nat)
    requires n <= |ds|
    ensures i < n ==> (FirstAt(ds[..n], index, i) <==> FirstAt(ds, index, i))
  {
    forall j: nat | j < n ensures Occurs(ds[..n], index, j) <==> Occurs(ds, index, j) {}
  }

  lemma {:induction false} OrderListsAll(ds: seq<Delta>, index: int)
    ensures index in Order(ds) <==> exists i: nat :: FirstAt(ds, index, i)
  {
    if ds != [] {
      var n := |ds| - 1;
      OrderListsAll(ds[..n], index);
      if i: nat :| FirstAt(ds[..n], index, i) {
        SameFirst(ds, n, index, i);
      } else if i: nat :| FirstAt(ds, index, i) {
        SameFirst(ds, n, index, i);
      } else if ds[n].index == index {
        FirstAmong(ds, index, n);
      }
    }
  }

  lemma {:induction false} FirstAmong(ds: seq<Delta>, index: int, i: nat)
    requires Occurs(ds, index, i)
    ensures exists j: nat :: j <= i && FirstAt(ds, index, j)
  {
    if !FirstAt(ds, index, i) {
      var j: nat :| j < i && Occurs(ds, index, j);
      FirstAmong(ds, index, j);
    }
  }

  /** The indexes are listed in the order of their first appearance. */
  lemma {:induction false} OrderIsFirstAppearance(ds: seq<Delta>, k: nat, m: nat, i: nat, j: nat)
    requires k < m < |Order(ds)| && FirstAt(ds, Order(ds)[k], i) && FirstAt(ds, Order(ds)[m], j)
    ensures i < j
  {
    var n := |ds| - 1;
    var init, before := ds[..n], Order(ds[..n]);
    OrderListsAll(init, before[k]);
    var first: nat :| FirstAt(init, before[k], first);
    assert Occurs(ds, before[k], first) && i <= first;
    SameFirst(ds, n, before[k], i);
    if m < |before| {
      OrderListsAll(init, before[m]);
      var second: nat :| FirstAt(init, before[m], second);
      assert Occurs(ds, before[m], second) && j <= second;
      SameFirst(ds, n, before[m], j);
      OrderIsFirstAppearance(init, k, m, i, j);
    } else {
      OrderListsAll(init, ds[n].index);
      if j < n { FirstAmong(init, ds[n].index, j); }
    }
  }

  /** The assembled calls, one for each named index by first appearance: the call of an
      index stands behind those of the named ones before it. */
  lemma AssembledIs(ds: seq<Delta>, k: nat)
    requires k < |Order(ds)|
    ensures |Assembled(ds)| == Named(ds, Order(ds))
    ensures var n := Named(ds, Order(ds)[..k]);
      LastSaid(ds, Order(ds)[k], Name) != "" ==> n < |Assembled(ds)| && Assembled(ds)[n] == CallFor(ds, Order(ds)[k])
  {
    CallsForAt(ds, Order(ds), k);
  }

  // ---- The accumulators ----

  /** The accumulators hold what the fragments so far mean. */
  ghost predicate Accumulated(accs: map<int, Accum>, order: seq<int>, ds: seq<Delta>) {
    && order == Order(ds)
    && (forall i :: i in accs <==> i in order)
    && forall i :: i in accs ==> accs[i] == Gathered(Part(ds, i))
  }

  lemma PartAppend(ds: seq<Delta>, d: Delta, index: int)
    ensures Part(ds + [d], index) == if d.index == index then Part(ds, index) + [d] else Part(ds, index)
  {
    assert (ds + [d])[..|ds|] == ds;
  }

  lemma OrderAppend(ds: seq<Delta>, d: Delta)
    ensures Order(ds + [d]) == Order(ds) + if d.index in Order(ds) then [] else [d.index]
  {
    assert (ds + [d])[..|ds|] == ds;
  }

  lemma GatheredAppend(ds: seq<Delta>, d: Delta)
    ensures var a := Gathered(ds);
      Gathered(ds + [d]) == Accum(Latest(a.id, d.id), Latest(a.typ, d.typ), Latest(a.name, d.name), a.args + d.args)
  {
    assert (ds + [d])[..|ds|] == ds;
  }

  lemma {:induction false} UnseenHasNoPart(ds: seq<Delta>, index: int)
    requires index !in Order(ds)
    ensures Part(ds, index) == []
  {
    if ds != [] { UnseenHasNoPart(ds[..|ds| - 1], index); }
  }

  /** One fragment into the accumulator of its index, made when missing. */
  method Feed(accs: map<int, Accum>, order: seq<int>, d: Delta, ghost ds: seq<Delta>)
    returns (accs': map<int, Accum>, order': seq<int>)
    requires Accumulated(accs, order, ds)
    ensures Accumulated(accs', order', ds + [d])
  {
    var a := EMPTY;
    order' := order;
    if d.index in accs {
      a := accs[d.index];
    } else {
      order' := order + [d.index];
      UnseenHasNoPart(ds, d.index);
    }
    if d.id != "" { a := a.(id := d.id); }
    if d.typ != "" { a := a.(typ := d.typ); }
    if d.name != "" { a := a.(name := d.name); }
    a := a.(args := a.args + d.args);
    accs' := accs[d.index := a];
    OrderAppend(ds, d);
    GatheredAppend(Part(ds, d.index), d);
    forall i | i in accs' ensures accs'[i] == Gathered(Part(ds + [d], i)) { PartAppend(ds, d, i); }
  }

  method AssembleToolCalls(accs: map<int, Accum>, order: seq<int>, ghost ds: seq<Delta>) returns (calls: seq<Call>)
    requires Accumulated(accs, order, ds)
    ensures calls == Assembled(ds)
  {
    calls := [];
    for k := 0 to |order|
      invariant calls == CallsFor(ds, order[..k])
    {
      assert order[..k + 1][..k] == order[..k];
      if order[k] in accs && accs[order[k]].name != "" {
        var a := accs[order[k]];
        calls := calls + [Call(a.id, if a.typ == "" then "function" else a.typ, a.name, a.args)];
      }
    }
    assert order[..|order|] == order;
  }

  // ---- Fragmentation does not matter ----

  ghost predicate SamePart(ds: seq<Delta>, es: seq<Delta>, index: int) {
    Gathered(Part(ds, index)) == Gathered(Part(es, index))
  }

  lemma {:induction false} CallsAgree(ds: seq<Delta>, es: seq<Delta>, order: seq<int>)
    requires forall i :: SamePart(ds, es, i)
    ensures CallsFor(ds, order) == CallsFor(es, order)
  {
    if order != [] {
      CallsAgree(ds, es, order[..|order| - 1]);
      assert SamePart(ds, es, order[|order| - 1]);
    }
  }

  /** Re-interleaving the indexes changes nothing as long as each index keeps its
      fragments in order and the first appearances keep theirs. */
  lemma InterleavingIsIrrelevant(ds: seq<Delta>, es: seq<Delta>)
    requires Order(ds) == Order(es)
    requires forall i :: Part(ds, i) == Part(es, i)
    ensures Assembled(ds) == Assembled(es)
  {
    forall i ensures SamePart(ds, es, i) { assert Part(ds, i) == Part(es, i); }
    CallsAgree(ds, es, Order(ds));
  }

  /** The second half of a cut fragment carries arguments only. */
  function Rest(d: Delta, args: string): Delta { Delta(d.index, "", "", "", args) }

  /** ds with the fragment d + rest sent as two. */
  function Uncut(pre: seq<Delta>, d: Delta, rest: string, post: seq<Delta>): seq<Delta> {
    pre + [d.(args := d.args + rest)] + post
  }

  function Cut(pre: seq<Delta>, d: Delta, rest: string, post: seq<Delta>): seq<Delta> {
    pre + [d] + [Rest(d, rest)] + post
  }

  lemma {:induction false} CutKeepsOrder(pre: seq<Delta>, d: Delta, rest: string, post: seq<Delta>)
    ensures Order(Cut(pre, d, rest, post)) == Order(Uncut(pre, d, rest, post))
  {
    if post == [] {
      OrderAppend(pre, d.(args := d.args + rest));
      OrderAppend(pre, d);
      OrderAppend(pre + [d], Rest(d, rest));
      assert Cut(pre, d, rest, post) == pre + [d] + [Rest(d, rest)];
      assert Uncut(pre, d, rest, post) == pre + [d.(args := d.args + rest)];
    } else {
      var k := |post| - 1;
      CutKeepsOrder(pre, d, rest, post[..k]);
      assert Cut(pre, d, rest, post) == Cut(pre, d, rest, post[..k]) + [post[k]];
      assert Uncut(pre, d, rest, post) == Uncut(pre, d, rest, post[..k]) + [post[k]];
      OrderAppend(Cut(pre, d, rest, post[..k]), post[k]);
      OrderAppend(Uncut(pre, d, rest, post[..k]), post[k]);
    }
  }

  lemma GatheredCut(p: seq<Delta>, d: Delta, rest: string)
    ensures Gathered(p + [d] + [Rest(d, rest)]) == Gathered(p + [d.(args := d.args + rest)])
  {
    GatheredAppend(p, d.(args := d.args + rest));
    GatheredAppend(p, d);
    GatheredAppend(p + [d], Rest(d, rest));
    assert Gathered(p).args + (d.args + rest) == Gathered(p).args + d.args + rest;
  }

  lemma SamePartAppend(ds: seq<Delta>, es: seq<Delta>, d: Delta, index: int)
    requires SamePart(ds, es, index)
    ensures SamePart(ds + [d], es + [d], index)
  {
    PartAppend(ds, d, index);
    PartAppend(es, d, index);
    GatheredAppend(Part(ds, index), d);
    GatheredAppend(Part(es, index), d);
  }

  lemma {:induction false} CutKeepsParts(pre: seq<Delta>, d: Delta, rest: string, post: seq<Delta>, index: int)
    ensures SamePart(Cut(pre, d, rest, post), Uncut(pre, d, rest, post), index)
  {
    if post == [] {
      var whole, second := d.(args := d.args + rest), Rest(d, rest);
      assert Cut(pre, d, rest, post) == pre + [d] + [second];
      assert Uncut(pre, d, rest, post) == pre + [whole];
      PartAppend(pre, whole, index);
      PartAppend(pre, d, index);
      PartAppend(pre + [d], second, index);
      GatheredCut(Part(pre, index), d, rest);
    } else {
      var k := |post| - 1;
      var cut, uncut := Cut(pre, d, rest, post[..k]), Uncut(pre, d, rest, post[..k]);
      CutKeepsParts(pre, d, rest, post[..k], index);
      SamePartAppend(cut, uncut, post[k], index);
      assert Cut(pre, d, rest, post) == cut + [post[k]];
      assert Uncut(pre, d, rest, post) == uncut + [post[k]];
    }
  }

  /** Cutting the arguments of any fragment in two changes nothing. */
  lemma FragmentationIsIrrelevant(pre: seq<Delta>, d: Delta, rest: string, post: seq<Delta>)
    ensures Assembled(Cut(pre, d, rest, post)) == Assembled(Uncut(pre, d, rest, post))
  {
    CutKeepsOrder(pre, d, rest, post);
    forall i ensures SamePart(Cut(pre, d, rest, post), Uncut(pre, d, rest, post), i) {
      CutKeepsParts(pre, d, rest, post, i);
    }
    CallsAgree(Cut(pre, d, rest, post), Uncut(pre, d, rest, post), Order(Cut(pre, d, rest, post)));
  }
}
