/** Choosing a VPN server: filter by region, bans and health, spread over servers not
    yet in use, then the best score with the least load. */
module ServerSelect {
  import opened Common

  datatype Server = Server(status: int, publicKey: string)

  datatype Logical = Logical(name: string, exitCountry: string, status: int, score: real, load: int,
                             servers: seq<Server>)

  /** The position of a physical server: its logical server and its place in it. */
  datatype Spot = Spot(i: nat, j: nat)

  predicate Marked(names: map<string, bool>, name: string) { name in names && names[name] }

  /** The logical server is in the region, not banned and online. */
  predicate Wanted(l: Logical, region: string, banned: map<string, bool>) {
    && (region == "" || l.exitCountry == region)
    && !Marked(banned, l.exitCountry)
    && l.status == 0
  }

  predicate Live(s: Server) { s.status == 0 && s.publicKey != "" }

  /** An online server with a key, of an online logical server in the region (any if none
      is named) whose country is not banned. */
  predicate Eligible(list: seq<Logical>, region: string, banned: map<string, bool>, p: Spot) {
    && p.i < |list| && p.j < |list[p.i].servers|
    && var l, server := list[p.i], list[p.i].servers[p.j];
    && (region == "" || l.exitCountry == region)
    && !(l.exitCountry in banned && banned[l.exitCountry])
    && l.status == 0 && server.status == 0 && server.publicKey != ""
  }

  /** The name of its logical server is one to avoid. */
  predicate Avoided(list: seq<Logical>, avoid: map<string, bool>, p: Spot)
    requires p.i < |list|
  {
    list[p.i].name in avoid && avoid[list[p.i].name]
  }

  predicate Admissible(list: seq<Logical>, region: string, banned: map<string, bool>, avoid: map<string, bool>,
                       p: Spot)
  {
    Eligible(list, region, banned, p) && !Avoided(list, avoid, p)
  }

  /** Reading order. */
  predicate Earlier(p: Spot, q: Spot) { p.i < q.i || (p.i == q.i && p.j < q.j) }

  predicate Better(list: seq<Logical>, p: Spot, q: Spot)
    requires p.i < |list| && q.i < |list|
  {
    var a, b := list[p.i], list[q.i];
    a.score > b.score || (a.score == b.score && a.load < b.load)
  }

  predicate Increasing(found: seq<Spot>) {
    forall k, m :: 0 <= k < m < |found| ==> Earlier(found[k], found[m])
  }

  /** The admissible spots before `end`, in reading order. */
  ghost predicate Lists(found: seq<Spot>, list: seq<Logical>, region: string, banned: map<string, bool>,
                        avoid: map<string, bool>, end: Spot) {
    && (forall p :: p in found <==> Admissible(list, region, banned, avoid, p) && Earlier(p, end))
    && Increasing(found)
  }

  method Collect(list: seq<Logical>, region: string, banned: map<string, bool>, avoid: map<string, bool>)
    returns (found: seq<Spot>)
    ensures forall p :: p in found <==> Admissible(list, region, banned, avoid, p)
    ensures Increasing(found)
  {
    found := [];
    for i := 0 to |list|
      invariant Lists(found, list, region, banned, avoid, Spot(i, 0))
    {
      var l := list[i];
      if Wanted(l, region, banned) && !Marked(avoid, l.name) {
        for j := 0 to |l.servers|
          invariant Lists(found, list, region, banned, avoid, Spot(i, j))
        {
          if Live(l.servers[j]) { found := found + [Spot(i, j)]; }
        }
      }
    }
  }

  /** No spot that satisfies `ok` has a higher score, none with that score a lower load, and
      none with that score and load comes earlier. */
  ghost predicate FirstBest(list: seq<Logical>, ok: Spot -> bool, best: Spot) {
    && ok(best)
    && forall p :: ok(p) ==>
         && p.i < |list| && best.i < |list|
         && var a, b := list[p.i], list[best.i];
         && a.score <= b.score
         && (a.score == b.score ==> a.load >= b.load)
         && (a.score == b.score && a.load == b.load ==> best.i < p.i || (best.i == p.i && best.j <= p.j))
  }

  method Best(list: seq<Logical>, found: seq<Spot>) returns (best: Spot)
    requires found != [] && Increasing(found) && forall p :: p in found ==> p.i < |list|
    ensures FirstBest(list, p => p in found, best)
  {
    best := found[0];
    ghost var at := 0;
    for k := 1 to |found|
      invariant 0 <= at < k && best == found[at]
      invariant forall m :: 0 <= m < k ==> !Better(list, found[m], best)
      invariant forall m :: 0 <= m < at ==> Better(list, best, found[m])
    {
      if Better(list, found[k], best) { best, at := found[k], k; }
    }
  }

  /** There is only one first best spot. */
  lemma FirstBestIsUnique(list: seq<Logical>, ok: Spot -> bool, p: Spot, q: Spot)
    requires FirstBest(list, ok, p) && FirstBest(list, ok, q)
    ensures p == q
  {
    assert Earlier(p, q) || Earlier(q, p) || p == q;
  }

  /** Fails exactly when no eligible server exists, whatever is avoided; otherwise
      the first best of the servers not avoided, or of all when all are avoided. */
  method SelectServer(list: seq<Logical>, region: string, banned: map<string, bool>, avoid: map<string, bool>)
    returns (chosen: Option<Spot>)
    ensures chosen == None <==> forall p :: !Eligible(list, region, banned, p)
    ensures chosen.Some? ==> Eligible(list, region, banned, chosen.value)
    ensures chosen.Some? && Avoided(list, avoid, chosen.value)
      ==> forall p :: Eligible(list, region, banned, p) ==> Avoided(list, avoid, p)
    ensures chosen.Some? ==>
      FirstBest(list,
                p => Eligible(list, region, banned, p)
                     && (Avoided(list, avoid, p) ==> Avoided(list, avoid, chosen.value)),
                chosen.value)
  {
    var found := Collect(list, region, banned, avoid);
    assert forall p :: Admissible(list, region, banned, avoid, p) ==> Eligible(list, region, banned, p);
    if found == [] && |avoid| > 0 {
      assert forall p :: Eligible(list, region, banned, p) ==> !Admissible(list, region, banned, avoid, p);
      found := Collect(list, region, banned, map[]);
      assert forall p :: Eligible(list, region, banned, p) <==> Admissible(list, region, banned, map[], p);
    }
    if found == [] {
      assert forall p :: Eligible(list, region, banned, p) ==> !Admissible(list, region, banned, avoid, p);
      return None;
    }
    var best := Best(list, found);
    return Some(best);
  }
}
