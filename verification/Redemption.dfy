/** Redemption as a protocol: any number of requests for any challenges run
    concurrently with minting, clean-up and the passing of time. Every statement
    on the store is one step; database errors may hit any of them. */
module Redemption {
  import opened Common
  import opened Decimal
  import opened ProofOfWork
  import opened Challenge
  import opened PowStore

  const BONUS_CAP := 8

  /** Plan rates and lifetimes of issued keys. */
  datatype Config = Config(rpmOf: string -> int, keyTTL: int, hashes: Hashes)

  /** A redeem request. `bind` is the binding hash of its client. */
  datatype Request = Request(challengeId: string, bind: string, algo: string, counters: seq<string>)

  function ToChallenge(sc: StoredChallenge): Challenge {
    Challenge(1, sc.id, "api-key", sc.algo, sc.difficulty, sc.salt, sc.bind, sc.issuedAt, sc.expiresAt, sc.plan)
  }

  function Unix(now: int): int { now / SECOND }

  predicate Solved(h: Hashes, sc: StoredChallenge, counters: seq<string>) {
    exists i :: 0 <= i < |counters| && i < MAX_COUNTERS && Wins(h, ToChallenge(sc), counters[i])
  }

  /** The checks between loading and consuming, in their order: the HTTP status of
      the first that fails. */
  function Rejection(h: Hashes, sc: StoredChallenge, req: Request, now: int): Option<int> {
    if Unix(now) > sc.expiresAt then Some(410)
    else if sc.used then Some(409)
    else if now - sc.issuedAt * SECOND < SECOND / 2 then Some(429)
    else if req.bind != sc.bind then Some(403)
    else if req.algo != "" && req.algo != sc.algo then Some(400)
    else if !Solved(h, sc, req.counters) then Some(400)
    else None
  }

  /** How far a request has come. `at` is its own clock reading, `spentAt` that of
      its consume statement; `told` whether it was answered with the key stored for it
      or with an error. */
  datatype Stage =
    | Arrived
    | Loaded(sc: StoredChallenge)
    | Checked(sc: StoredChallenge, at: int)
    | Spent(sc: StoredChallenge, at: int, spentAt: int)
    | Bumped(sc: StoredChallenge, at: int, spentAt: int)
    | Issued(sc: StoredChallenge, at: int, spentAt: int, key: ApiKey, told: bool)
    | Refused(status: int)
    | Lost(sc: StoredChallenge)  // consumed, but no key could be made
  {
    predicate HasChallenge() { !Arrived? && !Refused? }

    /** Its consume statement reported one row. */
    predicate Won() { Spent? || Bumped? || Issued? || Lost? }

    /** Its bonus update is behind it. */
    predicate Redeemed() { Bumped? || Issued? || Lost? }
  }

  datatype Task = Task(req: Request, stage: Stage)

  /** `minted` remembers every challenge ever stored, `bumps` the successful bonus
      updates and `missed` the failed ones. */
  datatype Sys = Sys(
    tables: Tables, clock: int, tasks: map<nat, Task>,
    minted: map<string, StoredChallenge>, bumps: multiset<string>, missed: multiset<string>)

  predicate Init(s: Sys) {
    && s.tables == Tables(map[], map[], map[]) && s.tasks == map[]
    && s.minted == map[] && s.bumps == s.missed == multiset{}
  }

  function At(s: Sys, a: nat, stage: Stage): Sys
    requires a in s.tasks
  {
    s.(tasks := s.tasks[a := s.tasks[a].(stage := stage)])
  }

  // ---- Steps ----

  predicate Ticked(s: Sys, s': Sys) { s'.clock >= s.clock && s' == s.(clock := s'.clock) }

  /** Challenge ids are fresh random identifiers. */
  predicate Minted(s: Sys, s': Sys, sc: StoredChallenge) {
    && sc.id !in s.minted && !sc.used
    && s' == s.(tables := s.tables.(challenges := s.tables.challenges[sc.id := sc]), minted := s.minted[sc.id := sc])
  }

  /** CleanupExpired is two statements; the second may come later or not at all. */
  predicate Cleaned(s: Sys, s': Sys) {
    var left := CleanedUp(s.tables, Unix(s.clock));
    s' == s.(tables := s.tables.(challenges := left.challenges)) || s' == s.(tables := s.tables.(keys := left.keys))
  }

  predicate Came(s: Sys, s': Sys, a: nat, req: Request) {
    a !in s.tasks && s' == s.(tasks := s.tasks[a := Task(req, Arrived)])
  }

  /** GetChallenge. */
  predicate Fetched(s: Sys, s': Sys, a: nat) {
    && a in s.tasks && s.tasks[a].stage == Arrived
    && var id := s.tasks[a].req.challengeId;
    s' == At(s, a, if id == "" then Refused(400)
                   else if id in s.tables.challenges then Loaded(s.tables.challenges[id]) else Refused(404))
  }

  predicate Examined(cfg: Config, s: Sys, s': Sys, a: nat) {
    && a in s.tasks && s.tasks[a].stage.Loaded?
    && var sc := s.tasks[a].stage.sc;
    && var no := Rejection(cfg.hashes, sc, s.tasks[a].req, s.clock);
    s' == At(s, a, if no.Some? then Refused(no.value) else Checked(sc, s.clock))
  }

  /** ConsumeChallenge. */
  predicate Consume(s: Sys, s': Sys, a: nat) {
    && a in s.tasks && s.tasks[a].stage.Checked?
    && var Checked(sc, at) := s.tasks[a].stage;
    && var won := Consumable(s.tables, sc.id, Unix(s.clock));
    s' == At(s.(tables := PowStore.Consumed(s.tables, sc.id, Unix(s.clock))), a,
             if won then Spent(sc, at, s.clock) else Refused(409))
  }

  /** The consume statement fails, with or without having taken effect. */
  predicate ConsumeFailed(s: Sys, s': Sys, a: nat, effect: bool) {
    && a in s.tasks && s.tasks[a].stage.Checked?
    && s' == At(if effect then s.(tables := PowStore.Consumed(s.tables, s.tasks[a].stage.sc.id, Unix(s.clock))) else s,
                a, Refused(500))
  }

  /** BumpIPBonus; an error is only logged, so what matters is whether it took effect. */
  predicate Bump(s: Sys, s': Sys, a: nat, effect: bool) {
    && a in s.tasks && s.tasks[a].stage.Spent?
    && var Spent(sc, at, spentAt) := s.tasks[a].stage;
    && var row := BonusRow(RaisedBits(s.tables.bonus, sc.bind, BONUS_CAP), Unix(s.clock));
    s' == At(if effect
             then s.(tables := s.tables.(bonus := s.tables.bonus[sc.bind := row]), bumps := s.bumps + multiset{sc.bind})
             else s.(missed := s.missed + multiset{sc.bind}), a, Bumped(sc, at, spentAt))
  }

  function KeyFor(cfg: Config, sc: StoredChallenge, at: int, hash: string, prefix: string): ApiKey {
    ApiKey(hash, prefix, sc.plan, cfg.rpmOf(sc.plan), Unix(at), Unix(at + cfg.keyTTL))
  }

  /** InsertAPIKey of a random key; fails when its hash is taken, and may report an error
      although it took effect. */
  predicate Issue(cfg: Config, s: Sys, s': Sys, a: nat, hash: string, prefix: string, told: bool) {
    && a in s.tasks && s.tasks[a].stage.Bumped?
    && var Bumped(sc, at, spentAt) := s.tasks[a].stage;
    && var key := KeyFor(cfg, sc, at, hash, prefix);
    s' == if hash in s.tables.keys then At(s, a, Lost(sc))
          else At(s.(tables := s.tables.(keys := s.tables.keys[hash := key])), a, Issued(sc, at, spentAt, key, told))
  }

  /** Any other internal error. */
  predicate Failed(s: Sys, s': Sys, a: nat) {
    && a in s.tasks && (s.tasks[a].stage.Arrived? || s.tasks[a].stage.Bumped?)
    && s' == At(s, a, if s.tasks[a].stage.Won() then Lost(s.tasks[a].stage.sc) else Refused(500))
  }

  ghost predicate RequestStep(cfg: Config, s: Sys, s': Sys, a: nat) {
    || (exists req :: Came(s, s', a, req))
    || Fetched(s, s', a)
    || Examined(cfg, s, s', a)
    || Consume(s, s', a)
    || (exists effect :: ConsumeFailed(s, s', a, effect))
    || (exists effect :: Bump(s, s', a, effect))
    || (exists hash, prefix, told :: Issue(cfg, s, s', a, hash, prefix, told))
    || Failed(s, s', a)
  }

  ghost predicate Next(cfg: Config, s: Sys, s': Sys) {
    || Ticked(s, s')
    || (exists sc :: Minted(s, s', sc))
    || Cleaned(s, s')
    || (exists a :: RequestStep(cfg, s, s', a))
  }

  ghost predicate Run(cfg: Config, run: seq<Sys>) {
    && |run| > 0 && Init(run[0])
    && forall k :: 0 <= k < |run| - 1 ==> Next(cfg, run[k], run[k + 1])
  }

  // ---- Who passes the checks ----

  /** The text that is hashed. */
  function HashedText(sc: StoredChallenge, counter: string): string {
    "pow-v1" + "|" + (sc.id + "|" + ("api-key" + "|" + (sc.algo + "|" + (DecInt(sc.difficulty) + "|"
    + (sc.salt + "|" + (sc.bind + "|" + counter))))))
  }

  /** A text of one to twenty characters whose hash, read as a number, is below
      2 to the (256 - difficulty). */
  predicate CounterWins(h: Hashes, sc: StoredChallenge, counter: string) {
    var digest := if sc.algo == "sha256" then h.sha256(HashedText(sc, counter))
                  else h.blake3(HashedText(sc, counter));
    && 1 <= |counter| <= 20
    && (sc.difficulty <= 0 || (sc.difficulty <= 256 && Value(digest) < Pow2(256 - sc.difficulty)))
  }

  /** One of the first eight counters wins. */
  predicate Solution(h: Hashes, sc: StoredChallenge, counters: seq<string>) {
    exists i :: 0 <= i < |counters| && i < 8 && CounterWins(h, sc, counters[i])
  }

  lemma HashedTextIsPreimage(sc: StoredChallenge, counter: string)
    ensures Preimage(ToChallenge(sc), counter) == HashedText(sc, counter)
  {
    var text, bits := DecInt(1), DecInt(sc.difficulty);
    assert text == "1" && "pow-v" + text == "pow-v1";
    JoinedStep("pow-v" + text, [sc.id, "api-key", sc.algo, bits, sc.salt, sc.bind], counter);
    JoinedStep(sc.id, ["api-key", sc.algo, bits, sc.salt, sc.bind], counter);
    JoinedStep("api-key", [sc.algo, bits, sc.salt, sc.bind], counter);
    JoinedStep(sc.algo, [bits, sc.salt, sc.bind], counter);
    JoinedStep(bits, [sc.salt, sc.bind], counter);
    JoinedStep(sc.salt, [sc.bind], counter);
    JoinedStep(sc.bind, [], counter);
  }

  lemma JoinedStep(f: string, rest: seq<string>, last: string)
    ensures Joined([f] + rest, last) == f + "|" + Joined(rest, last)
  {
    assert ([f] + rest)[1..] == rest;
  }

  lemma SolvedIff(h: Hashes, sc: StoredChallenge, counters: seq<string>)
    ensures Solved(h, sc, counters) <==> Solution(h, sc, counters)
  {
    forall i | 0 <= i < |counters| ensures Wins(h, ToChallenge(sc), counters[i]) <==> CounterWins(h, sc, counters[i]) {
      HashedTextIsPreimage(sc, counters[i]);
    }
  }

  /** A lookup without an id, or of an unknown one, is refused; else the row is loaded as
      it stands. */
  lemma FetchedIs(s: Sys, s': Sys, a: nat)
    requires Fetched(s, s', a)
    ensures var id, rows := s.tasks[a].req.challengeId, s.tables.challenges;
      s'.tables == s.tables
      && s'.tasks[a].stage == if id == "" then Refused(400) else if id in rows then Loaded(rows[id]) else Refused(404)
  {
  }

  /** A failing statement is answered with 500; once the challenge is consumed it is lost. */
  lemma FailedIs(s: Sys, s': Sys, a: nat)
    requires Failed(s, s', a) || exists effect :: ConsumeFailed(s, s', a, effect)
    ensures s'.tasks[a].stage == if s.tasks[a].stage.Bumped? then Lost(s.tasks[a].stage.sc) else Refused(500)
    ensures s'.tables.keys == s.tables.keys && s'.tables.bonus == s.tables.bonus
  {
  }

  /** An examined request passes if and only if its challenge is not past its expiry and
      was unused when loaded, half a second has passed since it was minted, it comes from
      the client the challenge is bound to, names no other algorithm, and holds a
      solution; else it is refused for the first of these that fails. */
  lemma ExaminedIff(cfg: Config, s: Sys, s': Sys, a: nat)
    requires Examined(cfg, s, s', a)
    ensures var Task(req, Loaded(sc)) := s.tasks[a];
      && var timely, unused := s.clock / 1_000_000_000 <= sc.expiresAt, !sc.used;
      && var slow, bound := s.clock - sc.issuedAt * 1_000_000_000 >= 500_000_000, req.bind == sc.bind;
      && var fits, solved := req.algo == "" || req.algo == sc.algo, Solution(cfg.hashes, sc, req.counters);
      s'.tasks[a].stage == if timely && unused && slow && bound && fits && solved then Checked(sc, s.clock)
                           else if !timely then Refused(410)
                           else if !unused then Refused(409)
                           else if !slow then Refused(429)
                           else if !bound then Refused(403)
                           else Refused(400)
  {
    SolvedIff(cfg.hashes, s.tasks[a].stage.sc, s.tasks[a].req.counters);
    hide Solved, Solution;
  }

  /** A consume statement wins if and only if the row is there, unused and unexpired, and
      then leaves it used; it changes nothing else. */
  lemma ConsumedIff(s: Sys, s': Sys, a: nat)
    requires Consume(s, s', a)
    ensures var id, rows := s.tasks[a].stage.sc.id, s.tables.challenges;
      && (s'.tasks[a].stage.Spent? <==>
            id in rows && !rows[id].used && s.clock / 1_000_000_000 < rows[id].expiresAt)
      && (!s'.tasks[a].stage.Spent? ==> s'.tasks[a].stage == Refused(409))
      && s'.tables.challenges == (if s'.tasks[a].stage.Spent? then rows[id := rows[id].(used := true)] else rows)
      && s'.tables.keys == s.tables.keys && s'.tables.bonus == s.tables.bonus
  {
  }

  /** What an honest client sends in time. */
  predicate Honest(cfg: Config, req: Request, sc: StoredChallenge, now: int) {
    && sc.id == req.challengeId != "" && !sc.used
    && now / 1_000_000_000 < sc.expiresAt && now - sc.issuedAt * 1_000_000_000 >= 500_000_000
    && req.bind == sc.bind && (req.algo == "" || req.algo == sc.algo)
    && Solution(cfg.hashes, sc, req.counters)
  }

  lemma RunOn(cfg: Config, run: seq<Sys>, s: Sys)
    requires Run(cfg, run) && Next(cfg, run[|run| - 1], s)
    ensures Run(cfg, run + [s])
  {
  }

  /** The checks and the consume statement of an honest request, undisturbed. */
  lemma HonestIsSpent(cfg: Config, run: seq<Sys>, a: nat) returns (longer: seq<Sys>)
    requires Run(cfg, run) && a in run[|run| - 1].tasks && run[|run| - 1].tasks[a].stage == Arrived
    requires var s, req := run[|run| - 1], run[|run| - 1].tasks[a].req;
      req.challengeId in s.tables.challenges && Honest(cfg, req, s.tables.challenges[req.challengeId], s.clock)
    ensures Run(cfg, longer) && run <= longer
    ensures var s, end := run[|run| - 1], longer[|longer| - 1];
      && var req := s.tasks[a].req;
      && var id, sc := req.challengeId, s.tables.challenges[req.challengeId];
      end == s.(tables := s.tables.(challenges := s.tables.challenges[id := sc.(used := true)]),
                tasks := s.tasks[a := Task(req, Spent(sc, s.clock, s.clock))])
  {
    var s := run[|run| - 1];
    var req := s.tasks[a].req;
    var sc := s.tables.challenges[req.challengeId];
    var loaded, checked := At(s, a, Loaded(sc)), At(s, a, Checked(sc, s.clock));
    assert Fetched(s, loaded, a) && RequestStep(cfg, s, loaded, a);
    RunOn(cfg, run, loaded);
    SolvedIff(cfg.hashes, sc, req.counters);
    assert Rejection(cfg.hashes, sc, req, s.clock) == None;
    assert loaded.tasks[a := Task(req, Checked(sc, s.clock))] == checked.tasks;
    assert Examined(cfg, loaded, checked, a) && RequestStep(cfg, loaded, checked, a);
    RunOn(cfg, run + [loaded], checked);
    var spent := At(s.(tables := PowStore.Consumed(s.tables, sc.id, Unix(s.clock))), a, Spent(sc, s.clock, s.clock));
    assert checked.tasks[a := Task(req, Spent(sc, s.clock, s.clock))] == spent.tasks;
    assert Consume(checked, spent, a) && RequestStep(cfg, checked, spent, a);
    RunOn(cfg, run + [loaded] + [checked], spent);
    longer := run + [loaded] + [checked] + [spent];
  }

  lemma SpentIsIssued(cfg: Config, run: seq<Sys>, a: nat, hash: string, prefix: string) returns (longer: seq<Sys>)
    requires Run(cfg, run) && a in run[|run| - 1].tasks && run[|run| - 1].tasks[a].stage.Spent?
    requires hash !in run[|run| - 1].tables.keys
    ensures Run(cfg, longer) && run <= longer
    ensures var s, end := run[|run| - 1], longer[|longer| - 1];
      && var Spent(sc, at, spentAt) := s.tasks[a].stage;
      && var key := KeyFor(cfg, sc, at, hash, prefix);
      && a in end.tasks && end.tasks[a].stage == Issued(sc, at, spentAt, key, true)
      && end.tables.challenges == s.tables.challenges && end.tables.keys == s.tables.keys[hash := key]
      && sc.bind in end.tables.bonus && end.tables.bonus[sc.bind].updatedAt == Unix(s.clock)
  {
    var spent := run[|run| - 1];
    var Spent(sc, at, spentAt) := spent.tasks[a].stage;
    var row := BonusRow(RaisedBits(spent.tables.bonus, sc.bind, BONUS_CAP), Unix(spent.clock));
    var bumped := At(spent.(tables := spent.tables.(bonus := spent.tables.bonus[sc.bind := row]),
                            bumps := spent.bumps + multiset{sc.bind}), a, Bumped(sc, at, spentAt));
    assert Bump(spent, bumped, a, true) && RequestStep(cfg, spent, bumped, a);
    RunOn(cfg, run, bumped);
    var key := KeyFor(cfg, sc, at, hash, prefix);
    var issued := At(bumped.(tables := bumped.tables.(keys := bumped.tables.keys[hash := key])), a,
                     Issued(sc, at, spentAt, key, true));
    assert Issue(cfg, bumped, issued, a, hash, prefix, true) && RequestStep(cfg, bumped, issued, a);
    RunOn(cfg, run + [bumped], issued);
    longer := run + [bumped] + [issued];
  }

  /** An honest request that meets no failing statement and no other consumer gets a key:
      from any moment of any run on there is a run to a stored key of the challenge's
      plan, reported to the client, with the challenge used up and the bonus raised. */
  lemma HonestGetsKey(cfg: Config, run: seq<Sys>, a: nat, hash: string, prefix: string) returns (longer: seq<Sys>)
    requires Run(cfg, run) && a in run[|run| - 1].tasks && run[|run| - 1].tasks[a].stage == Arrived
    requires var s, req := run[|run| - 1], run[|run| - 1].tasks[a].req;
      req.challengeId in s.tables.challenges && Honest(cfg, req, s.tables.challenges[req.challengeId], s.clock)
    requires hash !in run[|run| - 1].tables.keys
    ensures Run(cfg, longer) && run <= longer
    ensures var s, end := run[|run| - 1], longer[|longer| - 1];
      && var id := s.tasks[a].req.challengeId;
      && var sc := s.tables.challenges[id];
      && a in end.tasks && end.tasks[a].stage.Issued? && end.tasks[a].stage.told
      && end.tables.keys == s.tables.keys[hash :=
           ApiKey(hash, prefix, sc.plan, cfg.rpmOf(sc.plan), s.clock / 1_000_000_000,
                  (s.clock + cfg.keyTTL) / 1_000_000_000)]
      && end.tasks[a].stage.key == end.tables.keys[hash]
      && end.tables.challenges == s.tables.challenges[id := sc.(used := true)]
      && sc.bind in end.tables.bonus && end.tables.bonus[sc.bind].updatedAt == s.clock / 1_000_000_000
  {
    longer := HonestIsSpent(cfg, run, a);
    hide Honest, Solution, Run;
    longer := SpentIsIssued(cfg, longer, a, hash, prefix);
  }

  // ---- The invariant ----

  predicate SameRecord(a: StoredChallenge, b: StoredChallenge) { a.(used := false) == b.(used := false) }

  /** A table row is a minted challenge, up to its used flag. */
  predicate RowOk(s: Sys, id: string) {
    id in s.tables.challenges ==>
      id in s.minted && SameRecord(s.tables.challenges[id], s.minted[id]) && s.minted[id].id == id
  }

  predicate PassedChecks(cfg: Config, s: Sys, a: nat, at: int)
    requires a in s.tasks && s.tasks[a].stage.HasChallenge()
  {
    at <= s.clock && Rejection(cfg.hashes, s.tasks[a].stage.sc, s.tasks[a].req, at) == None
  }

  predicate TaskOk(cfg: Config, s: Sys, a: nat) {
    a in s.tasks && s.tasks[a].stage.HasChallenge() ==>
      var st := s.tasks[a].stage;
      && st.sc.id in s.minted && SameRecord(st.sc, s.minted[st.sc.id]) && st.sc.id == s.tasks[a].req.challengeId
      && (st.Checked? || st.Spent? || st.Bumped? || st.Issued? ==> PassedChecks(cfg, s, a, st.at))
      && (st.Spent? || st.Bumped? || st.Issued? ==>
            st.at <= st.spentAt <= s.clock && Unix(st.spentAt) < st.sc.expiresAt)
      && (st.Issued? ==> st.key == KeyFor(cfg, st.sc, st.at, st.key.keyHash, st.key.prefix))
      && (st.Won() && st.sc.id in s.tables.challenges ==> s.tables.challenges[st.sc.id].used)
  }

  predicate WinnersDiffer(s: Sys, a: nat, b: nat) {
    a in s.tasks && b in s.tasks && a != b && s.tasks[a].stage.Won() && s.tasks[b].stage.Won() ==>
      s.tasks[a].stage.sc.id != s.tasks[b].stage.sc.id
  }

  function Redemptions(s: Sys, bind: string): set<nat> {
    set a | a in s.tasks && s.tasks[a].stage.Redeemed() && s.tasks[a].stage.sc.bind == bind
  }

  predicate BonusOk(s: Sys, bind: string) {
    && |Redemptions(s, bind)| == s.bumps[bind] + s.missed[bind]
    && (bind in s.tables.bonus <==> s.bumps[bind] > 0)
    && (bind in s.tables.bonus ==>
          s.tables.bonus[bind].bits == if s.bumps[bind] < BONUS_CAP then s.bumps[bind] else BONUS_CAP)
  }

  /** The stored key k was made for request a. */
  predicate OwnerOf(s: Sys, k: string, a: nat) {
    && a in s.tasks && s.tasks[a].stage.Issued? && k in s.tables.keys
    && s.tasks[a].stage.key == s.tables.keys[k] && s.tables.keys[k].keyHash == k
  }

  ghost predicate KeyOk(s: Sys, k: string) { k in s.tables.keys ==> exists a :: OwnerOf(s, k, a) }

  ghost predicate Inv(cfg: Config, s: Sys) {
    && (forall id :: RowOk(s, id))
    && (forall k :: KeyOk(s, k))
    && (forall a :: TaskOk(cfg, s, a))
    && (forall a, b :: WinnersDiffer(s, a, b))
    && (forall bind :: BonusOk(s, bind))
  }

  // ---- Preservation ----

  /** What every step guarantees to the other requests: the clock and the minted
      challenges only grow, and a row of an old challenge is an old row whose used
      flag is not taken back. */
  predicate RowGrows(s: Sys, s': Sys, id: string) {
    && (id in s.minted ==> id in s'.minted && s'.minted[id] == s.minted[id])
    && (id in s.minted && id in s'.tables.challenges ==>
          id in s.tables.challenges && (s.tables.challenges[id].used ==> s'.tables.challenges[id].used))
  }

  ghost predicate Grows(s: Sys, s': Sys) {
    s.clock <= s'.clock && forall id :: RowGrows(s, s', id)
  }

  lemma BystanderOk(cfg: Config, s: Sys, s': Sys, b: nat)
    requires TaskOk(cfg, s, b) && Grows(s, s') && b in s.tasks && b in s'.tasks && s'.tasks[b] == s.tasks[b]
    ensures TaskOk(cfg, s', b)
  {
    if s.tasks[b].stage.HasChallenge() {
      assert RowGrows(s, s', s.tasks[b].stage.sc.id);
    }
  }

  lemma TickedFrame(s: Sys, s': Sys)
    requires Ticked(s, s')
    ensures Grows(s, s')
  {
    forall id ensures RowGrows(s, s', id) {}
  }

  lemma MintedFrame(s: Sys, s': Sys, sc: StoredChallenge)
    requires Minted(s, s', sc)
    ensures Grows(s, s')
  {
    forall id ensures RowGrows(s, s', id) {}
  }

  lemma CleanedFrame(s: Sys, s': Sys)
    requires Cleaned(s, s')
    ensures Grows(s, s')
  {
    forall id ensures RowGrows(s, s', id) {}
  }

  /** A request touches at most the row it consumes. */
  lemma RequestFrame(s: Sys, s': Sys, id: string)
    requires s'.clock == s.clock && s'.minted == s.minted
    requires || s'.tables.challenges == s.tables.challenges
             || s'.tables.challenges == PowStore.Consumed(s.tables, id, Unix(s.clock)).challenges
    ensures Grows(s, s')
  {
    forall x ensures RowGrows(s, s', x) {}
  }

  /** No key is new, and who was given one keeps it. */
  ghost predicate KeysStay(s: Sys, s': Sys) {
    && (forall k :: k in s'.tables.keys ==> k in s.tables.keys && s'.tables.keys[k] == s.tables.keys[k])
    && (forall a :: a in s.tasks && s.tasks[a].stage.Issued? ==> a in s'.tasks && s'.tasks[a] == s.tasks[a])
  }

  lemma KeysKept(s: Sys, s': Sys)
    requires (forall k :: KeyOk(s, k)) && KeysStay(s, s')
    ensures forall k :: KeyOk(s', k)
  {
    forall k ensures KeyOk(s', k) {
      if k in s'.tables.keys {
        assert KeyOk(s, k);
        var a :| OwnerOf(s, k, a);
        assert OwnerOf(s', k, a);
      }
    }
  }

  lemma IssuedKeyOk(cfg: Config, s: Sys, s': Sys, a: nat, hash: string, prefix: string, told: bool)
    requires (forall k :: KeyOk(s, k)) && Issue(cfg, s, s', a, hash, prefix, told)
    ensures forall k :: KeyOk(s', k)
  {
    forall k ensures KeyOk(s', k) {
      if k in s.tables.keys {
        assert KeyOk(s, k);
        var b :| OwnerOf(s, k, b);
        assert OwnerOf(s', k, b);
      } else if k in s'.tables.keys {
        assert OwnerOf(s', k, a);
      }
    }
  }

  /** Steps that touch no task. */
  lemma TableStepKeeps(cfg: Config, s: Sys, s': Sys)
    requires Inv(cfg, s) && Grows(s, s') && s'.tasks == s.tasks && s'.bumps == s.bumps && s'.missed == s.missed
    requires s'.tables.bonus == s.tables.bonus && KeysStay(s, s')
    requires forall id :: RowOk(s', id)
    ensures Inv(cfg, s')
  {
    KeysKept(s, s');
    forall a ensures TaskOk(cfg, s', a) {
      assert TaskOk(cfg, s, a);
      if a in s.tasks { BystanderOk(cfg, s, s', a); }
    }
    forall a, b ensures WinnersDiffer(s', a, b) { assert WinnersDiffer(s, a, b); }
    forall bind ensures BonusOk(s', bind) { assert BonusOk(s, bind) && Redemptions(s', bind) == Redemptions(s, bind); }
  }

  lemma TickedKeeps(cfg: Config, s: Sys, s': Sys)
    requires Inv(cfg, s) && Ticked(s, s')
    ensures Inv(cfg, s')
  {
    TickedFrame(s, s');
    forall id ensures RowOk(s', id) { assert RowOk(s, id); }
    TableStepKeeps(cfg, s, s');
  }

  lemma MintedKeeps(cfg: Config, s: Sys, s': Sys, sc: StoredChallenge)
    requires Inv(cfg, s) && Minted(s, s', sc)
    ensures Inv(cfg, s')
  {
    MintedFrame(s, s', sc);
    forall id ensures RowOk(s', id) { assert RowOk(s, id); }
    TableStepKeeps(cfg, s, s');
  }

  lemma CleanedKeeps(cfg: Config, s: Sys, s': Sys)
    requires Inv(cfg, s) && Cleaned(s, s')
    ensures Inv(cfg, s')
  {
    CleanedFrame(s, s');
    forall id ensures RowOk(s', id) { assert RowOk(s, id); }
    TableStepKeeps(cfg, s, s');
  }

  /** Steps of one request that is not a winner afterwards unless it was before. */
  lemma RequestStepKeeps(cfg: Config, s: Sys, s': Sys, a: nat)
    requires Inv(cfg, s) && Grows(s, s') && a in s'.tasks && s'.tasks == s.tasks[a := s'.tasks[a]]
    requires (forall id :: RowOk(s', id)) && (forall k :: KeyOk(s', k))
    requires TaskOk(cfg, s', a)
    requires forall bind :: BonusOk(s', bind)
    requires s'.tasks[a].stage.Won() ==>
      a in s.tasks && s.tasks[a].stage.Won() && s'.tasks[a].stage.sc == s.tasks[a].stage.sc
    ensures Inv(cfg, s')
  {
    forall b ensures TaskOk(cfg, s', b) {
      assert TaskOk(cfg, s, b);
      if b != a && b in s.tasks { BystanderOk(cfg, s, s', b); }
    }
    forall x, y ensures WinnersDiffer(s', x, y) { assert WinnersDiffer(s, x, y); }
  }

  lemma SameBonus(s: Sys, s': Sys, a: nat)
    requires (forall bind :: BonusOk(s, bind)) && s'.bumps == s.bumps && s'.missed == s.missed
    requires s'.tables.bonus == s.tables.bonus
    requires a in s'.tasks && s'.tasks == s.tasks[a := s'.tasks[a]]
    requires a in s.tasks && s.tasks[a].stage.Redeemed() ==>
      s'.tasks[a].stage.Redeemed() && s'.tasks[a].stage.sc == s.tasks[a].stage.sc
    requires s'.tasks[a].stage.Redeemed() ==> a in s.tasks && s.tasks[a].stage.Redeemed()
    ensures forall bind :: BonusOk(s', bind)
  {
    forall bind ensures BonusOk(s', bind) {
      assert BonusOk(s, bind) && Redemptions(s', bind) == Redemptions(s, bind);
    }
  }

  lemma SameRows(s: Sys, s': Sys)
    requires (forall id :: RowOk(s, id)) && s'.minted == s.minted && s'.tables.challenges == s.tables.challenges
    ensures forall id :: RowOk(s', id)
  {
    forall id ensures RowOk(s', id) { assert RowOk(s, id); }
  }

  /** Requests before their consume statement, and internal errors. */
  ghost predicate PlainStep(cfg: Config, s: Sys, s': Sys, a: nat) {
    (exists req :: Came(s, s', a, req)) || Fetched(s, s', a) || Examined(cfg, s, s', a) || Failed(s, s', a)
  }

  lemma PlainStepTask(cfg: Config, s: Sys, s': Sys, a: nat)
    requires TaskOk(cfg, s, a) && (forall id :: RowOk(s, id)) && PlainStep(cfg, s, s', a)
    ensures s' == s.(tasks := s'.tasks) && a in s'.tasks && s'.tasks == s.tasks[a := s'.tasks[a]]
    ensures TaskOk(cfg, s', a) && (a in s.tasks ==> !s.tasks[a].stage.Issued?)
    ensures var was := a in s.tasks && s.tasks[a].stage.Won();
      && s'.tasks[a].stage.Won() == was && (was ==> s'.tasks[a].stage.sc == s.tasks[a].stage.sc)
      && s'.tasks[a].stage.Redeemed() == was && (was ==> s.tasks[a].stage.Redeemed())
  {
    if Fetched(s, s', a) { assert RowOk(s, s.tasks[a].req.challengeId); }
  }

  lemma PlainStepKeeps(cfg: Config, s: Sys, s': Sys, a: nat)
    requires Inv(cfg, s) && PlainStep(cfg, s, s', a)
    ensures Inv(cfg, s')
  {
    assert TaskOk(cfg, s, a);
    PlainStepTask(cfg, s, s', a);
    hide PlainStep, TaskOk, RowOk, BonusOk;
    RequestFrame(s, s', "");
    SameBonus(s, s', a);
    SameRows(s, s');
    KeysKept(s, s');
    RequestStepKeeps(cfg, s, s', a);
  }

  lemma IssueKeeps(cfg: Config, s: Sys, s': Sys, a: nat, hash: string, prefix: string, told: bool)
    requires Inv(cfg, s) && Issue(cfg, s, s', a, hash, prefix, told)
    ensures Inv(cfg, s')
  {
    RequestFrame(s, s', "");
    SameBonus(s, s', a);
    SameRows(s, s');
    IssuedKeyOk(cfg, s, s', a, hash, prefix, told);
    assert TaskOk(cfg, s', a) by { assert TaskOk(cfg, s, a); }
    hide TaskOk, RowOk, BonusOk, KeyOk;
    RequestStepKeeps(cfg, s, s', a);
  }

  lemma BumpRedeems(s: Sys, s': Sys, a: nat, effect: bool, bind: string)
    requires Bump(s, s', a, effect)
    ensures |Redemptions(s', bind)| == |Redemptions(s, bind)| + if bind == s.tasks[a].stage.sc.bind then 1 else 0
  {
    if bind == s.tasks[a].stage.sc.bind {
      assert Redemptions(s', bind) == Redemptions(s, bind) + {a};
    } else {
      assert Redemptions(s', bind) == Redemptions(s, bind);
    }
  }

  lemma BumpCounts(s: Sys, s': Sys, a: nat, effect: bool, bind: string)
    requires BonusOk(s, bind) && Bump(s, s', a, effect)
    ensures BonusOk(s', bind)
  {
    BumpRedeems(s, s', a, effect, bind);
    hide Redemptions;
  }

  lemma BumpKeeps(cfg: Config, s: Sys, s': Sys, a: nat, effect: bool)
    requires Inv(cfg, s) && Bump(s, s', a, effect)
    ensures Inv(cfg, s')
  {
    RequestFrame(s, s', "");
    SameRows(s, s');
    KeysKept(s, s');
    forall bind ensures BonusOk(s', bind) { BumpCounts(s, s', a, effect, bind); }
    assert TaskOk(cfg, s', a) by { assert TaskOk(cfg, s, a); }
    RequestStepKeeps(cfg, s, s', a);
  }

  lemma ConsumedRows(s: Sys, s': Sys, id: string)
    requires forall x :: RowOk(s, x)
    requires s'.minted == s.minted && s'.tables.challenges == PowStore.Consumed(s.tables, id, Unix(s.clock)).challenges
    ensures forall x :: RowOk(s', x)
  {
    forall x ensures RowOk(s', x) { assert RowOk(s, x) && RowOk(s, id); }
  }

  lemma ConsumeFailedKeeps(cfg: Config, s: Sys, s': Sys, a: nat, effect: bool)
    requires Inv(cfg, s) && ConsumeFailed(s, s', a, effect)
    ensures Inv(cfg, s')
  {
    RequestFrame(s, s', s.tasks[a].stage.sc.id);
    SameBonus(s, s', a);
    if effect { ConsumedRows(s, s', s.tasks[a].stage.sc.id); } else { SameRows(s, s'); }
    KeysKept(s, s');
    RequestStepKeeps(cfg, s, s', a);
  }

  /** The single-use guard: a request wins only while the row is unused, and every
      earlier winner of that challenge would have left it used. */
  lemma ConsumeSeparates(cfg: Config, s: Sys, s': Sys, a: nat)
    requires (forall b :: TaskOk(cfg, s, b)) && (forall b, c :: WinnersDiffer(s, b, c)) && Consume(s, s', a)
    ensures forall x, y :: WinnersDiffer(s', x, y)
  {
    forall x, y ensures WinnersDiffer(s', x, y) {
      assert WinnersDiffer(s, x, y) && TaskOk(cfg, s, x) && TaskOk(cfg, s, y);
    }
  }

  lemma ConsumedTaskOk(cfg: Config, s: Sys, s': Sys, a: nat)
    requires TaskOk(cfg, s, a) && (forall id :: RowOk(s, id)) && Consume(s, s', a)
    ensures TaskOk(cfg, s', a)
  {
    assert RowOk(s, s.tasks[a].stage.sc.id);
  }

  lemma ConsumeKeeps(cfg: Config, s: Sys, s': Sys, a: nat)
    requires Inv(cfg, s) && Consume(s, s', a)
    ensures Inv(cfg, s')
  {
    RequestFrame(s, s', s.tasks[a].stage.sc.id);
    SameBonus(s, s', a);
    ConsumedRows(s, s', s.tasks[a].stage.sc.id);
    KeysKept(s, s');
    ConsumedTaskOk(cfg, s, s', a);
    ConsumeSeparates(cfg, s, s', a);
    hide TaskOk, WinnersDiffer, RowOk, BonusOk, KeyOk, Grows;
    forall b ensures TaskOk(cfg, s', b) {
      assert TaskOk(cfg, s, b);
      if b != a && b in s.tasks { BystanderOk(cfg, s, s', b); } else if b != a { UnknownIsOk(cfg, s', b); }
    }
  }

  lemma UnknownIsOk(cfg: Config, s: Sys, b: nat)
    requires b !in s.tasks
    ensures TaskOk(cfg, s, b)
  {
  }

  lemma NextKeeps(cfg: Config, s: Sys, s': Sys)
    requires Inv(cfg, s) && Next(cfg, s, s')
    ensures Inv(cfg, s')
  {
    if Ticked(s, s') {
      TickedKeeps(cfg, s, s');
    } else if sc :| Minted(s, s', sc) {
      MintedKeeps(cfg, s, s', sc);
    } else if Cleaned(s, s') {
      CleanedKeeps(cfg, s, s');
    } else {
      var a :| RequestStep(cfg, s, s', a);
      if Consume(s, s', a) {
        ConsumeKeeps(cfg, s, s', a);
      } else if effect :| ConsumeFailed(s, s', a, effect) {
        ConsumeFailedKeeps(cfg, s, s', a, effect);
      } else if effect :| Bump(s, s', a, effect) {
        BumpKeeps(cfg, s, s', a, effect);
      } else if hash, prefix, told :| Issue(cfg, s, s', a, hash, prefix, told) {
        IssueKeeps(cfg, s, s', a, hash, prefix, told);
      } else {
        PlainStepKeeps(cfg, s, s', a);
      }
    }
  }

  lemma {:induction false} RunKeeps(cfg: Config, run: seq<Sys>)
    requires Run(cfg, run)
    ensures Inv(cfg, run[|run| - 1])
  {
    var k := |run| - 1;
    if k > 0 {
      assert Next(cfg, run[k - 1], run[k]);
      RunKeeps(cfg, run[..k]);
      NextKeeps(cfg, run[k - 1], run[k]);
    }
  }

  // ---- What every run keeps ----

  /** The stored key k was issued for this challenge. */
  ghost predicate IssuedFor(s: Sys, k: string, id: string) {
    exists a :: OwnerOf(s, k, a) && s.tasks[a].stage.sc.id == id
  }

  /** Each stored key was issued for a challenge, and no two for the same one,
      whatever requests race for it. */
  lemma OneKeyPerChallenge(cfg: Config, run: seq<Sys>, i: nat)
    requires Run(cfg, run) && i < |run|
    ensures forall k :: k in run[i].tables.keys ==> exists id :: IssuedFor(run[i], k, id)
    ensures forall k, l, id :: IssuedFor(run[i], k, id) && IssuedFor(run[i], l, id) ==> k == l
  {
    RunKeeps(cfg, run[..i + 1]);
    var s := run[i];
    forall k | k in s.tables.keys ensures exists id :: IssuedFor(s, k, id) {
      assert KeyOk(s, k);
      var a :| OwnerOf(s, k, a);
      assert IssuedFor(s, k, s.tasks[a].stage.sc.id);
    }
    forall k, l, id | IssuedFor(s, k, id) && IssuedFor(s, l, id) ensures k == l {
      var a :| OwnerOf(s, k, a) && s.tasks[a].stage.sc.id == id;
      var b :| OwnerOf(s, l, b) && s.tasks[b].stage.sc.id == id;
      assert WinnersDiffer(s, a, b);
    }
  }

  /** Even keys that were cleaned up since: no two requests that a key was ever stored for
      named the same challenge. */
  lemma OneIssuePerChallenge(cfg: Config, run: seq<Sys>, i: nat, a: nat, b: nat)
    requires Run(cfg, run) && i < |run| && a in run[i].tasks && b in run[i].tasks
    requires run[i].tasks[a].stage.Issued? && run[i].tasks[b].stage.Issued?
    requires run[i].tasks[a].stage.sc.id == run[i].tasks[b].stage.sc.id
    ensures a == b
  {
    RunKeeps(cfg, run[..i + 1]);
    assert WinnersDiffer(run[i], a, b);
  }

  /** A request that earned this key: it named a minted challenge, came from the
      client that was bound to it, solved it within the first eight counters, not
      implausibly fast, and consumed it before it expired; the key has that
      challenge's plan. */
  predicate Earned(cfg: Config, s: Sys, t: Task, key: ApiKey) {
    && t.stage.Issued? && t.stage.key == key
    && t.req.challengeId in s.minted
    && var sc := s.minted[t.req.challengeId];
    && sc.id == t.req.challengeId && sc.bind == t.req.bind
    && (t.req.algo == "" || t.req.algo == sc.algo)
    && Solution(cfg.hashes, sc, t.req.counters)
    && t.stage.at - sc.issuedAt * 1_000_000_000 >= 500_000_000
    && t.stage.at <= t.stage.spentAt <= s.clock && t.stage.spentAt / 1_000_000_000 < sc.expiresAt
    && key.plan == sc.plan && key.rpm == cfg.rpmOf(sc.plan)
    && key.createdAt == t.stage.at / 1_000_000_000 && key.expiresAt == (t.stage.at + cfg.keyTTL) / 1_000_000_000
  }

  lemma IssuedIsEarned(cfg: Config, s: Sys, a: nat)
    requires Inv(cfg, s) && a in s.tasks && s.tasks[a].stage.Issued?
    ensures Earned(cfg, s, s.tasks[a], s.tasks[a].stage.key)
  {
    var t := s.tasks[a];
    assert TaskOk(cfg, s, a);
    var sc := s.minted[t.req.challengeId];
    assert ToChallenge(t.stage.sc) == ToChallenge(sc);
    SolvedIff(cfg.hashes, sc, t.req.counters);
    assert Solved(cfg.hashes, sc, t.req.counters) == Solved(cfg.hashes, t.stage.sc, t.req.counters);
    hide Solved, Solution, ToChallenge;
  }

  /** Every row of the key table was earned by some request. */
  lemma KeysAreEarned(cfg: Config, run: seq<Sys>, i: nat, k: string) returns (a: nat)
    requires Run(cfg, run) && i < |run| && k in run[i].tables.keys
    ensures OwnerOf(run[i], k, a) && Earned(cfg, run[i], run[i].tasks[a], run[i].tables.keys[k])
  {
    RunKeeps(cfg, run[..i + 1]);
    assert KeyOk(run[i], k);
    a :| OwnerOf(run[i], k, a);
    IssuedIsEarned(cfg, run[i], a);
  }

  /** After n redemptions of a binding its bonus is min(n, 8); each bonus update that took
      no effect takes one off n. */
  lemma BonusCounts(cfg: Config, run: seq<Sys>, i: nat, bind: string)
    requires Run(cfg, run) && i < |run|
    ensures var s := run[i];
      && var n := |Redemptions(s, bind)| - s.missed[bind];
      (if bind in s.tables.bonus then s.tables.bonus[bind].bits else 0) == if n < 8 then n else 8
  {
    RunKeeps(cfg, run[..i + 1]);
    assert BonusOk(run[i], bind);
  }
}
