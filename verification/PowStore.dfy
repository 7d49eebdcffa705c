/** The persistent tables of the key gate. Each method is one SQL statement (two
    for the bonus and the clean-up), hence one atomic step; times are Unix seconds. */
module PowStore {
  import opened Common

  datatype StoredChallenge = StoredChallenge(
    id: string, bind: string, plan: string, algo: string, difficulty: int, salt: string,
    issuedAt: int, expiresAt: int, used: bool)

  datatype ApiKey = ApiKey(keyHash: string, prefix: string, plan: string, rpm: int, createdAt: int, expiresAt: int)

  datatype BonusRow = BonusRow(bits: int, updatedAt: int)

  datatype Tables = Tables(
    challenges: map<string, StoredChallenge>, keys: map<string, ApiKey>, bonus: map<string, BonusRow>)

  const CLEANUP_GRACE := 7200
  const BONUS_LIFE := 86400

  predicate Consumable(t: Tables, id: string, now: int) {
    id in t.challenges && !t.challenges[id].used && t.challenges[id].expiresAt > now
  }

  function Consumed(t: Tables, id: string, now: int): Tables {
    if Consumable(t, id, now) then t.(challenges := t.challenges[id := t.challenges[id].(used := true)]) else t
  }

  function CleanedUp(t: Tables, now: int): Tables {
    t.(challenges :=
         map id | id in t.challenges && t.challenges[id].expiresAt >= now - CLEANUP_GRACE :: t.challenges[id],
       keys := map k | k in t.keys && t.keys[k].expiresAt >= now :: t.keys[k])
  }

  function RaisedBits(bonus: map<string, BonusRow>, ip: string, max: int): int {
    if ip !in bonus then 1 else if bonus[ip].bits + 1 < max then bonus[ip].bits + 1 else max
  }

  // ---- The bonus as a history of redemptions ----

  datatype Bump = Bump(ip: string, max: int, at: int)

  function BonusAfter(bumps: seq<Bump>): map<string, BonusRow> {
    if bumps == [] then map[]
    else
      var before, b := BonusAfter(bumps[..|bumps| - 1]), bumps[|bumps| - 1];
      before[b.ip := BonusRow(RaisedBits(before, b.ip, b.max), b.at)]
  }

  function BumpsOf(bumps: seq<Bump>, ip: string): nat {
    if bumps == [] then 0
    else BumpsOf(bumps[..|bumps| - 1], ip) + if bumps[|bumps| - 1].ip == ip then 1 else 0
  }

  function LastBump(bumps: seq<Bump>, ip: string): Option<int> {
    if bumps == [] then None
    else if bumps[|bumps| - 1].ip == ip then Some(bumps[|bumps| - 1].at)
    else LastBump(bumps[..|bumps| - 1], ip)
  }

  /** The binding's bonus was always raised under this cap. */
  predicate CappedAt(bumps: seq<Bump>, ip: string, cap: int) {
    cap >= 1 && forall i :: 0 <= i < |bumps| && bumps[i].ip == ip ==> bumps[i].max == cap
  }

  function Least(a: int, b: int): int { if a < b then a else b }

  /** What the history says the bonus is worth at `now`: one bit per redemption up to
      the cap, and nothing after a day without any. */
  function Worth(bumps: seq<Bump>, ip: string, cap: int, now: int): int {
    var last := LastBump(bumps, ip);
    if last.Some? && last.value > now - 86_400 then Least(BumpsOf(bumps, ip), cap) else 0
  }

  lemma {:induction false} BonusIsHistory(bumps: seq<Bump>, ip: string, cap: int)
    requires CappedAt(bumps, ip, cap)
    ensures var bonus := BonusAfter(bumps);
      && (ip in bonus <==> LastBump(bumps, ip).Some?) && (ip in bonus <==> BumpsOf(bumps, ip) > 0)
      && (ip in bonus ==> bonus[ip] == BonusRow(Least(BumpsOf(bumps, ip), cap), LastBump(bumps, ip).value))
  {
    if bumps != [] {
      var before := bumps[..|bumps| - 1];
      assert CappedAt(before, ip, cap);
      BonusIsHistory(before, ip, cap);
    }
  }

  class Store {
    var challenges: map<string, StoredChallenge>
    var keys: map<string, ApiKey>
    var bonus: map<string, BonusRow>

    ghost var minted: map<string, StoredChallenge>  // every challenge ever inserted
    ghost var spent: set<string>                    // those consumed
    ghost var horizon: int                          // no clean-up dropped anything that expired later
    ghost var bumps: seq<Bump>                      // every raise of a bonus

    function View(): Tables
      reads this`challenges, this`keys, this`bonus
    {
      Tables(challenges, keys, bonus)
    }

    /** The rows are the challenges inserted, marked used when consumed, and kept up to
        the horizon; the bonus table is the history of its raises. */
    ghost predicate Valid()
      reads this`challenges, this`bonus, this`minted, this`spent, this`horizon, this`bumps
    {
      && (forall id :: id in challenges ==> id in minted && challenges[id] == minted[id].(used := id in spent))
      && (forall id :: id in minted && minted[id].expiresAt >= horizon ==> id in challenges)
      && bonus == BonusAfter(bumps)
    }

    constructor ()
      ensures Valid() && View() == Tables(map[], map[], map[])
      ensures minted == map[] && spent == {} && bumps == []
    {
      challenges, keys, bonus := map[], map[], map[];
      minted, spent, horizon, bumps := map[], {}, 0, [];
    }

    /** The primary key makes a second insertion of an id fail. */
    method InsertChallenge(sc: StoredChallenge) returns (ok: bool)
      requires Valid()
      modifies this`challenges, this`minted, this`spent
      ensures Valid() && ok == (sc.id !in old(challenges))
      ensures challenges == if ok then old(challenges)[sc.id := sc.(used := false)] else old(challenges)
      ensures minted == if ok then old(minted)[sc.id := sc.(used := false)] else old(minted)
      ensures spent == if ok then old(spent) - {sc.id} else old(spent)
    {
      ok := sc.id !in challenges;
      if ok {
        challenges := challenges[sc.id := sc.(used := false)];
        minted, spent := minted[sc.id := sc.(used := false)], spent - {sc.id};
      }
    }

    /** A challenge inserted is found again as it was, until it has been expired for
        the grace period and cleaned up; its used flag says whether it was consumed. */
    method GetChallenge(id: string) returns (r: Option<StoredChallenge>)
      requires Valid()
      ensures r.Some? ==> id in minted && r.value == minted[id].(used := id in spent)
      ensures r.None? ==> id !in challenges && (id in minted ==> minted[id].expiresAt < horizon)
    {
      r := if id in challenges then Some(challenges[id]) else None;
    }

    /** True for exactly one caller per challenge: rows affected decide. */
    method ConsumeChallenge(id: string, now: int) returns (won: bool)
      requires Valid()
      modifies this`challenges, this`spent
      ensures Valid()
      ensures won == old(Consumable(View(), id, now)) && View() == old(Consumed(View(), id, now))
      ensures won <==> id in old(challenges) && !old(challenges)[id].used && now < old(challenges)[id].expiresAt
      ensures challenges == if won then old(challenges)[id := old(challenges)[id].(used := true)] else old(challenges)
      ensures !Consumable(View(), id, now)
      ensures won ==> id in minted && id !in old(spent) && spent == old(spent) + {id} && now < minted[id].expiresAt
      ensures !won ==> spent == old(spent)
    {
      won := id in challenges && !challenges[id].used && challenges[id].expiresAt > now;
      if won {
        challenges := challenges[id := challenges[id].(used := true)];
        spent := spent + {id};
      }
    }

    method CleanupExpired(now: int)
      requires Valid()
      modifies this`challenges, this`keys, this`horizon
      ensures Valid() && View() == old(CleanedUp(View(), now))
      ensures forall id :: id in challenges <==> id in old(challenges) && old(challenges)[id].expiresAt >= now - 7_200
      ensures forall id :: id in challenges ==> challenges[id] == old(challenges)[id]
      ensures forall k :: k in keys <==> k in old(keys) && old(keys)[k].expiresAt >= now
      ensures forall k :: k in keys ==> keys[k] == old(keys)[k]
      ensures old(horizon) <= horizon && (horizon == old(horizon) || horizon == now - 7_200)
    {
      challenges := map id | id in challenges && challenges[id].expiresAt >= now - CLEANUP_GRACE :: challenges[id];
      keys := map k | k in keys && keys[k].expiresAt >= now :: keys[k];
      if horizon < now - CLEANUP_GRACE { horizon := now - CLEANUP_GRACE; }
    }

    method InsertAPIKey(k: ApiKey) returns (ok: bool)
      modifies this`keys
      ensures ok == (k.keyHash !in old(keys)) && keys == if ok then old(keys)[k.keyHash := k] else old(keys)
    {
      ok := k.keyHash !in keys;
      if ok { keys := keys[k.keyHash := k]; }
    }

    /** One redemption more; under one cap the bonus is their number, up to the cap. */
    method BumpIPBonus(ip: string, max: int, now: int) returns (bits: int)
      requires Valid()
      modifies this`bonus, this`bumps
      ensures Valid() && bumps == old(bumps) + [Bump(ip, max, now)]
      ensures bits == old(RaisedBits(bonus, ip, max)) && bonus == old(bonus)[ip := BonusRow(bits, now)]
      ensures CappedAt(bumps, ip, max) ==> bits == Least(BumpsOf(bumps, ip), max)
    {
      if ip !in bonus {
        bonus := bonus[ip := BonusRow(1, now)];
      } else {
        var raised := bonus[ip].bits + 1;
        bonus := bonus[ip := BonusRow(if raised < max then raised else max, now)];
      }
      bits := bonus[ip].bits;
      bumps := bumps + [Bump(ip, max, now)];
      assert bumps[..|bumps| - 1] == old(bumps);
      if CappedAt(bumps, ip, max) { BonusIsHistory(bumps, ip, max); }
    }

    /** The bonus is what the redemptions so far make it worth: it decays at once after
        a day without one. */
    method IPBonus(ip: string, now: int) returns (bits: int)
      requires Valid()
      ensures forall cap :: CappedAt(bumps, ip, cap) ==> bits == Worth(bumps, ip, cap, now)
    {
      bits := if ip in bonus && bonus[ip].updatedAt > now - BONUS_LIFE then bonus[ip].bits else 0;
      forall cap | CappedAt(bumps, ip, cap) ensures bits == Worth(bumps, ip, cap, now) {
        BonusIsHistory(bumps, ip, cap);
      }
    }
  }
}
