/**
  Reward claims: `Service.Claim`, `ClaimBasis` and `SaveClaim`, for any number of concurrent
  claimants, each of them interleaved between its two reads and its insert.
 */
module Claims {
  import opened Ids
  import opened Durable
  import opened Reward

  datatype Reason = BossNotFound | BossNotDefeated | NoContribution

  /** Where one claimant stands. `heard` is false when the committed reply was lost. */
  datatype Claimant =
    | SawState(key: Key, state: Status, maxHp: int)
    | Priced(key: Key, tier: Tier, pct: real, payload: Payload)
    | Rejected(key: Key, reason: Reason)
    | Replied(key: Key, row: ClaimRow, first: bool, heard: bool)

  type Desk = map<nat, Claimant>

  datatype Move =
    | ReadState(id: nat, key: Key)
    | ReadTotal(id: nat)
    | Save(id: nat, now: nat, heard: bool)

  datatype Counter = Counter(db: Db, desk: Desk)

  predicate Enabled(desk: Desk, m: Move) {
    match m
    case ReadState(id, _) => id !in desk
    case ReadTotal(id) => id in desk && desk[id].SawState?
    case Save(id, _, _) => id in desk && desk[id].Priced?
  }

  /** First query of `ClaimBasis`: the boss row. */
  function AfterState(db: Db, key: Key): Claimant {
    if key.boss !in db.bosses then Rejected(key, BossNotFound)
    else SawState(key, db.bosses[key.boss].state, db.bosses[key.boss].maxHp)
  }

  /** Second query, then the gates and the price of `Service.Claim`. */
  function AfterTotal(db: Db, c: Claimant): Claimant
    requires c.SawState? && c.maxHp > 0
  {
    if c.state != Defeated then Rejected(c.key, BossNotDefeated)
    else if c.key.boss !in db.bosses || c.key.player !in db.bosses[c.key.boss].totals then
      Rejected(c.key, NoContribution)
    else
      var pct := Pct(db.bosses[c.key.boss].totals[c.key.player], c.maxHp);
      Priced(c.key, TierFor(pct), pct, RewardFor(TierFor(pct)))
  }

  /** `INSERT ... ON CONFLICT DO NOTHING`, reading the existing row back on a conflict. */
  function SaveClaim(claims: map<Key, ClaimRow>, key: Key, row: ClaimRow): (map<Key, ClaimRow>, ClaimRow, bool) {
    if key in claims then (claims, claims[key], false) else (claims[key := row], row, true)
  }

  predicate DeskOk(desk: Desk) {
    forall id :: id in desk && desk[id].SawState? ==> desk[id].maxHp > 0
  }

  function Next(s: Counter, m: Move): Counter
    requires Enabled(s.desk, m) && DeskOk(s.desk)
  {
    match m
    case ReadState(id, key) => s.(desk := s.desk[id := AfterState(s.db, key)])
    case ReadTotal(id) => s.(desk := s.desk[id := AfterTotal(s.db, s.desk[id])])
    case Save(id, now, heard) =>
      var c := s.desk[id];
      var (claims, row, first) := SaveClaim(s.db.claims, c.key, ClaimRow(c.tier, c.pct, c.payload, now));
      Counter(s.db.(claims := claims), s.desk[id := Replied(c.key, row, first, heard)])
  }

  /** One claim with nothing in between: both reads, then the insert. */
  function Alone(db: Db, key: Key, now: nat): (Db, Claimant)
    requires key.boss in db.bosses ==> db.bosses[key.boss].maxHp > 0
  {
    var seen := AfterState(db, key);
    var c := if seen.SawState? then AfterTotal(db, seen) else seen;
    if !c.Priced? then (db, c) else
      var (claims, row, first) := SaveClaim(db.claims, key, ClaimRow(c.tier, c.pct, c.payload, now));
      (db.(claims := claims), Replied(key, row, first, true))
  }

  /** It is what the three moves of a claimant come to when nobody else moves. */
  lemma AloneIsThreeMoves(s: Counter, id: nat, key: Key, now: nat)
    requires DeskOk(s.desk) && id !in s.desk
    requires forall b :: b in s.db.bosses ==> s.db.bosses[b].maxHp > 0
    ensures var (db, c) := Alone(s.db, key, now);
            var s1 := Next(s, ReadState(id, key));
            var s2 := if s1.desk[id].SawState? then Next(s1, ReadTotal(id)) else s1;
            var s3 := if s2.desk[id].Priced? then Next(s2, Save(id, now, true)) else s2;
            s3.db == db && s3.desk == s.desk[id := c]
  {
    var s1 := Next(s, ReadState(id, key));
    assert DeskOk(s1.desk);
    if s1.desk[id].SawState? {
      var s2 := Next(s1, ReadTotal(id));
      assert DeskOk(s2.desk);
      assert s1.desk[id := s2.desk[id]] == s.desk[id := s2.desk[id]];
      if s2.desk[id].Priced? {
        var c := Alone(s.db, key, now).1;
        assert s2.desk[id := c] == s.desk[id := c];
      }
    }
  }

  /** A player who contributed to a boss that Postgres has as defeated. */
  predicate Entitled(db: Db, key: Key) {
    && key.boss in db.bosses
    && db.bosses[key.boss].state == Defeated
    && key.player in db.bosses[key.boss].totals
  }

  predicate Inserted(desk: Desk, id: nat, key: Key) {
    id in desk && desk[id].Replied? && desk[id].key == key && desk[id].first
  }

  /**
    A row exists only for an entitled player, some claimant inserted it, only one did, and every
    reply carries the row.
   */
  ghost predicate ExactlyOnce(s: Counter) {
    && (forall k :: k in s.db.claims ==>
          && Entitled(s.db, k)
          && FairPrice(s.db.claims[k].tier, s.db.claims[k].pct, s.db.claims[k].payload)
          && exists id :: Inserted(s.desk, id, k))
    && (forall id, id', k :: Inserted(s.desk, id, k) && Inserted(s.desk, id', k) ==> id == id')
    && (forall id :: id in s.desk && s.desk[id].Replied? ==>
          s.desk[id].key in s.db.claims && s.db.claims[s.desk[id].key] == s.desk[id].row)
  }

  /** Claimants on their way saw a defeat that is still true, and a price they are entitled to. */
  ghost predicate OnTheirWay(s: Counter) {
    forall id :: id in s.desk ==>
      match s.desk[id]
      case SawState(key, state, maxHp) =>
        && key.boss in s.db.bosses
        && maxHp == s.db.bosses[key.boss].maxHp > 0
        && (state == Defeated ==> s.db.bosses[key.boss].state == Defeated)
      case Priced(key, tier, pct, payload) => Entitled(s.db, key) && FairPrice(tier, pct, payload)
      case _ => true
  }

  ghost predicate Ok(s: Counter) {
    ExactlyOnce(s) && OnTheirWay(s) && forall b :: b in s.db.bosses ==> s.db.bosses[b].maxHp > 0
  }

  lemma OkDesk(s: Counter)
    requires OnTheirWay(s)
    ensures DeskOk(s.desk)
  {
    forall id | id in s.desk && s.desk[id].SawState? ensures s.desk[id].maxHp > 0 {
      var c := s.desk[id];
      assert c == SawState(c.key, c.state, c.maxHp);
    }
  }

  lemma SaveKeepsExactlyOnce(s: Counter, id: nat, now: nat, heard: bool)
    requires Ok(s) && Enabled(s.desk, Save(id, now, heard))
    ensures DeskOk(s.desk) && ExactlyOnce(Next(s, Save(id, now, heard)))
  {
    OkDesk(s);
    var s' := Next(s, Save(id, now, heard));
    var c := s.desk[id];
    assert c == Priced(c.key, c.tier, c.pct, c.payload);
    assert c.key !in s.db.claims ==> Inserted(s'.desk, id, c.key);
    forall k | k in s.db.claims ensures exists i :: Inserted(s'.desk, i, k) {
      var i :| Inserted(s.desk, i, k);
      assert Inserted(s'.desk, i, k);
    }
    forall i, k | Inserted(s'.desk, i, k) && i != id ensures Inserted(s.desk, i, k) && k in s.db.claims {
      assert s.desk[i] == s'.desk[i];
    }
  }

  lemma MoveKeepsOnTheirWay(s: Counter, m: Move)
    requires OnTheirWay(s) && Enabled(s.desk, m) && DeskOk(s.desk)
    requires forall b :: b in s.db.bosses ==> s.db.bosses[b].maxHp > 0
    ensures OnTheirWay(Next(s, m))
  {
    forall id | id in s.desk ensures Next(s, m).desk[id] == s.desk[id] || id == m.id {}
  }

  lemma ReadKeepsExactlyOnce(s: Counter, m: Move)
    requires ExactlyOnce(s) && Enabled(s.desk, m) && DeskOk(s.desk) && !m.Save?
    ensures ExactlyOnce(Next(s, m))
  {
    assert forall i, k :: Inserted(Next(s, m).desk, i, k) <==> Inserted(s.desk, i, k);
  }

  /**
    One claim step keeps everything, and once a row is there it never changes again.
   */
  lemma MoveKeepsOk(s: Counter, m: Move)
    requires Ok(s) && Enabled(s.desk, m)
    ensures DeskOk(s.desk) && Ok(Next(s, m))
    ensures forall k :: k in s.db.claims ==> k in Next(s, m).db.claims && Next(s, m).db.claims[k] == s.db.claims[k]
  {
    OkDesk(s);
    MoveKeepsOnTheirWay(s, m);
    if m.Save? {
      SaveKeepsExactlyOnce(s, m.id, m.now, m.heard);
    } else {
      ReadKeepsExactlyOnce(s, m);
    }
  }

  /** Whatever the damage path commits meanwhile, no claim loses its ground. */
  lemma CommitKeepsOk(s: Counter, db': Db)
    requires Ok(s)
    requires db'.claims == s.db.claims && db'.bosses.Keys == s.db.bosses.Keys
    requires forall b :: b in s.db.bosses ==> Advances(s.db.bosses[b], db'.bosses[b])
    ensures Ok(Counter(db', s.desk))
  {
    forall k | Entitled(s.db, k) ensures Entitled(db', k) {}
  }

  /** A crash forgets the claimants that were on their way; what was replied stays replied. */
  function Crashed(desk: Desk): Desk {
    map id | id in desk && (desk[id].Replied? || desk[id].Rejected?) :: desk[id]
  }

  lemma CrashKeepsOk(s: Counter)
    requires Ok(s)
    ensures Ok(s.(desk := Crashed(s.desk)))
  {
    assert forall i, k :: Inserted(Crashed(s.desk), i, k) <==> Inserted(s.desk, i, k);
  }

  /**
    Exactly once: among any number of claims for one (boss, player), at most one reply is fresh,
    and every reply, fresh or replayed, carries the tier, percentage and payload of the one row.
   */
  lemma RepliesAgree(s: Counter, id: nat, id': nat)
    requires Ok(s)
    requires id in s.desk && id' in s.desk && s.desk[id].Replied? && s.desk[id'].Replied?
    requires s.desk[id].key == s.desk[id'].key
    ensures s.desk[id].row == s.desk[id'].row == s.db.claims[s.desk[id].key]
    ensures s.desk[id].first && s.desk[id'].first ==> id == id'
    ensures exists i :: Inserted(s.desk, i, s.desk[id].key)
  {
    if s.desk[id].first && s.desk[id'].first {
      assert Inserted(s.desk, id, s.desk[id].key) && Inserted(s.desk, id', s.desk[id].key);
    }
  }
}
