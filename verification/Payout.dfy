/**
  What one boss's claims can pay out, in every run: no claim is priced above what its player has
  contributed by then, and contributions only grow.
 */
module Payout {
  import opened Ids
  import opened Totals
  import opened Durable
  import opened Ledger
  import opened Protocol
  import opened Soundness
  import opened Conservation
  import opened Guarantees
  import opened Reward
  import Writer
  import Claims

  /** A percentage that the player's current contribution covers. */
  predicate BackedAt(db: Db, key: Key, pct: real) {
    && key.boss in db.bosses
    && db.bosses[key.boss].maxHp > 0
    && key.player in db.bosses[key.boss].totals
    && pct <= Pct(db.bosses[key.boss].totals[key.player], db.bosses[key.boss].maxHp)
  }

  /** Every claim, saved or on its way, is priced at no more than its player contributed. */
  ghost predicate PricesBacked(c: Claims.Counter) {
    && (forall id :: id in c.desk && c.desk[id].Priced? ==> BackedAt(c.db, c.desk[id].key, c.desk[id].pct))
    && (forall k :: k in c.db.claims ==> BackedAt(c.db, k, c.db.claims[k].pct))
  }

  /** A contribution that grows goes on covering the price. */
  lemma BackedAges(db: Db, db': Db, key: Key, pct: real)
    requires BackedAt(db, key, pct) && key.boss in db'.bosses
    requires Advances(db.bosses[key.boss], db'.bosses[key.boss])
    ensures BackedAt(db', key, pct)
  {
    var row, row' := db.bosses[key.boss], db'.bosses[key.boss];
    PctMonotone(row.totals[key.player], row'.totals[key.player], row.maxHp);
  }

  /** Between the two reads of a claim the contribution may have grown; it is priced at the second. */
  lemma ClaimKeepsBacked(c: Claims.Counter, m: Claims.Move)
    requires Claims.OnTheirWay(c) && Claims.Enabled(c.desk, m) && Claims.DeskOk(c.desk) && PricesBacked(c)
    ensures PricesBacked(Claims.Next(c, m))
  {
    var c' := Claims.Next(c, m);
    if m.ReadTotal? {
      var seen := c.desk[m.id];
      assert seen == Claims.SawState(seen.key, seen.state, seen.maxHp);
    }
    forall k | k in c'.db.claims ensures BackedAt(c'.db, k, c'.db.claims[k].pct) {
      if k in c.db.claims { assert BackedAt(c.db, k, c.db.claims[k].pct); }
    }
  }

  lemma WriteKeepsBacked(s: Sys, step: Step, cfg: Writer.Config)
    requires HitsOk(s) && StoreOk(s) && WriterOk(s, cfg) && ClientsOk(s) && DoubtsOk(s) && Enabled(s, step, cfg)
    requires Writes(step) && PricesBacked(Claims.Counter(s.db, s.desk))
    ensures PricesBacked(Claims.Counter(DbAfter(s, step, cfg), s.desk))
  {
    var db' := DbAfter(s, step, cfg);
    forall key, pct | BackedAt(s.db, key, pct) ensures BackedAt(db', key, pct) {
      RowsAdvance(s, step, cfg, key.boss);
      BackedAges(s.db, db', key, pct);
    }
  }

  lemma StepKeepsBacked(s: Sys, step: Step, cfg: Writer.Config)
    requires Sound(s, cfg) && Enabled(s, step, cfg) && PricesBacked(Claims.Counter(s.db, s.desk))
    ensures PricesBacked(Claims.Counter(DbAfter(s, step, cfg), DeskAfter(s, step, cfg)))
  {
    match step
    case Claim(m) => ClaimKeepsBacked(Claims.Counter(s.db, s.desk), m);
    case _ => if Writes(step) { WriteKeepsBacked(s, step, cfg); }
  }

  lemma {:induction false} RunsKeepBacked(s: Sys, run: seq<Step>, cfg: Writer.Config)
    requires Sound(s, cfg) && Legal(s, run, cfg) && PricesBacked(Claims.Counter(s.db, s.desk))
    ensures PricesBacked(Claims.Counter(After(s, run, cfg).db, After(s, run, cfg).desk))
    decreases |run|
  {
    if run != [] {
      var init := run[..|run| - 1];
      RunsKeepBacked(s, init, cfg);
      EveryRunIsSound(s, init, cfg);
      StepKeepsBacked(After(s, init, cfg), run[|run| - 1], cfg);
    }
  }

  /** The claim rows of one boss, by player. */
  function ClaimsOf(db: Db, b: BossId): map<PlayerId, ClaimRow> {
    map k | k in db.claims && k.boss == b :: k.player := db.claims[k]
  }

  lemma PayoutOf(db: Db, desk: Claims.Desk, b: BossId)
    requires PricesBacked(Claims.Counter(db, desk)) && Claims.ExactlyOnce(Claims.Counter(db, desk))
    requires b in db.bosses && RowOk(db.bosses[b])
    ensures PaysWithin(ClaimsOf(db, b), Total(db.bosses[b].totals), db.bosses[b].maxHp)
  {
    forall p | p in ClaimsOf(db, b)
      ensures Key(b, p) in db.claims && ClaimsOf(db, b)[p] == db.claims[Key(b, p)]
      ensures BackedAt(db, Key(b, p), db.claims[Key(b, p)].pct)
    {}
    PayoutBound(ClaimsOf(db, b), db.bosses[b].totals, db.bosses[b].maxHp);
  }

  /**
    In every run, racing rebuilds included, the claims of a boss pay within its contributions:
    with overshoot they pay in proportion, and how far that goes is bounded.
   */
  lemma PayoutInEveryRun(s: Sys, run: seq<Step>, cfg: Writer.Config, b: BossId)
    requires Initial(s) && cfg.maxBatch > 0 && b in s.db.bosses && Legal(s, run, cfg)
    ensures var t := After(s, run, cfg);
            && b in t.db.bosses
            && PaysWithin(ClaimsOf(t.db, b), Total(t.db.bosses[b].totals), t.db.bosses[b].maxHp)
            && Total(t.db.bosses[b].totals) <=
               t.db.bosses[b].maxHp + WorstRace(s, run, cfg, b) + Sum(t.hits, OfBoss(b), Unacked)
  {
    InitialIsSound(s, cfg);
    EveryRunIsSound(s, run, cfg);
    RunsKeepBacked(s, run, cfg);
    RowsOnlyAdvance(s, run, cfg, b);
    BoundedOvershoot(s, run, cfg, b);
    PayoutOf(After(s, run, cfg).db, After(s, run, cfg).desk, b);
  }
}
