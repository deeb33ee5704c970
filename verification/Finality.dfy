/**
  Defeat is final, prices do not depend on when a claim is made, and one boss's payout is
  bounded: the consequences of exact conservation for rewards.
 */
module Finality {
  import opened Ids
  import opened Totals
  import opened Durable
  import opened Ledger
  import opened Protocol
  import opened Soundness
  import opened Conservation
  import opened Payout
  import opened Reward
  import Writer
  import Claims

  predicate Fallen(s: Sys, b: BossId) {
    b in s.db.bosses && s.db.bosses[b].state == Defeated
  }

  /**
    Once Postgres says defeated, contributions sum to exactly the boss's HP, nothing is in flight,
    and if the boss is loaded it is at 0 HP with nothing unsettled.
   */
  lemma DefeatIsComplete(s: Sys, cfg: Writer.Config, b: BossId)
    requires Sound(s, cfg) && Exact(s, b) && Fallen(s, b)
    ensures Total(s.db.bosses[b].totals) == s.db.bosses[b].maxHp
    ensures Sum(s.hits, OfBoss(b), InFlight) == 0
    ensures b in s.cache ==> s.cache[b].hp == 0 && Sum(s.hits, OfBoss(b), Unsettled) == 0
  {
    assert Sum(s.hits, OfBoss(b), Durably) == StoredIn(s.db, OfBoss(b));
    assert Conserves(s, OfBoss(b));
    SumClasses(s.hits, OfBoss(b));
  }

  /** No batch holds a hit of a fallen boss. */
  lemma NothingLeftToWrite(s: Sys, k: nat, cfg: Writer.Config, b: BossId)
    requires Sound(s, cfg) && Exact(s, b) && Fallen(s, b) && k < |s.writer.lanes|
    ensures Known(s.hits, BatchOf(s, k))
    ensures !Touches(EventsOf(s.hits, BatchOf(s, k)), b)
  {
    BatchIsReady(s, k, cfg);
    DefeatIsComplete(s, cfg, b);
    forall e | e in EventsOf(s.hits, BatchOf(s, k)) ensures e.boss != b {
      var j :| 0 <= j < |BatchOf(s, k)| && e == EventOf(s.hits[BatchOf(s, k)[j]]);
      var i := BatchOf(s, k)[j];
      assert s.hits[i].applied > 0;
      SumCovers(s.hits, i, OfBoss(b), InFlight);
    }
  }

  lemma StepKeepsFallen(s: Sys, step: Step, cfg: Writer.Config, b: BossId)
    requires Sound(s, cfg) && Exact(s, b) && Fallen(s, b) && Enabled(s, step, cfg) && Calm(s, step, b, cfg)
    ensures b in DbAfter(s, step, cfg).bosses && DbAfter(s, step, cfg).bosses[b] == s.db.bosses[b]
  {
    if step.Flush? { NothingLeftToWrite(s, step.lane, cfg, b); }
  }

  /**
    Defeat is final: in every calm continuation of a run, the row of a boss that Postgres has as
    defeated (contributions, HP, state and `defeated_at`) never changes again.
   */
  lemma {:induction false} DefeatIsFinal(s: Sys, run: seq<Step>, cfg: Writer.Config, b: BossId)
    requires Sound(s, cfg) && Exact(s, b) && Fallen(s, b)
    requires Legal(s, run, cfg) && CalmRun(s, run, b, cfg)
    ensures b in After(s, run, cfg).db.bosses
    ensures After(s, run, cfg).db.bosses[b] == s.db.bosses[b]
    decreases |run|
  {
    if run != [] {
      var init := run[..|run| - 1];
      DefeatIsFinal(s, init, cfg, b);
      EveryRunIsSound(s, init, cfg);
      CalmRunsStayExact(s, init, cfg, b);
      StepKeepsFallen(After(s, init, cfg), run[|run| - 1], cfg, b);
    }
  }

  /** A claimant that saw the defeat gets the same price whenever it makes its second read. */
  lemma PriceIsTimeless(s: Sys, run: seq<Step>, cfg: Writer.Config, b: BossId, c: Claims.Claimant)
    requires Sound(s, cfg) && Exact(s, b) && Fallen(s, b)
    requires Legal(s, run, cfg) && CalmRun(s, run, b, cfg)
    requires c.SawState? && c.key.boss == b && c.maxHp > 0
    ensures Claims.AfterTotal(After(s, run, cfg).db, c) == Claims.AfterTotal(s.db, c)
  {
    DefeatIsFinal(s, run, cfg, b);
  }

  // ---------------------------------------------------------------- claims at the final price

  ghost predicate AtFinalPrice(s: Sys, b: BossId, p: PlayerId, pct: real) {
    && b in s.db.bosses
    && p in s.db.bosses[b].totals
    && s.db.bosses[b].maxHp > 0
    && pct == Pct(s.db.bosses[b].totals[p], s.db.bosses[b].maxHp)
  }

  /** Every claim of the boss, saved or on its way, is priced at the final contributions. */
  ghost predicate PricesAreFinal(s: Sys, b: BossId) {
    && (forall id :: id in s.desk && s.desk[id].Priced? && s.desk[id].key.boss == b ==>
          AtFinalPrice(s, b, s.desk[id].key.player, s.desk[id].pct))
    && (forall k :: k in s.db.claims && k.boss == b ==> AtFinalPrice(s, b, k.player, s.db.claims[k].pct))
  }

  /** A boss that has not fallen has no claims and no priced claimants. */
  lemma NoEarlyClaims(s: Sys, b: BossId)
    requires Claims.Ok(Claims.Counter(s.db, s.desk)) && !Fallen(s, b)
    ensures forall id :: id in s.desk && s.desk[id].Priced? ==> s.desk[id].key.boss != b
    ensures forall k :: k in s.db.claims ==> k.boss != b
  {
    forall id | id in s.desk && s.desk[id].Priced? ensures s.desk[id].key.boss != b {
      var c := s.desk[id];
      assert c == Claims.Priced(c.key, c.tier, c.pct, c.payload);
    }
  }

  lemma ClaimKeepsPrices(s: Sys, m: Claims.Move, cfg: Writer.Config, b: BossId)
    requires Claims.OnTheirWay(Claims.Counter(s.db, s.desk)) && Enabled(s, Claim(m), cfg) && PricesAreFinal(s, b)
    ensures PricesAreFinal(Next(s, Claim(m), cfg), b)
  {
    var s' := Next(s, Claim(m), cfg);
    assert s'.db.bosses == s.db.bosses;
    if m.ReadTotal? {
      var c := s.desk[m.id];
      assert c == Claims.SawState(c.key, c.state, c.maxHp);
    }
    forall k | k in s'.db.claims && k.boss == b ensures AtFinalPrice(s', b, k.player, s'.db.claims[k].pct) {
      if k in s.db.claims { assert AtFinalPrice(s, b, k.player, s.db.claims[k].pct); }
    }
  }

  /** Without a claim step prices stay final if the row stays, or if there is no price yet. */
  lemma OthersKeepPrices(s: Sys, step: Step, cfg: Writer.Config, b: BossId)
    requires Enabled(s, step, cfg) && !step.Claim? && PricesAreFinal(s, b)
    requires
      || (b in s.db.bosses && b in DbAfter(s, step, cfg).bosses && DbAfter(s, step, cfg).bosses[b] == s.db.bosses[b])
      || ((forall id :: id in s.desk && s.desk[id].Priced? ==> s.desk[id].key.boss != b) &&
          (forall k :: k in s.db.claims ==> k.boss != b))
    ensures PricesAreFinal(Next(s, step, cfg), b)
  {}

  lemma StepKeepsPrices(s: Sys, step: Step, cfg: Writer.Config, b: BossId)
    requires Sound(s, cfg) && Exact(s, b) && Enabled(s, step, cfg) && Calm(s, step, b, cfg) && PricesAreFinal(s, b)
    ensures PricesAreFinal(Next(s, step, cfg), b)
  {
    if step.Claim? {
      ClaimKeepsPrices(s, step.claim, cfg, b);
    } else {
      if Fallen(s, b) { StepKeepsFallen(s, step, cfg, b); } else { NoEarlyClaims(s, b); }
      OthersKeepPrices(s, step, cfg, b);
    }
  }

  lemma {:induction false} CalmRunsPriceFinally(s: Sys, run: seq<Step>, cfg: Writer.Config, b: BossId)
    requires Sound(s, cfg) && Exact(s, b) && PricesAreFinal(s, b)
    requires Legal(s, run, cfg) && CalmRun(s, run, b, cfg)
    ensures PricesAreFinal(After(s, run, cfg), b)
    decreases |run|
  {
    if run != [] {
      var init := run[..|run| - 1];
      CalmRunsPriceFinally(s, init, cfg, b);
      EveryRunIsSound(s, init, cfg);
      CalmRunsStayExact(s, init, cfg, b);
      StepKeepsPrices(After(s, init, cfg), run[|run| - 1], cfg, b);
    }
  }

  /** In every calm run from the start, every claim of the boss is priced at its final contributions. */
  lemma SeededRunsPriceFinally(s: Sys, run: seq<Step>, cfg: Writer.Config, b: BossId)
    requires Initial(s) && cfg.maxBatch > 0 && b in s.db.bosses
    requires Legal(s, run, cfg) && CalmRun(s, run, b, cfg)
    ensures PricesAreFinal(After(s, run, cfg), b)
  {
    InitialIsSound(s, cfg);
    InitialIsExact(s, b);
    CalmRunsPriceFinally(s, run, cfg, b);
  }

  /**
    Payout bound: in every calm run, the claim rows of a fallen boss include at most five
    legendary ones and pay at most 50,000 gold plus 100 per common claim; and the percentages of
    all its contributors total 100.
   */
  lemma BoundedPayout(s: Sys, run: seq<Step>, cfg: Writer.Config, b: BossId)
    requires Initial(s) && cfg.maxBatch > 0 && b in s.db.bosses
    requires Legal(s, run, cfg) && CalmRun(s, run, b, cfg) && Fallen(After(s, run, cfg), b)
    ensures var t := After(s, run, cfg);
            && |AtTier(ClaimsOf(t.db, b), Legendary)| <= 5
            && Total(Gold(ClaimsOf(t.db, b))) <= 50000 + 100 * |AtTier(ClaimsOf(t.db, b), Common)|
            && t.db.bosses[b].maxHp > 0
            && PctSum(t.db.bosses[b].totals, t.db.bosses[b].maxHp) == 100.0
  {
    InitialIsSound(s, cfg);
    InitialIsExact(s, b);
    EveryRunIsSound(s, run, cfg);
    CalmRunsStayExact(s, run, cfg, b);
    var t := After(s, run, cfg);
    DefeatIsComplete(t, cfg, b);
    PayoutInEveryRun(s, run, cfg, b);
    ExactPayout(ClaimsOf(t.db, b), t.db.bosses[b].maxHp);
    PercentagesTotal100(t.db.bosses[b].totals, t.db.bosses[b].maxHp);
  }
}
