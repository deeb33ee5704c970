/**
  A crash and the start after it, as one run: the service comes up with an empty writer, rebuilds
  every boss before it serves traffic, and the cache is again what Postgres has.
 */
module Restart {
  import opened Ids
  import opened Totals
  import opened Durable
  import opened Ledger
  import opened Protocol
  import opened Soundness
  import opened Conservation
  import Writer

  /** The crash, then `RehydrateAll` over the given bosses in their order. */
  function RestartSteps(ids: seq<BossId>): seq<Step> {
    if ids == [] then [Step.Crash] else
      RestartSteps(ids[..|ids| - 1]) + [ReadHp(0, ids[|ids| - 1])] + [ReadTotals(0)] + [Overwrite(0)]
  }

  ghost predicate AtRest(s: Sys) {
    s.rebuilds == map[] && forall b :: Sum(s.hits, OfBoss(b), InFlight) == 0
  }

  /** The cache shows the durable boss, and nothing of it is in flight or leaked. */
  ghost predicate Healed(s: Sys, b: BossId) {
    && b in s.db.bosses && b in s.cache
    && s.cache[b] == DurableView(s, b)
    && Sum(s.hits, OfBoss(b), Unsettled) == 0
  }

  /** A healed boss obeys the exact law if and only if its durable damage did not overshoot. */
  lemma HealedIsExact(s: Sys, b: BossId, cfg: Writer.Config)
    requires Sound(s, cfg) && Healed(s, b)
    ensures Exact(s, b) <==> Total(s.db.bosses[b].totals) <= MaxHp(s, b)
  {
    assert Sum(s.hits, OfBoss(b), Durably) == StoredIn(s.db, OfBoss(b));
    SumClasses(s.hits, OfBoss(b));
    assert RowOk(s.db.bosses[b]);
    forall sc: Scope | sc.Boss() == b && Total(s.db.bosses[b].totals) <= MaxHp(s, b) ensures Conserves(s, sc) {
      assert Sum(s.hits, sc, Durably) == StoredIn(s.db, sc);
      if sc.OfPlayer? { SumScopes(s.hits, sc.key, Unsettled); }
    }
  }

  /** An overwrite at rest settles its own boss and spares the others. */
  lemma OverwriteAtRest(s: Sys, b: BossId, cfg: Writer.Config)
    requires s.rebuilds.Keys == {0} && s.rebuilds[0].BothRead? && s.rebuilds[0].boss == b
    requires forall c :: Sum(s.hits, OfBoss(c), InFlight) == 0
    ensures var s' := Next(s, Overwrite(0), cfg);
            && AtRest(s') && s'.db == s.db
            && Sum(s'.hits, OfBoss(b), Unsettled) == 0
            && forall c :: c != b && Healed(s, c) ==> Healed(s', c)
  {
    var s' := Next(s, Overwrite(0), cfg);
    forall c
      ensures Sum(s'.hits, OfBoss(c), InFlight) == 0
      ensures Sum(s'.hits, OfBoss(c), Unsettled) == if c == b then 0 else Sum(s.hits, OfBoss(c), Unsettled)
    {
      OverwriteSums(s, 0, cfg, OfBoss(c));
    }
    assert s'.rebuilds.Keys == {};
  }

  lemma ReadsChangeNothing(s: Sys, b: BossId, cfg: Writer.Config)
    requires s.rebuilds == map[] && b in s.db.bosses
    ensures Enabled(s, ReadHp(0, b), cfg)
    ensures var s1 := Next(s, ReadHp(0, b), cfg);
            && Enabled(s1, ReadTotals(0), cfg)
            && var s2 := Next(s1, ReadTotals(0), cfg);
               && s2.cache == s.cache && s2.db == s.db && s2.hits == s.hits
               && s2.rebuilds.Keys == {0} && s2.rebuilds[0].BothRead? && s2.rebuilds[0].boss == b
  {}

  lemma RebuildOne(s: Sys, b: BossId, cfg: Writer.Config)
    requires Sound(s, cfg) && AtRest(s) && b in s.db.bosses
    ensures Enabled(s, ReadHp(0, b), cfg)
    ensures var s1 := Next(s, ReadHp(0, b), cfg);
            && Enabled(s1, ReadTotals(0), cfg)
            && var s2 := Next(s1, ReadTotals(0), cfg);
               && Enabled(s2, Overwrite(0), cfg)
               && var s3 := Next(s2, Overwrite(0), cfg);
                  && AtRest(s3) && s3.db == s.db && Healed(s3, b)
                  && forall c :: Healed(s, c) ==> Healed(s3, c)
  {
    RebuildAtRestHeals(s, 0, b, cfg);
    ReadsChangeNothing(s, b, cfg);
    OverwriteAtRest(Next(Next(s, ReadHp(0, b), cfg), ReadTotals(0), cfg), b, cfg);
  }

  lemma {:induction false} RestartHeals(s: Sys, ids: seq<BossId>, cfg: Writer.Config)
    requires Sound(s, cfg) && forall b :: b in ids ==> b in s.db.bosses
    ensures Legal(s, RestartSteps(ids), cfg)
    ensures var t := After(s, RestartSteps(ids), cfg);
            && AtRest(t) && t.db == s.db
            && forall b :: b in ids ==> Healed(t, b)
    decreases |ids|
  {
    if ids == [] {
      OneMore(s, [], Step.Crash, cfg);
      forall b ensures Sum(Next(s, Step.Crash, cfg).hits, OfBoss(b), InFlight) == 0 { CrashSums(s.hits, OfBoss(b)); }
      assert [] + [Step.Crash] == RestartSteps(ids);
    } else {
      var init, b := ids[..|ids| - 1], ids[|ids| - 1];
      RestartHeals(s, init, cfg);
      var run := RestartSteps(init);
      EveryRunIsSound(s, run, cfg);
      RebuildOne(After(s, run, cfg), b, cfg);
      OneMore(s, run, ReadHp(0, b), cfg);
      OneMore(s, run + [ReadHp(0, b)], ReadTotals(0), cfg);
      OneMore(s, run + [ReadHp(0, b)] + [ReadTotals(0)], Overwrite(0), cfg);
    }
  }

  /**
    From every state of every run: a crash and the boot rebuild that follows leave every boss
    loaded with exactly its durable HP, state and totals, nothing in flight, and the exact law in
    force for a boss if and only if its durable damage had not overshot.
   */
  lemma RestartRestores(s: Sys, ids: seq<BossId>, cfg: Writer.Config)
    requires Sound(s, cfg) && forall b :: b in ids <==> b in s.db.bosses
    ensures Legal(s, RestartSteps(ids), cfg)
    ensures var t := After(s, RestartSteps(ids), cfg);
            && t.db == s.db
            && forall b :: b in s.db.bosses ==>
                 && Healed(t, b)
                 && (Exact(t, b) <==> Total(s.db.bosses[b].totals) <= MaxHp(s, b))
  {
    RestartHeals(s, ids, cfg);
    EveryRunIsSound(s, RestartSteps(ids), cfg);
    forall b | b in s.db.bosses
      ensures Exact(After(s, RestartSteps(ids), cfg), b) <==> Total(s.db.bosses[b].totals) <= MaxHp(s, b)
    {
      HealedIsExact(After(s, RestartSteps(ids), cfg), b, cfg);
    }
  }
}
