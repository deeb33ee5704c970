/**
  What an operator may rely on in every run from a freshly seeded database, spelled out: the
  durable rows, the cached bosses and the claims, racing rebuilds, lost replies and crashes
  included.
 */
module Guarantees {
  import opened Ids
  import opened Totals
  import opened Durable
  import opened Protocol
  import opened Soundness
  import Reward
  import Writer
  import Claims

  lemma AdvancesTransitive(a: BossRow, b: BossRow, c: BossRow)
    requires Advances(a, b) && Advances(b, c)
    ensures Advances(a, c)
  {}

  lemma {:induction false} NoRowRemoved(s: Sys, run: seq<Step>, cfg: Writer.Config)
    requires Sound(s, cfg) && Legal(s, run, cfg)
    ensures After(s, run, cfg).db.bosses.Keys == s.db.bosses.Keys
    decreases |run|
  {
    if run != [] {
      var init := run[..|run| - 1];
      NoRowRemoved(s, init, cfg);
      EveryRunIsSound(s, init, cfg);
      KeepsStoreOk(After(s, init, cfg), run[|run| - 1], cfg);
    }
  }

  /**
    Nothing durable is ever taken back: along every run no contribution shrinks, HP never rises,
    a defeat never reverts and `defeated_at` keeps its first value.
   */
  lemma {:induction false} RowsOnlyAdvance(s: Sys, run: seq<Step>, cfg: Writer.Config, b: BossId)
    requires Sound(s, cfg) && Legal(s, run, cfg) && b in s.db.bosses
    ensures b in After(s, run, cfg).db.bosses && Advances(s.db.bosses[b], After(s, run, cfg).db.bosses[b])
    decreases |run|
  {
    if run != [] {
      var init := run[..|run| - 1];
      RowsOnlyAdvance(s, init, cfg, b);
      EveryRunIsSound(s, init, cfg);
      var t := After(s, init, cfg);
      RowsAdvance(t, run[|run| - 1], cfg, b);
      AdvancesTransitive(s.db.bosses[b], t.db.bosses[b], DbAfter(t, run[|run| - 1], cfg).bosses[b]);
    }
  }

  lemma StepKeepsClaim(s: Sys, step: Step, cfg: Writer.Config, k: Key)
    requires Claims.Ok(Claims.Counter(s.db, s.desk)) && Enabled(s, step, cfg) && k in s.db.claims
    ensures k in DbAfter(s, step, cfg).claims && DbAfter(s, step, cfg).claims[k] == s.db.claims[k]
  {
    if step.Claim? { Claims.MoveKeepsOk(Claims.Counter(s.db, s.desk), step.claim); }
  }

  /** Once inserted, a claim row never changes, whatever else runs. */
  lemma {:induction false} ClaimRowsStay(s: Sys, run: seq<Step>, cfg: Writer.Config, k: Key)
    requires Sound(s, cfg) && Legal(s, run, cfg) && k in s.db.claims
    ensures k in After(s, run, cfg).db.claims && After(s, run, cfg).db.claims[k] == s.db.claims[k]
    decreases |run|
  {
    if run != [] {
      var init, step := run[..|run| - 1], run[|run| - 1];
      ClaimRowsStay(s, init, cfg, k);
      EveryRunIsSound(s, init, cfg);
      StepKeepsClaim(After(s, init, cfg), step, cfg, k);
    }
  }

  /**
    Stored HP is max(0, max_hp - SUM(contributions)), so it equals the recovered HP; a boss is
    defeated exactly if its contributions reach its HP, and exactly then it has a `defeated_at`;
    contributions are the per-player sums of the event log.
   */
  ghost predicate OneStory(db: Db, b: BossId)
    requires b in db.bosses
  {
    var row := db.bosses[b];
    && row.hp == Max(0, row.maxHp - Total(row.totals)) == RecoveryOf(row).hp
    && (row.state == Defeated <==> Total(row.totals) >= row.maxHp)
    && (row.defeatedAt.Some? <==> row.state == Defeated)
    && (forall p :: Get(row.totals, p) == EventSum(db.log, OfPlayer(Key(b, p))))
    && (forall p :: p in row.totals <==> EventSum(db.log, OfPlayer(Key(b, p))) > 0)
  }

  lemma StoresTellOneStory(db: Db, b: BossId)
    requires DbOk(db) && PositiveTotals(db) && b in db.bosses
    ensures OneStory(db, b)
  {
    assert RowOk(db.bosses[b]);
    forall p ensures p in db.bosses[b].totals <==> EventSum(db.log, OfPlayer(Key(b, p))) > 0 {
      assert Get(db.bosses[b].totals, p) == EventSum(db.log, OfPlayer(Key(b, p)));
    }
  }

  /** The durable invariants hold in every run, overshoot included. */
  lemma DurableInvariants(s: Sys, run: seq<Step>, cfg: Writer.Config, b: BossId)
    requires Initial(s) && cfg.maxBatch > 0 && b in s.db.bosses && Legal(s, run, cfg)
    ensures b in After(s, run, cfg).db.bosses && OneStory(After(s, run, cfg).db, b)
    ensures After(s, run, cfg).db.bosses[b].maxHp == s.db.bosses[b].maxHp
  {
    InitialIsSound(s, cfg);
    EveryRunIsSound(s, run, cfg);
    RowsOnlyAdvance(s, run, cfg, b);
    StoresTellOneStory(After(s, run, cfg).db, b);
  }

  /**
    Cache coherence, racing rebuilds included: a loaded boss has non-negative HP, is defeated
    exactly at 0 HP, and everybody on its leaderboard has a positive score.
   */
  lemma CacheCoherence(s: Sys, run: seq<Step>, cfg: Writer.Config, b: BossId)
    requires Initial(s) && cfg.maxBatch > 0 && Legal(s, run, cfg) && b in After(s, run, cfg).cache
    ensures var e := After(s, run, cfg).cache[b];
            && b in s.db.bosses
            && e.hp >= 0
            && (e.state == Defeated <==> e.hp == 0)
            && (forall p :: p in e.board ==> e.board[p] > 0)
  {
    InitialIsSound(s, cfg);
    EveryRunIsSound(s, run, cfg);
    NoRowRemoved(s, run, cfg);
  }

  /**
    Exactly-once claims: a claim row exists only for a durable contributor to a durably defeated
    boss, at the tier and payload of its percentage; exactly one claimant inserted it; and all
    replies, then and later, carry that row.
   */
  lemma ExactlyOnceClaims(s: Sys, run: seq<Step>, cfg: Writer.Config, k: Key)
    requires Initial(s) && cfg.maxBatch > 0 && Legal(s, run, cfg)
    ensures var t := After(s, run, cfg);
            && (k in t.db.claims ==>
                  && Claims.Entitled(t.db, k)
                  && Reward.FairPrice(t.db.claims[k].tier, t.db.claims[k].pct, t.db.claims[k].payload)
                  && exists id :: Claims.Inserted(t.desk, id, k))
            && (forall id, id' :: Claims.Inserted(t.desk, id, k) && Claims.Inserted(t.desk, id', k) ==> id == id')
            && (forall id :: id in t.desk && t.desk[id].Replied? && t.desk[id].key == k ==>
                  k in t.db.claims && t.desk[id].row == t.db.claims[k])
  {
    InitialIsSound(s, cfg);
    EveryRunIsSound(s, run, cfg);
  }
}
