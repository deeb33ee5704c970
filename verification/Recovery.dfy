/** Rebuilding the cache from Postgres (internal/recovery/recovery.go). */
module Recovery {
  import opened Ids
  import opened Durable
  import opened Redis
  import opened Postgres

  /** What Postgres has on a boss, as the cache holds it. */
  ghost function DurableEntry(bosses: map<BossId, BossRow>, boss: BossId): Entry
    requires boss in bosses
  {
    Rebuilt(RecoveryOf(bosses[boss]), bosses[boss].totals)
  }

  /** Which of the store calls of one rebuild get through, and how the write to the cache ends. */
  datatype Reach = Reach(state: bool, totals: bool, write: Fate) {
    predicate Whole() { state && totals && write == Commits }

    /** The cache is overwritten, whether or not the caller learns of it. */
    predicate Overwrites() { state && totals && write != RollsBack }
  }

  /** The source's `(true, nil)`, `(false, nil)` and any error. */
  datatype Rebuild = Found | Missing | Failed

  class Rehydrator {
    const redis: RedisStore
    const pg: PostgresStore

    constructor (redis: RedisStore, pg: PostgresStore)
      ensures this.redis == redis && this.pg == pg
    {
      this.redis, this.pg := redis, pg;
    }

    /** The keys of a boss rebuilt from Postgres now. */
    ghost function DurableKeys(boss: BossId, now: nat): Keys
      reads pg
      requires boss in pg.bosses
    {
      RebuildKeys(RecoveryOf(pg.bosses[boss]), pg.bosses[boss].totals, redis.ttlMs, now)
    }

    /**
      Reads twice, then overwrites. With nothing in between, a boss that is overwritten is what
      Postgres has, also when the reply is lost; an error before that leaves the cache alone.
     */
    method RehydrateBoss(boss: BossId, now: nat, reach: Reach) returns (r: Rebuild)
      modifies redis`keys
      ensures r == Found <==> boss in pg.bosses && reach.Whole()
      ensures r == Missing <==> boss !in pg.bosses && reach.state
      ensures if boss in pg.bosses && reach.Overwrites()
              then && redis.keys == old(redis.keys)[boss := DurableKeys(boss, now)]
                   && redis.Sees(boss, now) == Some(DurableEntry(pg.bosses, boss))
                   && redis.At(boss).maxHp == Some(pg.bosses[boss].maxHp)
              else redis.keys == old(redis.keys)
      ensures forall b :: b != boss ==> redis.At(b) == old(redis.At(b))
      ensures old(redis.Valid()) && redis.ttlMs % 1000 == 0 ==> redis.Valid()
    {
      if !reach.state { return Failed; }
      var rec := pg.RecoveryState(boss);
      if rec.None? { return Missing; }
      if !reach.totals { return Failed; }
      var rows := pg.Contributions(boss);
      if reach.write != RollsBack {
        redis.Rehydrate(boss, rec.value, rows, now);
      }
      r := if reach.write == Commits then Found else Failed;
    }

    /** Keys built from Postgres show what Postgres has. */
    lemma AllRebuilt(now: nat)
      requires forall b :: b in pg.bosses ==> redis.At(b) == DurableKeys(b, now)
      ensures forall b :: b in pg.bosses ==>
                redis.Sees(b, now) == Some(DurableEntry(pg.bosses, b)) && redis.At(b).maxHp == Some(pg.bosses[b].maxHp)
    {
      forall b | b in pg.bosses
        ensures redis.Sees(b, now) == Some(DurableEntry(pg.bosses, b)) && redis.At(b).maxHp == Some(pg.bosses[b].maxHp)
      {
        RebuildRefines(RecoveryOf(pg.bosses[b]), pg.bosses[b].totals, redis.ttlMs, now);
      }
    }

    /**
      The boot rebuild, up to the first error. Without an error every boss is loaded with exactly
      its durable state; with one, the bosses that changed are.
     */
    method RehydrateAll(now: nat, listed: bool, reach: BossId -> Reach) returns (failed: bool)
      modifies redis`keys
      ensures failed <==> !listed || exists b :: b in pg.bosses && !reach(b).Whole()
      ensures !failed ==>
                forall b :: b in pg.bosses ==>
                  && redis.Sees(b, now) == Some(DurableEntry(pg.bosses, b))
                  && redis.At(b) == DurableKeys(b, now) && redis.At(b).maxHp == Some(pg.bosses[b].maxHp)
      ensures forall b :: redis.At(b) == old(redis.At(b)) || (b in pg.bosses && redis.At(b) == DurableKeys(b, now))
    {
      if !listed { return true; }
      var ids := pg.ListBossIds();
      for i := 0 to |ids|
        invariant forall b :: b in ids[..i] ==> reach(b).Whole()
        invariant forall b :: redis.At(b) == if b in ids[..i] then DurableKeys(b, now) else old(redis.At(b))
      {
        assert ids[..i + 1] == ids[..i] + [ids[i]] && ids[i] in ids;
        var r := RehydrateBoss(ids[i], now, reach(ids[i]));
        if r == Failed { return true; }
      }
      assert ids[..|ids|] == ids;
      AllRebuilt(now);
      failed := false;
    }
  }
}
