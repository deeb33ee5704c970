/**
  The durable store as an object (internal/store/postgres.go): `CommitBatch` step by step, the
  recovery reads, and the two halves of a claim.
 */
module Postgres {
  import opened Ids
  import opened Totals
  import opened Durable
  import opened Locks
  import Claims

  datatype Basis = Basis(found: bool, state: Status, maxHp: int, damage: Option<int>)

  ghost predicate SumsBosses(perBoss: map<BossId, int>, events: seq<Event>) {
    && perBoss.Keys == (set e | e in events :: e.boss)
    && forall b :: Get(perBoss, b) == EventSum(events, OfBoss(b))
  }

  ghost predicate SumsPlayers(perPlayer: map<Key, int>, events: seq<Event>) {
    && perPlayer.Keys == (set e | e in events :: Key(e.boss, e.player))
    && forall k :: Get(perPlayer, k) == EventSum(events, OfPlayer(k))
  }

  /** One turn of the aggregation. */
  lemma SumsOneMore(perPlayer: map<Key, int>, perBoss: map<BossId, int>, events: seq<Event>, e: Event)
    requires SumsPlayers(perPlayer, events) && SumsBosses(perBoss, events)
    ensures var k := Key(e.boss, e.player); SumsPlayers(perPlayer[k := Get(perPlayer, k) + e.applied], events + [e])
    ensures SumsBosses(perBoss[e.boss := Get(perBoss, e.boss) + e.applied], events + [e])
  {
    assert (events + [e])[..|events|] == events;
    forall sc: Scope ensures EventSum(events + [e], sc) == EventSum(events, sc) + Share(e, sc) {}
  }

  /** Per-player and per-boss sums of a batch. */
  method Aggregate(events: seq<Event>) returns (perPlayer: map<Key, int>, perBoss: map<BossId, int>)
    ensures perPlayer.Keys == set e | e in events :: Key(e.boss, e.player)
    ensures perBoss.Keys == set e | e in events :: e.boss
    ensures forall k :: k in perPlayer ==> perPlayer[k] == EventSum(events, OfPlayer(k))
    ensures forall b :: b in perBoss ==> perBoss[b] == EventSum(events, OfBoss(b))
  {
    perPlayer, perBoss := map[], map[];
    for i := 0 to |events|
      invariant SumsPlayers(perPlayer, events[..i])
      invariant SumsBosses(perBoss, events[..i])
    {
      var e := events[i];
      assert events[..i + 1] == events[..i] + [e];
      SumsOneMore(perPlayer, perBoss, events[..i], e);
      var k := Key(e.boss, e.player);
      perPlayer := perPlayer[k := Get(perPlayer, k) + e.applied];
      perBoss := perBoss[e.boss := Get(perBoss, e.boss) + e.applied];
    }
    assert events[..|events|] == events;
  }

  /** Collects the keys of a map, in whatever order, and sorts them. */
  method SortKeys<T(==)>(keys: set<T>, less: (T, T) -> bool) returns (sorted: seq<T>)
    requires forall a, b :: a in keys && b in keys ==> a == b || less(a, b) || less(b, a)
    requires forall a, b, c :: a in keys && b in keys && c in keys && less(a, b) && less(b, c) ==> less(a, c)
    ensures forall k :: k in sorted <==> k in keys
    ensures forall i, j :: 0 <= i < j < |sorted| ==> less(sorted[i], sorted[j])
  {
    sorted := [];
    var left := keys;
    while left != {}
      invariant left <= keys
      invariant forall k :: k in sorted <==> k in keys && k !in left
      invariant forall i, j :: 0 <= i < j < |sorted| ==> less(sorted[i], sorted[j])
      decreases left
    {
      var k :| k in left;
      var at := 0;
      while at < |sorted| && less(sorted[at], k)
        invariant at <= |sorted|
        invariant forall i :: 0 <= i < at ==> less(sorted[i], k)
      {
        at := at + 1;
      }
      assert forall i :: at <= i < |sorted| ==> sorted[i] in sorted;
      assert at < |sorted| ==> less(k, sorted[at]);
      sorted := sorted[..at] + [k] + sorted[at..];
      left := left - {k};
    }
  }

  /** The two sorted key lists of a batch, and with them the order in which rows are locked. */
  method LockOrder(perPlayer: map<Key, int>, perBoss: map<BossId, int>)
    returns (playerKeys: seq<Key>, bossKeys: seq<BossId>)
    ensures forall k :: k in playerKeys <==> k in perPlayer
    ensures forall b :: b in bossKeys <==> b in perBoss
    ensures Increasing(PlanOf(playerKeys, bossKeys))
  {
    forall a, b: Key ensures a == b || KeyBefore(a, b) || KeyBefore(b, a) { KeyBeforeTotal(a, b); }
    forall a, b, c: Key | KeyBefore(a, b) && KeyBefore(b, c) ensures KeyBefore(a, c) { KeyBeforeTransitive(a, b, c); }
    forall a, b: BossId ensures a == b || Before(a, b) || Before(b, a) { BeforeTotal(a, b); }
    forall a, b, c: BossId | Before(a, b) && Before(b, c) ensures Before(a, c) { BeforeTransitive(a, b, c); }
    playerKeys := SortKeys(perPlayer.Keys, KeyBefore);
    bossKeys := SortKeys(perBoss.Keys, Before);
    PlanIncreasing(playerKeys, bossKeys);
  }

  /** The totals of a boss after the upserts for `upserted`. */
  function Upserted(totals: map<PlayerId, int>, b: BossId, perPlayer: map<Key, int>, upserted: seq<Key>)
    : map<PlayerId, int>
  {
    map p | p in totals.Keys + set k | k in upserted && k.boss == b :: k.player ::
      Get(totals, p) + if Key(b, p) in upserted then Get(perPlayer, Key(b, p)) else 0
  }

  lemma UpsertedSnoc(totals: map<PlayerId, int>, b: BossId, perPlayer: map<Key, int>, upserted: seq<Key>, k: Key)
    requires k !in upserted
    ensures var before := Upserted(totals, b, perPlayer, upserted);
            Upserted(totals, b, perPlayer, upserted + [k]) ==
            if k.boss == b then before[k.player := Get(before, k.player) + Get(perPlayer, k)] else before
  {}

  /** All upserts together add exactly the per-player sums of the batch. */
  lemma UpsertedAll(totals: map<PlayerId, int>, b: BossId, perPlayer: map<Key, int>, upserted: seq<Key>,
                    events: seq<Event>)
    requires forall k :: k in upserted <==> exists e :: e in events && k == Key(e.boss, e.player)
    requires forall k :: k in upserted ==> Get(perPlayer, k) == EventSum(events, OfPlayer(k))
    ensures Upserted(totals, b, perPlayer, upserted) == AddTotals(totals, events, b)
  {
    var keys := set k | k in upserted && k.boss == b :: k.player;
    assert keys == Players(events, b) by {
      forall p | p in Players(events, b) ensures p in keys {
        var e :| e in events && e.boss == b && e.player == p;
        assert Key(b, p) in upserted;
      }
    }
    forall p | p !in Players(events, b) ensures Key(b, p) !in upserted {}
    forall p | p !in Players(events, b) ensures EventSum(events, OfPlayer(Key(b, p))) == 0 {
      SumUntouched(events, OfPlayer(Key(b, p)));
    }
  }

  /** `row'` is `row` after the upserts for `upserted`. */
  predicate IsUpserted(row: BossRow, row': BossRow, b: BossId, perPlayer: map<Key, int>, upserted: seq<Key>) {
    row' == row.(totals := Upserted(row.totals, b, perPlayer, upserted))
  }

  /** One upsert statement. */
  function Upsert(rows: map<BossId, BossRow>, k: Key, x: int): map<BossId, BossRow>
    requires k.boss in rows
  {
    var row := rows[k.boss];
    rows[k.boss := row.(totals := row.totals[k.player := Get(row.totals, k.player) + x])]
  }

  lemma UpsertStep(row: BossRow, rows: map<BossId, BossRow>, b: BossId,
                   perPlayer: map<Key, int>, upserted: seq<Key>, k: Key)
    requires b in rows && k.boss in rows && k !in upserted
    requires IsUpserted(row, rows[b], b, perPlayer, upserted)
    ensures IsUpserted(row, Upsert(rows, k, Get(perPlayer, k))[b], b, perPlayer, upserted + [k])
  {
    UpsertedSnoc(row.totals, b, perPlayer, upserted, k);
  }

  /** No other field of any boss changes. */
  ghost predicate AllUpserted(rows: map<BossId, BossRow>, rows': map<BossId, BossRow>,
                              perPlayer: map<Key, int>, upserted: seq<Key>)
  {
    rows'.Keys == rows.Keys && forall b :: b in rows ==> IsUpserted(rows[b], rows'[b], b, perPlayer, upserted)
  }

  lemma NoneUpserted(rows: map<BossId, BossRow>, perPlayer: map<Key, int>)
    ensures AllUpserted(rows, rows, perPlayer, [])
  {
    forall b | b in rows ensures Upserted(rows[b].totals, b, perPlayer, []) == rows[b].totals {}
  }

  lemma OneMoreUpserted(rows: map<BossId, BossRow>, rows': map<BossId, BossRow>,
                        perPlayer: map<Key, int>, upserted: seq<Key>, k: Key)
    requires AllUpserted(rows, rows', perPlayer, upserted) && k.boss in rows && k !in upserted
    ensures AllUpserted(rows, Upsert(rows', k, Get(perPlayer, k)), perPlayer, upserted + [k])
  {
    forall b | b in rows
      ensures IsUpserted(rows[b], Upsert(rows', k, Get(perPlayer, k))[b], b, perPlayer, upserted + [k])
    {
      UpsertStep(rows[b], rows', b, perPlayer, upserted, k);
    }
  }

  /** The rows a batch writes, and no others. */
  predicate RowsOf(touched: seq<Lock>, events: seq<Event>) {
    && (forall l :: l in touched ==>
          exists e :: e in events && (l == ContributionRow(Key(e.boss, e.player)) || l == BossLine(e.boss)))
    && (forall e :: e in events ==> ContributionRow(Key(e.boss, e.player)) in touched && BossLine(e.boss) in touched)
  }

  lemma PlanLocks(events: seq<Event>, playerKeys: seq<Key>, bossKeys: seq<BossId>)
    requires forall k :: k in playerKeys <==> exists e :: e in events && k == Key(e.boss, e.player)
    requires forall b :: b in bossKeys <==> Touches(events, b)
    ensures RowsOf(PlanOf(playerKeys, bossKeys), events)
  {
    var plan := PlanOf(playerKeys, bossKeys);
    forall e | e in events
      ensures ContributionRow(Key(e.boss, e.player)) in plan && BossLine(e.boss) in plan
    {
      assert Key(e.boss, e.player) in playerKeys && e.boss in bossKeys;
      var i :| 0 <= i < |playerKeys| && playerKeys[i] == Key(e.boss, e.player);
      assert plan[i] == ContributionRow(playerKeys[i]);
      var j :| 0 <= j < |bossKeys| && bossKeys[j] == e.boss;
      assert plan[|playerKeys| + j] == BossLine(bossKeys[j]);
    }
    forall l | l in plan
      ensures exists e :: e in events && (l == ContributionRow(Key(e.boss, e.player)) || l == BossLine(e.boss))
    {
      var i :| 0 <= i < |plan| && plan[i] == l;
      if i < |playerKeys| {
        assert playerKeys[i] in playerKeys;
      } else {
        assert bossKeys[i - |playerKeys|] in bossKeys;
      }
    }
  }

  lemma PlanIsDistinct(playerKeys: seq<Key>, bossKeys: seq<BossId>)
    requires Increasing(PlanOf(playerKeys, bossKeys))
    ensures forall i, j :: 0 <= i < j < |playerKeys| ==> playerKeys[i] != playerKeys[j]
    ensures forall i, j :: 0 <= i < j < |bossKeys| ==> bossKeys[i] != bossKeys[j]
  {
    var plan := PlanOf(playerKeys, bossKeys);
    forall i, j | 0 <= i < j < |playerKeys| ensures playerKeys[i] != playerKeys[j] {
      assert LockBefore(plan[i], plan[j]);
      LockBeforeIrreflexive(plan[i]);
    }
    forall i, j | 0 <= i < j < |bossKeys| ensures bossKeys[i] != bossKeys[j] {
      assert LockBefore(plan[|playerKeys| + i], plan[|playerKeys| + j]);
      LockBeforeIrreflexive(plan[|playerKeys| + i]);
    }
  }

  /** What the statements of a batch do to one boss. */
  lemma RowIsCommitted(row: BossRow, upserted: BossRow, row': BossRow, b: BossId, events: seq<Event>, now: nat,
                       perPlayer: map<Key, int>, perBoss: map<BossId, int>, playerKeys: seq<Key>)
    requires forall k :: k in playerKeys <==> exists e :: e in events && k == Key(e.boss, e.player)
    requires forall k :: k in playerKeys ==> Get(perPlayer, k) == EventSum(events, OfPlayer(k))
    requires IsUpserted(row, upserted, b, perPlayer, playerKeys)
    requires Touches(events, b) ==> Get(perBoss, b) == EventSum(events, OfBoss(b))
    requires row' == if Touches(events, b) then Decrement(upserted, Get(perBoss, b), now) else upserted
    ensures row' == CommitRow(row, b, events, now)
  {
    UpsertedAll(row.totals, b, perPlayer, playerKeys, events);
    if !Touches(events, b) { UntouchedTotals(row.totals, events, b); }
  }

  /** The row-by-row statements of a batch add up to the whole transaction. */
  lemma BatchIsCommit(db: Db, events: seq<Event>, now: nat, perPlayer: map<Key, int>, perBoss: map<BossId, int>,
                      playerKeys: seq<Key>, bossKeys: seq<BossId>,
                      rows: map<BossId, BossRow>, rows': map<BossId, BossRow>)
    requires forall k :: k in playerKeys <==> exists e :: e in events && k == Key(e.boss, e.player)
    requires forall b :: b in bossKeys <==> Touches(events, b)
    requires forall k :: k in playerKeys ==> Get(perPlayer, k) == EventSum(events, OfPlayer(k))
    requires forall b :: b in bossKeys ==> Get(perBoss, b) == EventSum(events, OfBoss(b))
    requires rows.Keys == db.bosses.Keys == rows'.Keys
    requires forall b :: b in rows ==> IsUpserted(db.bosses[b], rows[b], b, perPlayer, playerKeys)
    requires forall b :: b in rows ==>
               rows'[b] == if b in bossKeys then Decrement(rows[b], Get(perBoss, b), now) else rows[b]
    ensures Db(rows', db.log + events, db.claims) == Commit(db, events, now)
  {
    forall b | b in db.bosses ensures rows'[b] == CommitRow(db.bosses[b], b, events, now) {
      RowIsCommitted(db.bosses[b], rows[b], rows'[b], b, events, now, perPlayer, perBoss, playerKeys);
    }
  }

  /**
    An open transaction: its own view of the rows and the log, and the rows it has locked so far.
    Only a statement locks a row, and it does so when it runs.
   */
  class Tx {
    var bosses: map<BossId, BossRow>
    var log: seq<Event>
    ghost var touched: seq<Lock>

    constructor (bosses: map<BossId, BossRow>, log: seq<Event>)
      ensures this.bosses == bosses && this.log == log && touched == []
    {
      this.bosses, this.log, touched := bosses, log, [];
    }

    /** The COPY into the log, all rows or none. */
    method CopyFrom(events: seq<Event>) returns (ok: bool)
      modifies this`log
      ensures ok <==> forall e :: e in events ==> e.boss in bosses && e.applied >= 0
      ensures log == if ok then old(log) + events else old(log)
    {
      ok := forall e :: e in events ==> e.boss in bosses && e.applied >= 0;
      if ok {
        log := log + events;
      }
    }

    /** One upsert into `contributions`. */
    method UpsertTotal(k: Key, x: int)
      requires k.boss in bosses
      modifies this`bosses, this`touched
      ensures bosses == Upsert(old(bosses), k, x)
      ensures touched == old(touched) + [ContributionRow(k)]
    {
      var row := bosses[k.boss];
      touched := touched + [ContributionRow(k)];
      bosses := bosses[k.boss := row.(totals := row.totals[k.player := Get(row.totals, k.player) + x])];
    }

    /** One update of `bosses`. */
    method UpdateBoss(b: BossId, x: int, now: nat)
      requires b in bosses
      modifies this`bosses, this`touched
      ensures bosses == old(bosses)[b := Decrement(old(bosses)[b], x, now)]
      ensures touched == old(touched) + [BossLine(b)]
    {
      touched := touched + [BossLine(b)];
      bosses := bosses[b := Decrement(bosses[b], x, now)];
    }
  }

  /** The upsert for `k`, after those for `upserted`. */
  method UpsertOne(tx: Tx, ghost before: map<BossId, BossRow>, perPlayer: map<Key, int>, ghost upserted: seq<Key>,
                   k: Key)
    requires AllUpserted(before, tx.bosses, perPlayer, upserted)
    requires k in perPlayer && k.boss in before && k !in upserted
    modifies tx`bosses, tx`touched
    ensures AllUpserted(before, tx.bosses, perPlayer, upserted + [k])
    ensures tx.touched == old(tx.touched) + [ContributionRow(k)]
  {
    OneMoreUpserted(before, tx.bosses, perPlayer, upserted, k);
    tx.UpsertTotal(k, perPlayer[k]);
  }

  /** Adds the per-player sums, row by row in lock order. */
  method UpsertContributions(tx: Tx, perPlayer: map<Key, int>, playerKeys: seq<Key>)
    requires forall k :: k in playerKeys ==> k in perPlayer && k.boss in tx.bosses
    requires forall i, j :: 0 <= i < j < |playerKeys| ==> playerKeys[i] != playerKeys[j]
    modifies tx`bosses, tx`touched
    ensures AllUpserted(old(tx.bosses), tx.bosses, perPlayer, playerKeys)
    ensures tx.touched == old(tx.touched) + PlayerPlan(playerKeys)
  {
    ghost var before := tx.bosses;
    NoneUpserted(before, perPlayer);
    for i := 0 to |playerKeys|
      invariant AllUpserted(before, tx.bosses, perPlayer, playerKeys[..i])
      invariant tx.touched == old(tx.touched) + PlayerPlan(playerKeys[..i])
    {
      assert playerKeys[i] in playerKeys;
      PlayerPlanNext(old(tx.touched), playerKeys, i);
      UpsertOne(tx, before, perPlayer, playerKeys[..i], playerKeys[i]);
    }
    assert playerKeys[..|playerKeys|] == playerKeys;
  }

  /** Decrements HP and moves the state, boss by boss in lock order. */
  method UpdateBosses(tx: Tx, perBoss: map<BossId, int>, bossKeys: seq<BossId>, now: nat)
    requires forall b :: b in bossKeys ==> b in perBoss && b in tx.bosses
    requires forall i, j :: 0 <= i < j < |bossKeys| ==> bossKeys[i] != bossKeys[j]
    modifies tx`bosses, tx`touched
    ensures tx.bosses.Keys == old(tx.bosses).Keys
    ensures forall b :: b in tx.bosses ==>
              tx.bosses[b] == if b in bossKeys then Decrement(old(tx.bosses)[b], Get(perBoss, b), now)
                              else old(tx.bosses)[b]
    ensures tx.touched == old(tx.touched) + BossPlan(bossKeys)
  {
    ghost var before := tx.bosses;
    for i := 0 to |bossKeys|
      invariant tx.bosses.Keys == before.Keys
      invariant forall b :: b in before ==>
                  tx.bosses[b] == if b in bossKeys[..i] then Decrement(before[b], Get(perBoss, b), now) else before[b]
      invariant tx.touched == old(tx.touched) + BossPlan(bossKeys[..i])
    {
      var b := bossKeys[i];
      assert b in bossKeys;
      BossPlanNext(old(tx.touched), bossKeys, i);
      tx.UpdateBoss(b, perBoss[b], now);
    }
    assert bossKeys[..|bossKeys|] == bossKeys;
  }

  /** The aggregated keys are those of the batch, with its sums, and of known bosses. */
  lemma KeysOfBatch(db: Db, events: seq<Event>, perPlayer: map<Key, int>, perBoss: map<BossId, int>,
                    playerKeys: seq<Key>, bossKeys: seq<BossId>)
    requires Accepts(db, events)
    requires perPlayer.Keys == set e | e in events :: Key(e.boss, e.player)
    requires perBoss.Keys == set e | e in events :: e.boss
    requires forall k :: k in playerKeys <==> k in perPlayer
    requires forall b :: b in bossKeys <==> b in perBoss
    ensures forall k :: k in playerKeys <==> exists e :: e in events && k == Key(e.boss, e.player)
    ensures forall b :: b in bossKeys <==> Touches(events, b)
    ensures forall k :: k in playerKeys ==> k.boss in db.bosses
    ensures forall b :: b in bossKeys ==> b in db.bosses
  {}

  lemma StartOfPlan(playerKeys: seq<Key>, bossKeys: seq<BossId>)
    ensures [] + PlayerPlan(playerKeys) + BossPlan(bossKeys) == PlanOf(playerKeys, bossKeys)
  {}

  /** The statements of one batch, after its COPY succeeded. */
  method WriteBatch(tx: Tx, events: seq<Event>, now: nat, ghost db: Db)
    requires Accepts(db, events) && tx.bosses == db.bosses && tx.log == db.log + events && tx.touched == []
    modifies tx`bosses, tx`touched
    ensures Db(tx.bosses, tx.log, db.claims) == Commit(db, events, now)
    ensures Increasing(tx.touched) && RowsOf(tx.touched, events)
  {
    var perPlayer, perBoss := Aggregate(events);
    var playerKeys, bossKeys := LockOrder(perPlayer, perBoss);
    KeysOfBatch(db, events, perPlayer, perBoss, playerKeys, bossKeys);
    PlanIsDistinct(playerKeys, bossKeys);
    PlanLocks(events, playerKeys, bossKeys);
    UpsertContributions(tx, perPlayer, playerKeys);
    ghost var upserted := tx.bosses;
    UpdateBosses(tx, perBoss, bossKeys, now);
    BatchIsCommit(db, events, now, perPlayer, perBoss, playerKeys, bossKeys, upserted, tx.bosses);
    StartOfPlan(playerKeys, bossKeys);
  }

  lemma BoardSnoc(rows: seq<Leader>, row: Leader)
    ensures Board(rows + [row]) == Board(rows)[row.player := row.damage]
  {
    assert (rows + [row])[..|rows|] == rows;
  }

  lemma PutBack(totals: map<PlayerId, int>, left: set<PlayerId>, p: PlayerId)
    requires p in left && p in totals
    ensures (totals - left)[p := totals[p]] == totals - (left - {p})
  {}

  lemma OneMoreRow(rows: seq<Leader>, row: Leader, totals: map<PlayerId, int>, left: set<PlayerId>)
    requires row.player in left && left <= totals.Keys && row.damage == totals[row.player]
    requires Board(rows) == totals - left
    ensures Board(rows + [row]) == totals - (left - {row.player})
    ensures forall i :: 0 <= i < |rows| ==> rows[i].player != row.player
  {
    assert forall i :: 0 <= i < |rows| ==> rows[i] in rows;
    BoardSnoc(rows, row);
    PutBack(totals, left, row.player);
  }

  class PostgresStore {
    var bosses: map<BossId, BossRow>
    var log: seq<Event>
    var claims: map<Key, ClaimRow>

    constructor (bosses: map<BossId, BossRow>)
      ensures View() == Db(bosses, [], map[])
    {
      this.bosses, log, claims := bosses, [], map[];
    }

    function View(): Db
      reads this
    {
      Db(bosses, log, claims)
    }

    /**
      One transaction. `touched` are the rows its statements locked, in the order in which they
      ran: they are the rows of the batch, and they follow the global lock order.
     */
    method CommitBatch(events: seq<Event>, now: nat, fate: Fate) returns (failed: bool, ghost touched: seq<Lock>)
      modifies this`bosses, this`log
      ensures failed <==> events != [] && (fate != Commits || !Accepts(old(View()), events))
      ensures View() == if fate != RollsBack && Accepts(old(View()), events) then Commit(old(View()), events, now)
                        else old(View())
      ensures Increasing(touched)
      ensures if Accepts(old(View()), events) then RowsOf(touched, events) else touched == []
    {
      touched := [];
      if events == [] {
        assert Commit(View(), [], now) == View();
        return false, touched;
      }
      var tx := new Tx(bosses, log);
      var copied := tx.CopyFrom(events);
      if !copied { return true, touched; }
      WriteBatch(tx, events, now, View());
      touched := tx.touched;
      if fate != RollsBack {
        bosses, log := tx.bosses, tx.log;
      }
      failed := fate != Commits;
    }

    /** HP derived from the contributions, floored at 0; None for an unknown boss. */
    method RecoveryState(boss: BossId) returns (r: Option<Recovery>)
      ensures r == if boss in bosses then Some(RecoveryOf(bosses[boss])) else None
    {
      if boss !in bosses { return None; }
      var row := bosses[boss];
      var sum, left := 0, row.totals;
      while left != map[]
        invariant sum + Total(left) == Total(row.totals)
        decreases |left|
      {
        var p :| p in left;
        TotalSplit(left, p);
        assert (left - {p}).Keys == left.Keys - {p};
        sum := sum + left[p];
        left := left - {p};
      }
      r := Some(Recovery(row.maxHp, Max(0, row.maxHp - sum), row.state));
    }

    /**
      The rows of a boss, in whatever order the query yields them: each contributor once, so that
      a sorted set built from them holds exactly the contributions. No row for an unknown boss.
     */
    method Contributions(boss: BossId) returns (rows: seq<Leader>)
      ensures forall i, j :: 0 <= i < j < |rows| ==> rows[i].player != rows[j].player
      ensures boss in bosses ==> Board(rows) == bosses[boss].totals
      ensures boss !in bosses ==> rows == []
    {
      rows := [];
      if boss !in bosses { return; }
      var left := bosses[boss].totals.Keys;
      while left != {}
        invariant left <= bosses[boss].totals.Keys
        invariant Board(rows) == bosses[boss].totals - left
        invariant forall i, j :: 0 <= i < j < |rows| ==> rows[i].player != rows[j].player
        decreases left
      {
        var p :| p in left;
        OneMoreRow(rows, Leader(p, bosses[boss].totals[p]), bosses[boss].totals, left);
        rows, left := rows + [Leader(p, bosses[boss].totals[p])], left - {p};
      }
    }

    /** The bosses, each once, in whatever order the table yields them. */
    method ListBossIds() returns (ids: seq<BossId>)
      ensures forall b :: b in ids <==> b in bosses
      ensures forall i, j :: 0 <= i < j < |ids| ==> ids[i] != ids[j]
    {
      ids := [];
      var left := bosses.Keys;
      while left != {}
        invariant left <= bosses.Keys
        invariant forall b :: b in ids <==> b in bosses && b !in left
        invariant forall i, j :: 0 <= i < j < |ids| ==> ids[i] != ids[j]
        decreases left
      {
        var b :| b in left;
        ids, left := ids + [b], left - {b};
      }
    }

    /** The boss row, and the player's total if there is one. */
    method ClaimBasis(boss: BossId, player: PlayerId) returns (r: Basis)
      ensures r.found <==> boss in bosses
      ensures r.found ==> r.state == bosses[boss].state && r.maxHp == bosses[boss].maxHp
      ensures r.damage == if boss in bosses && player in bosses[boss].totals then Some(bosses[boss].totals[player])
                          else None
      ensures Claims.Entitled(View(), Key(boss, player)) <==> r.found && r.state == Defeated && r.damage.Some?
    {
      if boss !in bosses { return Basis(false, Alive, 0, None); }
      var row := bosses[boss];
      r := Basis(true, row.state, row.maxHp, if player in row.totals then Some(row.totals[player]) else None);
    }

    /** Inserts the claim, or reads back the one that is there. */
    method SaveClaim(key: Key, row: ClaimRow, fate: Fate)
      returns (saved: ClaimRow, alreadyClaimed: bool, failed: bool)
      modifies this`claims
      ensures failed <==> fate != Commits
      ensures alreadyClaimed <==> key in old(claims)
      ensures alreadyClaimed ==> saved == old(claims[key]) && claims == old(claims)
      ensures !alreadyClaimed ==> saved == row
      ensures !alreadyClaimed ==> claims == if fate == RollsBack then old(claims) else old(claims)[key := row]
      ensures fate != RollsBack ==> (claims, saved, !alreadyClaimed) == Claims.SaveClaim(old(claims), key, row)
    {
      alreadyClaimed := key in claims;
      saved := if alreadyClaimed then claims[key] else row;
      if !alreadyClaimed && fate != RollsBack {
        claims := claims[key := row];
      }
      failed := fate != Commits;
    }
  }
}
