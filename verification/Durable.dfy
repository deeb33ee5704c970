/**
  The durable state (db/init.sql) and what one `CommitBatch` transaction does to it.

  Every `contributions` row references a boss, so the table is kept grouped by boss: the rows
  of boss `b` are `bosses[b].totals`.
 */
module Durable {
  import opened Ids
  import opened Totals

  datatype Status = Alive | Defeated

  /** One row of `damage_events`; `applied` is what the cache credited. */
  datatype Event = Event(boss: BossId, player: PlayerId, applied: int)

  datatype BossRow = BossRow(
    maxHp: int,
    hp: int,
    state: Status,
    defeatedAt: Option<nat>,
    totals: map<PlayerId, int>)

  datatype ClaimRow = ClaimRow(tier: Tier, pct: real, payload: Payload, claimedAt: nat)

  datatype Tier = Legendary | Epic | Rare | Uncommon | Common

  datatype Payload = Payload(gold: int, items: seq<string>)

  datatype Db = Db(bosses: map<BossId, BossRow>, log: seq<Event>, claims: map<Key, ClaimRow>)

  /** How a transaction ends: committed, rolled back, or committed with the reply lost. */
  datatype Fate = Commits | RollsBack | CommitsUnacked

  /** A row of a boss's `contributions`, and what a sorted set holds after adding such rows. */
  datatype Leader = Leader(player: PlayerId, damage: int)

  function Board(rows: seq<Leader>): (m: map<PlayerId, int>)
    ensures m == map[] <==> rows == []
    ensures forall r :: r in rows ==> r.player in m
  {
    if rows == [] then map[] else
      var last := rows[|rows| - 1];
      assert rows == rows[..|rows| - 1] + [last];
      Board(rows[..|rows| - 1])[last.player := last.damage]
  }

  /** Which damage a sum ranges over: one boss, or one player's on one boss. */
  datatype Scope = OfBoss(boss: BossId) | OfPlayer(key: Key) {
    predicate Covers(b: BossId, p: PlayerId) {
      match this
      case OfBoss(boss) => b == boss
      case OfPlayer(key) => key == Key(b, p)
    }

    function Boss(): BossId {
      match this
      case OfBoss(boss) => boss
      case OfPlayer(key) => key.boss
    }
  }

  function Max(a: int, b: int): int {
    if a < b then b else a
  }

  function Share(e: Event, sc: Scope): int {
    if sc.Covers(e.boss, e.player) then e.applied else 0
  }

  function EventSum(events: seq<Event>, sc: Scope): int {
    if events == [] then 0 else
      var last := |events| - 1;
      EventSum(events[..last], sc) + Share(events[last], sc)
  }

  predicate Touches(events: seq<Event>, b: BossId) {
    exists e :: e in events && e.boss == b
  }

  function Players(events: seq<Event>, b: BossId): set<PlayerId> {
    set e | e in events && e.boss == b :: e.player
  }

  // ---------------------------------------------------------------- one transaction

  /** The upserts into `contributions`: per-player sums added, missing rows inserted. */
  function AddTotals(totals: map<PlayerId, int>, events: seq<Event>, b: BossId): map<PlayerId, int> {
    map p | p in totals.Keys + Players(events, b) ::
      Get(totals, p) + EventSum(events, OfPlayer(Key(b, p)))
  }

  /** The `UPDATE bosses` statement: HP clamped at 0, state and `defeated_at` only forward. */
  function Decrement(row: BossRow, x: int, now: nat): BossRow {
    row.(
      hp := Max(0, row.hp - x),
      state := if row.hp - x <= 0 then Defeated else row.state,
      defeatedAt := if row.hp - x <= 0 && row.defeatedAt.None? then Some(now) else row.defeatedAt)
  }

  function CommitRow(row: BossRow, b: BossId, events: seq<Event>, now: nat): BossRow {
    if !Touches(events, b) then row else
      Decrement(row.(totals := AddTotals(row.totals, events, b)), EventSum(events, OfBoss(b)), now)
  }

  /** The foreign key and the CHECK on `damage_events`; the COPY fails otherwise. */
  predicate Accepts(db: Db, events: seq<Event>) {
    forall e :: e in events ==> e.boss in db.bosses && e.applied >= 0
  }

  function Commit(db: Db, events: seq<Event>, now: nat): Db {
    db.(
      bosses := map b | b in db.bosses :: CommitRow(db.bosses[b], b, events, now),
      log := db.log + events)
  }

  // ---------------------------------------------------------------- sums of events

  lemma {:induction false} SumConcat(a: seq<Event>, b: seq<Event>, sc: Scope)
    ensures EventSum(a + b, sc) == EventSum(a, sc) + EventSum(b, sc)
  {
    if b == [] {
      assert a + b == a;
    } else {
      var last := |b| - 1;
      assert (a + b)[..|a + b| - 1] == a + b[..last];
      SumConcat(a, b[..last], sc);
    }
  }

  lemma SumOne(e: Event, sc: Scope)
    ensures EventSum([e], sc) == Share(e, sc)
  {
    assert [e][..0] == [];
  }

  lemma SumRemove(events: seq<Event>, i: nat, sc: Scope)
    requires i < |events|
    ensures EventSum(events, sc) == EventSum(events[..i] + events[i + 1..], sc) + Share(events[i], sc)
    ensures multiset(events) == multiset(events[..i] + events[i + 1..]) + multiset{events[i]}
  {
    assert events == events[..i] + ([events[i]] + events[i + 1..]);
    SumConcat(events[..i], [events[i]] + events[i + 1..], sc);
    SumConcat([events[i]], events[i + 1..], sc);
    SumConcat(events[..i], events[i + 1..], sc);
    SumOne(events[i], sc);
  }

  lemma IndexOf(events: seq<Event>, e: Event) returns (i: nat)
    requires e in multiset(events)
    ensures i < |events| && events[i] == e
  {
    assert e in events;
    i :| 0 <= i < |events| && events[i] == e;
  }

  /** Taking the same element out of equal multisets. */
  lemma SameRemainder(all: multiset<Event>, x: multiset<Event>, y: multiset<Event>, e: Event)
    requires all == x + multiset{e} && all == y + multiset{e}
    ensures x == y
  {
    assert x == all - multiset{e} && y == all - multiset{e};
  }

  lemma {:induction false} SumPermute(a: seq<Event>, b: seq<Event>, sc: Scope)
    requires multiset(a) == multiset(b)
    ensures EventSum(a, sc) == EventSum(b, sc)
    decreases |a|
  {
    if a == [] {
      assert |b| == |multiset(b)| == 0;
    } else {
      var i := IndexOf(b, a[0]);
      var x, y := a[..0] + a[1..], b[..i] + b[i + 1..];
      SumRemove(a, 0, sc);
      SumRemove(b, i, sc);
      SameRemainder(multiset(a), multiset(x), multiset(y), a[0]);
      SumPermute(x, y, sc);
    }
  }

  lemma {:induction false} SumNonNegative(events: seq<Event>, sc: Scope)
    requires forall e :: e in events ==> e.applied >= 0
    ensures EventSum(events, sc) >= 0
  {
    if events != [] { SumNonNegative(events[..|events| - 1], sc); }
  }

  /** Nothing outside `Players` contributes. */
  lemma {:induction false} SumUntouched(events: seq<Event>, sc: Scope)
    requires forall e :: e in events ==> !sc.Covers(e.boss, e.player)
    ensures EventSum(events, sc) == 0
  {
    if events != [] { SumUntouched(events[..|events| - 1], sc); }
  }

  lemma AddTotalsGet(totals: map<PlayerId, int>, events: seq<Event>, b: BossId, p: PlayerId)
    ensures Get(AddTotals(totals, events, b), p) == Get(totals, p) + EventSum(events, OfPlayer(Key(b, p)))
  {
    if p !in Players(events, b) {
      SumUntouched(events, OfPlayer(Key(b, p)));
    }
  }

  lemma AddTotalsConcat(totals: map<PlayerId, int>, a: seq<Event>, c: seq<Event>, b: BossId)
    ensures AddTotals(AddTotals(totals, a, b), c, b) == AddTotals(totals, a + c, b)
  {
    assert Players(a + c, b) == Players(a, b) + Players(c, b);
    forall p | p in totals.Keys + Players(a + c, b)
      ensures AddTotals(AddTotals(totals, a, b), c, b)[p] == AddTotals(totals, a + c, b)[p]
    {
      AddTotalsGet(totals, a, b, p);
      SumConcat(a, c, OfPlayer(Key(b, p)));
    }
  }

  lemma AddTotalsSingle(totals: map<PlayerId, int>, e: Event, b: BossId)
    ensures AddTotals(totals, [e], b) ==
            if e.boss == b then totals[e.player := Get(totals, e.player) + e.applied] else totals
  {
    forall p: PlayerId ensures EventSum([e], OfPlayer(Key(b, p))) == Share(e, OfPlayer(Key(b, p))) {
      SumOne(e, OfPlayer(Key(b, p)));
    }
  }

  lemma AddTotalsOne(totals: map<PlayerId, int>, e: Event, b: BossId)
    ensures Total(AddTotals(totals, [e], b)) == Total(totals) + Share(e, OfBoss(b))
  {
    AddTotalsSingle(totals, e, b);
    TotalAdd(totals, e.player, e.applied);
  }

  /** The sum over a boss's contributions grows by exactly what the batch applied to that boss. */
  lemma {:induction false} AddTotalsTotal(totals: map<PlayerId, int>, events: seq<Event>, b: BossId)
    ensures Total(AddTotals(totals, events, b)) == Total(totals) + EventSum(events, OfBoss(b))
    decreases |events|
  {
    if events == [] {
      assert AddTotals(totals, events, b) == totals;
    } else {
      var last := |events| - 1;
      var init, e := events[..last], events[last];
      AddTotalsTotal(totals, init, b);
      AddTotalsOne(AddTotals(totals, init, b), e, b);
      AddTotalsConcat(totals, init, [e], b);
      assert init + [e] == events;
    }
  }

  // ---------------------------------------------------------------- durable invariants

  /**
    What every committed state satisfies, overshoot included: the stored HP is the recovered HP,
    and the state, `defeated_at` and the contributions tell the same story.
   */
  ghost predicate RowOk(row: BossRow) {
    && row.maxHp > 0
    && (forall p :: p in row.totals ==> row.totals[p] >= 0)
    && row.hp == Max(0, row.maxHp - Total(row.totals))
    && (row.state == Defeated <==> Total(row.totals) >= row.maxHp)
    && (row.defeatedAt.Some? <==> row.state == Defeated)
  }

  ghost predicate LogOk(db: Db) {
    && (forall e :: e in db.log ==> e.boss in db.bosses && e.applied >= 0)
    && (forall b, p :: b in db.bosses ==>
          Get(db.bosses[b].totals, p) == EventSum(db.log, OfPlayer(Key(b, p))))
  }

  ghost predicate DbOk(db: Db) {
    && (forall b :: b in db.bosses ==> RowOk(db.bosses[b]))
    && LogOk(db)
  }

  /** A freshly seeded boss: alive at full HP, nobody has hit it. */
  predicate Fresh(row: BossRow) {
    row.maxHp > 0 && row.hp == row.maxHp && row.state == Alive && row.defeatedAt.None? && row.totals == map[]
  }

  lemma CommitKeepsRow(row: BossRow, b: BossId, events: seq<Event>, now: nat)
    requires RowOk(row)
    requires forall e :: e in events ==> e.applied >= 0
    ensures RowOk(CommitRow(row, b, events, now))
    ensures Total(CommitRow(row, b, events, now).totals) == Total(row.totals) + EventSum(events, OfBoss(b))
    ensures row.state == Alive && CommitRow(row, b, events, now).state == Defeated ==>
              CommitRow(row, b, events, now).defeatedAt == Some(now)
  {
    SumNonNegative(events, OfBoss(b));
    if Touches(events, b) {
      AddTotalsTotal(row.totals, events, b);
      var totals := AddTotals(row.totals, events, b);
      forall p | p in totals ensures totals[p] >= 0 {
        SumNonNegative(events, OfPlayer(Key(b, p)));
      }
    } else {
      SumUntouched(events, OfBoss(b));
    }
  }

  lemma CommitTotalsGet(db: Db, events: seq<Event>, now: nat, b: BossId, p: PlayerId)
    requires b in db.bosses
    ensures Get(Commit(db, events, now).bosses[b].totals, p) ==
            Get(db.bosses[b].totals, p) + EventSum(events, OfPlayer(Key(b, p)))
  {
    if Touches(events, b) {
      AddTotalsGet(db.bosses[b].totals, events, b, p);
    } else {
      SumUntouched(events, OfPlayer(Key(b, p)));
    }
  }

  /** The totals of a boss rise by the batch's damage on it, and its HP falls by it, down to 0. */
  lemma CommitMoves(row: BossRow, b: BossId, events: seq<Event>, now: nat)
    requires row.hp >= 0
    ensures Total(CommitRow(row, b, events, now).totals) == Total(row.totals) + EventSum(events, OfBoss(b))
    ensures CommitRow(row, b, events, now).hp == Max(0, row.hp - EventSum(events, OfBoss(b)))
  {
    if Touches(events, b) {
      AddTotalsTotal(row.totals, events, b);
    } else {
      SumUntouched(events, OfBoss(b));
    }
  }

  /** The durable invariants survive every accepted batch. */
  lemma CommitKeepsDb(db: Db, events: seq<Event>, now: nat)
    requires DbOk(db) && Accepts(db, events)
    ensures DbOk(Commit(db, events, now))
  {
    var db' := Commit(db, events, now);
    forall b | b in db.bosses ensures RowOk(db'.bosses[b]) {
      CommitKeepsRow(db.bosses[b], b, events, now);
    }
    forall b, p | b in db.bosses
      ensures Get(db'.bosses[b].totals, p) == EventSum(db'.log, OfPlayer(Key(b, p)))
    {
      SumConcat(db.log, events, OfPlayer(Key(b, p)));
      CommitTotalsGet(db, events, now, b, p);
    }
  }

  /** `row'` can follow `row`: nothing durable is ever taken back. */
  predicate Advances(row: BossRow, row': BossRow) {
    && row'.maxHp == row.maxHp
    && (forall p :: p in row.totals ==> p in row'.totals && row.totals[p] <= row'.totals[p])
    && (row.state == Defeated ==> row'.state == Defeated)
    && (row.defeatedAt.Some? ==> row'.defeatedAt == row.defeatedAt)
    && row'.hp <= row.hp
  }

  /** Totals only grow, a defeat is never reverted and `defeated_at` is set once. */
  lemma CommitAdvances(row: BossRow, b: BossId, events: seq<Event>, now: nat)
    requires RowOk(row)
    requires forall e :: e in events ==> e.applied >= 0
    ensures Advances(row, CommitRow(row, b, events, now))
  {
    SumNonNegative(events, OfBoss(b));
    var row' := CommitRow(row, b, events, now);
    forall p | p in row.totals ensures p in row'.totals && row.totals[p] <= row'.totals[p] {
      SumNonNegative(events, OfPlayer(Key(b, p)));
    }
  }

  // ---------------------------------------------------------------- group commit

  /** Equal up to the order of the log and the instants written to `defeated_at`. */
  ghost predicate SameRow(r: BossRow, s: BossRow) {
    && r.maxHp == s.maxHp && r.hp == s.hp && r.state == s.state && r.totals == s.totals
    && (r.defeatedAt.Some? <==> s.defeatedAt.Some?)
  }

  ghost predicate Same(a: Db, b: Db) {
    && a.bosses.Keys == b.bosses.Keys
    && (forall x :: x in a.bosses ==> SameRow(a.bosses[x], b.bosses[x]))
    && multiset(a.log) == multiset(b.log)
    && a.claims == b.claims
  }

  /** The transactions of any number of committers, in commit order; `at` gives the clock. */
  function CommitAll(db: Db, batches: seq<seq<Event>>, at: nat -> nat): Db {
    if batches == [] then db else
      var last := |batches| - 1;
      Commit(CommitAll(db, batches[..last], at), batches[last], at(last))
  }

  function Flatten<T>(batches: seq<seq<T>>): seq<T> {
    if batches == [] then [] else Flatten(batches[..|batches| - 1]) + batches[|batches| - 1]
  }

  lemma FlattenSnoc<T>(batches: seq<seq<T>>, batch: seq<T>)
    ensures Flatten(batches + [batch]) == Flatten(batches) + batch
  {
    assert (batches + [batch])[..|batches|] == batches;
  }

  function Singles<T>(events: seq<T>): seq<seq<T>> {
    seq(|events|, i requires 0 <= i < |events| => [events[i]])
  }

  lemma {:induction false} FlattenSingles<T>(events: seq<T>)
    ensures Flatten(Singles(events)) == events
  {
    if events != [] {
      var last := |events| - 1;
      FlattenSingles(events[..last]);
      assert Singles(events)[..last] == Singles(events[..last]);
      assert events == events[..last] + [events[last]];
    }
  }

  predicate Clamped(db: Db) {
    forall b :: b in db.bosses ==> db.bosses[b].hp >= 0
  }

  lemma UntouchedTotals(totals: map<PlayerId, int>, events: seq<Event>, b: BossId)
    requires !Touches(events, b)
    ensures AddTotals(totals, events, b) == totals
    ensures EventSum(events, OfBoss(b)) == 0
  {
    SumUntouched(events, OfBoss(b));
    assert Players(events, b) == {};
    forall p: PlayerId ensures EventSum(events, OfPlayer(Key(b, p))) == 0 {
      SumUntouched(events, OfPlayer(Key(b, p)));
    }
  }

  lemma TouchesConcat(x: seq<Event>, y: seq<Event>, b: BossId)
    ensures Touches(x + y, b) <==> Touches(x, b) || Touches(y, b)
  {
    assert forall e :: e in x + y <==> e in x || e in y;
  }

  lemma RowConcat(row: BossRow, b: BossId, x: seq<Event>, y: seq<Event>, t: nat, u: nat, v: nat)
    requires row.hp >= 0
    requires (forall e :: e in x ==> e.applied >= 0) && (forall e :: e in y ==> e.applied >= 0)
    ensures SameRow(CommitRow(CommitRow(row, b, x, t), b, y, u), CommitRow(row, b, x + y, v))
    ensures t == u == v ==> CommitRow(CommitRow(row, b, x, t), b, y, u) == CommitRow(row, b, x + y, v)
  {
    TouchesConcat(x, y, b);
    SumConcat(x, y, OfBoss(b));
    SumNonNegative(x, OfBoss(b));
    SumNonNegative(y, OfBoss(b));
    AddTotalsConcat(row.totals, x, y, b);
    if !Touches(x, b) { UntouchedTotals(row.totals, x, b); }
    if !Touches(y, b) { UntouchedTotals(AddTotals(row.totals, x, b), y, b); }
  }

  lemma AcceptsConcat(db: Db, x: seq<Event>, y: seq<Event>)
    ensures Accepts(db, x + y) <==> Accepts(db, x) && Accepts(db, y)
  {
    assert forall e :: e in x + y <==> e in x || e in y;
  }

  lemma LogConcat(log: seq<Event>, x: seq<Event>, y: seq<Event>)
    ensures log + x + y == log + (x + y)
    ensures multiset(log + x + y) == multiset(log + (x + y))
  {}

  /** Two consecutive batches act as their concatenation. */
  lemma CommitConcat(db: Db, x: seq<Event>, y: seq<Event>, t: nat, u: nat, v: nat)
    requires Clamped(db) && Accepts(db, x + y)
    ensures Same(Commit(Commit(db, x, t), y, u), Commit(db, x + y, v))
  {
    AcceptsConcat(db, x, y);
    forall b | b in db.bosses
      ensures SameRow(CommitRow(CommitRow(db.bosses[b], b, x, t), b, y, u), CommitRow(db.bosses[b], b, x + y, v))
    {
      RowConcat(db.bosses[b], b, x, y, t, u, v);
    }
    LogConcat(db.log, x, y);
  }

  /** At one and the same instant not even `defeated_at` tells them apart. */
  lemma CommitTwice(db: Db, x: seq<Event>, y: seq<Event>, now: nat)
    requires Clamped(db) && Accepts(db, x + y)
    ensures Commit(Commit(db, x, now), y, now) == Commit(db, x + y, now)
  {
    AcceptsConcat(db, x, y);
    forall b | b in db.bosses
      ensures CommitRow(CommitRow(db.bosses[b], b, x, now), b, y, now) == CommitRow(db.bosses[b], b, x + y, now)
    {
      RowConcat(db.bosses[b], b, x, y, now, now, now);
    }
    LogConcat(db.log, x, y);
  }

  lemma SameMembers(x: seq<Event>, y: seq<Event>)
    requires multiset(x) == multiset(y)
    ensures forall e :: e in x <==> e in y
  {
    assert forall e :: e in x <==> e in multiset(x);
    assert forall e :: e in y <==> e in multiset(y);
  }

  lemma RowPermute(row: BossRow, b: BossId, x: seq<Event>, y: seq<Event>, t: nat, u: nat)
    requires multiset(x) == multiset(y)
    requires forall e :: e in x <==> e in y
    ensures SameRow(CommitRow(row, b, x, t), CommitRow(row, b, y, u))
  {
    SumPermute(x, y, OfBoss(b));
    assert Players(x, b) == Players(y, b);
    forall p: PlayerId
      ensures EventSum(x, OfPlayer(Key(b, p))) == EventSum(y, OfPlayer(Key(b, p)))
    {
      SumPermute(x, y, OfPlayer(Key(b, p)));
    }
    assert AddTotals(row.totals, x, b) == AddTotals(row.totals, y, b);
    assert Touches(x, b) <==> Touches(y, b);
  }

  /** A batch's order is irrelevant. */
  lemma CommitPermute(db: Db, x: seq<Event>, y: seq<Event>, t: nat, u: nat)
    requires multiset(x) == multiset(y)
    ensures Same(Commit(db, x, t), Commit(db, y, u))
  {
    SameMembers(x, y);
    forall b | b in db.bosses
      ensures SameRow(CommitRow(db.bosses[b], b, x, t), CommitRow(db.bosses[b], b, y, u))
    {
      RowPermute(db.bosses[b], b, x, y, t, u);
    }
  }

  lemma CommitCongruent(a: Db, b: Db, events: seq<Event>, t: nat, u: nat)
    requires Same(a, b)
    ensures Same(Commit(a, events, t), Commit(b, events, u))
  {}

  /** Any sequence of batches acts as one transaction over all their events. */
  lemma {:induction false} CommitAllFlattens(db: Db, batches: seq<seq<Event>>, at: nat -> nat, now: nat)
    requires Clamped(db) && Accepts(db, Flatten(batches))
    ensures Same(CommitAll(db, batches, at), Commit(db, Flatten(batches), now))
    ensures CommitAll(db, batches, at).bosses.Keys == db.bosses.Keys
  {
    if batches == [] {
      assert Commit(db, [], now) == db;
    } else {
      var last := |batches| - 1;
      var init := batches[..last];
      assert forall e :: e in Flatten(init) ==> e in Flatten(batches);
      CommitAllFlattens(db, init, at, now);
      CommitCongruent(CommitAll(db, init, at), Commit(db, Flatten(init), now), batches[last], at(last), at(last));
      CommitConcat(db, Flatten(init), batches[last], now, at(last), now);
    }
  }

  /**
    Group commit preserves meaning: however the same hits are split into batches, over however
    many committers and in whatever commit order, the durable state is the same, in particular
    the one reached by committing the hits one at a time.
   */
  lemma GroupCommitPreservesMeaning(
    db: Db, batches: seq<seq<Event>>, others: seq<seq<Event>>, at: nat -> nat, at': nat -> nat)
    requires Clamped(db) && Accepts(db, Flatten(batches))
    requires multiset(Flatten(batches)) == multiset(Flatten(others))
    ensures Same(CommitAll(db, batches, at), CommitAll(db, others, at'))
    ensures Same(CommitAll(db, batches, at), CommitAll(db, Singles(Flatten(batches)), at'))
  {
    var events := Flatten(batches);
    SameMembers(events, Flatten(others));
    CommitAllFlattens(db, batches, at, 0);
    CommitAllFlattens(db, others, at', 0);
    CommitPermute(db, events, Flatten(others), 0, 0);
    FlattenSingles(events);
    CommitAllFlattens(db, Singles(events), at', 0);
  }

  // ---------------------------------------------------------------- reads

  /** The answer of `RecoveryState`: HP derived from the contributions, never a stored copy. */
  datatype Recovery = Recovery(maxHp: int, hp: int, state: Status)

  ghost function RecoveryOf(row: BossRow): Recovery {
    Recovery(row.maxHp, Max(0, row.maxHp - Total(row.totals)), row.state)
  }

  /** A recovered boss is defeated exactly at 0 HP, and recovers the HP the row stores. */
  lemma RecoveryIsCoherent(row: BossRow)
    requires RowOk(row)
    ensures RecoveryOf(row).hp == row.hp
    ensures RecoveryOf(row).state == Defeated <==> RecoveryOf(row).hp == 0
  {}
}
