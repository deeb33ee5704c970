/**
  The cache of one boss: the two Lua scripts and the rebuild (internal/store/redis.go).

  `Entry` is what a script sees of a loaded boss. `Keys` are the Redis keys behind it, each with
  its own expiry; a key whose expiry has passed is invisible. Times are milliseconds.
 */
module Redis {
  import opened Ids
  import opened Totals
  import opened Durable

  datatype Entry = Entry(hp: int, board: map<PlayerId, int>, state: Status)

  /** The status codes 1, 0, -1 and -2 of `damageScript`. */
  datatype Verdict = Landed | TooLate | NotLoaded | Invalid

  datatype Reply = Reply(verdict: Verdict, applied: int, hp: int)

  // ---------------------------------------------------------------- on a loaded boss

  /** `damageScript` on a loaded boss. */
  function Strike(e: Entry, player: PlayerId, damage: int): (Entry, Reply) {
    if damage <= 0 then (e, Reply(Invalid, 0, e.hp))
    else if e.hp <= 0 then (e, Reply(TooLate, 0, e.hp))
    else
      var applied := if damage > e.hp then e.hp else damage;
      var hp := e.hp - applied;
      (Entry(hp, e.board[player := Get(e.board, player) + applied], if hp <= 0 then Defeated else e.state),
       Reply(Landed, applied, hp))
  }

  /** `compensateScript` on a loaded boss. */
  function Undo(e: Entry, player: PlayerId, amount: int): Entry {
    if amount <= 0 then e else
      var score := Get(e.board, player) - amount;
      Entry(
        e.hp + amount,
        if score <= 0 then e.board - {player} else e.board[player := score],
        if e.hp + amount > 0 then Alive else e.state)
  }

  /** `Rehydrate`: an unconditional overwrite. */
  function Rebuilt(rec: Recovery, totals: map<PlayerId, int>): Entry {
    Entry(rec.hp, totals, rec.state)
  }

  /** HP is never negative, defeated means 0 HP, and everybody on the board has a positive score. */
  predicate Coherent(e: Entry) {
    && e.hp >= 0
    && (e.state == Defeated <==> e.hp == 0)
    && (forall p :: p in e.board ==> e.board[p] > 0)
  }

  /** A hit takes from the HP exactly what it credits, and never more than was left. */
  lemma StrikeConserves(e: Entry, player: PlayerId, damage: int)
    requires Coherent(e)
    ensures var (e', r) := Strike(e, player, damage);
            && Coherent(e')
            && e'.hp == e.hp - r.applied == r.hp
            && (forall p :: Get(e'.board, p) == Get(e.board, p) + if p == player then r.applied else 0)
            && (r.verdict == Landed <==> damage > 0 && e.hp > 0)
            && (r.verdict == Landed ==> 0 < r.applied <= damage && (r.applied < damage ==> e'.state == Defeated))
            && (r.verdict != Landed ==> e' == e && r.applied == 0)
  {}

  /** An undo credits the amount back, and takes it off the player's score down to 0. */
  lemma UndoConserves(e: Entry, player: PlayerId, amount: int)
    requires Coherent(e) && amount > 0
    ensures var e' := Undo(e, player, amount);
            && Coherent(e')
            && e'.hp == e.hp + amount
            && e'.state == Alive
            && (forall p :: Get(e'.board, p) ==
                  if p == player then Max(0, Get(e.board, p) - amount) else Get(e.board, p))
  {}

  /** An undo right after a hit restores the starting state, the killing blow included. */
  lemma UndoRestores(e: Entry, player: PlayerId, damage: int)
    requires Coherent(e)
    ensures var (e', r) := Strike(e, player, damage); Undo(e', player, r.applied) == e
  {
    var (e', r) := Strike(e, player, damage);
    if r.verdict == Landed {
      assert Undo(e', player, r.applied).board == e.board;
    }
  }

  // ---------------------------------------------------------------- the keys behind it

  datatype Slot<T> = Slot(value: T, expires: Option<nat>)

  datatype Keys = Keys(
    hp: Option<Slot<int>>,
    board: Option<Slot<map<PlayerId, int>>>,
    state: Option<Slot<Status>>,
    maxHp: Option<int>)

  const NO_KEYS := Keys(None, None, None, None)

  function Live<T>(s: Option<Slot<T>>, now: nat): Option<Slot<T>> {
    if s.Some? && s.value.expires.Some? && s.value.expires.value <= now then None else s
  }

  function Sweep(k: Keys, now: nat): Keys {
    Keys(Live(k.hp, now), Live(k.board, now), Live(k.state, now), k.maxHp)
  }

  /** `SET`, with `EX ttl` when `ttl` is positive. */
  function Set<T>(value: T, ttl: nat, now: nat): Option<Slot<T>> {
    Some(Slot(value, if ttl > 0 then Some(now + 1000 * ttl) else None))
  }

  /** `EXPIRE`, without effect on a missing key. */
  function Expire<T>(s: Option<Slot<T>>, ttl: nat, now: nat): Option<Slot<T>> {
    if s.None? then None else Some(s.value.(expires := Some(now + 1000 * ttl)))
  }

  function Scores(s: Option<Slot<map<PlayerId, int>>>): map<PlayerId, int> {
    if s.None? then map[] else s.value.value
  }

  /** `ZINCRBY`, creating the set when it is missing. */
  function IncrBy(s: Option<Slot<map<PlayerId, int>>>, p: PlayerId, x: int): Option<Slot<map<PlayerId, int>>> {
    Some(Slot(Scores(s)[p := Get(Scores(s), p) + x], if s.None? then None else s.value.expires))
  }

  /** `ZREM`; a sorted set that becomes empty is gone. */
  function Remove(s: Option<Slot<map<PlayerId, int>>>, p: PlayerId): Option<Slot<map<PlayerId, int>>> {
    if s.None? || Scores(s) - {p} == map[] then None else Some(s.value.(value := Scores(s) - {p}))
  }

  function DamageScript(keys: Keys, player: PlayerId, damage: int, ttl: nat, now: nat): (Keys, Reply) {
    var k := Sweep(keys, now);
    if k.hp.None? then (k, Reply(NotLoaded, 0, 0))
    else
      var hp := k.hp.value.value;
      if damage <= 0 then (k, Reply(Invalid, 0, hp))
      else if hp <= 0 then (k, Reply(TooLate, 0, hp))
      else
        var applied := if damage > hp then hp else damage;
        var newHp := hp - applied;
        var board := IncrBy(k.board, player, applied);
        (Keys(
           Set(newHp, ttl, now),
           if ttl > 0 then Expire(board, ttl, now) else board,
           if newHp <= 0 then Set(Defeated, ttl, now)
           else if ttl > 0 then Expire(k.state, ttl, now) else k.state,
           k.maxHp),
         Reply(Landed, applied, newHp))
  }

  function CompensateScript(keys: Keys, player: PlayerId, amount: int, ttl: nat, now: nat): Keys {
    var k := Sweep(keys, now);
    if k.hp.None? || amount <= 0 then k
    else
      var newHp := k.hp.value.value + amount;
      var scored := IncrBy(k.board, player, -amount);
      var board := if Get(Scores(scored), player) <= 0 then Remove(scored, player) else scored;
      Keys(
        Set(newHp, ttl, now),
        if ttl > 0 then Expire(board, ttl, now) else board,
        if newHp > 0 then Set(Alive, ttl, now)
        else if ttl > 0 then Expire(k.state, ttl, now) else k.state,
        k.maxHp)
  }

  /** `ttlArg`: the ttl in whole seconds, as the scripts expect it. */
  function TtlSeconds(ttlMs: nat): nat {
    ttlMs / 1000
  }

  /** The client sends `SET` expiries in milliseconds but `EXPIRE` in whole seconds, at least one. */
  function WholeSeconds(ttlMs: nat): nat {
    if 0 < ttlMs < 1000 then 1 else ttlMs / 1000
  }

  function RebuildKeys(rec: Recovery, totals: map<PlayerId, int>, ttlMs: nat, now: nat): Keys {
    var expires := if ttlMs > 0 then Some(now + ttlMs) else None;
    Keys(
      Some(Slot(rec.hp, expires)),
      if totals == map[] then None
      else Some(Slot(totals, if ttlMs > 0 then Some(now + 1000 * WholeSeconds(ttlMs)) else None)),
      Some(Slot(rec.state, expires)),
      Some(rec.maxHp))
  }

  /** What the scripts and readers see at an instant; a missing state reads as alive. */
  function View(k: Keys, now: nat): Option<Entry> {
    var live := Sweep(k, now);
    if live.hp.None? then None
    else Some(Entry(
                live.hp.value.value,
                Scores(live.board),
                if live.state.None? then Alive else live.state.value.value))
  }

  /** HP, state and any leaderboard exist together and expire together. */
  predicate Steady(k: Keys) {
    if k.hp.None? then k.board.None? && k.state.None?
    else
      && k.state.Some? && k.state.value.expires == k.hp.value.expires
      && (k.board.Some? ==> k.board.value.expires == k.hp.value.expires && k.board.value.value != map[])
  }

  /** Such keys show the same boss until they are all gone: an expiry takes a whole entry. */
  lemma ExpiresAsOne(k: Keys, now: nat, later: nat)
    requires Steady(k) && now <= later
    ensures View(k, later) == View(k, now) || View(k, later) == None
  {}

  /** Without a ttl nothing ever expires. */
  predicate Persistent(k: Keys) {
    k.hp.Some? ==> k.hp.value.expires.None?
  }

  /**
    The damage script is `Strike` on the visible entry, whatever the keys and their expiries; and
    keys that expire together go on doing so.
   */
  lemma DamageScriptRefines(keys: Keys, player: PlayerId, damage: int, ttl: nat, now: nat)
    ensures var (k, r) := DamageScript(keys, player, damage, ttl, now);
            && k.maxHp == keys.maxHp
            && (Steady(keys) && (ttl == 0 ==> Persistent(keys)) ==> Steady(k) && (ttl == 0 ==> Persistent(k)))
            && match View(keys, now)
               case None => r == Reply(NotLoaded, 0, 0) && View(k, now) == None
               case Some(e) => r == Strike(e, player, damage).1 && View(k, now) == Some(Strike(e, player, damage).0)
  {
    var (k, r) := DamageScript(keys, player, damage, ttl, now);
    if r.verdict == Landed {
      assert player in k.board.value.value;
    }
  }

  /** The compensating script is `Undo` on the visible entry, if there is one. */
  lemma CompensateScriptRefines(keys: Keys, player: PlayerId, amount: int, ttl: nat, now: nat)
    ensures var k := CompensateScript(keys, player, amount, ttl, now);
            && k.maxHp == keys.maxHp
            && (Steady(keys) && (ttl == 0 ==> Persistent(keys)) ==> Steady(k) && (ttl == 0 ==> Persistent(k)))
            && match View(keys, now)
               case None => View(k, now) == None
               case Some(e) => View(k, now) == Some(Undo(e, player, amount))
  {
    var s := Sweep(keys, now);
    if s.hp.Some? && amount > 0 {
      var scored := Scores(IncrBy(s.board, player, -amount));
      assert scored - {player} == Scores(s.board) - {player};
    }
  }

  /** After a rebuild the entry is exactly what was read, for any ttl. */
  lemma RebuildRefines(rec: Recovery, totals: map<PlayerId, int>, ttlMs: nat, now: nat)
    ensures View(RebuildKeys(rec, totals, ttlMs, now), now) == Some(Rebuilt(rec, totals))
    ensures forall later :: Sweep(RebuildKeys(rec, totals, ttlMs, now), later).maxHp == Some(rec.maxHp)
    ensures ttlMs == 0 ==> Persistent(RebuildKeys(rec, totals, ttlMs, now))
    ensures Steady(RebuildKeys(rec, totals, ttlMs, now)) <==> ttlMs % 1000 == 0 || totals == map[]
  {}

  ghost predicate LivesAbout<T>(s: Option<Slot<T>>, ttlMs: nat, now: nat) {
    && s.Some?
    && (if ttlMs < 1000 then s.value.expires == None
        else && s.value.expires.Some?
             && now + ttlMs - 1000 < s.value.expires.value <= now + ttlMs
             && (s.value.expires.value - now) % 1000 == 0)
  }

  /**
    How long a boss lives after a hit that landed or an undo: the configured ttl rounded down to
    whole seconds, for ever if that is nothing; and after a rebuild: the ttl to the millisecond,
    with the leaderboard on whole seconds and never on less than one.
   */
  lemma Lifetimes(keys: Keys, player: PlayerId, damage: int, rec: Recovery, totals: map<PlayerId, int>,
                  ttlMs: nat, now: nat)
    ensures var (k, r) := DamageScript(keys, player, damage, TtlSeconds(ttlMs), now);
            r.verdict == Landed ==> LivesAbout(k.hp, ttlMs, now)
    ensures var k := CompensateScript(keys, player, damage, TtlSeconds(ttlMs), now);
            View(keys, now).Some? && damage > 0 ==> LivesAbout(k.hp, ttlMs, now)
    ensures var k := RebuildKeys(rec, totals, ttlMs, now);
            && k.hp.Some? && k.hp.value.expires == (if ttlMs == 0 then None else Some(now + ttlMs))
            && k.state.Some? && k.state.value.expires == k.hp.value.expires
            && (totals != map[] ==> k.board.Some?)
            && (k.board.Some? ==>
                  if ttlMs == 0 then k.board.value.expires == None
                  else if ttlMs < 1000 then k.board.value.expires == Some(now + 1000)
                  else LivesAbout(k.board, ttlMs, now))
  {}

  // ---------------------------------------------------------------- the store

  /** The cache as an object; `now` is the server's clock when a command runs. */
  class RedisStore {
    var keys: map<BossId, Keys>
    const ttlMs: nat

    constructor (ttlMs: nat)
      ensures keys == map[] && this.ttlMs == ttlMs
    {
      this.keys, this.ttlMs := map[], ttlMs;
    }

    function TtlArg(): nat {
      TtlSeconds(ttlMs)
    }

    function At(boss: BossId): Keys
      reads this
    {
      if boss in keys then keys[boss] else NO_KEYS
    }

    function Sees(boss: BossId, now: nat): Option<Entry>
      reads this
    {
      View(At(boss), now)
    }

    /** Every boss's keys expire together. */
    predicate Valid()
      reads this
    {
      forall b :: b in keys ==> Steady(keys[b]) && (TtlArg() == 0 ==> Persistent(keys[b]))
    }

    /** `damageScript`, statement by statement. */
    method ApplyDamage(boss: BossId, player: PlayerId, damage: int, now: nat) returns (r: Reply)
      modifies this`keys
      ensures keys == old(keys)[boss := DamageScript(old(At(boss)), player, damage, TtlArg(), now).0]
      ensures r == DamageScript(old(At(boss)), player, damage, TtlArg(), now).1
      ensures forall b :: b != boss ==> At(b) == old(At(b))
      ensures old(Valid()) ==> Valid()
      ensures match old(Sees(boss, now))
              case None => r == Reply(NotLoaded, 0, 0) && Sees(boss, now) == None
              case Some(e) => (Sees(boss, now), r) == (Some(Strike(e, player, damage).0), Strike(e, player, damage).1)
    {
      var k := Sweep(At(boss), now);
      DamageScriptRefines(At(boss), player, damage, TtlArg(), now);
      if k.hp.None? {
        keys := keys[boss := k];
        return Reply(NotLoaded, 0, 0);
      }
      var hp := k.hp.value.value;
      if damage <= 0 {
        keys := keys[boss := k];
        return Reply(Invalid, 0, hp);
      }
      if hp <= 0 {
        keys := keys[boss := k];
        return Reply(TooLate, 0, hp);
      }
      var applied := damage;
      if applied > hp { applied := hp; }
      var newHp := hp - applied;
      var ttl := TtlArg();
      k := k.(board := IncrBy(k.board, player, applied));
      if ttl > 0 {
        k := k.(hp := Set(newHp, ttl, now));
        k := k.(board := Expire(k.board, ttl, now));
        if newHp <= 0 {
          k := k.(state := Set(Defeated, ttl, now));
        } else {
          k := k.(state := Expire(k.state, ttl, now));
        }
      } else {
        k := k.(hp := Set(newHp, 0, now));
        if newHp <= 0 {
          k := k.(state := Set(Defeated, 0, now));
        }
      }
      keys := keys[boss := k];
      r := Reply(Landed, applied, newHp);
    }

    /** `compensateScript`, statement by statement. */
    method CompensateDamage(boss: BossId, player: PlayerId, amount: int, now: nat)
      modifies this`keys
      ensures keys == old(keys)[boss := CompensateScript(old(At(boss)), player, amount, TtlArg(), now)]
      ensures old(Valid()) ==> Valid()
      ensures forall b :: b != boss ==> At(b) == old(At(b))
      ensures Sees(boss, now) == match old(Sees(boss, now))
                                 case None => None
                                 case Some(e) => Some(Undo(e, player, amount))
    {
      var k := Sweep(At(boss), now);
      CompensateScriptRefines(At(boss), player, amount, TtlArg(), now);
      if k.hp.Some? && amount > 0 {
        var newHp := k.hp.value.value + amount;
        var ttl := TtlArg();
        k := k.(board := IncrBy(k.board, player, -amount));
        if Get(Scores(k.board), player) <= 0 {
          k := k.(board := Remove(k.board, player));
        }
        if ttl > 0 {
          k := k.(hp := Set(newHp, ttl, now));
          k := k.(board := Expire(k.board, ttl, now));
          if newHp > 0 {
            k := k.(state := Set(Alive, ttl, now));
          } else {
            k := k.(state := Expire(k.state, ttl, now));
          }
        } else {
          k := k.(hp := Set(newHp, 0, now));
          if newHp > 0 {
            k := k.(state := Set(Alive, 0, now));
          }
        }
      }
      keys := keys[boss := k];
    }

    /** The rebuild pipeline: one MULTI/EXEC, so nobody sees it half done. */
    method Rehydrate(boss: BossId, rec: Recovery, rows: seq<Leader>, now: nat)
      modifies this`keys
      ensures keys == old(keys)[boss := RebuildKeys(rec, Board(rows), ttlMs, now)]
      ensures forall b :: b != boss ==> At(b) == old(At(b))
      ensures Sees(boss, now) == Some(Rebuilt(rec, Board(rows)))
      ensures old(Valid()) && ttlMs % 1000 == 0 ==> Valid()
    {
      RebuildRefines(rec, Board(rows), ttlMs, now);
      var k := At(boss);
      var expires := if ttlMs > 0 then Some(now + ttlMs) else None;
      k := k.(hp := Some(Slot(rec.hp, expires)));
      k := k.(maxHp := Some(rec.maxHp));
      k := k.(state := Some(Slot(rec.state, expires)));
      k := k.(board := None);
      if |rows| > 0 {
        var members: map<PlayerId, int> := map[];
        for i := 0 to |rows|
          invariant members == Board(rows[..i])
        {
          assert rows[..i + 1][..i] == rows[..i];
          members := members[rows[i].player := rows[i].damage];
        }
        assert rows[..|rows|] == rows;
        k := k.(board := Some(Slot(members, None)));
        if ttlMs > 0 {
          k := k.(board := Expire(k.board, WholeSeconds(ttlMs), now));
        }
      }
      keys := keys[boss := k];
    }
  }
}
