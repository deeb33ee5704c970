/**
  The domain service (internal/boss/service.go): one `Damage` or `Claim` call from entry to reply,
  through cache, writer and durable store, with the failures of its surroundings as parameters.
  Calls that interleave are the subject of `Protocol`.
 */
module Service {
  import opened Ids
  import opened Totals
  import opened Durable
  import opened Redis
  import opened Postgres
  import opened Recovery
  import opened Committer
  import Reconciler
  import Reward
  import Claims

  datatype Error =
    | InvalidDamage | BossNotFound | BossAlreadyDefeated | BossNotDefeated | NoContribution | Overloaded
    | CommitFailed | Cancelled | StoreDown

  /**
    What happens around one call: how the calls to the cache and the transactions end, and
    whether the caller gives up on the writer. A script that ran although its reply was lost
    `CommitsUnacked`.
   */
  datatype Weather = Weather(apply: Fate, rebuild: Reach, retry: Fate, gaveUp: bool, fate: Fate, undo: Fate) {
    predicate CacheUp() { apply == Commits && rebuild.Whole() && retry == Commits }

    predicate Undoes() { undo != RollsBack }
  }

  datatype Outcome<+T> = Ok(value: T) | Err(error: Error)

  datatype Damaged = Damaged(applied: int, hp: int, defeated: bool)

  datatype Claimed = Claimed(row: ClaimRow, alreadyClaimed: bool)

  function ErrorFor(reason: Claims.Reason): Error {
    match reason
    case BossNotFound => Error.BossNotFound
    case BossNotDefeated => Error.BossNotDefeated
    case NoContribution => Error.NoContribution
  }

  function Clamp(e: Entry, amount: int): int {
    if amount > e.hp then e.hp else amount
  }

  /** What a hit on a coherent boss is answered, and what undoing it gives. */
  lemma StrikeAnswers(e: Entry, player: PlayerId, amount: int)
    requires Coherent(e) && amount > 0
    ensures var (e', r) := Strike(e, player, amount);
            && r.verdict == (if e.hp > 0 then Landed else TooLate)
            && (e.hp <= 0 ==> e' == e)
            && (e.hp > 0 ==>
                  && r.applied == Clamp(e, amount) && r.hp == e.hp - r.applied == e'.hp
                  && (e'.state == Defeated <==> r.hp <= 0)
                  && Undo(e', player, r.applied) == e)
  {
    StrikeConserves(e, player, amount);
    UndoRestores(e, player, amount);
  }

  /** The boss shows the hit: its HP and this player's score moved by `x`, the state follows the HP. */
  ghost predicate ShowsHit(e: Entry, e': Entry, player: PlayerId, x: int) {
    && e'.hp == e.hp - x
    && (forall p :: Get(e'.board, p) == Get(e.board, p) + if p == player then x else 0)
    && (e'.state == Defeated <==> e'.hp == 0)
    && Coherent(e')
  }

  lemma StrikeShowsHit(e: Entry, player: PlayerId, amount: int)
    requires Coherent(e) && amount > 0 && e.hp > 0
    ensures ShowsHit(e, Strike(e, player, amount).0, player, Clamp(e, amount))
  {
    StrikeConserves(e, player, amount);
  }

  function Struck(e: Entry, player: PlayerId, amount: int, fate: Fate): (Option<Entry>, Outcome<Reply>) {
    var (e', reply) := Strike(e, player, amount);
    (Some(e'), if fate == Commits then Ok(reply) else Err(StoreDown))
  }

  /**
    Where a hit on a boss that is seen as `seen`, and that Postgres has as `durable`, arrives: what
    is seen afterwards, and the script's reply or the error.
   */
  function Arrival(seen: Option<Entry>, durable: Option<Entry>, player: PlayerId, amount: int, w: Weather)
    : (Option<Entry>, Outcome<Reply>)
  {
    if w.apply == RollsBack then (seen, Err(StoreDown))
    else if seen.Some? then Struck(seen.value, player, amount, w.apply)
    else if w.apply != Commits || !w.rebuild.state then (None, Err(StoreDown))
    else if durable == None then (None, Err(BossNotFound))
    else if !w.rebuild.Overwrites() then (None, Err(StoreDown))
    else if !w.rebuild.Whole() || w.retry == RollsBack then (durable, Err(StoreDown))
    else Struck(durable.value, player, amount, w.retry)
  }

  /** A reply is that of a hit on the loaded or rebuilt boss; every error leaves one of four bosses. */
  lemma ArrivalMeans(seen: Option<Entry>, durable: Option<Entry>, player: PlayerId, amount: int, w: Weather)
    ensures var loaded := if seen.Some? then seen else durable;
            var (e, r) := Arrival(seen, durable, player, amount, w);
            && (r.Ok? ==> loaded.Some? && (e, r.value) == (Some(Strike(loaded.value, player, amount).0),
                                                           Strike(loaded.value, player, amount).1))
            && (r.Err? ==>
                  || e == seen || e == loaded
                  || ((w.apply == CommitsUnacked || w.retry == CommitsUnacked) && loaded.Some? &&
                      e == Some(Strike(loaded.value, player, amount).0)))
            && (r == Err(BossNotFound) ==> loaded == None && e == None)
            && (w.CacheUp() ==> if loaded.Some? then r.Ok? else r == Err(BossNotFound))
            && (r.Err? ==> r.error == BossNotFound || r.error == StoreDown)
  {}

  function RefusalOf(v: Verdict): Error {
    match v
    case NotLoaded => BossNotFound
    case TooLate => BossAlreadyDefeated
    case _ => InvalidDamage
  }

  function ErrorOf(a: Answer): Error {
    match a
    case QueueFull => Overloaded
    case Failed => CommitFailed
    case GaveUp => Cancelled
    case _ => StoreDown
  }

  /** A failure after which the hit will not be stored, as far as the writer can tell. */
  predicate Definite(a: Answer) {
    a == QueueFull || a == Answer.Failed
  }

  /** The boss may now differ from what Postgres will have. */
  predicate Divergent(a: Answer, undo: Fate) {
    a == GaveUp || (Definite(a) && undo != Commits)
  }

  /** What the caller of a hit of `x` is told. */
  function Told(a: Answer, before: Entry, x: int): Outcome<Damaged> {
    if a == MadeDurable then Ok(Damaged(x, before.hp - x, x == before.hp)) else Err(ErrorOf(a))
  }

  /** What is seen of the boss in the end: the hit, unless its failure is definite and the undo runs. */
  ghost predicate Shown(a: Answer, undo: Fate, before: Entry, seen: Option<Entry>, player: PlayerId, x: int) {
    && seen.Some?
    && if Definite(a) && undo != RollsBack then seen.value == before else ShowsHit(before, seen.value, player, x)
  }

  lemma ShowsInTheEnd(a: Answer, undo: Fate, before: Entry, player: PlayerId, amount: int, seen: Option<Entry>)
    requires Coherent(before) && amount > 0 && before.hp > 0
    requires var (e, reply) := Strike(before, player, amount);
             seen == Some(if Definite(a) && undo != RollsBack then Undo(e, player, reply.applied) else e)
    ensures Shown(a, undo, before, seen, player, Clamp(before, amount))
  {
    StrikeAnswers(before, player, amount);
    StrikeShowsHit(before, player, amount);
  }

  class Service {
    const redis: RedisStore
    const pg: PostgresStore
    const writer: GroupWriter
    const rehydrator: Rehydrator
    const reconciler: Reconciler.Queue
    const maxHit: int

    constructor (redis: RedisStore, pg: PostgresStore, writer: GroupWriter, rehydrator: Rehydrator,
                 reconciler: Reconciler.Queue, maxHit: int)
      ensures this.redis == redis && this.pg == pg && this.writer == writer && this.rehydrator == rehydrator
      ensures this.reconciler == reconciler && this.maxHit == maxHit
    {
      this.redis, this.pg, this.writer, this.rehydrator := redis, pg, writer, rehydrator;
      this.reconciler, this.maxHit := reconciler, maxHit;
    }

    ghost predicate Valid()
      reads this, pg, writer, writer.pg, reconciler
    {
      && rehydrator.redis == redis && rehydrator.pg == pg && writer.pg == pg
      && writer.Valid() && writer.Fitting() && !writer.closed
      && reconciler.Valid()
    }

    /** The boss as Postgres has it. */
    ghost function Stored(boss: BossId): Option<Entry>
      reads pg
    {
      if boss in pg.bosses then Some(DurableEntry(pg.bosses, boss)) else None
    }

    /** What the boss is when the damage script finally runs: loaded already, or rebuilt on a miss. */
    ghost function Loaded(boss: BossId, now: nat): Option<Entry>
      reads redis, pg
    {
      if redis.Sees(boss, now).Some? then redis.Sees(boss, now) else Stored(boss)
    }

    /** What a hit takes from the loaded boss. */
    ghost function Landing(boss: BossId, amount: int, now: nat): int
      reads redis, pg
    {
      if Loaded(boss, now).None? then 0 else Clamp(Loaded(boss, now).value, amount)
    }

    /** Applies the hit; on a cold cache rebuilds the boss and retries once. */
    method ApplyWithRehydrate(boss: BossId, player: PlayerId, amount: int, now: nat, w: Weather)
      returns (r: Outcome<Reply>)
      requires Valid()
      modifies redis`keys
      ensures Valid() && forall b :: b != boss ==> redis.At(b) == old(redis.At(b))
      ensures (redis.Sees(boss, now), r) == Arrival(old(redis.Sees(boss, now)), Stored(boss), player, amount, w)
      ensures redis.At(boss).maxHp ==
              if old(redis.Sees(boss, now)) == None && boss in pg.bosses && w.apply == Commits && w.rebuild.Overwrites()
              then Some(pg.bosses[boss].maxHp) else old(redis.At(boss)).maxHp
    {
      DamageScriptRefines(redis.At(boss), player, amount, redis.TtlArg(), now);
      if w.apply == RollsBack { return Err(StoreDown); }
      var reply := redis.ApplyDamage(boss, player, amount, now);
      if w.apply != Commits { return Err(StoreDown); }
      if reply.verdict != NotLoaded { return Ok(reply); }
      var found := rehydrator.RehydrateBoss(boss, now, w.rebuild);
      if found.Failed? { return Err(StoreDown); }
      if found.Missing? { return Err(BossNotFound); }
      if w.retry == RollsBack { return Err(StoreDown); }
      DamageScriptRefines(redis.At(boss), player, amount, redis.TtlArg(), now);
      reply := redis.ApplyDamage(boss, player, amount, now);
      if w.retry != Commits { return Err(StoreDown); }
      r := Ok(reply);
    }

    /** The detached undo; an error, whether or not it ran, asks for a rebuild. */
    method Compensate(boss: BossId, player: PlayerId, applied: int, now: nat, undo: Fate)
      requires Valid()
      modifies redis`keys, reconciler
      ensures Valid() && forall b :: b != boss ==> redis.At(b) == old(redis.At(b))
      ensures undo == RollsBack ==> redis.keys == old(redis.keys)
      ensures undo != RollsBack ==>
                redis.Sees(boss, now) == match old(redis.Sees(boss, now))
                                         case None => None
                                         case Some(x) => Some(Undo(x, player, applied))
      ensures redis.At(boss).maxHp == old(redis.At(boss)).maxHp
      ensures reconciler.state == if undo == Commits then old(reconciler.state)
                                  else Reconciler.Enqueued(old(reconciler.state), boss, reconciler.cfg)
    {
      CompensateScriptRefines(redis.At(boss), player, applied, redis.TtlArg(), now);
      if undo != RollsBack { redis.CompensateDamage(boss, player, applied, now); }
      if undo != Commits { reconciler.Enqueue(boss); }
    }

    /** The rebuilds asked for after the answer `a`. */
    ghost function QueuedAfter(a: Answer, undo: Fate, boss: BossId): Reconciler.State
      reads this, reconciler
      requires reconciler.Valid()
    {
      if Divergent(a, undo) then Reconciler.Enqueued(reconciler.state, boss, reconciler.cfg) else reconciler.state
    }

    /**
      After a failed durable write: a definite failure is undone, a cancelled hit is left alone
      because it may still commit; what cannot be undone is queued for a rebuild.
     */
    method ReconcileFailedWrite(boss: BossId, player: PlayerId, applied: int, now: nat, a: Answer, undo: Fate)
      returns (e: Error)
      requires Valid() && a != MadeDurable
      modifies redis`keys, reconciler
      ensures Valid() && forall b :: b != boss ==> redis.At(b) == old(redis.At(b))
      ensures e == ErrorOf(a)
      ensures if Definite(a) && undo != RollsBack
              then redis.Sees(boss, now) == match old(redis.Sees(boss, now))
                                            case None => None
                                            case Some(x) => Some(Undo(x, player, applied))
              else redis.keys == old(redis.keys)
      ensures redis.At(boss).maxHp == old(redis.At(boss)).maxHp
      ensures reconciler.state == old(QueuedAfter(a, undo, boss))
    {
      match a {
        case QueueFull =>
          Compensate(boss, player, applied, now, undo);
          e := Overloaded;
        case Failed =>
          Compensate(boss, player, applied, now, undo);
          e := CommitFailed;
        case GaveUp =>
          reconciler.Enqueue(boss);
          e := Cancelled;
        case _ =>
          e := StoreDown;
      }
    }

    /** What Postgres holds once the hit is in, with what had been waiting for the same committer. */
    ghost function WithHit(e: Event, now: nat): Db
      reads this, pg, writer
      requires writer.Valid()
    {
      Durable.Commit(pg.View(), writer.PendingEvents() + [e], now)
    }

    /** What Postgres holds after the answer `a` about the hit; a failure may hide a commit. */
    ghost function HeldAfter(a: Answer, fate: Fate, e: Event, now: nat): Db
      reads this, pg, writer
      requires writer.Valid()
    {
      if a == MadeDurable || (a == Answer.Failed && fate != RollsBack) then WithHit(e, now) else pg.View()
    }

    /** The answer that the writer has for one more hit. */
    ghost function Prospect(w: Weather): Answer
      reads this, writer
    {
      AnswerOf(|writer.queue| >= writer.cfg.capacity, w.gaveUp, w.fate)
    }

    /**
      Hands a landed hit to the writer and waits; what does not become durable is reconciled. The
      cache keeps the hit unless the failure is definite and the undo runs.
     */
    method RecordHit(boss: BossId, player: PlayerId, applied: int, now: nat, w: Weather) returns (a: Answer)
      requires Valid() && boss in pg.bosses && applied >= 0
      modifies redis`keys, pg, writer, reconciler
      ensures Valid() && forall b :: b != boss ==> redis.At(b) == old(redis.At(b))
      ensures a == old(Prospect(w))
      ensures pg.View() == old(HeldAfter(Prospect(w), w.fate, Event(boss, player, applied), now))
      ensures writer.View() == SubmittedState(old(writer.View()), old(writer.issued), a, w.fate)
      ensures a == GaveUp ==>
                writer.PendingEvents() == old(writer.PendingEvents()) + [Event(boss, player, applied)]
      ensures if Definite(a) && w.undo != RollsBack
              then redis.Sees(boss, now) == match old(redis.Sees(boss, now))
                                            case None => None
                                            case Some(x) => Some(Undo(x, player, applied))
              else redis.keys == old(redis.keys)
      ensures redis.At(boss).maxHp == old(redis.At(boss)).maxHp
      ensures reconciler.state == old(QueuedAfter(Prospect(w), w.undo, boss))
    {
      a := writer.Submit(Event(boss, player, applied), now, w.gaveUp, w.fate);
      if a != MadeDurable {
        var _ := ReconcileFailedWrite(boss, player, applied, now, a, w.undo);
      }
    }

    /** What follows on the script's reply to a hit on the boss that was `before`. */
    method Conclude(boss: BossId, player: PlayerId, amount: int, reply: Reply, ghost before: Entry, now: nat,
                    w: Weather)
      returns (r: Outcome<Damaged>)
      requires Valid() && boss in pg.bosses && amount > 0 && Coherent(before)
      requires redis.Sees(boss, now) == Some(Strike(before, player, amount).0)
      requires reply == Strike(before, player, amount).1
      modifies redis`keys, pg, writer, reconciler
      ensures Valid() && forall b :: b != boss ==> redis.At(b) == old(redis.At(b))
      ensures redis.At(boss).maxHp == old(redis.At(boss)).maxHp
      ensures before.hp <= 0 ==>
                && r == Err(BossAlreadyDefeated) && redis.keys == old(redis.keys) && pg.View() == old(pg.View())
                && writer.View() == old(writer.View()) && reconciler.state == old(reconciler.state)
      ensures before.hp > 0 ==>
                var a, x := old(Prospect(w)), Clamp(before, amount);
                && 0 < x <= amount && r == Told(a, before, x)
                && Shown(a, w.undo, before, redis.Sees(boss, now), player, x)
                && pg.View() == old(HeldAfter(Prospect(w), w.fate, Event(boss, player, Clamp(before, amount)), now))
                && writer.View() == SubmittedState(old(writer.View()), old(writer.issued), a, w.fate)
                && (a == GaveUp ==>
                      writer.PendingEvents() == old(writer.PendingEvents()) + [Event(boss, player, x)])
                && reconciler.state == old(QueuedAfter(Prospect(w), w.undo, boss))
    {
      StrikeAnswers(before, player, amount);
      if reply.verdict != Landed { return Err(RefusalOf(reply.verdict)); }
      assert reply.applied == Clamp(before, amount) && 0 < reply.applied <= amount;
      assert Told(MadeDurable, before, reply.applied) == Ok(Damaged(reply.applied, reply.hp, reply.hp <= 0));
      var a := RecordHit(boss, player, reply.applied, now, w);
      ShowsInTheEnd(a, w.undo, before, player, amount, redis.Sees(boss, now));
      if a != MadeDurable { return Err(ErrorOf(a)); }
      r := Ok(Damaged(reply.applied, reply.hp, reply.hp <= 0));
    }

    /** Where the hit will arrive. */
    ghost function Arriving(boss: BossId, player: PlayerId, amount: int, now: nat, w: Weather)
      : (Option<Entry>, Outcome<Reply>)
      reads this, redis, pg
    {
      Arrival(redis.Sees(boss, now), Stored(boss), player, amount, w)
    }

    /** It arrives at a boss that is still alive, and its reply arrives here. */
    ghost predicate WillLand(boss: BossId, player: PlayerId, amount: int, now: nat, w: Weather)
      reads this, redis, pg
    {
      0 < amount <= maxHit && Arriving(boss, player, amount, now, w).1.Ok? && Loaded(boss, now).Some? &&
      Loaded(boss, now).value.hp > 0
    }

    /**
      One hit. Unless it lands, no store but the cache is touched, and that only by a rebuild or by
      a script whose reply was lost. If it lands, success means that Postgres now holds it; a
      definite failure leaves Postgres as it was, and with its undo also the boss; a cancelled hit
      stays on the boss and in the writer; and exactly what may have diverged asks for a rebuild.
     */
    method Damage(boss: BossId, player: PlayerId, amount: int, now: nat, w: Weather) returns (r: Outcome<Damaged>)
      requires Valid()
      requires redis.Sees(boss, now).Some? ==> boss in pg.bosses && Coherent(redis.Sees(boss, now).value)
      requires boss in pg.bosses ==> Coherent(DurableEntry(pg.bosses, boss))
      modifies redis`keys, pg, writer, reconciler
      ensures Valid() && forall b :: b != boss ==> redis.At(b) == old(redis.At(b))
      ensures !(0 < amount <= maxHit) ==> r == Err(InvalidDamage) && redis.keys == old(redis.keys)
      ensures 0 < amount <= maxHit && !old(WillLand(boss, player, amount, now, w)) ==>
                var (e, reply) := old(Arriving(boss, player, amount, now, w));
                r == Err(if reply.Err? then reply.error else BossAlreadyDefeated) && redis.Sees(boss, now) == e
      ensures !old(WillLand(boss, player, amount, now, w)) ==>
                && pg.View() == old(pg.View()) && writer.View() == old(writer.View())
                && reconciler.state == old(reconciler.state)
      ensures old(WillLand(boss, player, amount, now, w)) ==>
                var before, x, a := old(Loaded(boss, now)).value, old(Landing(boss, amount, now)), old(Prospect(w));
                && 0 < x <= amount && r == Told(a, before, x)
                && Shown(a, w.undo, before, redis.Sees(boss, now), player, x)
      ensures old(WillLand(boss, player, amount, now, w)) ==>
                var x, a := old(Landing(boss, amount, now)), old(Prospect(w));
                && pg.View() ==
                   old(HeldAfter(Prospect(w), w.fate, Event(boss, player, Landing(boss, amount, now)), now))
                && writer.View() == SubmittedState(old(writer.View()), old(writer.issued), a, w.fate)
                && (a == GaveUp ==>
                      writer.PendingEvents() == old(writer.PendingEvents()) + [Event(boss, player, x)])
                && reconciler.state == old(QueuedAfter(Prospect(w), w.undo, boss))
    {
      if amount <= 0 || amount > maxHit { return Err(InvalidDamage); }
      ArrivalMeans(redis.Sees(boss, now), Stored(boss), player, amount, w);
      var applied := ApplyWithRehydrate(boss, player, amount, now, w);
      if applied.Err? { return Err(applied.error); }
      ghost var before := old(Loaded(boss, now)).value;
      assert before.hp > 0 <==> old(WillLand(boss, player, amount, now, w));
      assert Prospect(w) == old(Prospect(w));
      assert HeldAfter(Prospect(w), w.fate, Event(boss, player, Clamp(before, amount)), now)
          == old(HeldAfter(Prospect(w), w.fate, Event(boss, player, Landing(boss, amount, now)), now));
      assert QueuedAfter(Prospect(w), w.undo, boss) == old(QueuedAfter(Prospect(w), w.undo, boss));
      r := Conclude(boss, player, amount, applied.value, before, now, w);
    }

    /**
      One claim, gated on Postgres alone. It succeeds exactly for a contributor to a defeated
      boss; the first success inserts the row and every later one returns it unchanged.
     */
    method Claim(boss: BossId, player: PlayerId, now: nat, fate: Fate) returns (r: Outcome<Claimed>)
      requires boss in pg.bosses ==> pg.bosses[boss].maxHp > 0
      modifies pg`claims
      ensures r.Ok? <==> fate == Commits && Claims.Entitled(pg.View(), Key(boss, player))
      ensures r.Ok? ==>
                && Key(boss, player) in pg.claims && pg.claims[Key(boss, player)] == r.value.row
                && (r.value.alreadyClaimed <==> Key(boss, player) in old(pg.claims))
                && (!r.value.alreadyClaimed ==>
                      && r.value.row.claimedAt == now
                      && r.value.row.pct == Reward.Pct(pg.bosses[boss].totals[player], pg.bosses[boss].maxHp)
                      && Reward.FairPrice(r.value.row.tier, r.value.row.pct, r.value.row.payload)
                      && Reward.PaidFor(r.value.row.tier, r.value.row.payload,
                                        pg.bosses[boss].totals[player], pg.bosses[boss].maxHp))
      ensures fate == Commits ==>
                var (db, c) := Claims.Alone(old(pg.View()), Key(boss, player), now);
                && pg.View() == db
                && match c
                   case Replied(_, row, first, _) => r == Ok(Claimed(row, !first))
                   case Rejected(_, reason) => r == Err(ErrorFor(reason))
                   case _ => false
      ensures forall k :: k in old(pg.claims) ==> k in pg.claims && pg.claims[k] == old(pg.claims)[k]
      ensures forall k :: k in pg.claims && k !in old(pg.claims) ==>
                k == Key(boss, player) && Claims.Entitled(pg.View(), k)
      ensures boss !in pg.bosses ==> r == Err(BossNotFound)
      ensures boss in pg.bosses && pg.bosses[boss].state != Defeated ==> r == Err(BossNotDefeated)
      ensures boss in pg.bosses && pg.bosses[boss].state == Defeated && player !in pg.bosses[boss].totals ==>
                r == Err(NoContribution)
    {
      var basis := pg.ClaimBasis(boss, player);
      if !basis.found { return Err(BossNotFound); }
      if basis.state != Defeated { return Err(BossNotDefeated); }
      if basis.damage.None? { return Err(NoContribution); }
      var pct := Reward.Pct(basis.damage.value, basis.maxHp);
      var tier := Reward.TierFor(pct);
      Reward.PriceList(basis.damage.value, basis.maxHp);
      var row := ClaimRow(tier, pct, Reward.RewardFor(tier), now);
      var saved, already, failed := pg.SaveClaim(Key(boss, player), row, fate);
      if failed { return Err(StoreDown); }
      r := Ok(Claimed(saved, already));
    }
  }
}
