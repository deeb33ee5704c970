/**
  The hit protocol as one step system over both stores: the damage path of `Service.Damage`, the
  writer and its committers, the rebuilds of the cache, expiry, crashes and claims, interleaved
  in every way.

  A hit is applied in the cache by `Attack` and carried through the writer by `Act`, `Turn` and
  `Flush`. A transaction that was reported as failed may commit nevertheless, at any later time,
  by `Land`; a commit whose acknowledgement got lost is the special case in which it lands at once.
  Each rebuild reads twice from Postgres and then overwrites the cache.
 */
module Protocol {
  import opened Ids
  import opened Totals
  import opened Durable
  import opened Redis
  import opened Ledger
  import Writer
  import Claims

  /** A rebuild after its first query, and after its second. `stored` is the sum it saw first. */
  datatype Rebuilding =
    | HpRead(boss: BossId, rec: Recovery, stored: int)
    | BothRead(boss: BossId, rec: Recovery, stored: int, totals: map<PlayerId, int>)

  /**
    `cache` holds the loaded bosses; `doubts` the batches reported as failed, in order of the
    reports, whose transactions may still commit; `hits` and `audit` (hit ids in log order) are
    history.
   */
  datatype Sys = Sys(
    cache: map<BossId, Entry>,
    db: Db,
    writer: Writer.State,
    rebuilds: map<nat, Rebuilding>,
    desk: Claims.Desk,
    doubts: seq<seq<nat>>,
    hits: seq<Hit>,
    audit: seq<nat>)

  /** What happens to one hit on its own. */
  datatype Deed = Submit | Hear | GiveUp | UndoRuns | UndoFails

  datatype Step =
    | Attack(boss: BossId, player: PlayerId, amount: int, delivered: bool)
    | Act(hit: nat, deed: Deed)
    | Turn(move: Writer.Move)
    | Flush(lane: nat, persists: bool, now: nat)
    | Land(doubt: nat, now: nat)
    | Expire(boss: BossId)
    | ReadHp(id: nat, boss: BossId)
    | ReadTotals(id: nat)
    | Overwrite(id: nat)
    | Crash
    | Claim(claim: Claims.Move)

  // ---------------------------------------------------------------- enabled steps

  predicate CanAct(s: Sys, i: nat, deed: Deed) {
    && i < |s.hits|
    && var h := s.hits[i];
       match deed
       case Submit => h.phase == Applied && h.client == Waiting && i !in s.writer.accepted && !s.writer.closed
       case Hear => h.client == Waiting && i in s.writer.done
       case GiveUp => h.client == Waiting && h.phase != Applied
       case UndoRuns => h.phase == Refused && (h.client == ToldFull || h.client == ToldFailed)
       case UndoFails => h.phase == Refused && (h.client == ToldFull || h.client == ToldFailed)
  }

  /** The events of the batch a committer is about to write. */
  function BatchOf(s: Sys, k: nat): seq<nat>
    requires k < |s.writer.lanes|
  {
    s.writer.lanes[k].batch
  }

  function OutcomeOf(persists: bool): Writer.Outcome {
    if persists then Writer.Persisted else Writer.CommitFailed
  }

  predicate Enabled(s: Sys, step: Step, cfg: Writer.Config) {
    match step
    case Attack(_, _, _, _) => true
    case Act(i, deed) => CanAct(s, i, deed)
    case Turn(m) => !m.Accept? && !m.Flush? && Writer.Enabled(s.writer, m, cfg)
    case Flush(k, persists, _) =>
      && Writer.Enabled(s.writer, Writer.Flush(k, OutcomeOf(persists)), cfg)
      && Known(s.hits, BatchOf(s, k))
      && (persists ==> Accepts(s.db, EventsOf(s.hits, BatchOf(s, k))))
    case Land(j, _) =>
      && j < |s.doubts| && s.doubts[j] != []
      && Known(s.hits, s.doubts[j])
      && Accepts(s.db, EventsOf(s.hits, s.doubts[j]))
    case Expire(b) => b in s.cache
    case ReadHp(r, b) => r !in s.rebuilds && b in s.db.bosses
    case ReadTotals(r) => r in s.rebuilds && s.rebuilds[r].HpRead? && s.rebuilds[r].boss in s.db.bosses
    case Overwrite(r) => r in s.rebuilds && s.rebuilds[r].BothRead?
    case Crash => true
    case Claim(m) => Claims.Enabled(s.desk, m) && Claims.DeskOk(s.desk)
  }

  /** A step that commits a batch. */
  predicate Writes(step: Step) {
    step.Land? || (step.Flush? && step.persists)
  }

  function Written(s: Sys, step: Step, cfg: Writer.Config): (ids: seq<nat>)
    requires Enabled(s, step, cfg) && Writes(step)
    ensures Known(s.hits, ids) && Accepts(s.db, EventsOf(s.hits, ids))
  {
    if step.Land? then s.doubts[step.doubt] else BatchOf(s, step.lane)
  }

  // ---------------------------------------------------------------- what a step does, field by field

  predicate Lands(s: Sys, step: Step) {
    step.Attack? && step.boss in s.cache && Strike(s.cache[step.boss], step.player, step.amount).1.verdict == Landed
  }

  /** A reply that gets lost after the script ran leaves a hit that nobody submits. */
  function NewHit(s: Sys, step: Step): Hit
    requires Lands(s, step)
  {
    Hit(step.boss, step.player, Strike(s.cache[step.boss], step.player, step.amount).1.applied,
        if step.delivered then Applied else Leaked, if step.delivered then Waiting else Cancelled, false)
  }

  predicate IntakeFull(s: Sys, cfg: Writer.Config) {
    |s.writer.queue| >= cfg.capacity
  }

  function Acted(s: Sys, i: nat, deed: Deed, cfg: Writer.Config): Hit
    requires CanAct(s, i, deed)
  {
    var h := s.hits[i];
    match deed
    case Submit => if IntakeFull(s, cfg) then h.(phase := Refused, client := ToldFull) else h.(phase := Accepted)
    case Hear => h.(client := if s.writer.done[i] == Writer.Persisted then Acked else ToldFailed)
    case GiveUp => h.(client := Cancelled, phase := if h.phase == Refused then Leaked else h.phase)
    case UndoRuns => h.(phase := Undone)
    case UndoFails => h.(phase := Leaked)
  }

  function MarkOf(persists: bool): Mark {
    if persists then Persist else Fail
  }

  function HitsAfter(s: Sys, step: Step, cfg: Writer.Config): seq<Hit>
    requires Enabled(s, step, cfg)
  {
    match step
    case Attack(_, _, _, _) => if Lands(s, step) then s.hits + [NewHit(s, step)] else s.hits
    case Act(i, deed) => s.hits[i := Acted(s, i, deed, cfg)]
    case Flush(k, persists, _) => MarkAll(s.hits, BatchOf(s, k), MarkOf(persists))
    case Land(j, _) => MarkAll(s.hits, s.doubts[j], PersistLate)
    case Overwrite(r) => SweepAll(s.hits, Ledger.Rebuild(s.rebuilds[r].boss))
    case Crash => SweepAll(s.hits, Ledger.Crash)
    case _ => s.hits
  }

  function CacheAfter(s: Sys, step: Step, cfg: Writer.Config): map<BossId, Entry>
    requires Enabled(s, step, cfg)
  {
    match step
    case Attack(b, p, amount, _) =>
      if b in s.cache then s.cache[b := Strike(s.cache[b], p, amount).0] else s.cache
    case Act(i, deed) =>
      var h := s.hits[i];
      if deed == UndoRuns && h.boss in s.cache then s.cache[h.boss := Undo(s.cache[h.boss], h.player, h.applied)]
      else s.cache
    case Expire(b) => s.cache - {b}
    case Overwrite(r) =>
      var w := s.rebuilds[r];
      s.cache[w.boss := Rebuilt(w.rec, w.totals)]
    case _ => s.cache
  }

  function DbAfter(s: Sys, step: Step, cfg: Writer.Config): Db
    requires Enabled(s, step, cfg)
  {
    match step
    case Claim(m) => Claims.Next(Claims.Counter(s.db, s.desk), m).db
    case _ => if Writes(step) then Commit(s.db, EventsOf(s.hits, Written(s, step, cfg)), step.now) else s.db
  }

  function WriterAfter(s: Sys, step: Step, cfg: Writer.Config): Writer.State
    requires Enabled(s, step, cfg)
  {
    match step
    case Act(i, deed) =>
      if deed == Submit && !IntakeFull(s, cfg) then Writer.Next(s.writer, Writer.Accept(i), cfg) else s.writer
    case Turn(m) => Writer.Next(s.writer, m, cfg)
    case Flush(k, persists, _) => Writer.Next(s.writer, Writer.Flush(k, OutcomeOf(persists)), cfg)
    case Crash => Writer.Start(|s.writer.lanes|)
    case _ => s.writer
  }

  ghost function RebuildsAfter(s: Sys, step: Step, cfg: Writer.Config): map<nat, Rebuilding>
    requires Enabled(s, step, cfg)
  {
    match step
    case ReadHp(r, b) => s.rebuilds[r := HpRead(b, RecoveryOf(s.db.bosses[b]), Total(s.db.bosses[b].totals))]
    case ReadTotals(r) =>
      var w := s.rebuilds[r];
      s.rebuilds[r := BothRead(w.boss, w.rec, w.stored, s.db.bosses[w.boss].totals)]
    case Overwrite(r) => s.rebuilds - {r}
    case Crash => map[]
    case _ => s.rebuilds
  }

  function DeskAfter(s: Sys, step: Step, cfg: Writer.Config): Claims.Desk
    requires Enabled(s, step, cfg)
  {
    match step
    case Crash => Claims.Crashed(s.desk)
    case Claim(m) => Claims.Next(Claims.Counter(s.db, s.desk), m).desk
    case _ => s.desk
  }

  /** A failure is reported before anybody knows whether Postgres still commits. */
  function DoubtsAfter(s: Sys, step: Step, cfg: Writer.Config): seq<seq<nat>>
    requires Enabled(s, step, cfg)
  {
    match step
    case Flush(k, persists, _) => if persists then s.doubts else s.doubts + [BatchOf(s, k)]
    case Land(j, _) => s.doubts[j := []]
    case _ => s.doubts
  }

  function AuditAfter(s: Sys, step: Step, cfg: Writer.Config): seq<nat>
    requires Enabled(s, step, cfg)
  {
    if Writes(step) then s.audit + Written(s, step, cfg) else s.audit
  }

  ghost function Next(s: Sys, step: Step, cfg: Writer.Config): Sys
    requires Enabled(s, step, cfg)
  {
    Sys(CacheAfter(s, step, cfg), DbAfter(s, step, cfg), WriterAfter(s, step, cfg), RebuildsAfter(s, step, cfg),
        DeskAfter(s, step, cfg), DoubtsAfter(s, step, cfg), HitsAfter(s, step, cfg), AuditAfter(s, step, cfg))
  }

  // ---------------------------------------------------------------- runs

  ghost predicate Initial(s: Sys) {
    && s.cache == map[] && s.rebuilds == map[] && s.desk == map[]
    && s.doubts == [] && s.hits == [] && s.audit == []
    && s.db.log == [] && s.db.claims == map[]
    && (forall b :: b in s.db.bosses ==> Fresh(s.db.bosses[b]))
    && s.writer == Writer.Start(|s.writer.lanes|)
  }

  ghost predicate Legal(s: Sys, run: seq<Step>, cfg: Writer.Config)
    decreases |run|, 0
  {
    run == [] ||
    (Legal(s, run[..|run| - 1], cfg) && Enabled(After(s, run[..|run| - 1], cfg), run[|run| - 1], cfg))
  }

  ghost function After(s: Sys, run: seq<Step>, cfg: Writer.Config): Sys
    requires Legal(s, run, cfg)
    decreases |run|, 1
  {
    if run == [] then s else Next(After(s, run[..|run| - 1], cfg), run[|run| - 1], cfg)
  }

  lemma OneMore(s: Sys, run: seq<Step>, step: Step, cfg: Writer.Config)
    requires Legal(s, run, cfg) && Enabled(After(s, run, cfg), step, cfg)
    ensures Legal(s, run + [step], cfg)
    ensures After(s, run + [step], cfg) == Next(After(s, run, cfg), step, cfg)
  {
    var longer := run + [step];
    assert longer != [] && longer[..|longer| - 1] == run && longer[|longer| - 1] == step;
  }
}
