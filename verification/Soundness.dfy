/**
  What holds in every run of the protocol, racing rebuilds, lost replies and crashes included.
 */
module Soundness {
  import opened Ids
  import opened Totals
  import opened Durable
  import opened Redis
  import opened Ledger
  import opened Protocol
  import Writer
  import Claims

  /** What Postgres has stored: a boss's sum, or one player's total. */
  ghost function StoredIn(db: Db, sc: Scope): int
    requires sc.Boss() in db.bosses
  {
    match sc
    case OfBoss(b) => Total(db.bosses[b].totals)
    case OfPlayer(k) => Get(db.bosses[k.boss].totals, k.player)
  }

  ghost predicate PositiveTotals(db: Db) {
    forall b, p :: b in db.bosses && p in db.bosses[b].totals ==> db.bosses[b].totals[p] > 0
  }

  ghost predicate HitsOk(s: Sys) {
    Positive(s.hits) && forall i :: 0 <= i < |s.hits| ==> s.hits[i].boss in s.db.bosses
  }

  /** The rows tell the sums of the durable hits, for every boss and every player. */
  ghost predicate Matches(s: Sys) {
    forall sc: Scope :: sc.Boss() in s.db.bosses ==> Sum(s.hits, sc, Durably) == StoredIn(s.db, sc)
  }

  ghost predicate StoreOk(s: Sys) {
    DbOk(s.db) && PositiveTotals(s.db) && Matches(s)
  }

  /** HP never negative, defeated exactly at 0 HP, only positive scores. */
  ghost predicate CacheOk(s: Sys) {
    forall b :: b in s.cache ==> b in s.db.bosses && Coherent(s.cache[b])
  }

  predicate RefusedFate(h: Hit) {
    h.phase.Refused? || h.phase.Undone? || h.phase.Leaked? || h.phase.Lost?
  }

  /** The writer holds exactly the accepted hits, and a released hit has its batch's fate. */
  ghost predicate Placed(hits: seq<Hit>, accepted: set<nat>, done: map<nat, Writer.Outcome>) {
    && done.Keys <= accepted
    && (forall i :: i in accepted ==> i < |hits| && hits[i].phase != Applied)
    && (forall i :: 0 <= i < |hits| ==> (hits[i].phase == Accepted <==> i in accepted && i !in done))
    && (forall i :: i in done && i < |hits| ==>
          if done[i] == Writer.Persisted then hits[i].phase == Committed else RefusedFate(hits[i]))
  }

  ghost predicate WriterOk(s: Sys, cfg: Writer.Config) {
    && cfg.maxBatch > 0
    && Writer.Ok(s.writer, cfg)
    && Placed(s.hits, s.writer.accepted, s.writer.done)
  }

  /** What a client was told is true of its hit. */
  predicate Answered(h: Hit) {
    && (h.client == Acked ==> h.phase == Committed)
    && (h.client == ToldFull ==> RefusedFate(h) && !h.unacked)
    && (h.client == ToldFailed ==> RefusedFate(h))
    && (h.unacked ==> RefusedFate(h))
  }

  ghost predicate ClientsOk(s: Sys) {
    forall i :: 0 <= i < |s.hits| ==> Answered(s.hits[i])
  }

  /** A hit reported as failed whose transaction may still commit. */
  predicate Open(h: Hit) {
    RefusedFate(h) && !h.unacked && h.client != ToldFull
  }

  predicate InDoubt(hits: seq<Hit>, ids: seq<nat>) {
    Writer.Distinct(ids) && forall i: nat :: i in ids ==> i < |hits| && Open(hits[i])
  }

  predicate Disjoint(a: seq<nat>, b: seq<nat>) {
    forall i :: i in a ==> i !in b
  }

  /** The doubtful batches hold such hits, each of them once. */
  ghost predicate DoubtsOk(s: Sys) {
    && (forall j :: 0 <= j < |s.doubts| ==> InDoubt(s.hits, s.doubts[j]))
    && (forall j, k :: 0 <= j < k < |s.doubts| ==> Disjoint(s.doubts[j], s.doubts[k]))
  }

  /** Somebody is still there for a hit that is not settled: its handler, before or after its answer. */
  predicate Tended(h: Hit, released: bool) {
    && (h.phase == Applied ==> h.client == Waiting)
    && (h.phase == Refused ==> h.client == ToldFull || h.client == ToldFailed || (h.client == Waiting && released))
  }

  ghost predicate TendedOk(s: Sys) {
    forall i :: 0 <= i < |s.hits| ==> Tended(s.hits[i], i in s.writer.done)
  }

  /** The log is the audit: each durable hit once, in commit order. */
  ghost predicate AuditOk(s: Sys) {
    && Writer.Distinct(s.audit)
    && Known(s.hits, s.audit)
    && s.db.log == EventsOf(s.hits, s.audit)
    && (forall i :: 0 <= i < |s.hits| ==> (s.hits[i].Stored() <==> i in s.audit))
  }

  /** A rebuild carries a snapshot of the past; the rows have only grown since. */
  ghost predicate SnapshotOk(w: Rebuilding, db: Db) {
    && w.boss in db.bosses
    && var row := db.bosses[w.boss];
       && w.rec.maxHp == row.maxHp
       && w.rec.hp == Max(0, row.maxHp - w.stored)
       && (w.rec.state == Defeated <==> w.rec.hp == 0)
       && 0 <= w.stored <= Total(row.totals)
       && (w.BothRead? ==>
             && w.stored <= Total(w.totals)
             && (forall p :: p in w.totals ==> w.totals[p] > 0)
             && (forall p :: p in w.totals ==> p in row.totals && w.totals[p] <= row.totals[p]))
  }

  ghost predicate RebuildsOk(s: Sys) {
    forall r :: r in s.rebuilds ==> SnapshotOk(s.rebuilds[r], s.db)
  }

  ghost predicate Sound(s: Sys, cfg: Writer.Config) {
    && HitsOk(s)
    && StoreOk(s)
    && CacheOk(s)
    && WriterOk(s, cfg)
    && ClientsOk(s)
    && DoubtsOk(s)
    && TendedOk(s)
    && AuditOk(s)
    && RebuildsOk(s)
    && Claims.Ok(Claims.Counter(s.db, s.desk))
  }

  // ---------------------------------------------------------------- the start

  lemma FreshRowOk(row: BossRow)
    requires Fresh(row)
    ensures RowOk(row)
  {}

  lemma InitialIsSound(s: Sys, cfg: Writer.Config)
    requires Initial(s) && cfg.maxBatch > 0
    ensures Sound(s, cfg)
  {
    forall b | b in s.db.bosses ensures RowOk(s.db.bosses[b]) { FreshRowOk(s.db.bosses[b]); }
    Writer.StartIsOk(|s.writer.lanes|, cfg);
  }

  // ---------------------------------------------------------------- batches

  /** A batch about to be written: distinct, accepted, not yet durable, of known bosses. */
  lemma BatchIsReady(s: Sys, k: nat, cfg: Writer.Config)
    requires HitsOk(s) && WriterOk(s, cfg) && ClientsOk(s) && k < |s.writer.lanes|
    ensures Ready(s.hits, BatchOf(s, k))
    ensures forall i :: i in BatchOf(s, k) ==>
              i < |s.hits| && s.hits[i].phase == Accepted && !s.hits[i].unacked && i !in s.writer.done
    ensures Accepts(s.db, EventsOf(s.hits, BatchOf(s, k)))
    ensures forall e :: e in EventsOf(s.hits, BatchOf(s, k)) ==> e.applied > 0
  {
    Writer.BatchIsUnreleased(s.writer, k);
    var batch := BatchOf(s, k);
    forall i | i in batch
      ensures i < |s.hits| && s.hits[i].phase == Accepted && !s.hits[i].unacked && i !in s.writer.done
    {
      assert i in s.writer.accepted;
    }
    forall j | 0 <= j < |batch| ensures batch[j] < |s.hits| { assert batch[j] in batch; }
  }

  /** A batch whose commit may still land: distinct, not durable, of known bosses. */
  lemma DoubtIsReady(s: Sys, j: nat)
    requires HitsOk(s) && DoubtsOk(s) && j < |s.doubts|
    ensures Known(s.hits, s.doubts[j]) && Writer.Distinct(s.doubts[j])
    ensures forall i :: i in s.doubts[j] ==> i < |s.hits| && Open(s.hits[i]) && !s.hits[i].Stored()
    ensures forall k :: 0 <= k < |s.doubts[j]| ==> !s.hits[s.doubts[j][k]].Stored()
    ensures Accepts(s.db, EventsOf(s.hits, s.doubts[j]))
    ensures forall e :: e in EventsOf(s.hits, s.doubts[j]) ==> e.applied > 0
  {
    var batch := s.doubts[j];
    assert InDoubt(s.hits, batch);
    forall k | 0 <= k < |batch| ensures batch[k] < |s.hits| && !s.hits[batch[k]].Stored() {
      assert batch[k] in batch;
    }
  }

  // ---------------------------------------------------------------- hits

  /** How one hit may change: a durable, answered or refused hit stays so. */
  predicate Evolves(h: Hit, h': Hit) {
    && h'.boss == h.boss && h'.player == h.player && h'.applied == h.applied
    && (h.Stored() ==> h'.Stored())
    && (h.phase == Committed ==> h'.phase == Committed)
    && (h.client != Waiting ==> h'.client == h.client)
    && (RefusedFate(h) ==> RefusedFate(h'))
  }

  lemma HitEvolves(s: Sys, step: Step, cfg: Writer.Config, i: nat)
    requires HitsOk(s) && WriterOk(s, cfg) && ClientsOk(s) && DoubtsOk(s) && Enabled(s, step, cfg) && i < |s.hits|
    ensures |HitsAfter(s, step, cfg)| >= |s.hits|
    ensures Evolves(s.hits[i], HitsAfter(s, step, cfg)[i])
    ensures step.Act? && step.hit == i ==> HitsAfter(s, step, cfg)[i] == Acted(s, i, step.deed, cfg)
    ensures step.Flush? && i in BatchOf(s, step.lane) ==>
              HitsAfter(s, step, cfg)[i] == Marked(s.hits[i], MarkOf(step.persists))
    ensures step.Land? && i in s.doubts[step.doubt] ==> HitsAfter(s, step, cfg)[i] == s.hits[i].(unacked := true)
    ensures !step.Crash? && !step.Overwrite? && !(step.Act? && step.hit == i) &&
            !(step.Flush? && i in BatchOf(s, step.lane)) && !(step.Land? && i in s.doubts[step.doubt]) ==>
              HitsAfter(s, step, cfg)[i] == s.hits[i]
  {
    match step
    case Flush(k, persists, _) =>
      BatchIsReady(s, k, cfg);
      MarkAllAt(s.hits, BatchOf(s, k), MarkOf(persists), i);
    case Land(j, _) => MarkAllAt(s.hits, s.doubts[j], PersistLate, i);
    case _ =>
  }

  lemma KeepsHitsOk(s: Sys, step: Step, cfg: Writer.Config)
    requires HitsOk(s) && CacheOk(s) && WriterOk(s, cfg) && ClientsOk(s) && DoubtsOk(s) && Enabled(s, step, cfg)
    ensures HitsOk(Next(s, step, cfg))
  {
    var hits' := HitsAfter(s, step, cfg);
    forall i | 0 <= i < |hits'| ensures hits'[i].applied > 0 && hits'[i].boss in s.db.bosses {
      if i < |s.hits| { HitEvolves(s, step, cfg, i); }
    }
  }

  lemma KeepsClientsOk(s: Sys, step: Step, cfg: Writer.Config)
    requires HitsOk(s) && WriterOk(s, cfg) && ClientsOk(s) && DoubtsOk(s) && Enabled(s, step, cfg)
    ensures ClientsOk(Next(s, step, cfg))
  {
    var hits' := HitsAfter(s, step, cfg);
    forall i | 0 <= i < |hits'| ensures Answered(hits'[i]) {
      if i < |s.hits| {
        HitEvolves(s, step, cfg, i);
        if step.Flush? { BatchIsReady(s, step.lane, cfg); }
      }
    }
  }

  /** What was in doubt stays so, unless it lands. */
  lemma OpenStaysOpen(s: Sys, step: Step, cfg: Writer.Config, i: nat)
    requires HitsOk(s) && WriterOk(s, cfg) && ClientsOk(s) && DoubtsOk(s) && Enabled(s, step, cfg)
    requires i < |s.hits| && Open(s.hits[i]) && !(step.Land? && i in s.doubts[step.doubt])
    ensures i < |HitsAfter(s, step, cfg)| && Open(HitsAfter(s, step, cfg)[i])
  {
    HitEvolves(s, step, cfg, i);
    if step.Flush? { BatchIsReady(s, step.lane, cfg); }
  }

  lemma DoubtStaysInDoubt(s: Sys, step: Step, cfg: Writer.Config, j: nat)
    requires HitsOk(s) && WriterOk(s, cfg) && ClientsOk(s) && DoubtsOk(s) && Enabled(s, step, cfg)
    requires j < |DoubtsAfter(s, step, cfg)|
    ensures InDoubt(HitsAfter(s, step, cfg), DoubtsAfter(s, step, cfg)[j])
  {
    var ids := DoubtsAfter(s, step, cfg)[j];
    if j == |s.doubts| {
      BatchIsReady(s, step.lane, cfg);
      forall i: nat | i in ids ensures i < |HitsAfter(s, step, cfg)| && Open(HitsAfter(s, step, cfg)[i]) {
        HitEvolves(s, step, cfg, i);
      }
    } else if !step.Land? || step.doubt != j {
      assert InDoubt(s.hits, ids);
      assert step.Land? ==> Disjoint(ids, s.doubts[step.doubt]) || Disjoint(s.doubts[step.doubt], ids);
      forall i: nat | i in ids ensures i < |HitsAfter(s, step, cfg)| && Open(HitsAfter(s, step, cfg)[i]) {
        OpenStaysOpen(s, step, cfg, i);
      }
    }
  }

  lemma KeepsDoubtsOk(s: Sys, step: Step, cfg: Writer.Config)
    requires HitsOk(s) && WriterOk(s, cfg) && ClientsOk(s) && DoubtsOk(s) && Enabled(s, step, cfg)
    ensures DoubtsOk(Next(s, step, cfg))
  {
    var doubts', hits' := DoubtsAfter(s, step, cfg), HitsAfter(s, step, cfg);
    forall j | 0 <= j < |doubts'| ensures InDoubt(hits', doubts'[j]) {
      DoubtStaysInDoubt(s, step, cfg, j);
    }
    forall j, k | 0 <= j < k < |doubts'| ensures Disjoint(doubts'[j], doubts'[k]) {
      if k == |s.doubts| {
        assert InDoubt(s.hits, s.doubts[j]);
        BatchIsReady(s, step.lane, cfg);
      } else {
        assert Disjoint(s.doubts[j], s.doubts[k]);
      }
    }
  }

  /** A hit that fails with its batch is released with it. */
  lemma FlushTends(s: Sys, k: nat, persists: bool, now: nat, cfg: Writer.Config, i: nat)
    requires HitsOk(s) && WriterOk(s, cfg) && ClientsOk(s) && Enabled(s, Flush(k, persists, now), cfg)
    requires i < |s.hits| && Answered(s.hits[i]) && Tended(s.hits[i], i in s.writer.done)
    ensures i < |HitsAfter(s, Flush(k, persists, now), cfg)|
    ensures Tended(HitsAfter(s, Flush(k, persists, now), cfg)[i],
                   i in WriterAfter(s, Flush(k, persists, now), cfg).done)
  {
    BatchIsReady(s, k, cfg);
    MarkAllAt(s.hits, BatchOf(s, k), MarkOf(persists), i);
  }

  lemma StaysTended(s: Sys, step: Step, cfg: Writer.Config, i: nat)
    requires HitsOk(s) && WriterOk(s, cfg) && ClientsOk(s) && DoubtsOk(s) && Enabled(s, step, cfg)
    requires i < |s.hits| && Tended(s.hits[i], i in s.writer.done)
    ensures i < |HitsAfter(s, step, cfg)|
    ensures Tended(HitsAfter(s, step, cfg)[i], i in WriterAfter(s, step, cfg).done)
  {
    match step
    case Flush(k, persists, now) => FlushTends(s, k, persists, now, cfg, i);
    case _ => HitEvolves(s, step, cfg, i);
  }

  lemma KeepsTendedOk(s: Sys, step: Step, cfg: Writer.Config)
    requires HitsOk(s) && WriterOk(s, cfg) && ClientsOk(s) && DoubtsOk(s) && TendedOk(s) && Enabled(s, step, cfg)
    ensures TendedOk(Next(s, step, cfg))
  {
    var hits', done' := HitsAfter(s, step, cfg), WriterAfter(s, step, cfg).done;
    forall i | 0 <= i < |hits'| ensures Tended(hits'[i], i in done') {
      if i < |s.hits| { StaysTended(s, step, cfg, i); }
    }
  }

  // ---------------------------------------------------------------- stores

  /** What happens to one hit changes no durable sum; only an undo settles it. */
  lemma ActSums(s: Sys, i: nat, deed: Deed, cfg: Writer.Config, sc: Scope)
    requires CanAct(s, i, deed) && Positive(s.hits)
    ensures var hits', h := s.hits[i := Acted(s, i, deed, cfg)], s.hits[i];
            && Sum(hits', sc, Durably) == Sum(s.hits, sc, Durably)
            && Sum(hits', sc, Unacked) == Sum(s.hits, sc, Unacked)
            && Sum(hits', sc, Unsettled) ==
               Sum(s.hits, sc, Unsettled) - (if deed == UndoRuns then Share(EventOf(h), sc) else 0)
            && Sum(hits', sc, InFlight) <=
               Sum(s.hits, sc, InFlight) - (if deed == UndoRuns then Share(EventOf(h), sc) else 0)
  {
    var h' := Acted(s, i, deed, cfg);
    assert s.hits[i].applied > 0;
    SumUpdate(s.hits, i, h', sc, Durably);
    SumUpdate(s.hits, i, h', sc, Unacked);
    SumUpdate(s.hits, i, h', sc, Unsettled);
    SumUpdate(s.hits, i, h', sc, InFlight);
  }

  /** Hits come, are undone and are swept without any durable sum changing. */
  lemma UnwrittenSums(s: Sys, step: Step, cfg: Writer.Config, sc: Scope)
    requires Positive(s.hits) && Enabled(s, step, cfg) && !step.Flush? && !step.Land?
    ensures Sum(HitsAfter(s, step, cfg), sc, Durably) == Sum(s.hits, sc, Durably)
    ensures Sum(HitsAfter(s, step, cfg), sc, Unacked) == Sum(s.hits, sc, Unacked)
  {
    match step
    case Attack(_, _, _, _) => if Lands(s, step) { NewHitSums(s.hits, NewHit(s, step), sc); }
    case Act(i, deed) => ActSums(s, i, deed, cfg, sc);
    case Overwrite(r) =>
      SweepKeepsStored(s.hits, Ledger.Rebuild(s.rebuilds[r].boss), sc, Durably);
      SweepKeepsStored(s.hits, Ledger.Rebuild(s.rebuilds[r].boss), sc, Unacked);
    case Crash =>
      SweepKeepsStored(s.hits, Ledger.Crash, sc, Durably);
      SweepKeepsStored(s.hits, Ledger.Crash, sc, Unacked);
    case _ =>
  }

  lemma CommitStores(db: Db, events: seq<Event>, now: nat, sc: Scope)
    requires DbOk(db) && Accepts(db, events) && sc.Boss() in db.bosses
    ensures StoredIn(Commit(db, events, now), sc) == StoredIn(db, sc) + EventSum(events, sc)
  {
    match sc
    case OfBoss(b) => CommitKeepsRow(db.bosses[b], b, events, now);
    case OfPlayer(k) => CommitTotalsGet(db, events, now, k.boss, k.player);
  }

  lemma WriteAdds(s: Sys, step: Step, cfg: Writer.Config, sc: Scope)
    requires HitsOk(s) && WriterOk(s, cfg) && ClientsOk(s) && DoubtsOk(s) && Enabled(s, step, cfg)
    requires step.Flush? || step.Land?
    ensures Sum(HitsAfter(s, step, cfg), sc, Durably) ==
            Sum(s.hits, sc, Durably) + if Writes(step) then EventSum(EventsOf(s.hits, Written(s, step, cfg)), sc) else 0
  {
    if step.Land? {
      DoubtIsReady(s, step.doubt);
      LandSums(s.hits, s.doubts[step.doubt], sc);
    } else {
      BatchIsReady(s, step.lane, cfg);
      BatchDurably(s.hits, BatchOf(s, step.lane), MarkOf(step.persists), sc);
    }
  }

  lemma WriteMatches(s: Sys, step: Step, cfg: Writer.Config, sc: Scope)
    requires HitsOk(s) && StoreOk(s) && WriterOk(s, cfg) && ClientsOk(s) && DoubtsOk(s) && Enabled(s, step, cfg)
    requires (step.Flush? || step.Land?) && sc.Boss() in s.db.bosses
    ensures Sum(HitsAfter(s, step, cfg), sc, Durably) == StoredIn(DbAfter(s, step, cfg), sc)
  {
    WriteAdds(s, step, cfg, sc);
    if Writes(step) { CommitStores(s.db, EventsOf(s.hits, Written(s, step, cfg)), step.now, sc); }
  }

  /** What one step adds to the stored sums is what it makes durable in the ledger. */
  lemma KeepsMatches(s: Sys, step: Step, cfg: Writer.Config, sc: Scope)
    requires HitsOk(s) && StoreOk(s) && WriterOk(s, cfg) && ClientsOk(s) && DoubtsOk(s) && Enabled(s, step, cfg)
    requires sc.Boss() in s.db.bosses
    ensures sc.Boss() in DbAfter(s, step, cfg).bosses
    ensures Sum(HitsAfter(s, step, cfg), sc, Durably) == StoredIn(DbAfter(s, step, cfg), sc)
  {
    if step.Flush? || step.Land? {
      WriteMatches(s, step, cfg, sc);
    } else {
      UnwrittenSums(s, step, cfg, sc);
      assert DbAfter(s, step, cfg).bosses == s.db.bosses;
    }
  }

  lemma {:induction false} SumAtLeast(events: seq<Event>, e: Event, sc: Scope)
    requires e in events && sc.Covers(e.boss, e.player)
    requires forall x :: x in events ==> x.applied > 0
    ensures EventSum(events, sc) >= e.applied
  {
    var init := events[..|events| - 1];
    if events[|events| - 1] == e {
      SumNonNegative(init, sc);
    } else {
      SumAtLeast(init, e, sc);
    }
  }

  lemma CommitKeepsPositive(db: Db, events: seq<Event>, now: nat)
    requires PositiveTotals(db)
    requires forall e :: e in events ==> e.applied > 0
    ensures PositiveTotals(Commit(db, events, now))
  {
    forall b, p | b in db.bosses && p in Commit(db, events, now).bosses[b].totals
      ensures Commit(db, events, now).bosses[b].totals[p] > 0
    {
      CommitTotalsGet(db, events, now, b, p);
      SumNonNegative(events, OfPlayer(Key(b, p)));
      if p !in db.bosses[b].totals {
        var e :| e in events && e.boss == b && e.player == p;
        SumAtLeast(events, e, OfPlayer(Key(b, p)));
      }
    }
  }

  /** What a step commits: distinct hits, none of them durable yet, with positive damage. */
  lemma WrittenIsNew(s: Sys, step: Step, cfg: Writer.Config)
    requires HitsOk(s) && WriterOk(s, cfg) && ClientsOk(s) && DoubtsOk(s) && Enabled(s, step, cfg) && Writes(step)
    ensures Writer.Distinct(Written(s, step, cfg))
    ensures forall i :: i in Written(s, step, cfg) ==> i < |s.hits| && !s.hits[i].Stored()
    ensures forall e :: e in EventsOf(s.hits, Written(s, step, cfg)) ==> e.applied > 0
  {
    if step.Land? { DoubtIsReady(s, step.doubt); } else { BatchIsReady(s, step.lane, cfg); }
  }

  lemma KeepsStoreOk(s: Sys, step: Step, cfg: Writer.Config)
    requires HitsOk(s) && StoreOk(s) && WriterOk(s, cfg) && ClientsOk(s) && DoubtsOk(s) && Enabled(s, step, cfg)
    ensures StoreOk(Next(s, step, cfg))
    ensures DbAfter(s, step, cfg).bosses.Keys == s.db.bosses.Keys
  {
    if Writes(step) {
      WrittenIsNew(s, step, cfg);
      CommitKeepsDb(s.db, EventsOf(s.hits, Written(s, step, cfg)), step.now);
      CommitKeepsPositive(s.db, EventsOf(s.hits, Written(s, step, cfg)), step.now);
    }
    forall sc: Scope | sc.Boss() in s.db.bosses
      ensures Sum(HitsAfter(s, step, cfg), sc, Durably) == StoredIn(DbAfter(s, step, cfg), sc)
    {
      KeepsMatches(s, step, cfg, sc);
    }
  }

  /** Cache coherence survives every step, a rebuild from an old snapshot included. */
  lemma KeepsCacheOk(s: Sys, step: Step, cfg: Writer.Config)
    requires HitsOk(s) && CacheOk(s) && RebuildsOk(s) && Enabled(s, step, cfg)
    ensures CacheOk(Next(s, step, cfg))
  {
    match step
    case Attack(b, p, amount, _) => if b in s.cache { StrikeConserves(s.cache[b], p, amount); }
    case Act(i, deed) =>
      var h := s.hits[i];
      if h.boss in s.cache { UndoConserves(s.cache[h.boss], h.player, h.applied); }
    case Overwrite(r) => assert SnapshotOk(s.rebuilds[r], s.db);
    case _ =>
  }

  // ---------------------------------------------------------------- writer and log

  /** Releasing a batch with the outcome its transaction had. */
  lemma FlushPlaces(hits: seq<Hit>, hits': seq<Hit>, batch: seq<nat>, persists: bool,
                    accepted: set<nat>, done: map<nat, Writer.Outcome>)
    requires Placed(hits, accepted, done)
    requires |hits'| == |hits| && forall i :: i in batch ==> i in accepted
    requires forall i :: 0 <= i < |hits| ==>
               hits'[i] == if i in batch then Marked(hits[i], MarkOf(persists)) else hits[i]
    ensures Placed(hits', accepted, done + Writer.Released(batch, OutcomeOf(persists)))
  {}

  lemma ActPlaces(s: Sys, i: nat, deed: Deed, cfg: Writer.Config)
    requires Placed(s.hits, s.writer.accepted, s.writer.done) && CanAct(s, i, deed)
    ensures var w := WriterAfter(s, Act(i, deed), cfg);
            Placed(s.hits[i := Acted(s, i, deed, cfg)], w.accepted, w.done)
  {}

  lemma MarkedHits(hits: seq<Hit>, ids: seq<nat>, m: Mark)
    requires Known(hits, ids)
    ensures forall i :: 0 <= i < |hits| ==>
              MarkAll(hits, ids, m)[i] == if i in ids then Marked(hits[i], m) else hits[i]
  {
    forall i | 0 <= i < |hits| ensures MarkAll(hits, ids, m)[i] == if i in ids then Marked(hits[i], m) else hits[i] {
      MarkAllAt(hits, ids, m, i);
    }
  }

  lemma FlushKeepsPlaced(s: Sys, k: nat, persists: bool, now: nat, cfg: Writer.Config)
    requires WriterOk(s, cfg) && Enabled(s, Flush(k, persists, now), cfg)
    ensures var w := WriterAfter(s, Flush(k, persists, now), cfg);
            Placed(HitsAfter(s, Flush(k, persists, now), cfg), w.accepted, w.done)
  {
    Writer.BatchIsUnreleased(s.writer, k);
    MarkedHits(s.hits, BatchOf(s, k), MarkOf(persists));
    FlushPlaces(s.hits, HitsAfter(s, Flush(k, persists, now), cfg), BatchOf(s, k), persists,
                s.writer.accepted, s.writer.done);
  }

  lemma KeepsPlaced(s: Sys, step: Step, cfg: Writer.Config)
    requires WriterOk(s, cfg) && Enabled(s, step, cfg)
    ensures var w := WriterAfter(s, step, cfg); Placed(HitsAfter(s, step, cfg), w.accepted, w.done)
  {
    match step
    case Act(i, deed) => ActPlaces(s, i, deed, cfg);
    case Flush(k, persists, now) => FlushKeepsPlaced(s, k, persists, now, cfg);
    case Land(j, _) => MarkedHits(s.hits, s.doubts[j], PersistLate);
    case _ =>
  }

  lemma KeepsWriterOk(s: Sys, step: Step, cfg: Writer.Config)
    requires WriterOk(s, cfg) && Enabled(s, step, cfg)
    ensures WriterOk(Next(s, step, cfg), cfg)
  {
    KeepsPlaced(s, step, cfg);
    match step
    case Act(i, deed) =>
      if deed == Submit && !IntakeFull(s, cfg) { Writer.NextKeepsOk(s.writer, Writer.Accept(i), cfg); }
    case Turn(m) => Writer.NextKeepsOk(s.writer, m, cfg);
    case Flush(k, persists, _) => Writer.NextKeepsOk(s.writer, Writer.Flush(k, OutcomeOf(persists)), cfg);
    case Crash => Writer.StartIsOk(|s.writer.lanes|, cfg);
    case _ =>
  }

  lemma SameEvents(hits: seq<Hit>, hits': seq<Hit>, ids: seq<nat>)
    requires Known(hits, ids) && |hits| <= |hits'|
    requires forall i :: 0 <= i < |hits| ==> EventOf(hits'[i]) == EventOf(hits[i])
    ensures Known(hits', ids) && EventsOf(hits', ids) == EventsOf(hits, ids)
  {}

  lemma AuditGrows(hits: seq<Hit>, hits': seq<Hit>, audit: seq<nat>, batch: seq<nat>, m: Mark)
    requires Known(hits, audit + batch) && |hits'| == |hits| && m != Fail
    requires forall i :: 0 <= i < |hits| ==> (hits[i].Stored() <==> i in audit)
    requires forall i :: 0 <= i < |hits| ==> hits'[i] == if i in batch then Marked(hits[i], m) else hits[i]
    ensures Known(hits, audit) && Known(hits, batch) && Known(hits', audit + batch)
    ensures EventsOf(hits', audit + batch) == EventsOf(hits, audit) + EventsOf(hits, batch)
    ensures forall i :: 0 <= i < |hits| ==> (hits'[i].Stored() <==> i in audit + batch)
  {
    SameEvents(hits, hits', audit + batch);
    assert forall j :: 0 <= j < |batch| ==> (audit + batch)[|audit| + j] == batch[j];
    assert forall j :: 0 <= j < |audit| ==> (audit + batch)[j] == audit[j];
  }

  lemma WriteKeepsAuditOk(s: Sys, step: Step, cfg: Writer.Config)
    requires HitsOk(s) && WriterOk(s, cfg) && ClientsOk(s) && DoubtsOk(s) && AuditOk(s) && Enabled(s, step, cfg)
    requires Writes(step)
    ensures AuditOk(Next(s, step, cfg))
  {
    var batch := Written(s, step, cfg);
    WrittenIsNew(s, step, cfg);
    assert forall j :: 0 <= j < |batch| ==> batch[j] in batch;
    MarkedHits(s.hits, batch, if step.Land? then PersistLate else Persist);
    AuditGrows(s.hits, HitsAfter(s, step, cfg), s.audit, batch, if step.Land? then PersistLate else Persist);
  }

  /** The log grows by exactly the hits that become durable, none of which was in it. */
  lemma KeepsAuditOk(s: Sys, step: Step, cfg: Writer.Config)
    requires HitsOk(s) && WriterOk(s, cfg) && ClientsOk(s) && DoubtsOk(s) && AuditOk(s) && Enabled(s, step, cfg)
    ensures AuditOk(Next(s, step, cfg))
  {
    var hits' := HitsAfter(s, step, cfg);
    forall i | 0 <= i < |s.hits|
      ensures EventOf(hits'[i]) == EventOf(s.hits[i])
      ensures !Writes(step) ==> (hits'[i].Stored() <==> s.hits[i].Stored())
    {
      HitEvolves(s, step, cfg, i);
    }
    if Writes(step) {
      WriteKeepsAuditOk(s, step, cfg);
    } else {
      assert |hits'| >= |s.hits|;
      SameEvents(s.hits, hits', s.audit);
    }
  }

  // ---------------------------------------------------------------- rebuilds and claims

  lemma SnapshotAges(w: Rebuilding, db: Db, db': Db)
    requires SnapshotOk(w, db) && w.boss in db'.bosses
    requires RowOk(db.bosses[w.boss]) && RowOk(db'.bosses[w.boss])
    requires Advances(db.bosses[w.boss], db'.bosses[w.boss])
    ensures SnapshotOk(w, db')
  {
    TotalBelow(db.bosses[w.boss].totals, db'.bosses[w.boss].totals);
  }

  /** Every step only advances the rows. */
  lemma RowsAdvance(s: Sys, step: Step, cfg: Writer.Config, b: BossId)
    requires HitsOk(s) && StoreOk(s) && WriterOk(s, cfg) && ClientsOk(s) && DoubtsOk(s) && Enabled(s, step, cfg)
    requires b in s.db.bosses
    ensures b in DbAfter(s, step, cfg).bosses
    ensures Advances(s.db.bosses[b], DbAfter(s, step, cfg).bosses[b])
  {
    if Writes(step) {
      WrittenIsNew(s, step, cfg);
      CommitAdvances(s.db.bosses[b], b, EventsOf(s.hits, Written(s, step, cfg)), step.now);
    }
  }

  lemma ReadsKeepSnapshots(s: Sys, step: Step, cfg: Writer.Config)
    requires StoreOk(s) && RebuildsOk(s) && Enabled(s, step, cfg)
    ensures forall r :: r in RebuildsAfter(s, step, cfg) ==> SnapshotOk(RebuildsAfter(s, step, cfg)[r], s.db)
  {
    match step
    case ReadHp(r, b) =>
      RecoveryIsCoherent(s.db.bosses[b]);
      TotalNonNegative(s.db.bosses[b].totals);
    case ReadTotals(r) => assert SnapshotOk(s.rebuilds[r], s.db);
    case _ =>
  }

  lemma KeepsRebuildsOk(s: Sys, step: Step, cfg: Writer.Config)
    requires HitsOk(s) && StoreOk(s) && WriterOk(s, cfg) && ClientsOk(s) && DoubtsOk(s) && RebuildsOk(s)
    requires Enabled(s, step, cfg)
    ensures RebuildsOk(Next(s, step, cfg))
  {
    var s' := Next(s, step, cfg);
    ReadsKeepSnapshots(s, step, cfg);
    KeepsStoreOk(s, step, cfg);
    forall r | r in s'.rebuilds ensures SnapshotOk(s'.rebuilds[r], s'.db) {
      RowsAdvance(s, step, cfg, s'.rebuilds[r].boss);
      SnapshotAges(s'.rebuilds[r], s.db, s'.db);
    }
  }

  lemma WriteKeepsClaimsOk(s: Sys, step: Step, cfg: Writer.Config)
    requires HitsOk(s) && StoreOk(s) && WriterOk(s, cfg) && ClientsOk(s) && DoubtsOk(s) && Enabled(s, step, cfg)
    requires Writes(step) && Claims.Ok(Claims.Counter(s.db, s.desk))
    ensures Claims.Ok(Claims.Counter(DbAfter(s, step, cfg), s.desk))
  {
    forall b | b in s.db.bosses ensures Advances(s.db.bosses[b], DbAfter(s, step, cfg).bosses[b]) {
      RowsAdvance(s, step, cfg, b);
    }
    Claims.CommitKeepsOk(Claims.Counter(s.db, s.desk), DbAfter(s, step, cfg));
  }

  lemma KeepsClaimsOk(s: Sys, step: Step, cfg: Writer.Config)
    requires HitsOk(s) && StoreOk(s) && WriterOk(s, cfg) && ClientsOk(s) && DoubtsOk(s) && Enabled(s, step, cfg)
    requires Claims.Ok(Claims.Counter(s.db, s.desk))
    ensures Claims.Ok(Claims.Counter(DbAfter(s, step, cfg), DeskAfter(s, step, cfg)))
  {
    match step
    case Claim(m) => Claims.MoveKeepsOk(Claims.Counter(s.db, s.desk), m);
    case Crash => Claims.CrashKeepsOk(Claims.Counter(s.db, s.desk));
    case _ => if Writes(step) { WriteKeepsClaimsOk(s, step, cfg); }
  }

  // ---------------------------------------------------------------- every run

  lemma StepKeepsSound(s: Sys, step: Step, cfg: Writer.Config)
    requires Sound(s, cfg) && Enabled(s, step, cfg)
    ensures Sound(Next(s, step, cfg), cfg)
  {
    KeepsHitsOk(s, step, cfg);
    KeepsStoreOk(s, step, cfg);
    KeepsCacheOk(s, step, cfg);
    KeepsWriterOk(s, step, cfg);
    KeepsClientsOk(s, step, cfg);
    KeepsDoubtsOk(s, step, cfg);
    KeepsTendedOk(s, step, cfg);
    KeepsAuditOk(s, step, cfg);
    KeepsRebuildsOk(s, step, cfg);
    KeepsClaimsOk(s, step, cfg);
  }

  /**
    In every run, whatever races: the durable invariants, cache coherence, agreement of ledger,
    log and totals, the writer's request conservation, and exactly-once claims.
   */
  lemma {:induction false} EveryRunIsSound(s: Sys, run: seq<Step>, cfg: Writer.Config)
    requires Sound(s, cfg) && Legal(s, run, cfg)
    ensures Sound(After(s, run, cfg), cfg)
    decreases |run|
  {
    if run != [] {
      EveryRunIsSound(s, run[..|run| - 1], cfg);
      StepKeepsSound(After(s, run[..|run| - 1], cfg), run[|run| - 1], cfg);
    }
  }
}
