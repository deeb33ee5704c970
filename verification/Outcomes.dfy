/**
  What a client's answer is worth: durability of acknowledged hits, and of refused ones, over
  every continuation of every run, crashes and late commits included.
 */
module Outcomes {
  import opened Ids
  import opened Totals
  import opened Durable
  import opened Ledger
  import opened Protocol
  import opened Soundness
  import opened Conservation
  import Writer

  lemma {:induction false} HitsOnlyEvolve(s: Sys, run: seq<Step>, cfg: Writer.Config, i: nat)
    requires Sound(s, cfg) && Legal(s, run, cfg) && i < |s.hits|
    ensures i < |After(s, run, cfg).hits| && Evolves(s.hits[i], After(s, run, cfg).hits[i])
    decreases |run|
  {
    if run != [] {
      var init := run[..|run| - 1];
      HitsOnlyEvolve(s, init, cfg, i);
      EveryRunIsSound(s, init, cfg);
      HitEvolves(After(s, init, cfg), run[|run| - 1], cfg, i);
    }
  }

  // ---------------------------------------------------------------- late commits

  /** Step `n` of the run commits the hit after its failure was reported. */
  ghost predicate LandsAt(s: Sys, run: seq<Step>, cfg: Writer.Config, i: nat, n: nat) {
    && n < |run| && run[n].Land?
    && Legal(s, run[..n], cfg)
    && var t := After(s, run[..n], cfg);
       run[n].doubt < |t.doubts| && i in t.doubts[run[n].doubt]
  }

  ghost predicate LandsIn(s: Sys, run: seq<Step>, cfg: Writer.Config, i: nat) {
    exists n: nat :: LandsAt(s, run, cfg, i, n)
  }

  lemma LandsInSnoc(s: Sys, run: seq<Step>, cfg: Writer.Config, i: nat)
    requires run != []
    ensures LandsIn(s, run, cfg, i) <==>
            LandsIn(s, run[..|run| - 1], cfg, i) || LandsAt(s, run, cfg, i, |run| - 1)
  {
    var init := run[..|run| - 1];
    forall n: nat | n < |init| ensures LandsAt(s, run, cfg, i, n) <==> LandsAt(s, init, cfg, i, n) {
      assert run[..n] == init[..n];
    }
    if LandsIn(s, init, cfg, i) {
      var n: nat :| LandsAt(s, init, cfg, i, n);
      assert LandsAt(s, run, cfg, i, n);
    }
    if LandsIn(s, run, cfg, i) {
      var n: nat :| LandsAt(s, run, cfg, i, n);
      assert n < |init| ==> LandsAt(s, init, cfg, i, n);
    }
  }

  /** A hit is marked by nothing but a late commit of its own batch. */
  lemma StepLands(s: Sys, step: Step, cfg: Writer.Config, i: nat)
    requires HitsOk(s) && WriterOk(s, cfg) && ClientsOk(s) && DoubtsOk(s) && Enabled(s, step, cfg)
    ensures step.Land? && i in s.doubts[step.doubt] ==> i < |s.hits|
    ensures |HitsAfter(s, step, cfg)| >= |s.hits|
    ensures i < |s.hits| ==>
              (HitsAfter(s, step, cfg)[i].unacked <==>
                 s.hits[i].unacked || (step.Land? && i in s.doubts[step.doubt]))
    ensures |s.hits| <= i < |HitsAfter(s, step, cfg)| ==> !HitsAfter(s, step, cfg)[i].unacked
  {
    if i < |s.hits| { HitEvolves(s, step, cfg, i); }
    if step.Land? { DoubtIsReady(s, step.doubt); }
    if step.Flush? { BatchIsReady(s, step.lane, cfg); }
  }

  /** Exactly the hits that a run commits late, or that had been before it, are marked after it. */
  lemma {:induction false} UnackedIffLands(s: Sys, run: seq<Step>, cfg: Writer.Config, i: nat)
    requires Sound(s, cfg) && Legal(s, run, cfg)
    ensures |After(s, run, cfg).hits| >= |s.hits|
    ensures LandsIn(s, run, cfg, i) ==> i < |After(s, run, cfg).hits|
    ensures i < |After(s, run, cfg).hits| ==>
              (After(s, run, cfg).hits[i].unacked <==>
                 (i < |s.hits| && s.hits[i].unacked) || LandsIn(s, run, cfg, i))
    decreases |run|
  {
    if run != [] {
      var init := run[..|run| - 1];
      UnackedIffLands(s, init, cfg, i);
      LandsInSnoc(s, run, cfg, i);
      EveryRunIsSound(s, init, cfg);
      StepLands(After(s, init, cfg), run[|run| - 1], cfg, i);
    }
  }

  // ---------------------------------------------------------------- what an answer is worth

  /**
    An acknowledged hit is durable and stays so in every continuation. A hit refused for a full
    queue never becomes durable. A hit refused for a failed commit that is not durable becomes so
    exactly if the continuation has the late commit of its batch.
   */
  lemma OutcomeIsFinal(s: Sys, run: seq<Step>, cfg: Writer.Config, i: nat)
    requires Sound(s, cfg) && Legal(s, run, cfg) && i < |s.hits|
    ensures i < |After(s, run, cfg).hits|
    ensures var h, h' := s.hits[i], After(s, run, cfg).hits[i];
            && (h.client == Acked ==> h.Stored() && h'.Stored())
            && (h.client == ToldFull ==> !h.Stored() && !h'.Stored())
            && (h.client == ToldFailed ==> (h'.Stored() <==> h.Stored() || LandsIn(s, run, cfg, i)))
  {
    HitsOnlyEvolve(s, run, cfg, i);
    EveryRunIsSound(s, run, cfg);
    UnackedIffLands(s, run, cfg, i);
    assert Answered(s.hits[i]) && Answered(After(s, run, cfg).hits[i]);
  }

  /**
    From the start: a hit whose client was told of a failed commit is durable exactly if the run
    has the late commit of its batch.
   */
  lemma FailedIsDurableIffItLands(s: Sys, run: seq<Step>, cfg: Writer.Config, i: nat)
    requires Initial(s) && cfg.maxBatch > 0 && Legal(s, run, cfg) && i < |After(s, run, cfg).hits|
    requires After(s, run, cfg).hits[i].client == ToldFailed
    ensures After(s, run, cfg).hits[i].Stored() <==> LandsIn(s, run, cfg, i)
  {
    InitialIsSound(s, cfg);
    EveryRunIsSound(s, run, cfg);
    UnackedIffLands(s, run, cfg, i);
    assert Answered(After(s, run, cfg).hits[i]);
  }

  /** No transaction commits once its failure was reported. */
  predicate Definite(run: seq<Step>) {
    forall n :: 0 <= n < |run| ==> !run[n].Land?
  }

  /** With definite failures, a refused hit that is not durable never becomes so. */
  lemma RefusalsAreFinal(s: Sys, run: seq<Step>, cfg: Writer.Config, i: nat)
    requires Sound(s, cfg) && Legal(s, run, cfg) && i < |s.hits| && Definite(run)
    requires RefusedFate(s.hits[i]) && !s.hits[i].Stored()
    ensures i < |After(s, run, cfg).hits| && !After(s, run, cfg).hits[i].Stored()
  {
    HitsOnlyEvolve(s, run, cfg, i);
    UnackedIffLands(s, run, cfg, i);
  }

  /** With definite failures, every answered client was told the truth. */
  lemma DefiniteAnswersAreTrue(s: Sys, run: seq<Step>, cfg: Writer.Config, i: nat)
    requires Initial(s) && cfg.maxBatch > 0 && Legal(s, run, cfg) && Definite(run)
    requires i < |After(s, run, cfg).hits|
    ensures var h := After(s, run, cfg).hits[i];
            && (h.client == Acked ==> h.Stored())
            && (h.client == ToldFull || h.client == ToldFailed ==> !h.Stored())
            && !h.unacked
  {
    InitialIsSound(s, cfg);
    EveryRunIsSound(s, run, cfg);
    UnackedIffLands(s, run, cfg, i);
    assert Answered(After(s, run, cfg).hits[i]);
  }

  lemma {:induction false} NothingUnacked(hits: seq<Hit>, sc: Scope)
    requires forall i :: 0 <= i < |hits| ==> !hits[i].unacked
    ensures Sum(hits, sc, Unacked) == 0
  {
    if hits != [] { NothingUnacked(hits[..|hits| - 1], sc); }
  }

  /** With definite failures, only the races of rebuilds let durable damage exceed a boss's HP. */
  lemma DefiniteOvershoot(s: Sys, run: seq<Step>, cfg: Writer.Config, b: BossId)
    requires Initial(s) && cfg.maxBatch > 0 && b in s.db.bosses && Legal(s, run, cfg) && Definite(run)
    ensures var t := After(s, run, cfg);
            b in t.db.bosses &&
            Total(t.db.bosses[b].totals) <= s.db.bosses[b].maxHp + WorstRace(s, run, cfg, b)
  {
    BoundedOvershoot(s, run, cfg, b);
    var t := After(s, run, cfg);
    forall i | 0 <= i < |t.hits| ensures !t.hits[i].unacked { DefiniteAnswersAreTrue(s, run, cfg, i); }
    NothingUnacked(t.hits, OfBoss(b));
  }

  function Members(ids: seq<nat>): set<nat> {
    set i | i in ids
  }

  lemma {:induction false} DistinctSize(ids: seq<nat>)
    requires Writer.Distinct(ids)
    ensures |Members(ids)| == |ids|
  {
    if ids != [] {
      var init, id := ids[..|ids| - 1], ids[|ids| - 1];
      DistinctSize(init);
      assert ids == init + [id];
      assert Members(ids) == Members(init) + {id};
      assert id !in Members(init);
    }
  }

  lemma AuditIsDurable(t: Sys)
    requires AuditOk(t)
    ensures Members(t.audit) == set i | 0 <= i < |t.hits| && t.hits[i].Stored()
  {
    forall i | i in t.audit ensures i < |t.hits| {
      var j :| 0 <= j < |t.audit| && t.audit[j] == i;
    }
  }

  /**
    No hit is ever made durable twice: the log holds one event per durable hit, so it has exactly
    as many rows as there are durable hits.
   */
  lemma DurableOnce(s: Sys, run: seq<Step>, cfg: Writer.Config)
    requires Sound(s, cfg) && Legal(s, run, cfg)
    ensures var t := After(s, run, cfg);
            && |t.audit| == |t.db.log| == |set i | 0 <= i < |t.hits| && t.hits[i].Stored()|
            && (forall j :: 0 <= j < |t.db.log| ==>
                  t.audit[j] < |t.hits| && t.db.log[j] == EventOf(t.hits[t.audit[j]]))
  {
    EveryRunIsSound(s, run, cfg);
    AuditIsDurable(After(s, run, cfg));
    DistinctSize(After(s, run, cfg).audit);
  }

  /** A cancelled hit still in the writer may go either way. */
  lemma CancelledEitherWay(s: Sys, i: nat, cfg: Writer.Config, k: nat, now: nat)
    requires Sound(s, cfg) && i < |s.hits| && s.hits[i].client == Cancelled
    requires k < |s.writer.lanes| && i in BatchOf(s, k) && !Writer.AtSelect(s.writer.lanes[k])
    ensures Enabled(s, Flush(k, true, now), cfg)
    ensures Next(s, Flush(k, true, now), cfg).hits[i].Stored()
    ensures Enabled(s, Flush(k, false, now), cfg)
    ensures var h := Next(s, Flush(k, false, now), cfg).hits[i]; h.phase == Leaked && !h.Stored()
  {
    BatchIsReady(s, k, cfg);
    MarkedHits(s.hits, BatchOf(s, k), Persist);
    MarkedHits(s.hits, BatchOf(s, k), Fail);
  }

  lemma FailedBatch(s: Sys, i: nat, cfg: Writer.Config, k: nat, now: nat)
    requires HitsOk(s) && WriterOk(s, cfg) && ClientsOk(s) && i < |s.hits| && s.hits[i].client == Waiting
    requires k < |s.writer.lanes| && i in BatchOf(s, k) && !Writer.AtSelect(s.writer.lanes[k])
    ensures Enabled(s, Flush(k, false, now), cfg)
    ensures var t := Next(s, Flush(k, false, now), cfg);
            && i in t.writer.done && t.writer.done[i] == Writer.CommitFailed
            && i < |t.hits| && t.hits[i] == s.hits[i].(phase := Refused)
            && |t.doubts| == |s.doubts| + 1 && i in t.doubts[|s.doubts|]
  {
    BatchIsReady(s, k, cfg);
    MarkedHits(s.hits, BatchOf(s, k), Fail);
  }

  lemma HearAndUndo(s: Sys, i: nat, cfg: Writer.Config)
    requires i < |s.hits| && s.hits[i].client == Waiting && s.hits[i].phase == Refused && i in s.writer.done
    requires s.writer.done[i] == Writer.CommitFailed
    ensures Enabled(s, Act(i, Hear), cfg)
    ensures var u := Next(s, Act(i, Hear), cfg);
            && Enabled(u, Act(i, UndoRuns), cfg)
            && var v := Next(u, Act(i, UndoRuns), cfg);
               v.hits == s.hits[i := s.hits[i].(phase := Undone, client := ToldFailed)] && v.doubts == s.doubts
  {}

  lemma LandsOne(s: Sys, i: nat, j: nat, now: nat, cfg: Writer.Config)
    requires HitsOk(s) && DoubtsOk(s) && j < |s.doubts| && i in s.doubts[j]
    ensures Enabled(s, Land(j, now), cfg) && i < |s.hits|
    ensures Next(s, Land(j, now), cfg).hits[i] == s.hits[i].(unacked := true)
  {
    DoubtIsReady(s, j);
    MarkedHits(s.hits, s.doubts[j], PersistLate);
  }

  /**
    An error is not a promise that nothing was stored: from every state in which a waiting hit is
    about to be written, its commit can be reported as failed, the client told so and the cache
    put back, and then the transaction commits.
   */
  lemma RefusedYetDurable(s: Sys, i: nat, cfg: Writer.Config, k: nat, now: nat)
    requires Sound(s, cfg) && i < |s.hits| && s.hits[i].client == Waiting
    requires k < |s.writer.lanes| && i in BatchOf(s, k) && !Writer.AtSelect(s.writer.lanes[k])
    ensures Enabled(s, Flush(k, false, now), cfg)
    ensures var t := Next(s, Flush(k, false, now), cfg);
            && Enabled(t, Act(i, Hear), cfg)
            && var u := Next(t, Act(i, Hear), cfg);
               && Enabled(u, Act(i, UndoRuns), cfg)
               && var v := Next(u, Act(i, UndoRuns), cfg);
                  && Enabled(v, Land(|s.doubts|, now), cfg)
                  && var w := Next(v, Land(|s.doubts|, now), cfg);
                     w.hits[i] == s.hits[i].(phase := Undone, client := ToldFailed, unacked := true)
  {
    FailedBatch(s, i, cfg, k, now);
    var t := Next(s, Flush(k, false, now), cfg);
    StepKeepsSound(s, Flush(k, false, now), cfg);
    HearAndUndo(t, i, cfg);
    var u := Next(t, Act(i, Hear), cfg);
    StepKeepsSound(t, Act(i, Hear), cfg);
    StepKeepsSound(u, Act(i, UndoRuns), cfg);
    LandsOne(Next(u, Act(i, UndoRuns), cfg), i, |s.doubts|, now, cfg);
  }
}
