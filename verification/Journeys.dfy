/**
  Single hits and single bosses followed through the protocol: the hit that finds the queue full,
  the hit that is accepted and then given up, the answer a client hears and the undo after it, the
  hit whose reply is lost, the hits that a crash interrupts, and the boss that expires.
 */
module Journeys {
  import opened Ids
  import opened Durable
  import opened Redis
  import opened Ledger
  import opened Protocol
  import opened Soundness
  import opened Outcomes
  import Writer
  import Claims

  /** A hit that will land: the boss is loaded and alive. */
  ghost predicate Hittable(s: Sys, b: BossId, amount: int) {
    b in s.cache && s.cache[b].hp > 0 && amount > 0
  }

  /** The hit as the script recorded it. */
  function Struck(s: Sys, b: BossId, p: PlayerId, amount: int, phase: Phase, client: Client): Hit
    requires b in s.cache
  {
    Hit(b, p, if amount > s.cache[b].hp then s.cache[b].hp else amount, phase, client, false)
  }

  /** A landing hit takes from the boss what it records for its player, and touches nothing else. */
  lemma AttackRecords(s: Sys, b: BossId, p: PlayerId, amount: int, delivered: bool, cfg: Writer.Config)
    requires Sound(s, cfg) && Hittable(s, b, amount)
    ensures var h := Struck(s, b, p, amount, if delivered then Applied else Leaked,
                            if delivered then Waiting else Cancelled);
            Next(s, Attack(b, p, amount, delivered), cfg) ==
            s.(hits := s.hits + [h], cache := s.cache[b := Strike(s.cache[b], p, amount).0])
    ensures Undo(Strike(s.cache[b], p, amount).0, p, Struck(s, b, p, amount, Applied, Waiting).applied) == s.cache[b]
  {
    StrikeConserves(s.cache[b], p, amount);
    UndoRestores(s.cache[b], p, amount);
  }

  // ---------------------------------------------------------------- a full queue, and one with room

  /** The newest hit can be submitted; nobody has submitted it yet. */
  lemma NewestSubmits(s: Sys, b: BossId, p: PlayerId, amount: int, cfg: Writer.Config)
    requires Sound(s, cfg) && Hittable(s, b, amount) && !s.writer.closed
    ensures |s.hits| !in s.writer.accepted
    ensures Enabled(Next(s, Attack(b, p, amount, true), cfg), Act(|s.hits|, Submit), cfg)
  {
    AttackRecords(s, b, p, amount, true, cfg);
  }

  /** The two steps by which a hit that finds the queue full is taken back. */
  lemma RefusedAndUndone(s: Sys, i: nat, cfg: Writer.Config)
    requires CanAct(s, i, Submit) && s.hits[i].boss in s.cache && |s.writer.queue| >= cfg.capacity
    ensures var t := Next(s, Act(i, Submit), cfg);
            && CanAct(t, i, UndoRuns)
            && var h := s.hits[i];
               Next(t, Act(i, UndoRuns), cfg) ==
               s.(hits := s.hits[i := h.(phase := Undone, client := ToldFull)],
                  cache := s.cache[h.boss := Undo(s.cache[h.boss], h.player, h.applied)])
  {
    var t := Next(s, Act(i, Submit), cfg);
    assert t == s.(hits := s.hits[i := s.hits[i].(phase := Refused, client := ToldFull)]);
    var h := s.hits[i].(phase := Undone, client := ToldFull);
    assert t.hits[i := h] == s.hits[i := h];
  }

  /** The two steps by which a hit that finds room is left to the writer. */
  lemma SubmittedAndGivenUp(s: Sys, i: nat, cfg: Writer.Config)
    requires CanAct(s, i, Submit) && |s.writer.queue| < cfg.capacity
    ensures var t := Next(s, Act(i, Submit), cfg);
            && t.writer == s.writer.(queue := s.writer.queue + [i], accepted := s.writer.accepted + {i})
            && CanAct(t, i, GiveUp)
            && var u := Next(t, Act(i, GiveUp), cfg);
               && u == s.(writer := t.writer, hits := s.hits[i := s.hits[i].(phase := Accepted, client := Cancelled)])
               && !CanAct(u, i, UndoRuns)
  {
    var t := Next(s, Act(i, Submit), cfg);
    var h := s.hits[i].(phase := Accepted, client := Cancelled);
    assert t.hits[i := h] == s.hits[i := h];
  }

  /**
    A hit that finds the queue full: hit, refusal and undo are together the identity on both
    stores and on the writer, and leave a client that was told so.
   */
  lemma FullQueueRestores(s: Sys, b: BossId, p: PlayerId, amount: int, cfg: Writer.Config)
    requires Sound(s, cfg) && Hittable(s, b, amount) && !s.writer.closed && |s.writer.queue| >= cfg.capacity
    ensures var s1 := Next(s, Attack(b, p, amount, true), cfg);
            && Enabled(s1, Act(|s.hits|, Submit), cfg)
            && var s2 := Next(s1, Act(|s.hits|, Submit), cfg);
               && Enabled(s2, Act(|s.hits|, UndoRuns), cfg)
               && Next(s2, Act(|s.hits|, UndoRuns), cfg) ==
                  s.(hits := s.hits + [Struck(s, b, p, amount, Undone, ToldFull)])
  {
    AttackRecords(s, b, p, amount, true, cfg);
    NewestSubmits(s, b, p, amount, cfg);
    var s1 := Next(s, Attack(b, p, amount, true), cfg);
    RefusedAndUndone(s1, |s.hits|, cfg);
    assert Undo(s1.cache[b], p, s1.hits[|s.hits|].applied) == s.cache[b];
    assert s1.cache[b := s.cache[b]] == s.cache;
    var h := Struck(s, b, p, amount, Undone, ToldFull);
    assert s1.hits[|s.hits| := h] == s.hits + [h];
  }

  /**
    A hit that finds room is the newest request in the queue, and a client that then gives up
    changes nothing else: the hit stays on the boss and in the queue, and nobody may undo it.
   */
  lemma GivenUpStaysQueued(s: Sys, b: BossId, p: PlayerId, amount: int, cfg: Writer.Config)
    requires Sound(s, cfg) && Hittable(s, b, amount) && !s.writer.closed && |s.writer.queue| < cfg.capacity
    ensures var s1 := Next(s, Attack(b, p, amount, true), cfg);
            && Enabled(s1, Act(|s.hits|, Submit), cfg)
            && var s2 := Next(s1, Act(|s.hits|, Submit), cfg);
               && s2.writer == s.writer.(queue := s.writer.queue + [|s.hits|],
                                         accepted := s.writer.accepted + {|s.hits|})
               && Enabled(s2, Act(|s.hits|, GiveUp), cfg)
               && var s3 := Next(s2, Act(|s.hits|, GiveUp), cfg);
                  && s3 == s1.(writer := s2.writer, hits := s.hits + [Struck(s, b, p, amount, Accepted, Cancelled)])
                  && !Enabled(s3, Act(|s.hits|, UndoRuns), cfg)
  {
    AttackRecords(s, b, p, amount, true, cfg);
    NewestSubmits(s, b, p, amount, cfg);
    var s1 := Next(s, Attack(b, p, amount, true), cfg);
    SubmittedAndGivenUp(s1, |s.hits|, cfg);
    var h := Struck(s, b, p, amount, Accepted, Cancelled);
    assert s1.hits[|s.hits| := h] == s.hits + [h];
  }

  // ---------------------------------------------------------------- the answer, and the undo after it

  /** A client is told exactly whether its hit was committed; hearing changes nothing else. */
  lemma HearsItsOutcome(s: Sys, i: nat, cfg: Writer.Config)
    requires Sound(s, cfg) && i < |s.hits| && s.hits[i].client == Waiting && i in s.writer.done
    ensures Enabled(s, Act(i, Hear), cfg)
    ensures var h := s.hits[i];
            Next(s, Act(i, Hear), cfg) ==
            s.(hits := s.hits[i := h.(client := if h.phase == Committed then Acked else ToldFailed)])
  {
    assert s.writer.done[i] == Writer.Persisted <==> s.hits[i].phase == Committed;
  }

  /** Nothing will be done about the hit in the cache any more, but by a rebuild. */
  predicate Over(h: Hit) {
    h.phase == Undone || h.phase == Leaked || h.phase == Lost
  }

  lemma StaysOver(s: Sys, step: Step, cfg: Writer.Config, i: nat)
    requires HitsOk(s) && WriterOk(s, cfg) && ClientsOk(s) && DoubtsOk(s) && Enabled(s, step, cfg)
    requires i < |s.hits| && Over(s.hits[i])
    ensures i < |HitsAfter(s, step, cfg)| && Over(HitsAfter(s, step, cfg)[i])
  {
    HitEvolves(s, step, cfg, i);
    if step.Flush? { BatchIsReady(s, step.lane, cfg); }
  }

  lemma {:induction false} OverForGood(s: Sys, run: seq<Step>, cfg: Writer.Config, i: nat)
    requires Sound(s, cfg) && Legal(s, run, cfg) && i < |s.hits| && Over(s.hits[i])
    ensures i < |After(s, run, cfg).hits| && Over(After(s, run, cfg).hits[i])
    decreases |run|
  {
    if run != [] {
      var init := run[..|run| - 1];
      OverForGood(s, init, cfg, i);
      EveryRunIsSound(s, init, cfg);
      StaysOver(After(s, init, cfg), run[|run| - 1], cfg, i);
    }
  }

  /**
    A refused hit is undone at most once: after its undo, run or failed, neither is possible in
    any continuation.
   */
  lemma UndoneAtMostOnce(s: Sys, i: nat, deed: Deed, run: seq<Step>, cfg: Writer.Config)
    requires deed == UndoRuns || deed == UndoFails
    requires Sound(s, cfg) && Enabled(s, Act(i, deed), cfg) && Legal(Next(s, Act(i, deed), cfg), run, cfg)
    ensures var t := After(Next(s, Act(i, deed), cfg), run, cfg);
            !CanAct(t, i, UndoRuns) && !CanAct(t, i, UndoFails)
  {
    StepKeepsSound(s, Act(i, deed), cfg);
    OverForGood(Next(s, Act(i, deed), cfg), run, cfg, i);
  }

  // ---------------------------------------------------------------- hits nobody follows up

  /** A hit that left flight without being stored becomes durable by the late commit of its batch alone. */
  lemma DurableIffItLands(s: Sys, run: seq<Step>, cfg: Writer.Config, i: nat)
    requires Sound(s, cfg) && Legal(s, run, cfg) && i < |s.hits| && !Is(s.hits[i], InFlight)
    ensures i < |After(s, run, cfg).hits|
    ensures After(s, run, cfg).hits[i].Stored() <==> s.hits[i].Stored() || LandsIn(s, run, cfg, i)
  {
    HitsOnlyEvolve(s, run, cfg, i);
    UnackedIffLands(s, run, cfg, i);
  }

  /**
    A crash loses the writer, the rebuilds and every client that was waiting, and neither store.
    Of the hits that it interrupts those become durable later, and only those, whose batch had
    been reported as failed and commits after all; what was durable stays so.
   */
  lemma CrashDecides(s: Sys, run: seq<Step>, cfg: Writer.Config, i: nat)
    requires Sound(s, cfg) && Legal(Next(s, Step.Crash, cfg), run, cfg) && i < |s.hits|
    ensures var t := Next(s, Step.Crash, cfg);
            && t.cache == s.cache && t.db == s.db && t.audit == s.audit && t.doubts == s.doubts
            && t.writer == Writer.Start(|s.writer.lanes|) && t.rebuilds == map[]
            && (forall c :: c in t.desk <==> c in s.desk && (s.desk[c].Replied? || s.desk[c].Rejected?))
            && (forall c :: c in t.desk ==> t.desk[c] == s.desk[c])
            && t.hits[i].client == (if s.hits[i].client == Waiting then Cancelled else s.hits[i].client)
            && i < |After(t, run, cfg).hits|
            && (After(t, run, cfg).hits[i].Stored() <==> s.hits[i].Stored() || LandsIn(t, run, cfg, i))
  {
    StepKeepsSound(s, Step.Crash, cfg);
    DurableIffItLands(Next(s, Step.Crash, cfg), run, cfg, i);
  }

  /** The writer never had the hit, and no batch in doubt holds it. */
  ghost predicate Abandoned(s: Sys, i: nat) {
    && i < |s.hits| && i !in s.writer.accepted
    && s.hits[i].client == Cancelled && (s.hits[i].phase == Leaked || s.hits[i].phase == Lost) && !s.hits[i].unacked
    && forall j :: 0 <= j < |s.doubts| ==> i !in s.doubts[j]
  }

  /** Only `Submit` hands a hit to the writer. */
  lemma NothingSubmits(s: Sys, step: Step, cfg: Writer.Config, i: nat)
    requires Enabled(s, step, cfg) && i < |s.hits| && s.hits[i].phase != Applied && i !in s.writer.accepted
    ensures i !in WriterAfter(s, step, cfg).accepted
  {}

  /** Only the writer's failed batches get into doubt. */
  lemma NothingDoubts(s: Sys, step: Step, cfg: Writer.Config, i: nat)
    requires WriterOk(s, cfg) && Enabled(s, step, cfg) && i !in s.writer.accepted
    requires forall j :: 0 <= j < |s.doubts| ==> i !in s.doubts[j]
    ensures forall j :: 0 <= j < |DoubtsAfter(s, step, cfg)| ==> i !in DoubtsAfter(s, step, cfg)[j]
  {
    if step.Flush? { Writer.BatchIsUnreleased(s.writer, step.lane); }
  }

  /** Of a leaked hit that nobody writes nothing changes but that a rebuild forgets it. */
  lemma StaysLeaked(s: Sys, step: Step, cfg: Writer.Config, i: nat)
    requires HitsOk(s) && WriterOk(s, cfg) && ClientsOk(s) && DoubtsOk(s) && Enabled(s, step, cfg) && Abandoned(s, i)
    ensures var hits' := HitsAfter(s, step, cfg);
            && i < |hits'| && hits'[i].client == Cancelled && !hits'[i].unacked
            && (hits'[i].phase == Leaked || hits'[i].phase == Lost)
  {
    HitEvolves(s, step, cfg, i);
    if step.Flush? { Writer.BatchIsUnreleased(s.writer, step.lane); }
  }

  lemma StaysAbandoned(s: Sys, step: Step, cfg: Writer.Config, i: nat)
    requires Sound(s, cfg) && Enabled(s, step, cfg) && Abandoned(s, i)
    ensures Abandoned(Next(s, step, cfg), i)
  {
    StaysLeaked(s, step, cfg, i);
    NothingSubmits(s, step, cfg, i);
    NothingDoubts(s, step, cfg, i);
  }

  lemma {:induction false} AbandonedForGood(s: Sys, run: seq<Step>, cfg: Writer.Config, i: nat)
    requires Sound(s, cfg) && Legal(s, run, cfg) && Abandoned(s, i)
    ensures Abandoned(After(s, run, cfg), i)
    decreases |run|
  {
    if run != [] {
      var init := run[..|run| - 1];
      AbandonedForGood(s, init, cfg, i);
      EveryRunIsSound(s, init, cfg);
      StaysAbandoned(After(s, init, cfg), run[|run| - 1], cfg, i);
    }
  }

  /**
    A hit whose reply is lost is on the boss, and never becomes durable: in no continuation, late
    commits and crashes included, does Postgres get it.
   */
  lemma LostReplyNeverDurable(s: Sys, b: BossId, p: PlayerId, amount: int, run: seq<Step>, cfg: Writer.Config)
    requires Sound(s, cfg) && Hittable(s, b, amount)
    requires Legal(Next(s, Attack(b, p, amount, false), cfg), run, cfg)
    ensures var t := After(Next(s, Attack(b, p, amount, false), cfg), run, cfg);
            && |s.hits| < |t.hits| && !t.hits[|s.hits|].Stored() && |s.hits| !in t.audit
            && t.hits[|s.hits|].client == Cancelled
  {
    var s1, i := Next(s, Attack(b, p, amount, false), cfg), |s.hits|;
    AttackRecords(s, b, p, amount, false, cfg);
    StepKeepsSound(s, Attack(b, p, amount, false), cfg);
    assert i !in s.writer.accepted;
    forall j | 0 <= j < |s.doubts| ensures i !in s.doubts[j] { assert InDoubt(s.hits, s.doubts[j]); }
    AbandonedForGood(s1, run, cfg, i);
    EveryRunIsSound(s1, run, cfg);
  }

  // ---------------------------------------------------------------- an expired boss

  /** Step `n` of the run overwrites the boss. */
  ghost predicate OverwritesAt(s: Sys, run: seq<Step>, cfg: Writer.Config, b: BossId, n: nat) {
    && n < |run| && run[n].Overwrite?
    && Legal(s, run[..n], cfg)
    && var t := After(s, run[..n], cfg);
       run[n].id in t.rebuilds && t.rebuilds[run[n].id].boss == b
  }

  ghost predicate OverwritesIn(s: Sys, run: seq<Step>, cfg: Writer.Config, b: BossId) {
    exists n: nat :: OverwritesAt(s, run, cfg, b, n)
  }

  /** No hit has landed on the boss since there were `n` hits. */
  predicate Spared(s: Sys, b: BossId, n: nat) {
    n <= |s.hits| && b !in s.cache && forall i :: n <= i < |s.hits| ==> s.hits[i].boss != b
  }

  lemma StaysSpared(s: Sys, step: Step, cfg: Writer.Config, b: BossId, n: nat)
    requires Sound(s, cfg) && Enabled(s, step, cfg) && Spared(s, b, n)
    requires step.Overwrite? ==> s.rebuilds[step.id].boss != b
    ensures Spared(Next(s, step, cfg), b, n)
  {
    var s' := Next(s, step, cfg);
    if |s.hits| > 0 { HitEvolves(s, step, cfg, 0); }
    forall i | n <= i < |s'.hits| ensures s'.hits[i].boss != b {
      if i < |s.hits| { HitEvolves(s, step, cfg, i); }
    }
  }

  lemma {:induction false} SparedUntilRebuilt(s: Sys, run: seq<Step>, cfg: Writer.Config, b: BossId, n: nat)
    requires Sound(s, cfg) && Legal(s, run, cfg) && Spared(s, b, n) && !OverwritesIn(s, run, cfg, b)
    ensures Spared(After(s, run, cfg), b, n)
    decreases |run|
  {
    if run != [] {
      var init, last := run[..|run| - 1], |run| - 1;
      forall m: nat | m < last ensures OverwritesAt(s, run, cfg, b, m) <==> OverwritesAt(s, init, cfg, b, m) {
        assert run[..m] == init[..m];
      }
      if OverwritesIn(s, init, cfg, b) {
        var m: nat :| OverwritesAt(s, init, cfg, b, m);
        assert OverwritesAt(s, run, cfg, b, m);
      }
      SparedUntilRebuilt(s, init, cfg, b, n);
      EveryRunIsSound(s, init, cfg);
      assert !OverwritesAt(s, run, cfg, b, last);
      StaysSpared(After(s, init, cfg), run[last], cfg, b, n);
    }
  }

  /**
    An expiry forgets this boss alone and changes nothing else; until a rebuild overwrites the
    boss, it is not loaded and no hit lands on it.
   */
  lemma ExpiredUntilRebuilt(s: Sys, b: BossId, run: seq<Step>, cfg: Writer.Config)
    requires Sound(s, cfg) && Enabled(s, Expire(b), cfg) && Legal(Next(s, Expire(b), cfg), run, cfg)
    ensures Next(s, Expire(b), cfg) == s.(cache := s.cache - {b})
    ensures !OverwritesIn(Next(s, Expire(b), cfg), run, cfg, b) ==>
              var t := After(Next(s, Expire(b), cfg), run, cfg);
              && b !in t.cache
              && (forall i :: |s.hits| <= i < |t.hits| ==> t.hits[i].boss != b)
  {
    var s1 := Next(s, Expire(b), cfg);
    StepKeepsSound(s, Expire(b), cfg);
    if !OverwritesIn(s1, run, cfg, b) { SparedUntilRebuilt(s1, run, cfg, b, |s.hits|); }
  }
}
