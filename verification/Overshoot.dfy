/**
  That the potential of a boss is real: with a working writer some calm continuation settles every
  hit, kills what is left and makes exactly that much damage durable. So a rebuild that is not quiet
  does not only break the conservation law, it lets more than the boss's HP become durable.
 */
module Overshoot {
  import opened Ids
  import opened Totals
  import opened Durable
  import opened Redis
  import opened Ledger
  import opened Protocol
  import opened Soundness
  import opened Conservation
  import opened Guarantees
  import Writer

  /** The intake is open and has room for at least one, and some committer runs. */
  predicate Working(s: Sys, cfg: Writer.Config) {
    !s.writer.closed && |s.writer.lanes| > 0 && cfg.capacity > 0
  }

  predicate NoLeaks(hits: seq<Hit>, b: BossId) {
    forall i :: 0 <= i < |hits| && hits[i].boss == b ==> hits[i].phase != Leaked
  }

  /** Steps of a day on which nothing goes wrong. */
  predicate Tame(step: Step) {
    match step
    case Attack(_, _, _, delivered) => delivered
    case Act(_, deed) => deed == Submit || deed == Hear || deed == UndoRuns
    case Turn(m) => m.Receive? || m.Tick?
    case Flush(_, persists, _) => persists
    case _ => false
  }

  /** From `s`: still in order, the boss still loaded, its potential and HP what they were. */
  ghost predicate Onward(s: Sys, t: Sys, b: BossId, cfg: Writer.Config)
    requires b in s.db.bosses
  {
    && Sound(t, cfg) && Working(t, cfg)
    && b in t.cache && b in t.db.bosses
    && MaxHp(t, b) == MaxHp(s, b)
    && Potential(t, b) == Potential(s, b)
    && (NoLeaks(s.hits, b) ==> NoLeaks(t.hits, b))
  }

  lemma TameLeaksNothing(s: Sys, step: Step, b: BossId, cfg: Writer.Config)
    requires HitsOk(s) && WriterOk(s, cfg) && ClientsOk(s) && DoubtsOk(s) && Enabled(s, step, cfg) && Tame(step)
    requires NoLeaks(s.hits, b)
    ensures NoLeaks(HitsAfter(s, step, cfg), b)
  {
    var hits' := HitsAfter(s, step, cfg);
    forall i | 0 <= i < |hits'| && hits'[i].boss == b ensures hits'[i].phase != Leaked {
      if i < |s.hits| { HitEvolves(s, step, cfg, i); }
    }
  }

  lemma TameKeepsLoaded(s: Sys, step: Step, b: BossId, cfg: Writer.Config)
    requires b in s.cache && Enabled(s, step, cfg) && Tame(step)
    ensures b in CacheAfter(s, step, cfg)
  {}

  lemma TameKeepsPotential(s: Sys, step: Step, b: BossId, cfg: Writer.Config)
    requires HitsOk(s) && StoreOk(s) && CacheOk(s) && WriterOk(s, cfg) && ClientsOk(s) && DoubtsOk(s)
    requires b in s.db.bosses && b in s.cache && Enabled(s, step, cfg) && Tame(step)
    ensures b in CacheAfter(s, step, cfg) && b in DbAfter(s, step, cfg).bosses
    ensures DbAfter(s, step, cfg).bosses[b].maxHp == MaxHp(s, b)
    ensures Potential(Next(s, step, cfg), b) == Potential(s, b)
  {
    TameKeepsLoaded(s, step, b, cfg);
    RowsAdvance(s, step, cfg, b);
    OthersKeep(s, step, cfg, b);
  }

  lemma TameKeepsWorking(s: Sys, step: Step, cfg: Writer.Config)
    requires Working(s, cfg) && Enabled(s, step, cfg) && Tame(step)
    ensures Working(Next(s, step, cfg), cfg)
  {}

  lemma TameIsOnward(s: Sys, t: Sys, step: Step, b: BossId, cfg: Writer.Config)
    requires b in s.db.bosses && Onward(s, t, b, cfg) && Enabled(t, step, cfg) && Tame(step)
    ensures Onward(s, Next(t, step, cfg), b, cfg)
  {
    StepKeepsSound(t, step, cfg);
    TameKeepsPotential(t, step, b, cfg);
    TameKeepsWorking(t, step, cfg);
    if NoLeaks(t.hits, b) { TameLeaksNothing(t, step, b, cfg); }
  }

  // ---------------------------------------------------------------- continuations

  predicate AllTame(run: seq<Step>) {
    forall i :: 0 <= i < |run| ==> Tame(run[i])
  }

  /** A continuation of `s` by tame steps that leads to `t`. */
  ghost predicate Leads(s: Sys, run: seq<Step>, t: Sys, b: BossId, cfg: Writer.Config)
    requires b in s.db.bosses
  {
    && Legal(s, run, cfg) && After(s, run, cfg) == t
    && AllTame(run)
    && Onward(s, t, b, cfg)
  }

  lemma OneMoreTame(run: seq<Step>, step: Step)
    requires AllTame(run) && Tame(step)
    ensures AllTame(run + [step])
  {}

  lemma Extend(s: Sys, run: seq<Step>, t: Sys, b: BossId, cfg: Writer.Config, step: Step) returns (run': seq<Step>)
    requires b in s.db.bosses && Leads(s, run, t, b, cfg) && Enabled(t, step, cfg) && Tame(step)
    ensures Leads(s, run', Next(t, step, cfg), b, cfg)
  {
    run' := run + [step];
    OneMore(s, run, step, cfg);
    TameIsOnward(s, t, step, b, cfg);
    OneMoreTame(run, step);
  }

  /** Tame runs are calm. */
  lemma {:induction false} TameRunsAreCalm(s: Sys, run: seq<Step>, b: BossId, cfg: Writer.Config)
    requires Legal(s, run, cfg) && AllTame(run)
    ensures CalmRun(s, run, b, cfg)
    decreases |run|
  {
    if run != [] {
      TameRunsAreCalm(s, run[..|run| - 1], b, cfg);
      assert Tame(run[|run| - 1]);
    }
  }

  // ---------------------------------------------------------------- draining the writer

  /** The writer has nothing left to do. */
  predicate Idle(w: Writer.State) {
    w.queue == [] && forall k :: 0 <= k < |w.lanes| ==> w.lanes[k].batch == []
  }

  /** What draining does to the hits: the accepted ones are committed. */
  predicate Drained(hits: seq<Hit>, hits': seq<Hit>) {
    && |hits'| == |hits|
    && forall i :: 0 <= i < |hits| ==>
         hits'[i] == hits[i] || (hits[i].phase == Accepted && hits'[i] == hits[i].(phase := Committed))
  }

  lemma NothingAccepted(s: Sys, cfg: Writer.Config)
    requires WriterOk(s, cfg) && Idle(s.writer)
    ensures forall i :: 0 <= i < |s.hits| ==> s.hits[i].phase != Accepted
  {
    Writer.NothingHeld(s.writer.lanes);
    assert multiset(s.writer.done.Keys) == multiset(s.writer.accepted);
    forall i | i in s.writer.accepted ensures i in s.writer.done { assert i in multiset(s.writer.accepted); }
  }

  /** The next turn of a writer that has something to do. */
  lemma Turning(t: Sys, cfg: Writer.Config) returns (step: Step)
    requires Sound(t, cfg) && Working(t, cfg) && !Idle(t.writer)
    ensures Tame(step) && Enabled(t, step, cfg) && (step.Turn? || step.Flush?)
    ensures Writer.Work(WriterAfter(t, step, cfg)) < Writer.Work(t.writer)
    ensures Drained(t.hits, HitsAfter(t, step, cfg))
  {
    var w := t.writer;
    if k: nat :| k < |w.lanes| && w.lanes[k].mode == Writer.Flushing {
      BatchIsReady(t, k, cfg);
      MarkedHits(t.hits, BatchOf(t, k), Persist);
      Writer.MoveWorks(w, Writer.Flush(k, Writer.Persisted), cfg);
      return Flush(k, true, 0);
    }
    if w.queue != [] {
      Writer.MoveWorks(w, Writer.Receive(0), cfg);
      return Turn(Writer.Receive(0));
    }
    var k: nat :| k < |w.lanes| && w.lanes[k].batch != [];
    Writer.MoveWorks(w, Writer.Tick(k), cfg);
    return Turn(Writer.Tick(k));
  }

  lemma DrainedTwice(first: seq<Hit>, second: seq<Hit>, third: seq<Hit>)
    requires Drained(first, second) && Drained(second, third)
    ensures Drained(first, third)
  {}

  lemma DrainOnce(s: Sys, run: seq<Step>, t: Sys, b: BossId, cfg: Writer.Config) returns (run': seq<Step>, t': Sys)
    requires b in s.db.bosses && Leads(s, run, t, b, cfg) && !Idle(t.writer)
    ensures Leads(s, run', t', b, cfg) && Writer.Work(t'.writer) < Writer.Work(t.writer)
    ensures Drained(t.hits, t'.hits) && t'.cache == t.cache
  {
    var step := Turning(t, cfg);
    run' := Extend(s, run, t, b, cfg, step);
    t' := Next(t, step, cfg);
  }

  lemma {:induction false} Drain(s: Sys, run: seq<Step>, t: Sys, b: BossId, cfg: Writer.Config)
    returns (run': seq<Step>, t': Sys)
    requires b in s.db.bosses && Leads(s, run, t, b, cfg)
    ensures Leads(s, run', t', b, cfg) && Idle(t'.writer)
    ensures Drained(t.hits, t'.hits) && t'.cache == t.cache
    decreases Writer.Work(t.writer)
  {
    run', t' := run, t;
    if !Idle(t.writer) {
      var more, u := DrainOnce(s, run, t, b, cfg);
      run', t' := Drain(s, more, u, b, cfg);
      DrainedTwice(t.hits, u.hits, t'.hits);
    }
  }

  // ---------------------------------------------------------------- settling every hit

  function Afloat(hits: seq<Hit>): set<nat> {
    set i: nat | i < |hits| && Is(hits[i], InFlight)
  }

  lemma CommittingSinks(hits: seq<Hit>, hits': seq<Hit>, i: nat)
    requires Drained(hits, hits') && i < |hits| && hits[i].phase == Accepted && hits'[i].phase != Accepted
    ensures Afloat(hits') <= Afloat(hits) - {i}
  {}

  lemma UndoSinks(t: Sys, i: nat, cfg: Writer.Config)
    requires CanAct(t, i, UndoRuns)
    ensures Enabled(t, Act(i, UndoRuns), cfg)
    ensures Afloat(HitsAfter(t, Act(i, UndoRuns), cfg)) == Afloat(t.hits) - {i}
    ensures WriterAfter(t, Act(i, UndoRuns), cfg) == t.writer
  {}

  lemma HearingFloats(t: Sys, i: nat, cfg: Writer.Config)
    requires WriterOk(t, cfg) && CanAct(t, i, Hear) && t.hits[i].phase == Refused
    ensures Enabled(t, Act(i, Hear), cfg)
    ensures HitsAfter(t, Act(i, Hear), cfg) == t.hits[i := t.hits[i].(client := ToldFailed)]
    ensures Afloat(HitsAfter(t, Act(i, Hear), cfg)) == Afloat(t.hits)
    ensures WriterAfter(t, Act(i, Hear), cfg) == t.writer
  {}

  lemma SubmittingFloats(t: Sys, i: nat, cfg: Writer.Config)
    requires WriterOk(t, cfg) && Working(t, cfg) && Idle(t.writer) && i < |t.hits|
    requires t.hits[i].phase == Applied && t.hits[i].client == Waiting
    ensures Enabled(t, Act(i, Submit), cfg)
    ensures HitsAfter(t, Act(i, Submit), cfg) == t.hits[i := t.hits[i].(phase := Accepted)]
    ensures Afloat(HitsAfter(t, Act(i, Submit), cfg)) == Afloat(t.hits)
    ensures CacheAfter(t, Act(i, Submit), cfg) == t.cache
  {}

  /** Its undo runs. */
  lemma UndoOne(s: Sys, run: seq<Step>, t: Sys, b: BossId, cfg: Writer.Config, i: nat)
    returns (run': seq<Step>, t': Sys)
    requires b in s.db.bosses && Leads(s, run, t, b, cfg) && CanAct(t, i, UndoRuns)
    ensures Leads(s, run', t', b, cfg) && t'.writer == t.writer && Afloat(t'.hits) == Afloat(t.hits) - {i}
  {
    UndoSinks(t, i, cfg);
    run' := Extend(s, run, t, b, cfg, Act(i, UndoRuns));
    t' := Next(t, Act(i, UndoRuns), cfg);
  }

  /** A refused hit hears of it, if it has not, and is undone. */
  lemma RefuseOne(s: Sys, run: seq<Step>, t: Sys, b: BossId, cfg: Writer.Config, i: nat)
    returns (run': seq<Step>, t': Sys)
    requires b in s.db.bosses && Leads(s, run, t, b, cfg) && i < |t.hits| && t.hits[i].phase == Refused
    ensures Leads(s, run', t', b, cfg) && t'.writer == t.writer && Afloat(t'.hits) == Afloat(t.hits) - {i}
  {
    assert Tended(t.hits[i], i in t.writer.done);
    if t.hits[i].client == Waiting {
      HearingFloats(t, i, cfg);
      var heard := Extend(s, run, t, b, cfg, Act(i, Hear));
      var u := Next(t, Act(i, Hear), cfg);
      run', t' := UndoOne(s, heard, u, b, cfg, i);
    } else {
      run', t' := UndoOne(s, run, t, b, cfg, i);
    }
  }

  /** A hit not yet submitted is submitted and committed. */
  lemma CommitOne(s: Sys, run: seq<Step>, t: Sys, b: BossId, cfg: Writer.Config, i: nat)
    returns (run': seq<Step>, t': Sys)
    requires b in s.db.bosses && Leads(s, run, t, b, cfg) && Idle(t.writer)
    requires i < |t.hits| && t.hits[i].phase == Applied
    ensures Leads(s, run', t', b, cfg) && Idle(t'.writer)
    ensures t'.cache == t.cache && Afloat(t'.hits) <= Afloat(t.hits) - {i}
  {
    assert Tended(t.hits[i], i in t.writer.done);
    SubmittingFloats(t, i, cfg);
    var sent := Extend(s, run, t, b, cfg, Act(i, Submit));
    var u := Next(t, Act(i, Submit), cfg);
    run', t' := Drain(s, sent, u, b, cfg);
    NothingAccepted(t', cfg);
    CommittingSinks(u.hits, t'.hits, i);
  }

  lemma {:induction false} Subset(a: set<nat>, b: set<nat>)
    requires a <= b
    ensures |a| <= |b|
  {
    if a != {} {
      var x :| x in a;
      Subset(a - {x}, b - {x});
    }
  }

  lemma Fewer(less: set<nat>, more: set<nat>, i: nat)
    requires less <= more - {i} && i in more
    ensures |less| < |more|
  {
    Subset(less, more - {i});
  }

  lemma SettleOne(s: Sys, run: seq<Step>, t: Sys, b: BossId, cfg: Writer.Config, i: nat)
    returns (run': seq<Step>, t': Sys)
    requires b in s.db.bosses && Leads(s, run, t, b, cfg) && Idle(t.writer) && i in Afloat(t.hits)
    ensures Leads(s, run', t', b, cfg) && Idle(t'.writer) && |Afloat(t'.hits)| < |Afloat(t.hits)|
  {
    NothingAccepted(t, cfg);
    if t.hits[i].phase == Applied {
      run', t' := CommitOne(s, run, t, b, cfg, i);
    } else {
      run', t' := RefuseOne(s, run, t, b, cfg, i);
    }
    Fewer(Afloat(t'.hits), Afloat(t.hits), i);
  }

  lemma {:induction false} SettleAll(s: Sys, run: seq<Step>, t: Sys, b: BossId, cfg: Writer.Config)
    returns (run': seq<Step>, t': Sys)
    requires b in s.db.bosses && Leads(s, run, t, b, cfg) && Idle(t.writer)
    ensures Leads(s, run', t', b, cfg) && Idle(t'.writer) && Afloat(t'.hits) == {}
    decreases |Afloat(t.hits)|
  {
    run', t' := run, t;
    if Afloat(t.hits) != {} {
      var i: nat :| i in Afloat(t.hits);
      var more, u := SettleOne(s, run, t, b, cfg, i);
      run', t' := SettleAll(s, more, u, b, cfg);
    }
  }

  // ---------------------------------------------------------------- the potential is reached

  lemma {:induction false} SumOfNothing(hits: seq<Hit>, sc: Scope, cl: Class)
    requires forall i :: 0 <= i < |hits| ==> Weight(hits[i], sc, cl) == 0
    ensures Sum(hits, sc, cl) == 0
  {
    if hits != [] { SumOfNothing(hits[..|hits| - 1], sc, cl); }
  }

  /** The boss is dead and nothing of it is unsettled: what was potential is durable. */
  lemma AllDurable(s: Sys, t: Sys, b: BossId, cfg: Writer.Config)
    requires b in s.db.bosses && Onward(s, t, b, cfg) && NoLeaks(s.hits, b)
    requires Afloat(t.hits) == {} && t.cache[b].hp == 0
    ensures Total(t.db.bosses[b].totals) == MaxHp(s, b) + Potential(s, b)
  {
    forall i | 0 <= i < |t.hits| ensures Weight(t.hits[i], OfBoss(b), Unsettled) == 0 {
      assert i !in Afloat(t.hits);
    }
    SumOfNothing(t.hits, OfBoss(b), Unsettled);
    assert Sum(t.hits, OfBoss(b), Durably) == StoredIn(t.db, OfBoss(b));
  }

  /** The killing blow lands, and is the only hit afloat. */
  lemma BlowFloats(t: Sys, b: BossId, player: PlayerId, cfg: Writer.Config)
    requires b in t.cache && t.cache[b].hp > 0 && Afloat(t.hits) == {}
    ensures var blow := Attack(b, player, t.cache[b].hp, true);
            && Enabled(t, blow, cfg) && Tame(blow)
            && |HitsAfter(t, blow, cfg)| == |t.hits| + 1 && HitsAfter(t, blow, cfg)[|t.hits|].phase == Applied
            && b in CacheAfter(t, blow, cfg) && CacheAfter(t, blow, cfg)[b].hp == 0
            && Afloat(HitsAfter(t, blow, cfg)) <= {|t.hits|}
  {
    var blow := Attack(b, player, t.cache[b].hp, true);
    var hits' := HitsAfter(t, blow, cfg);
    assert hits' == t.hits + [NewHit(t, blow)];
    forall i | i in Afloat(hits') ensures i == |t.hits| { assert i < |t.hits| ==> i in Afloat(t.hits); }
  }

  /** The killing blow for a settled boss, committed. */
  lemma Kill(s: Sys, run: seq<Step>, t: Sys, b: BossId, player: PlayerId, cfg: Writer.Config)
    returns (run': seq<Step>, t': Sys)
    requires b in s.db.bosses && Leads(s, run, t, b, cfg) && Idle(t.writer) && Afloat(t.hits) == {}
    ensures Leads(s, run', t', b, cfg) && Afloat(t'.hits) == {} && b in t'.cache && t'.cache[b].hp == 0
  {
    assert Coherent(t.cache[b]);
    if t.cache[b].hp == 0 { return run, t; }
    var blow := Attack(b, player, t.cache[b].hp, true);
    BlowFloats(t, b, player, cfg);
    var more := Extend(s, run, t, b, cfg, blow);
    run', t' := CommitOne(s, more, Next(t, blow, cfg), b, cfg, |t.hits|);
  }

  /**
    The potential is reached: for a loaded boss without leaked hits and a working writer, some
    calm continuation makes exactly its HP plus its potential durable.
   */
  lemma PotentialIsReached(s: Sys, b: BossId, player: PlayerId, cfg: Writer.Config) returns (run: seq<Step>)
    requires Sound(s, cfg) && Working(s, cfg) && b in s.db.bosses && b in s.cache && NoLeaks(s.hits, b)
    ensures Legal(s, run, cfg) && CalmRun(s, run, b, cfg)
    ensures b in After(s, run, cfg).db.bosses
    ensures Total(After(s, run, cfg).db.bosses[b].totals) == MaxHp(s, b) + Potential(s, b)
  {
    var t;
    run, t := Drain(s, [], s, b, cfg);
    run, t := SettleAll(s, run, t, b, cfg);
    run, t := Kill(s, run, t, b, player, cfg);
    AllDurable(s, t, b, cfg);
    TameRunsAreCalm(s, run, b, cfg);
  }

  // ---------------------------------------------------------------- rebuilds

  lemma RebuildForgetsLeaks(s: Sys, r: nat, cfg: Writer.Config)
    requires Enabled(s, Overwrite(r), cfg)
    ensures NoLeaks(HitsAfter(s, Overwrite(r), cfg), s.rebuilds[r].boss)
  {}

  /** A rebuild that is not quiet has a race, and leaves it as the potential. */
  lemma LoudRebuildRaises(s: Sys, r: nat, cfg: Writer.Config)
    requires HitsOk(s) && StoreOk(s) && CacheOk(s) && RebuildsOk(s) && Enabled(s, Overwrite(r), cfg)
    requires Exact(s, s.rebuilds[r].boss) && !Quiet(s, r)
    ensures Race(s, r) > 0
    ensures Potential(Next(s, Overwrite(r), cfg), s.rebuilds[r].boss) == Race(s, r)
  {
    OverwritePotential(s, r, cfg, s.rebuilds[r].boss);
    SumClasses(s.hits, OfBoss(s.rebuilds[r].boss));
    assert SnapshotOk(s.rebuilds[r], s.db);
  }

  /**
    After a rebuild of an exact boss that is not quiet, some calm continuation makes more than its
    HP durable, by exactly the race of the rebuild.
   */
  lemma LoudRebuildOvershoots(s: Sys, r: nat, player: PlayerId, cfg: Writer.Config) returns (run: seq<Step>)
    requires Sound(s, cfg) && Working(s, cfg) && Enabled(s, Overwrite(r), cfg) && Exact(s, s.rebuilds[r].boss)
    requires !Quiet(s, r)
    ensures var b, t := s.rebuilds[r].boss, Next(s, Overwrite(r), cfg);
            && Legal(t, run, cfg) && CalmRun(t, run, b, cfg)
            && b in After(t, run, cfg).db.bosses
            && Total(After(t, run, cfg).db.bosses[b].totals) == MaxHp(s, b) + Race(s, r) > MaxHp(s, b)
  {
    var b, t := s.rebuilds[r].boss, Next(s, Overwrite(r), cfg);
    StepKeepsSound(s, Overwrite(r), cfg);
    RebuildForgetsLeaks(s, r, cfg);
    LoudRebuildRaises(s, r, cfg);
    run := PotentialIsReached(t, b, player, cfg);
  }

  /** Every calm continuation stays within the boss's HP. */
  ghost predicate Harmless(t: Sys, b: BossId, maxHp: int, cfg: Writer.Config) {
    forall run: seq<Step> :: Legal(t, run, cfg) && CalmRun(t, run, b, cfg) && b in After(t, run, cfg).db.bosses ==>
      Total(After(t, run, cfg).db.bosses[b].totals) <= maxHp
  }

  lemma ExactStaysWithin(s: Sys, run: seq<Step>, cfg: Writer.Config, b: BossId)
    requires Sound(s, cfg) && Exact(s, b) && Legal(s, run, cfg) && CalmRun(s, run, b, cfg)
    ensures b in After(s, run, cfg).db.bosses && Total(After(s, run, cfg).db.bosses[b].totals) <= MaxHp(s, b)
  {
    CalmRunsStayExact(s, run, cfg, b);
    EveryRunIsSound(s, run, cfg);
    RowsOnlyAdvance(s, run, cfg, b);
    var t := After(s, run, cfg);
    assert Sum(t.hits, OfBoss(b), Durably) == StoredIn(t.db, OfBoss(b));
    SumClasses(t.hits, OfBoss(b));
  }

  /** With a working writer, a rebuild of an exact boss is harmless if and only if it is quiet. */
  lemma HarmlessIffQuiet(s: Sys, r: nat, cfg: Writer.Config)
    requires Sound(s, cfg) && Working(s, cfg) && Enabled(s, Overwrite(r), cfg) && Exact(s, s.rebuilds[r].boss)
    ensures var b := s.rebuilds[r].boss;
            Harmless(Next(s, Overwrite(r), cfg), b, MaxHp(s, b), cfg) <==> Quiet(s, r)
  {
    var b, t := s.rebuilds[r].boss, Next(s, Overwrite(r), cfg);
    if Quiet(s, r) {
      StepKeepsSound(s, Overwrite(r), cfg);
      StepKeepsExact(s, Overwrite(r), cfg, b);
      forall run: seq<Step> | Legal(t, run, cfg) && CalmRun(t, run, b, cfg)
        ensures b in After(t, run, cfg).db.bosses && Total(After(t, run, cfg).db.bosses[b].totals) <= MaxHp(s, b)
      {
        ExactStaysWithin(t, run, cfg, b);
      }
    } else {
      var run := LoudRebuildOvershoots(s, r, "", cfg);
    }
  }
}
