/**
  Conservation of damage across both stores: the exact law where rebuilds are quiet, the exact
  condition on a rebuild under which it survives, and the bound that holds in every run.
 */
module Conservation {
  import opened Ids
  import opened Totals
  import opened Durable
  import opened Redis
  import opened Ledger
  import opened Protocol
  import opened Soundness
  import Writer

  // ---------------------------------------------------------------- the quantities

  /** The damage a loaded boss displays: HP missing, or one player's score. */
  function Shown(s: Sys, sc: Scope): int
    requires sc.Boss() in s.cache && sc.Boss() in s.db.bosses
  {
    match sc
    case OfBoss(b) => s.db.bosses[b].maxHp - s.cache[b].hp
    case OfPlayer(k) => Get(s.cache[k.boss].board, k.player)
  }

  function MaxHp(s: Sys, b: BossId): int
    requires b in s.db.bosses
  {
    s.db.bosses[b].maxHp
  }

  /** What the cache displays is what is durable plus what is still unsettled, in flight or leaked. */
  ghost predicate Conserves(s: Sys, sc: Scope)
    requires sc.Boss() in s.db.bosses
  {
    sc.Boss() in s.cache ==> Shown(s, sc) == Sum(s.hits, sc, Durably) + Sum(s.hits, sc, Unsettled)
  }

  /** The exact law of one boss, for its HP and for every player's score. */
  ghost predicate Exact(s: Sys, b: BossId) {
    && b in s.db.bosses
    && Sum(s.hits, OfBoss(b), Durably) + Sum(s.hits, OfBoss(b), InFlight) <= MaxHp(s, b)
    && (forall sc: Scope :: sc.Boss() == b ==> Conserves(s, sc))
  }

  /** Nothing of the boss is in flight, and nothing was committed since the rebuild's first read. */
  ghost predicate Quiet(s: Sys, r: nat)
    requires r in s.rebuilds && s.rebuilds[r].boss in s.db.bosses
  {
    var w := s.rebuilds[r];
    Sum(s.hits, OfBoss(w.boss), InFlight) == 0 && w.stored == Total(s.db.bosses[w.boss].totals)
  }

  predicate Rebuilds(s: Sys, step: Step, b: BossId) {
    step.Overwrite? && step.id in s.rebuilds && s.rebuilds[step.id].boss == b
  }

  /** Rebuilds of `b` are quiet, and none of its hits is committed after a reported failure. */
  ghost predicate Calm(s: Sys, step: Step, b: BossId, cfg: Writer.Config)
    requires Enabled(s, step, cfg)
  {
    && (Rebuilds(s, step, b) && b in s.db.bosses ==> Quiet(s, step.id))
    && (step.Land? ==> !Touches(EventsOf(s.hits, s.doubts[step.doubt]), b))
  }

  ghost predicate CalmRun(s: Sys, run: seq<Step>, b: BossId, cfg: Writer.Config)
    requires Legal(s, run, cfg)
    decreases |run|
  {
    run == [] ||
    (CalmRun(s, run[..|run| - 1], b, cfg) && Calm(After(s, run[..|run| - 1], cfg), run[|run| - 1], b, cfg))
  }

  // ---------------------------------------------------------------- one step

  /** A hit that lands adds what it took to what the cache displays; any other adds nothing. */
  lemma AttackShows(s: Sys, step: Step, cfg: Writer.Config, sc: Scope)
    requires CacheOk(s) && step.Attack? && sc.Boss() in s.db.bosses && sc.Boss() in s.cache
    ensures sc.Boss() in CacheAfter(s, step, cfg)
    ensures Shown(Next(s, step, cfg), sc) ==
            Shown(s, sc) + if Lands(s, step) then Share(EventOf(NewHit(s, step)), sc) else 0
  {
    if step.boss in s.cache { StrikeConserves(s.cache[step.boss], step.player, step.amount); }
  }

  lemma AttackConserves(s: Sys, step: Step, cfg: Writer.Config, sc: Scope)
    requires CacheOk(s) && step.Attack? && sc.Boss() in s.db.bosses && Conserves(s, sc)
    ensures Conserves(Next(s, step, cfg), sc)
  {
    if Lands(s, step) { NewHitSums(s.hits, NewHit(s, step), sc); }
    if sc.Boss() in s.cache { AttackShows(s, step, cfg, sc); }
  }

  /** An undo takes what the hit had added off what the cache displays. */
  lemma UndoShows(s: Sys, i: nat, cfg: Writer.Config, sc: Scope)
    requires CacheOk(s) && CanAct(s, i, UndoRuns) && s.hits[i].applied > 0
    requires sc.Boss() in s.db.bosses && sc.Boss() in s.cache
    requires Shown(s, sc) >= Share(EventOf(s.hits[i]), sc)
    ensures sc.Boss() in CacheAfter(s, Act(i, UndoRuns), cfg)
    ensures Shown(Next(s, Act(i, UndoRuns), cfg), sc) == Shown(s, sc) - Share(EventOf(s.hits[i]), sc)
  {
    var h := s.hits[i];
    if h.boss in s.cache { UndoConserves(s.cache[h.boss], h.player, h.applied); }
  }

  lemma ActConserves(s: Sys, i: nat, deed: Deed, cfg: Writer.Config, sc: Scope)
    requires HitsOk(s) && CacheOk(s) && CanAct(s, i, deed) && sc.Boss() in s.db.bosses && Conserves(s, sc)
    ensures Conserves(Next(s, Act(i, deed), cfg), sc)
  {
    ActSums(s, i, deed, cfg, sc);
    if deed == UndoRuns && sc.Boss() in s.cache {
      SumCovers(s.hits, i, sc, Unsettled);
      SumCovers(s.hits, i, sc, Durably);
      UndoShows(s, i, cfg, sc);
    }
  }

  lemma FlushConserves(s: Sys, step: Step, cfg: Writer.Config, sc: Scope)
    requires HitsOk(s) && WriterOk(s, cfg) && ClientsOk(s) && step.Flush? && Enabled(s, step, cfg)
    requires sc.Boss() in s.db.bosses && Conserves(s, sc)
    ensures Conserves(Next(s, step, cfg), sc)
  {
    var batch, m := BatchOf(s, step.lane), MarkOf(step.persists);
    BatchIsReady(s, step.lane, cfg);
    BatchDurably(s.hits, batch, m, sc);
    BatchUnsettled(s.hits, batch, m, sc);
  }

  lemma LandConserves(s: Sys, step: Step, cfg: Writer.Config, sc: Scope)
    requires HitsOk(s) && DoubtsOk(s) && step.Land? && Enabled(s, step, cfg) && Calm(s, step, sc.Boss(), cfg)
    requires sc.Boss() in s.db.bosses && Conserves(s, sc)
    ensures Conserves(Next(s, step, cfg), sc)
  {
    DoubtIsReady(s, step.doubt);
    LandSums(s.hits, s.doubts[step.doubt], sc);
    SumUntouched(EventsOf(s.hits, s.doubts[step.doubt]), sc);
  }

  /** A quiet rebuild displays exactly what is durable. */
  lemma QuietRebuildReads(s: Sys, r: nat, cfg: Writer.Config)
    requires StoreOk(s) && RebuildsOk(s) && Enabled(s, Overwrite(r), cfg) && s.rebuilds[r].boss in s.db.bosses
    requires Quiet(s, r)
    ensures var w := s.rebuilds[r];
            w.rec == RecoveryOf(s.db.bosses[w.boss]) && w.totals == s.db.bosses[w.boss].totals
  {
    var w := s.rebuilds[r];
    assert SnapshotOk(w, s.db);
    TotalRigid(w.totals, s.db.bosses[w.boss].totals);
    RecoveryIsCoherent(s.db.bosses[w.boss]);
  }

  lemma OverwriteSums(s: Sys, r: nat, cfg: Writer.Config, sc: Scope)
    requires Enabled(s, Overwrite(r), cfg)
    ensures var hits' := HitsAfter(s, Overwrite(r), cfg);
            && Sum(hits', sc, Durably) == Sum(s.hits, sc, Durably)
            && Sum(hits', sc, InFlight) == Sum(s.hits, sc, InFlight)
            && Sum(hits', sc, Unsettled) ==
               Sum(s.hits, sc, if sc.Boss() == s.rebuilds[r].boss then InFlight else Unsettled)
  {
    SweepKeepsStored(s.hits, Ledger.Rebuild(s.rebuilds[r].boss), sc, Durably);
    RebuildSums(s.hits, s.rebuilds[r].boss, sc);
  }

  lemma QuietOverwriteConserves(s: Sys, r: nat, cfg: Writer.Config, sc: Scope)
    requires HitsOk(s) && StoreOk(s) && RebuildsOk(s) && Enabled(s, Overwrite(r), cfg)
    requires sc.Boss() == s.rebuilds[r].boss
    requires sc.Boss() in s.db.bosses && Quiet(s, r)
    requires Total(s.db.bosses[sc.Boss()].totals) <= MaxHp(s, sc.Boss())
    ensures Conserves(Next(s, Overwrite(r), cfg), sc)
  {
    QuietRebuildReads(s, r, cfg);
    OverwriteSums(s, r, cfg, sc);
    if sc.OfPlayer? { SumScopes(s.hits, sc.key, InFlight); }
  }

  lemma CrashConserves(s: Sys, cfg: Writer.Config, sc: Scope)
    requires sc.Boss() in s.db.bosses && Conserves(s, sc)
    ensures Conserves(Next(s, Step.Crash, cfg), sc)
  {
    CrashSums(s.hits, sc);
    SweepKeepsStored(s.hits, Ledger.Crash, sc, Durably);
  }

  lemma OverwriteConserves(s: Sys, r: nat, cfg: Writer.Config, sc: Scope)
    requires HitsOk(s) && StoreOk(s) && RebuildsOk(s) && Enabled(s, Overwrite(r), cfg) && Exact(s, sc.Boss())
    requires s.rebuilds[r].boss == sc.Boss() ==> Quiet(s, r)
    ensures Conserves(Next(s, Overwrite(r), cfg), sc)
  {
    assert Conserves(s, sc);
    if s.rebuilds[r].boss == sc.Boss() {
      assert Sum(s.hits, OfBoss(sc.Boss()), Durably) == StoredIn(s.db, OfBoss(sc.Boss()));
      SumClasses(s.hits, OfBoss(sc.Boss()));
      QuietOverwriteConserves(s, r, cfg, sc);
    } else {
      OverwriteSums(s, r, cfg, sc);
    }
  }

  /** Steps that settle no hit and write no entry. */
  predicate Aside(step: Step) {
    step.Turn? || step.Expire? || step.ReadHp? || step.ReadTotals? || step.Claim?
  }

  lemma AsideConserves(s: Sys, step: Step, cfg: Writer.Config, sc: Scope)
    requires Enabled(s, step, cfg) && Aside(step) && sc.Boss() in s.db.bosses && Conserves(s, sc)
    ensures sc.Boss() in DbAfter(s, step, cfg).bosses && Conserves(Next(s, step, cfg), sc)
  {}

  /** A hit on its own, or the crash of all. */
  lemma HitStepConserves(s: Sys, step: Step, cfg: Writer.Config, sc: Scope)
    requires HitsOk(s) && CacheOk(s) && Enabled(s, step, cfg) && (step.Attack? || step.Act? || step.Crash?)
    requires sc.Boss() in s.db.bosses && Conserves(s, sc)
    ensures Conserves(Next(s, step, cfg), sc)
  {
    match step
    case Attack(_, _, _, _) => AttackConserves(s, step, cfg, sc);
    case Act(i, deed) => ActConserves(s, i, deed, cfg, sc);
    case _ => CrashConserves(s, cfg, sc);
  }

  /** The end of a batch, or its late commit. */
  lemma BatchStepConserves(s: Sys, step: Step, cfg: Writer.Config, sc: Scope)
    requires HitsOk(s) && WriterOk(s, cfg) && ClientsOk(s) && DoubtsOk(s) && Enabled(s, step, cfg)
    requires (step.Flush? || step.Land?) && Calm(s, step, sc.Boss(), cfg)
    requires sc.Boss() in s.db.bosses && Conserves(s, sc)
    ensures Conserves(Next(s, step, cfg), sc)
  {
    if step.Flush? { FlushConserves(s, step, cfg, sc); } else { LandConserves(s, step, cfg, sc); }
  }

  lemma StepConserves(s: Sys, step: Step, cfg: Writer.Config, sc: Scope)
    requires Sound(s, cfg) && Enabled(s, step, cfg) && Exact(s, sc.Boss()) && Calm(s, step, sc.Boss(), cfg)
    ensures sc.Boss() in DbAfter(s, step, cfg).bosses && Conserves(Next(s, step, cfg), sc)
  {
    assert Conserves(s, sc);
    if step.Attack? || step.Act? || step.Crash? {
      HitStepConserves(s, step, cfg, sc);
    } else if step.Flush? || step.Land? {
      BatchStepConserves(s, step, cfg, sc);
    } else if step.Overwrite? {
      OverwriteConserves(s, step.id, cfg, sc);
    } else {
      AsideConserves(s, step, cfg, sc);
    }
  }

  ghost function Outlay(hits: seq<Hit>, b: BossId): int {
    Sum(hits, OfBoss(b), Durably) + Sum(hits, OfBoss(b), InFlight)
  }

  lemma AttackRoom(s: Sys, step: Step, cfg: Writer.Config, b: BossId)
    requires HitsOk(s) && CacheOk(s) && step.Attack? && Exact(s, b)
    ensures Outlay(HitsAfter(s, step, cfg), b) <= MaxHp(s, b)
  {
    assert Conserves(s, OfBoss(b));
    SumClasses(s.hits, OfBoss(b));
    if Lands(s, step) {
      StrikeConserves(s.cache[step.boss], step.player, step.amount);
      NewHitSums(s.hits, NewHit(s, step), OfBoss(b));
    }
  }

  lemma FlushRoom(s: Sys, step: Step, cfg: Writer.Config, b: BossId)
    requires HitsOk(s) && WriterOk(s, cfg) && ClientsOk(s) && step.Flush? && Enabled(s, step, cfg)
    ensures Outlay(HitsAfter(s, step, cfg), b) <= Outlay(s.hits, b)
  {
    var batch, m := BatchOf(s, step.lane), MarkOf(step.persists);
    BatchIsReady(s, step.lane, cfg);
    BatchDurably(s.hits, batch, m, OfBoss(b));
    BatchInFlight(s.hits, batch, m, OfBoss(b));
  }

  lemma LandRoom(s: Sys, step: Step, cfg: Writer.Config, b: BossId)
    requires HitsOk(s) && DoubtsOk(s) && step.Land? && Enabled(s, step, cfg) && Calm(s, step, b, cfg)
    ensures Outlay(HitsAfter(s, step, cfg), b) == Outlay(s.hits, b)
  {
    DoubtIsReady(s, step.doubt);
    LandSums(s.hits, s.doubts[step.doubt], OfBoss(b));
    SumUntouched(EventsOf(s.hits, s.doubts[step.doubt]), OfBoss(b));
  }

  lemma CrashRoom(hits: seq<Hit>, b: BossId)
    requires Positive(hits)
    ensures Outlay(SweepAll(hits, Ledger.Crash), b) <= Outlay(hits, b)
  {
    SumClasses(hits, OfBoss(b));
    CrashSums(hits, OfBoss(b));
    SweepKeepsStored(hits, Ledger.Crash, OfBoss(b), Durably);
  }

  /** Durable plus in-flight damage never exceeds the boss's HP. */
  lemma StepKeepsRoom(s: Sys, step: Step, cfg: Writer.Config, b: BossId)
    requires Sound(s, cfg) && Enabled(s, step, cfg) && Exact(s, b) && Calm(s, step, b, cfg)
    ensures b in DbAfter(s, step, cfg).bosses && MaxHp(Next(s, step, cfg), b) == MaxHp(s, b)
    ensures Outlay(HitsAfter(s, step, cfg), b) <= MaxHp(s, b)
  {
    RowsAdvance(s, step, cfg, b);
    match step
    case Attack(_, _, _, _) => AttackRoom(s, step, cfg, b);
    case Act(i, deed) =>
      ActSums(s, i, deed, cfg, OfBoss(b));
      assert s.hits[i].applied > 0;
    case Flush(_, _, _) => FlushRoom(s, step, cfg, b);
    case Land(_, _) => LandRoom(s, step, cfg, b);
    case Overwrite(r) => OverwriteSums(s, r, cfg, OfBoss(b));
    case Crash => CrashRoom(s.hits, b);
    case _ =>
  }

  lemma StepKeepsExact(s: Sys, step: Step, cfg: Writer.Config, b: BossId)
    requires Sound(s, cfg) && Enabled(s, step, cfg) && Exact(s, b) && Calm(s, step, b, cfg)
    ensures Exact(Next(s, step, cfg), b)
  {
    StepKeepsRoom(s, step, cfg, b);
    forall sc: Scope | sc.Boss() == b ensures Conserves(Next(s, step, cfg), sc) {
      StepConserves(s, step, cfg, sc);
    }
  }

  // ---------------------------------------------------------------- exact conservation

  lemma {:induction false} InitialIsExact(s: Sys, b: BossId)
    requires Initial(s) && b in s.db.bosses
    ensures Exact(s, b)
  {}

  lemma {:induction false} CalmRunsStayExact(s: Sys, run: seq<Step>, cfg: Writer.Config, b: BossId)
    requires Sound(s, cfg) && Exact(s, b) && Legal(s, run, cfg) && CalmRun(s, run, b, cfg)
    ensures Exact(After(s, run, cfg), b)
    decreases |run|
  {
    if run != [] {
      var init := run[..|run| - 1];
      CalmRunsStayExact(s, init, cfg, b);
      EveryRunIsSound(s, init, cfg);
      StepKeepsExact(After(s, init, cfg), run[|run| - 1], cfg, b);
    }
  }

  /**
    Exact conservation: in every run whose rebuilds of the boss are quiet and in which no reported
    failure of its hits commits after all, crashes and boot rebuilds included, a loaded boss satisfies
    hp + durable + in flight + leaked = max_hp, and every leaderboard score is the player's
    contribution plus that player's hits in flight or leaked.
   */
  lemma ExactConservation(s: Sys, run: seq<Step>, cfg: Writer.Config, b: BossId)
    requires Initial(s) && cfg.maxBatch > 0 && b in s.db.bosses
    requires Legal(s, run, cfg) && CalmRun(s, run, b, cfg)
    ensures var t := After(s, run, cfg);
            && b in t.db.bosses
            && (b in t.cache ==>
                  && t.cache[b].hp + Total(t.db.bosses[b].totals) + Sum(t.hits, OfBoss(b), Unsettled)
                     == t.db.bosses[b].maxHp
                  && forall p :: Get(t.cache[b].board, p) ==
                       Get(t.db.bosses[b].totals, p) + Sum(t.hits, OfPlayer(Key(b, p)), Unsettled))
  {
    InitialIsSound(s, cfg);
    InitialIsExact(s, b);
    EveryRunIsSound(s, run, cfg);
    CalmRunsStayExact(s, run, cfg, b);
    var t := After(s, run, cfg);
    assert Conserves(t, OfBoss(b));
    assert Matches(t);
    assert Sum(t.hits, OfBoss(b), Durably) == StoredIn(t.db, OfBoss(b));
    forall p | b in t.cache
      ensures Get(t.cache[b].board, p) ==
              Get(t.db.bosses[b].totals, p) + Sum(t.hits, OfPlayer(Key(b, p)), Unsettled)
    {
      assert Conserves(t, OfPlayer(Key(b, p)));
      assert Sum(t.hits, OfPlayer(Key(b, p)), Durably) == StoredIn(t.db, OfPlayer(Key(b, p)));
    }
  }

  /** A rebuild that is not quiet shows too much HP for the damage that is settled or in flight. */
  lemma LawNeedsQuiet(s: Sys, r: nat, cfg: Writer.Config)
    requires HitsOk(s) && StoreOk(s) && RebuildsOk(s) && Enabled(s, Overwrite(r), cfg)
    requires s.rebuilds[r].boss in s.db.bosses && Conserves(Next(s, Overwrite(r), cfg), OfBoss(s.rebuilds[r].boss))
    requires Sum(s.hits, OfBoss(s.rebuilds[r].boss), Durably) <= MaxHp(s, s.rebuilds[r].boss)
    ensures Quiet(s, r)
  {
    var b := s.rebuilds[r].boss;
    assert SnapshotOk(s.rebuilds[r], s.db);
    assert Sum(s.hits, OfBoss(b), Durably) == StoredIn(s.db, OfBoss(b));
    OverwriteSums(s, r, cfg, OfBoss(b));
    SumClasses(s.hits, OfBoss(b));
  }

  /** A rebuild keeps the law exactly when it is quiet: the condition above cannot be weakened. */
  lemma RebuildKeepsLawIffQuiet(s: Sys, r: nat, cfg: Writer.Config)
    requires Sound(s, cfg) && Enabled(s, Overwrite(r), cfg) && Exact(s, s.rebuilds[r].boss)
    ensures Exact(Next(s, Overwrite(r), cfg), s.rebuilds[r].boss) <==> Quiet(s, r)
  {
    var b := s.rebuilds[r].boss;
    if Quiet(s, r) {
      StepKeepsExact(s, Overwrite(r), cfg, b);
    } else if Exact(Next(s, Overwrite(r), cfg), b) {
      SumClasses(s.hits, OfBoss(b));
      LawNeedsQuiet(s, r, cfg);
    }
  }

  lemma LandDrifts(s: Sys, j: nat, now: nat, cfg: Writer.Config, b: BossId)
    requires HitsOk(s) && DoubtsOk(s) && Enabled(s, Land(j, now), cfg)
    requires Touches(EventsOf(s.hits, s.doubts[j]), b)
    ensures var hits' := HitsAfter(s, Land(j, now), cfg);
            && Sum(hits', OfBoss(b), Durably) > Sum(s.hits, OfBoss(b), Durably)
            && Sum(hits', OfBoss(b), Unsettled) == Sum(s.hits, OfBoss(b), Unsettled)
  {
    var events := EventsOf(s.hits, s.doubts[j]);
    DoubtIsReady(s, j);
    LandSums(s.hits, s.doubts[j], OfBoss(b));
    var e :| e in events && e.boss == b;
    SumAtLeast(events, e, OfBoss(b));
  }

  /**
    A transaction that commits after its failure was reported breaks the law of a loaded boss
    exactly when it had a hit on it: the hit is durable, but its undo takes it off the cache.
   */
  lemma LandKeepsLawIffUntouched(s: Sys, j: nat, now: nat, cfg: Writer.Config, b: BossId)
    requires Sound(s, cfg) && Enabled(s, Land(j, now), cfg) && Exact(s, b) && b in s.cache
    ensures Exact(Next(s, Land(j, now), cfg), b) <==> !Touches(EventsOf(s.hits, s.doubts[j]), b)
  {
    var s' := Next(s, Land(j, now), cfg);
    if !Touches(EventsOf(s.hits, s.doubts[j]), b) {
      StepKeepsExact(s, Land(j, now), cfg, b);
    } else {
      RowsAdvance(s, Land(j, now), cfg, b);
      LandDrifts(s, j, now, cfg, b);
      assert Conserves(s, OfBoss(b));
      assert Exact(s', b) ==> Conserves(s', OfBoss(b));
    }
  }

  // ---------------------------------------------------------------- the durable view

  ghost function DurableView(s: Sys, b: BossId): Entry
    requires b in s.db.bosses
  {
    Entry(s.db.bosses[b].hp, s.db.bosses[b].totals, s.db.bosses[b].state)
  }

  lemma SameTable(m: map<PlayerId, int>, n: map<PlayerId, int>)
    requires forall p :: p in m ==> m[p] > 0
    requires forall p :: p in n ==> n[p] > 0
    requires forall p :: Get(m, p) == Get(n, p)
    ensures m == n
  {
    forall p
      ensures p in m <==> p in n
      ensures p in m ==> m[p] == n[p]
    {
      assert Get(m, p) == Get(n, p);
    }
  }

  /**
    No zombie boss: under the exact law, the loaded boss is the durable one (HP, state and every
    total) exactly when nothing is in flight and every refused hit was undone.
   */
  lemma NoZombie(s: Sys, b: BossId, cfg: Writer.Config)
    requires Sound(s, cfg) && Exact(s, b) && b in s.cache
    ensures s.cache[b] == DurableView(s, b) <==> Sum(s.hits, OfBoss(b), Unsettled) == 0
  {
    var e, v := s.cache[b], DurableView(s, b);
    assert Conserves(s, OfBoss(b));
    assert Sum(s.hits, OfBoss(b), Durably) == StoredIn(s.db, OfBoss(b));
    SumClasses(s.hits, OfBoss(b));
    if Sum(s.hits, OfBoss(b), Unsettled) == 0 {
      forall p ensures Get(e.board, p) == Get(v.board, p) {
        assert Conserves(s, OfPlayer(Key(b, p)));
        SumScopes(s.hits, Key(b, p), Unsettled);
        assert Sum(s.hits, OfPlayer(Key(b, p)), Durably) == StoredIn(s.db, OfPlayer(Key(b, p)));
      }
      SameTable(e.board, v.board);
    }
  }

  /**
    Self-healing: from any drifted state, one quiet rebuild makes the cache the durable view. The
    exact law holds from there exactly when the durable damage did not overshoot before.
   */
  lemma QuietRebuildHeals(s: Sys, r: nat, cfg: Writer.Config)
    requires Sound(s, cfg) && Enabled(s, Overwrite(r), cfg)
    requires s.rebuilds[r].boss in s.db.bosses && Quiet(s, r)
    ensures var b, s' := s.rebuilds[r].boss, Next(s, Overwrite(r), cfg);
            && b in s'.cache && s'.cache[b] == DurableView(s', b)
            && (Exact(s', b) <==> Total(s.db.bosses[b].totals) <= MaxHp(s, b))
  {
    var b, s' := s.rebuilds[r].boss, Next(s, Overwrite(r), cfg);
    QuietRebuildReads(s, r, cfg);
    OverwriteSums(s, r, cfg, OfBoss(b));
    assert Sum(s.hits, OfBoss(b), Durably) == StoredIn(s.db, OfBoss(b));
    if Total(s.db.bosses[b].totals) <= MaxHp(s, b) {
      forall sc: Scope | sc.Boss() == b ensures Conserves(s', sc) {
        QuietOverwriteConserves(s, r, cfg, sc);
      }
    }
  }

  /** After a crash nothing is in flight, for any boss. */
  lemma CrashLeavesNothingInFlight(s: Sys, cfg: Writer.Config, b: BossId)
    ensures Sum(Next(s, Step.Crash, cfg).hits, OfBoss(b), InFlight) == 0
  {
    CrashSums(s.hits, OfBoss(b));
  }

  /** Reading and overwriting with nothing in flight, as at boot, is a quiet rebuild. */
  lemma RebuildAtRestHeals(s: Sys, r: nat, b: BossId, cfg: Writer.Config)
    requires Sound(s, cfg) && b in s.db.bosses && r !in s.rebuilds
    requires Sum(s.hits, OfBoss(b), InFlight) == 0
    ensures var s1 := Next(s, ReadHp(r, b), cfg);
            && Enabled(s1, ReadTotals(r), cfg)
            && var s2 := Next(s1, ReadTotals(r), cfg);
               && Enabled(s2, Overwrite(r), cfg)
               && Quiet(s2, r)
               && var s3 := Next(s2, Overwrite(r), cfg);
                  && b in s3.cache && s3.cache[b] == DurableView(s3, b)
                  && (Exact(s3, b) <==> Total(s.db.bosses[b].totals) <= MaxHp(s, b))
  {
    var s1 := Next(s, ReadHp(r, b), cfg);
    StepKeepsSound(s, ReadHp(r, b), cfg);
    var s2 := Next(s1, ReadTotals(r), cfg);
    StepKeepsSound(s1, ReadTotals(r), cfg);
    QuietRebuildHeals(s2, r, cfg);
  }

  // ---------------------------------------------------------------- bounded overshoot

  /**
    How far the damage that can still become durable may exceed the boss's HP: durable and in
    flight, plus, while the boss is loaded, its HP and what leaked.
   */
  function Potential(s: Sys, b: BossId): int
    requires b in s.db.bosses
  {
    Sum(s.hits, OfBoss(b), Durably) +
    (if b in s.cache then s.cache[b].hp + Sum(s.hits, OfBoss(b), Unsettled) else Sum(s.hits, OfBoss(b), InFlight)) -
    MaxHp(s, b)
  }

  /** In flight now, plus committed since the rebuild's first read. */
  ghost function Race(s: Sys, r: nat): int
    requires r in s.rebuilds && s.rebuilds[r].boss in s.db.bosses
  {
    var w := s.rebuilds[r];
    Sum(s.hits, OfBoss(w.boss), InFlight) + Total(s.db.bosses[w.boss].totals) - w.stored
  }

  lemma FlushPotential(s: Sys, step: Step, cfg: Writer.Config, b: BossId)
    requires HitsOk(s) && WriterOk(s, cfg) && ClientsOk(s) && step.Flush? && Enabled(s, step, cfg) && b in s.db.bosses
    ensures b in DbAfter(s, step, cfg).bosses && Potential(Next(s, step, cfg), b) <= Potential(s, b)
    ensures b in s.cache ==> Potential(Next(s, step, cfg), b) == Potential(s, b)
  {
    var batch, m := BatchOf(s, step.lane), MarkOf(step.persists);
    BatchIsReady(s, step.lane, cfg);
    BatchDurably(s.hits, batch, m, OfBoss(b));
    BatchUnsettled(s.hits, batch, m, OfBoss(b));
    BatchInFlight(s.hits, batch, m, OfBoss(b));
  }

  /** The damage to the boss that a late commit makes durable. */
  function Landed(s: Sys, step: Step, cfg: Writer.Config, b: BossId): int
    requires Enabled(s, step, cfg) && step.Land?
  {
    EventSum(EventsOf(s.hits, s.doubts[step.doubt]), OfBoss(b))
  }

  lemma LandPotential(s: Sys, step: Step, cfg: Writer.Config, b: BossId)
    requires HitsOk(s) && DoubtsOk(s) && step.Land? && Enabled(s, step, cfg) && b in s.db.bosses
    ensures var s' := Next(s, step, cfg);
            && b in s'.db.bosses
            && Sum(s'.hits, OfBoss(b), Unacked) == Sum(s.hits, OfBoss(b), Unacked) + Landed(s, step, cfg, b)
            && Potential(s', b) == Potential(s, b) + Landed(s, step, cfg, b)
  {
    DoubtIsReady(s, step.doubt);
    LandSums(s.hits, s.doubts[step.doubt], OfBoss(b));
  }

  /** What can still become durable without any more hits is part of the potential. */
  lemma OutlayIsPotential(s: Sys, b: BossId)
    requires HitsOk(s) && CacheOk(s) && b in s.db.bosses
    ensures Outlay(s.hits, b) - MaxHp(s, b) <= Potential(s, b)
  {
    SumClasses(s.hits, OfBoss(b));
  }

  /** A rebuild shows full HP for what it saw stored; what it did not see, or not yet, is its race. */
  lemma OverwritePotential(s: Sys, r: nat, cfg: Writer.Config, b: BossId)
    requires StoreOk(s) && RebuildsOk(s) && Enabled(s, Overwrite(r), cfg) && b in s.db.bosses
    ensures Potential(Next(s, Overwrite(r), cfg), b) ==
            if s.rebuilds[r].boss == b then Max(Race(s, r), Outlay(s.hits, b) - MaxHp(s, b)) else Potential(s, b)
  {
    OverwriteSums(s, r, cfg, OfBoss(b));
    assert SnapshotOk(s.rebuilds[r], s.db);
    assert Sum(s.hits, OfBoss(b), Durably) == StoredIn(s.db, OfBoss(b));
  }

  lemma OverwriteRaises(s: Sys, r: nat, cfg: Writer.Config, b: BossId)
    requires HitsOk(s) && StoreOk(s) && CacheOk(s) && RebuildsOk(s) && Enabled(s, Overwrite(r), cfg) && b in s.db.bosses
    ensures Potential(Next(s, Overwrite(r), cfg), b) <=
            if s.rebuilds[r].boss == b then Max(Potential(s, b), Race(s, r)) else Potential(s, b)
  {
    OverwritePotential(s, r, cfg, b);
    OutlayIsPotential(s, b);
  }

  lemma ActPotential(s: Sys, i: nat, deed: Deed, cfg: Writer.Config, b: BossId)
    requires HitsOk(s) && CacheOk(s) && CanAct(s, i, deed) && b in s.db.bosses
    ensures Potential(Next(s, Act(i, deed), cfg), b) <= Potential(s, b)
    ensures b in s.cache ==> Potential(Next(s, Act(i, deed), cfg), b) == Potential(s, b)
  {
    ActSums(s, i, deed, cfg, OfBoss(b));
    var h := s.hits[i];
    if h.boss in s.cache { UndoConserves(s.cache[h.boss], h.player, h.applied); }
  }

  lemma AttackPotential(s: Sys, step: Step, cfg: Writer.Config, b: BossId)
    requires CacheOk(s) && step.Attack? && b in s.db.bosses
    ensures Potential(Next(s, step, cfg), b) == Potential(s, b)
  {
    if step.boss in s.cache {
      StrikeConserves(s.cache[step.boss], step.player, step.amount);
      if Lands(s, step) { NewHitSums(s.hits, NewHit(s, step), OfBoss(b)); }
    }
  }

  lemma CrashPotential(s: Sys, cfg: Writer.Config, b: BossId)
    requires HitsOk(s) && b in s.db.bosses
    ensures Potential(Next(s, Step.Crash, cfg), b) <= Potential(s, b)
    ensures b in s.cache ==> Potential(Next(s, Step.Crash, cfg), b) == Potential(s, b)
  {
    SumClasses(s.hits, OfBoss(b));
    CrashSums(s.hits, OfBoss(b));
    SweepKeepsStored(s.hits, Ledger.Crash, OfBoss(b), Durably);
  }

  lemma AsidePotential(s: Sys, step: Step, cfg: Writer.Config, b: BossId)
    requires HitsOk(s) && CacheOk(s) && Enabled(s, step, cfg) && Aside(step) && b in s.db.bosses
    ensures b in DbAfter(s, step, cfg).bosses && Potential(Next(s, step, cfg), b) <= Potential(s, b)
    ensures b in CacheAfter(s, step, cfg) ==> b in s.cache && Potential(Next(s, step, cfg), b) == Potential(s, b)
  {
    SumClasses(s.hits, OfBoss(b));
  }

  /** Neither a rebuild nor a late commit: kept while the boss is loaded, and never raised. */
  lemma OthersKeep(s: Sys, step: Step, cfg: Writer.Config, b: BossId)
    requires HitsOk(s) && CacheOk(s) && WriterOk(s, cfg) && ClientsOk(s) && Enabled(s, step, cfg) && b in s.db.bosses
    requires !step.Overwrite? && !step.Land?
    ensures b in DbAfter(s, step, cfg).bosses && Potential(Next(s, step, cfg), b) <= Potential(s, b)
    ensures b in CacheAfter(s, step, cfg) ==> b in s.cache && Potential(Next(s, step, cfg), b) == Potential(s, b)
  {
    match step
    case Attack(_, _, _, _) => AttackPotential(s, step, cfg, b);
    case Act(i, deed) => ActPotential(s, i, deed, cfg, b);
    case Flush(_, _, _) => FlushPotential(s, step, cfg, b);
    case Crash => CrashPotential(s, cfg, b);
    case _ => AsidePotential(s, step, cfg, b);
  }

  lemma StepUnacked(s: Sys, step: Step, cfg: Writer.Config, b: BossId)
    requires HitsOk(s) && WriterOk(s, cfg) && ClientsOk(s) && DoubtsOk(s) && Enabled(s, step, cfg)
    ensures var before, after := Sum(s.hits, OfBoss(b), Unacked), Sum(HitsAfter(s, step, cfg), OfBoss(b), Unacked);
            after >= before && (!step.Land? ==> after == before)
  {
    if step.Flush? {
      BatchIsReady(s, step.lane, cfg);
      BatchUnacked(s.hits, BatchOf(s, step.lane), MarkOf(step.persists), OfBoss(b));
    } else if step.Land? {
      DoubtIsReady(s, step.doubt);
      LandSums(s.hits, s.doubts[step.doubt], OfBoss(b));
      SumNonNegative(EventsOf(s.hits, s.doubts[step.doubt]), OfBoss(b));
    } else {
      UnwrittenSums(s, step, cfg, OfBoss(b));
    }
  }

  /**
    No step raises the potential of a boss except a rebuild of it, and a commit after a reported
    failure, which raises it by what it committed.
   */
  lemma OnlyRebuildsRaise(s: Sys, step: Step, cfg: Writer.Config, b: BossId)
    requires HitsOk(s) && StoreOk(s) && CacheOk(s) && WriterOk(s, cfg) && ClientsOk(s) && DoubtsOk(s) && RebuildsOk(s)
    requires Enabled(s, step, cfg) && b in s.db.bosses
    ensures var s' := Next(s, step, cfg);
            && b in s'.db.bosses
            && Sum(s'.hits, OfBoss(b), Unacked) >= Sum(s.hits, OfBoss(b), Unacked)
            && (Rebuilds(s, step, b) ==> Potential(s', b) <= Max(Potential(s, b), Race(s, step.id)))
            && (!Rebuilds(s, step, b) ==>
                  Potential(s', b) <=
                  Potential(s, b) + Sum(s'.hits, OfBoss(b), Unacked) - Sum(s.hits, OfBoss(b), Unacked))
  {
    StepUnacked(s, step, cfg, b);
    if step.Overwrite? {
      OverwriteRaises(s, step.id, cfg, b);
    } else if step.Land? {
      LandPotential(s, step, cfg, b);
    } else {
      OthersKeep(s, step, cfg, b);
    }
  }

  /** The worst race of a run: the largest `Race` over all rebuilds of the boss. */
  ghost function WorstRace(s: Sys, run: seq<Step>, cfg: Writer.Config, b: BossId): int
    requires Legal(s, run, cfg)
    decreases |run|
  {
    if run == [] then 0 else
      var init, step := run[..|run| - 1], run[|run| - 1];
      var t := After(s, init, cfg);
      if Rebuilds(t, step, b) && b in t.db.bosses then Max(WorstRace(s, init, cfg, b), Race(t, step.id))
      else WorstRace(s, init, cfg, b)
  }

  /** One step further in a run: the bound `worst` grows only at a rebuild, to its race. */
  lemma StepIsBounded(s: Sys, step: Step, cfg: Writer.Config, b: BossId, worst: int)
    requires Sound(s, cfg) && Enabled(s, step, cfg) && b in s.db.bosses
    requires 0 <= worst && Potential(s, b) <= worst + Sum(s.hits, OfBoss(b), Unacked)
    ensures var s' := Next(s, step, cfg);
            && b in s'.db.bosses && MaxHp(s', b) == MaxHp(s, b)
            && Potential(s', b) <=
               (if Rebuilds(s, step, b) then Max(worst, Race(s, step.id)) else worst) + Sum(s'.hits, OfBoss(b), Unacked)
  {
    OnlyRebuildsRaise(s, step, cfg, b);
    RowsAdvance(s, step, cfg, b);
    SumCovers(s.hits, 0, OfBoss(b), Unacked);
  }

  lemma {:induction false} PotentialIsBounded(s: Sys, run: seq<Step>, cfg: Writer.Config, b: BossId)
    requires Sound(s, cfg) && b in s.db.bosses && Legal(s, run, cfg)
    requires Potential(s, b) <= Sum(s.hits, OfBoss(b), Unacked)
    ensures var t := After(s, run, cfg);
            && b in t.db.bosses && MaxHp(t, b) == MaxHp(s, b)
            && WorstRace(s, run, cfg, b) >= 0
            && Potential(t, b) <= WorstRace(s, run, cfg, b) + Sum(t.hits, OfBoss(b), Unacked)
    decreases |run|
  {
    if run != [] {
      var init := run[..|run| - 1];
      PotentialIsBounded(s, init, cfg, b);
      EveryRunIsSound(s, init, cfg);
      StepIsBounded(After(s, init, cfg), run[|run| - 1], cfg, b, WorstRace(s, init, cfg, b));
    }
  }

  /**
    Bounded overshoot: in every run, racing rebuilds included, the durable damage of a boss
    exceeds its HP by no more than the worst race of a rebuild of it, plus the damage of its hits
    that committed after their failure was reported.
   */
  lemma BoundedOvershoot(s: Sys, run: seq<Step>, cfg: Writer.Config, b: BossId)
    requires Initial(s) && cfg.maxBatch > 0 && b in s.db.bosses && Legal(s, run, cfg)
    ensures var t := After(s, run, cfg);
            b in t.db.bosses &&
            Total(t.db.bosses[b].totals) <=
            s.db.bosses[b].maxHp + WorstRace(s, run, cfg, b) + Sum(t.hits, OfBoss(b), Unacked)
  {
    InitialIsSound(s, cfg);
    PotentialIsBounded(s, run, cfg, b);
    EveryRunIsSound(s, run, cfg);
    var t := After(s, run, cfg);
    assert Sum(t.hits, OfBoss(b), Durably) == StoredIn(t.db, OfBoss(b));
    SumClasses(t.hits, OfBoss(b));
  }

  // ---------------------------------------------------------------- the law of every run

  /** The drift one step leaves: a rebuild sets it, a late commit raises it, nothing else moves it. */
  ghost function DriftAfter(s: Sys, step: Step, cfg: Writer.Config, b: BossId, drift: int): int
    requires Enabled(s, step, cfg) && b in s.db.bosses
  {
    if Rebuilds(s, step, b) then Max(Race(s, step.id), Outlay(s.hits, b) - MaxHp(s, b))
    else if step.Land? then drift + Landed(s, step, cfg, b)
    else drift
  }

  lemma OverwriteDrifts(s: Sys, r: nat, cfg: Writer.Config, b: BossId)
    requires StoreOk(s) && RebuildsOk(s) && Enabled(s, Overwrite(r), cfg) && b in s.db.bosses
    requires b in CacheAfter(s, Overwrite(r), cfg)
    ensures !Rebuilds(s, Overwrite(r), b) ==> b in s.cache
    ensures Potential(Next(s, Overwrite(r), cfg), b) == DriftAfter(s, Overwrite(r), cfg, b, Potential(s, b))
  {
    OverwritePotential(s, r, cfg, b);
  }

  /** For a boss that stays loaded, or is just being rebuilt. */
  lemma StepDrifts(s: Sys, step: Step, cfg: Writer.Config, b: BossId)
    requires HitsOk(s) && StoreOk(s) && CacheOk(s) && WriterOk(s, cfg) && ClientsOk(s) && DoubtsOk(s) && RebuildsOk(s)
    requires Enabled(s, step, cfg) && b in s.db.bosses && b in CacheAfter(s, step, cfg)
    ensures b in DbAfter(s, step, cfg).bosses
    ensures !Rebuilds(s, step, b) ==> b in s.cache
    ensures Potential(Next(s, step, cfg), b) == DriftAfter(s, step, cfg, b, Potential(s, b))
  {
    if step.Overwrite? {
      OverwriteDrifts(s, step.id, cfg, b);
    } else if step.Land? {
      LandPotential(s, step, cfg, b);
    } else {
      OthersKeep(s, step, cfg, b);
    }
  }

  /** The drift of a run: set by the last rebuild of the boss, raised since by its late commits. */
  ghost function Drift(s: Sys, run: seq<Step>, cfg: Writer.Config, b: BossId): int
    requires Legal(s, run, cfg)
    decreases |run|
  {
    if run == [] then 0 else
      var init, step := run[..|run| - 1], run[|run| - 1];
      var t := After(s, init, cfg);
      if b in t.db.bosses then DriftAfter(t, step, cfg, b, Drift(s, init, cfg, b)) else 0
  }

  lemma {:induction false} PotentialIsDrift(s: Sys, run: seq<Step>, cfg: Writer.Config, b: BossId)
    requires Sound(s, cfg) && s.cache == map[] && b in s.db.bosses && Legal(s, run, cfg)
    ensures var t := After(s, run, cfg);
            && b in t.db.bosses && MaxHp(t, b) == MaxHp(s, b)
            && (b in t.cache ==> Potential(t, b) == Drift(s, run, cfg, b))
    decreases |run|
  {
    if run != [] {
      var init, step := run[..|run| - 1], run[|run| - 1];
      var t := After(s, init, cfg);
      PotentialIsDrift(s, init, cfg, b);
      EveryRunIsSound(s, init, cfg);
      RowsAdvance(t, step, cfg, b);
      if b in CacheAfter(t, step, cfg) { StepDrifts(t, step, cfg, b); }
    }
  }

  /**
    The law of every run, racing rebuilds, late commits and crashes included: a loaded boss
    satisfies hp + durable + in flight + leaked = max_hp + drift. In calm runs there is no drift.
   */
  lemma LawOfEveryRun(s: Sys, run: seq<Step>, cfg: Writer.Config, b: BossId)
    requires Initial(s) && cfg.maxBatch > 0 && b in s.db.bosses && Legal(s, run, cfg)
    ensures var t := After(s, run, cfg);
            && b in t.db.bosses
            && (b in t.cache ==>
                  && t.cache[b].hp + Total(t.db.bosses[b].totals) + Sum(t.hits, OfBoss(b), Unsettled)
                     == s.db.bosses[b].maxHp + Drift(s, run, cfg, b)
                  && (CalmRun(s, run, b, cfg) ==> Drift(s, run, cfg, b) == 0))
  {
    InitialIsSound(s, cfg);
    EveryRunIsSound(s, run, cfg);
    PotentialIsDrift(s, run, cfg, b);
    var t := After(s, run, cfg);
    assert Sum(t.hits, OfBoss(b), Durably) == StoredIn(t.db, OfBoss(b));
    if CalmRun(s, run, b, cfg) { ExactConservation(s, run, cfg, b); }
  }
}
