/**
  A run in which the bound on overshoot is attained: two rebuilds of a boss with HP `n`, one of
  which overwrites the cache after a killing blow landed, let 2 * `n` damage become durable.
 */
module Witnesses {
  import opened Ids
  import opened Totals
  import opened Durable
  import opened Redis
  import opened Ledger
  import opened Protocol
  import opened Soundness
  import opened Conservation
  import Writer

  const BOSS: BossId := "b"
  const FIRST: PlayerId := "p"
  const SECOND: PlayerId := "q"
  const CFG := Writer.Config(2, 2)

  /** Until the batch is written, Postgres has the seeded boss. */
  function At(n: nat, cache: map<BossId, Entry>, rebuilds: map<nat, Rebuilding>,
              writer: Writer.State, hits: seq<Hit>): Sys
  {
    Sys(cache, Db(map[BOSS := BossRow(n, n, Alive, None, map[])], [], map[]), writer, rebuilds, map[], [], hits, [])
  }

  function Seed(n: nat): Sys {
    At(n, map[], map[], Writer.Start(1), [])
  }

  function Full(n: nat): map<BossId, Entry> {
    map[BOSS := Entry(n, map[], Alive)]
  }

  function Killed(player: PlayerId, n: nat): map<BossId, Entry> {
    map[BOSS := Entry(0, map[player := n], Defeated)]
  }

  /** A rebuild that read the boss before any hit. */
  function Early(n: nat): Rebuilding {
    BothRead(BOSS, Recovery(n, n, Alive), 0, map[])
  }

  function HitBy(player: PlayerId, n: nat, phase: Phase): Hit {
    Hit(BOSS, player, n, phase, Waiting, false)
  }

  function Both(n: nat, phase: Phase): seq<Hit> {
    [HitBy(FIRST, n, phase), HitBy(SECOND, n, phase)]
  }

  function Lane(batch: seq<nat>, timer: bool, mode: Writer.Mode, queue: seq<nat>): Writer.State {
    Writer.State(queue, false, [Writer.Lane(batch, timer, mode)], {0, 1}, map[])
  }

  /** After both killing blows. */
  function Dead(n: nat, writer: Writer.State, hits: seq<Hit>): Sys {
    At(n, Killed(SECOND, n), map[], writer, hits)
  }

  /** A run to `t` and its worst race. */
  ghost predicate Reaches(n: nat, run: seq<Step>, t: Sys, worst: int) {
    && Legal(Seed(n), run, CFG)
    && After(Seed(n), run, CFG) == t
    && WorstRace(Seed(n), run, CFG, BOSS) == worst
  }

  lemma Then(n: nat, run: seq<Step>, t: Sys, worst: int, step: Step) returns (run': seq<Step>)
    requires Reaches(n, run, t, worst) && Enabled(t, step, CFG)
    ensures Reaches(n, run', Next(t, step, CFG),
                    if Rebuilds(t, step, BOSS) && BOSS in t.db.bosses then Max(worst, Race(t, step.id)) else worst)
  {
    run' := run + [step];
    assert run'[..|run|] == run;
  }

  lemma EarlyReads(n: nat, s: Sys, r: nat)
    requires n > 0 && s == At(n, s.cache, map[], s.writer, [])
    ensures var half := s.(rebuilds := map[r := HpRead(BOSS, Recovery(n, n, Alive), 0)]);
            && Enabled(s, ReadHp(r, BOSS), CFG) && Next(s, ReadHp(r, BOSS), CFG) == half
            && Enabled(half, ReadTotals(r), CFG)
            && Next(half, ReadTotals(r), CFG) == s.(rebuilds := map[r := Early(n)])
  {}

  /** The first two queries of a rebuild of the untouched boss. */
  lemma ReadEarly(n: nat, run: seq<Step>, cache: map<BossId, Entry>, r: nat) returns (run': seq<Step>)
    requires n > 0 && Reaches(n, run, At(n, cache, map[], Writer.Start(1), []), 0)
    ensures Reaches(n, run', At(n, cache, map[r := Early(n)], Writer.Start(1), []), 0)
  {
    var s := At(n, cache, map[], Writer.Start(1), []);
    EarlyReads(n, s, r);
    run' := Then(n, run, s, 0, ReadHp(r, BOSS));
    run' := Then(n, run', s.(rebuilds := map[r := HpRead(BOSS, Recovery(n, n, Alive), 0)]), 0, ReadTotals(r));
  }

  lemma EarlyOverwrite(n: nat, s: Sys, r: nat)
    requires n > 0 && s == At(n, s.cache, map[r := Early(n)], s.writer, s.hits)
    requires s.cache.Keys <= {BOSS} && forall i :: 0 <= i < |s.hits| ==> s.hits[i].phase == Applied
    ensures Enabled(s, Overwrite(r), CFG)
    ensures Next(s, Overwrite(r), CFG) == At(n, Full(n), map[], s.writer, s.hits)
    ensures Race(s, r) == Sum(s.hits, OfBoss(BOSS), InFlight)
  {
    assert SweepAll(s.hits, Ledger.Rebuild(BOSS)) == s.hits;
    assert s.cache[BOSS := Entry(n, map[], Alive)] == Full(n);
    assert s.rebuilds - {r} == map[];
  }

  /** The rebuild writes full HP, whatever landed since it read; that is its race. */
  lemma WriteEarly(n: nat, run: seq<Step>, cache: map<BossId, Entry>, hits: seq<Hit>, r: nat) returns (run': seq<Step>)
    requires n > 0 && Reaches(n, run, At(n, cache, map[r := Early(n)], Writer.Start(1), hits), 0)
    requires cache.Keys <= {BOSS} && forall i :: 0 <= i < |hits| ==> hits[i].phase == Applied
    requires Sum(hits, OfBoss(BOSS), InFlight) >= 0
    ensures Reaches(n, run', At(n, Full(n), map[], Writer.Start(1), hits), Sum(hits, OfBoss(BOSS), InFlight))
  {
    var s := At(n, cache, map[r := Early(n)], Writer.Start(1), hits);
    EarlyOverwrite(n, s, r);
    run' := Then(n, run, s, 0, Overwrite(r));
  }

  lemma KillingBlow(n: nat, player: PlayerId)
    requires n > 0
    ensures Strike(Entry(n, map[], Alive), player, n) == (Entry(0, map[player := n], Defeated), Reply(Landed, n, 0))
  {}

  /** A killing blow on the full boss. */
  lemma Kill(n: nat, run: seq<Step>, rebuilds: map<nat, Rebuilding>, hits: seq<Hit>, player: PlayerId, worst: int)
    returns (run': seq<Step>)
    requires n > 0 && Reaches(n, run, At(n, Full(n), rebuilds, Writer.Start(1), hits), worst)
    ensures Reaches(n, run', At(n, Killed(player, n), rebuilds, Writer.Start(1), hits + [HitBy(player, n, Applied)]),
                    worst)
  {
    var s, blow := At(n, Full(n), rebuilds, Writer.Start(1), hits), Attack(BOSS, player, n, true);
    KillingBlow(n, player);
    assert NewHit(s, blow) == HitBy(player, n, Applied);
    assert CacheAfter(s, blow, CFG) == Killed(player, n);
    run' := Then(n, run, s, worst, blow);
  }

  /** The writer takes both requests and one committer receives them. */
  lemma WriterFills()
    ensures var w1 := Writer.State([0], false, [Writer.IDLE_LANE], {0}, map[]);
            && Writer.Next(Writer.Start(1), Writer.Accept(0), CFG) == w1
            && Writer.Next(w1, Writer.Accept(1), CFG) == Lane([], false, Writer.Selecting, [0, 1])
    ensures var w2, w3 := Lane([], false, Writer.Selecting, [0, 1]), Lane([0], true, Writer.Selecting, [1]);
            && Writer.Next(w2, Writer.Receive(0), CFG) == w3
            && Writer.Next(w3, Writer.Receive(0), CFG) == Lane([0, 1], true, Writer.Flushing, [])
  {
    assert Writer.Start(1).lanes == [Writer.IDLE_LANE];
    assert [0, 1][1..] == [1];
    assert [0] + [1] == [0, 1];
  }

  lemma SubmitNext(n: nat, i: nat, writer: Writer.State, hits: seq<Hit>)
    requires i < |hits| && hits[i].phase == Applied && hits[i].client == Waiting
    requires Writer.Enabled(writer, Writer.Accept(i), CFG)
    ensures var s := Dead(n, writer, hits);
            && Enabled(s, Act(i, Submit), CFG)
            && Next(s, Act(i, Submit), CFG) ==
               Dead(n, Writer.Next(writer, Writer.Accept(i), CFG),
                    hits[i := hits[i].(phase := Accepted)])
  {}

  lemma SubmitBoth(n: nat, run: seq<Step>) returns (run': seq<Step>)
    requires n > 0 && Reaches(n, run, Dead(n, Writer.Start(1), Both(n, Applied)), n)
    ensures Reaches(n, run', Dead(n, Lane([], false, Writer.Selecting, [0, 1]), Both(n, Accepted)), n)
  {
    WriterFills();
    SubmitNext(n, 0, Writer.Start(1), Both(n, Applied));
    run' := Then(n, run, Dead(n, Writer.Start(1), Both(n, Applied)), n, Act(0, Submit));
    var w := Writer.State([0], false, [Writer.IDLE_LANE], {0}, map[]);
    var hits := Both(n, Applied)[0 := HitBy(FIRST, n, Accepted)];
    SubmitNext(n, 1, w, hits);
    run' := Then(n, run', Dead(n, w, hits), n, Act(1, Submit));
    assert hits[1 := HitBy(SECOND, n, Accepted)] == Both(n, Accepted);
  }

  lemma ReceiveBoth(n: nat, run: seq<Step>) returns (run': seq<Step>)
    requires n > 0
    requires Reaches(n, run, Dead(n, Lane([], false, Writer.Selecting, [0, 1]), Both(n, Accepted)), n)
    ensures Reaches(n, run', Dead(n, Lane([0, 1], true, Writer.Flushing, []), Both(n, Accepted)), n)
  {
    WriterFills();
    var s := Dead(n, Lane([], false, Writer.Selecting, [0, 1]), Both(n, Accepted));
    run' := Then(n, run, s, n, Turn(Writer.Receive(0)));
    run' := Then(n, run', s.(writer := Lane([0], true, Writer.Selecting, [1])), n, Turn(Writer.Receive(0)));
  }

  lemma SumsOfOne(h: Hit, sc: Scope, cl: Class)
    ensures Sum([h], sc, cl) == Weight(h, sc, cl)
  {
    assert [h][..0] == [];
  }

  lemma RaceTwice(n: nat) returns (run: seq<Step>)
    requires n > 0
    ensures Reaches(n, run, Dead(n, Lane([0, 1], true, Writer.Flushing, []), Both(n, Accepted)), n)
  {
    var blow := [HitBy(FIRST, n, Applied)];
    SumsOfOne(blow[0], OfBoss(BOSS), InFlight);
    run := [];
    run := ReadEarly(n, run, map[], 0);
    run := WriteEarly(n, run, map[], [], 0);
    run := ReadEarly(n, run, Full(n), 1);
    run := Kill(n, run, map[1 := Early(n)], [], FIRST, 0);
    assert [] + blow == blow;
    run := WriteEarly(n, run, Killed(FIRST, n), blow, 1);
    run := Kill(n, run, map[], blow, SECOND, n);
    assert blow + [HitBy(SECOND, n, Applied)] == Both(n, Applied);
    run := SubmitBoth(n, run);
    run := ReceiveBoth(n, run);
  }

  lemma SumsOfTwo(a: Hit, b: Hit, sc: Scope, cl: Class)
    ensures Sum([a, b], sc, cl) == Weight(a, sc, cl) + Weight(b, sc, cl)
  {
    SumsOfOne(a, sc, cl);
    assert [a, b][..1] == [a];
  }

  lemma BothStored(n: nat, t: Sys, cfg: Writer.Config)
    requires Sound(t, cfg) && t.hits == Both(n, Committed) && BOSS in t.db.bosses
    ensures Total(t.db.bosses[BOSS].totals) == 2 * n
    ensures Sum(t.hits, OfBoss(BOSS), Unacked) == 0
  {
    SumsOfTwo(t.hits[0], t.hits[1], OfBoss(BOSS), Durably);
    SumsOfTwo(t.hits[0], t.hits[1], OfBoss(BOSS), Unacked);
    assert Sum(t.hits, OfBoss(BOSS), Durably) == StoredIn(t.db, OfBoss(BOSS));
  }

  lemma FlushBoth(n: nat, s: Sys)
    requires s == Dead(n, Lane([0, 1], true, Writer.Flushing, []), Both(n, Accepted))
    ensures Enabled(s, Flush(0, true, 0), CFG)
    ensures Next(s, Flush(0, true, 0), CFG).hits == Both(n, Committed)
    ensures var bosses := Next(s, Flush(0, true, 0), CFG).db.bosses; BOSS in bosses && bosses[BOSS].maxHp == n
  {
    var events := EventsOf(s.hits, BatchOf(s, 0));
    assert events == [Event(BOSS, FIRST, n), Event(BOSS, SECOND, n)];
    MarkedHits(s.hits, BatchOf(s, 0), Persist);
  }

  /**
    The overshoot bound is attained: for every HP there is a run, without any failure, in which
    twice that HP is durable, and the excess is exactly the worst race of the run.
   */
  lemma OvershootAttained(n: nat) returns (run: seq<Step>)
    requires n > 0
    ensures Initial(Seed(n)) && Legal(Seed(n), run, CFG)
    ensures var t := After(Seed(n), run, CFG);
            && BOSS in t.db.bosses && t.db.bosses[BOSS].maxHp == n
            && Total(t.db.bosses[BOSS].totals) == 2 * n
            && WorstRace(Seed(n), run, CFG, BOSS) == n
            && Sum(t.hits, OfBoss(BOSS), Unacked) == 0
  {
    run := RaceTwice(n);
    var s := After(Seed(n), run, CFG);
    FlushBoth(n, s);
    run := Then(n, run, s, n, Flush(0, true, 0));
    InitialIsSound(Seed(n), CFG);
    EveryRunIsSound(Seed(n), run, CFG);
    BothStored(n, After(Seed(n), run, CFG), CFG);
  }
}
