/**
  The two scripts alone, in any order in which each compensation undoes an earlier hit.
 */
module Schedules {
  import opened Ids
  import opened Totals
  import opened Durable
  import opened Redis
  import opened Ledger

  datatype Move = Hits(player: PlayerId, damage: int) | Compensates(hit: nat)

  /** The boss, and the hits that landed so far; a compensated hit is `Undone`. */
  datatype Scene = Scene(entry: Entry, landed: seq<Hit>)

  /** Each compensation is for a hit that landed and was not undone before. */
  predicate Possible(s: Scene, m: Move) {
    m.Compensates? ==> m.hit < |s.landed| && s.landed[m.hit].phase == Applied
  }

  function Perform(s: Scene, m: Move, boss: BossId): Scene
    requires Possible(s, m)
  {
    match m
    case Hits(player, damage) =>
      var (e, r) := Strike(s.entry, player, damage);
      Scene(e, if r.verdict == Landed then s.landed + [Hit(boss, player, r.applied, Applied, Waiting, false)]
               else s.landed)
    case Compensates(i) =>
      var h := s.landed[i];
      Scene(Undo(s.entry, h.player, h.applied), s.landed[i := h.(phase := Undone)])
  }

  predicate Playable(start: Entry, moves: seq<Move>, boss: BossId)
    decreases |moves|, 0
  {
    moves == [] ||
    (Playable(start, moves[..|moves| - 1], boss) &&
     Possible(Play(start, moves[..|moves| - 1], boss), moves[|moves| - 1]))
  }

  function Play(start: Entry, moves: seq<Move>, boss: BossId): Scene
    requires Playable(start, moves, boss)
    decreases |moves|, 1
  {
    if moves == [] then Scene(start, []) else
      Perform(Play(start, moves[..|moves| - 1], boss), moves[|moves| - 1], boss)
  }

  /** HP and scores are the start, less and plus the hits that survive. */
  ghost predicate Tallies(start: Entry, s: Scene, boss: BossId) {
    && Coherent(s.entry)
    && Positive(s.landed)
    && s.entry.hp == start.hp - Sum(s.landed, OfBoss(boss), InFlight)
    && (forall p :: Get(s.entry.board, p) == Get(start.board, p) + Sum(s.landed, OfPlayer(Key(boss, p)), InFlight))
    && (forall i :: 0 <= i < |s.landed| ==>
          s.landed[i].boss == boss && (s.landed[i].phase == Applied || s.landed[i].phase == Undone))
  }

  lemma HitTallies(start: Entry, s: Scene, player: PlayerId, damage: int, boss: BossId)
    requires Coherent(start) && Tallies(start, s, boss)
    ensures Tallies(start, Perform(s, Hits(player, damage), boss), boss)
  {
    StrikeConserves(s.entry, player, damage);
    var r := Strike(s.entry, player, damage).1;
    if r.verdict == Landed {
      var h := Hit(boss, player, r.applied, Applied, Waiting, false);
      SumAppend(s.landed, h, OfBoss(boss), InFlight);
      forall p ensures Sum(s.landed + [h], OfPlayer(Key(boss, p)), InFlight) ==
                       Sum(s.landed, OfPlayer(Key(boss, p)), InFlight) + if p == player then r.applied else 0 {
        SumAppend(s.landed, h, OfPlayer(Key(boss, p)), InFlight);
      }
    }
  }

  lemma CompensationTallies(start: Entry, s: Scene, i: nat, boss: BossId)
    requires Coherent(start) && Tallies(start, s, boss) && Possible(s, Compensates(i))
    ensures Tallies(start, Perform(s, Compensates(i), boss), boss)
  {
    var h := s.landed[i];
    UndoConserves(s.entry, h.player, h.applied);
    SumCovers(s.landed, i, OfPlayer(Key(boss, h.player)), InFlight);
    SumUpdate(s.landed, i, h.(phase := Undone), OfBoss(boss), InFlight);
    forall p ensures Sum(s.landed[i := h.(phase := Undone)], OfPlayer(Key(boss, p)), InFlight) ==
                     Sum(s.landed, OfPlayer(Key(boss, p)), InFlight) - if p == h.player then h.applied else 0 {
      SumUpdate(s.landed, i, h.(phase := Undone), OfPlayer(Key(boss, p)), InFlight);
    }
  }

  /**
    Whatever the interleaving, the final HP, every score, membership of the leaderboard and the
    state are exactly what the recorded damage of the surviving hits gives.
   */
  lemma {:induction false} SurvivorsDecide(start: Entry, moves: seq<Move>, boss: BossId)
    requires Coherent(start) && Playable(start, moves, boss)
    ensures var s := Play(start, moves, boss);
            && Tallies(start, s, boss)
            && (forall p :: p in s.entry.board <==>
                  Get(start.board, p) + Sum(s.landed, OfPlayer(Key(boss, p)), InFlight) > 0)
            && (s.entry.state == Defeated <==> start.hp == Sum(s.landed, OfBoss(boss), InFlight))
    decreases |moves|
  {
    if moves != [] {
      var init, m := moves[..|moves| - 1], moves[|moves| - 1];
      SurvivorsDecide(start, init, boss);
      match m
      case Hits(player, damage) => HitTallies(start, Play(start, init, boss), player, damage, boss);
      case Compensates(i) => CompensationTallies(start, Play(start, init, boss), i, boss);
    }
  }
}
