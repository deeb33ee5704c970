/**
  The history of landed hits and what became of each, and sums over it. Nothing here exists at
  run time: it is the bookkeeping that the two stores together have to agree with.
 */
module Ledger {
  import opened Ids
  import opened Durable
  import Writer

  datatype Phase =
    | Applied    // the damage script ran, `Submit` was not yet called
    | Accepted   // in the writer's intake or in a batch
    | Refused    // reported as not durable, its undo still to come
    | Committed  // durable
    | Undone     // the compensating script ran
    | Leaked     // in the cache, never to be undone by anybody
    | Lost       // leaked, and then forgotten by a rebuild

  datatype Client = Waiting | Acked | ToldFull | ToldFailed | Cancelled

  /** `unacked`: its transaction committed although its failure had been reported. */
  datatype Hit = Hit(
    boss: BossId, player: PlayerId, applied: int,
    phase: Phase, client: Client, unacked: bool)
  {
    predicate Stored() { phase == Committed || unacked }
  }

  datatype Class = InFlight | Unsettled | Durably | Unacked

  predicate Is(h: Hit, cl: Class) {
    match cl
    case InFlight => h.phase.Applied? || h.phase.Accepted? || h.phase.Refused?
    case Unsettled => h.phase.Applied? || h.phase.Accepted? || h.phase.Refused? || h.phase.Leaked?
    case Durably => h.Stored()
    case Unacked => h.unacked
  }

  function Weight(h: Hit, sc: Scope, cl: Class): int {
    if sc.Covers(h.boss, h.player) && Is(h, cl) then h.applied else 0
  }

  /** The damage of one class of hits, on one boss or by one player on it. */
  function Sum(hits: seq<Hit>, sc: Scope, cl: Class): int {
    if hits == [] then 0 else
      Sum(hits[..|hits| - 1], sc, cl) + Weight(hits[|hits| - 1], sc, cl)
  }

  predicate Positive(hits: seq<Hit>) {
    forall i :: 0 <= i < |hits| ==> hits[i].applied > 0
  }

  lemma SumAppend(hits: seq<Hit>, h: Hit, sc: Scope, cl: Class)
    ensures Sum(hits + [h], sc, cl) == Sum(hits, sc, cl) + Weight(h, sc, cl)
  {
    assert (hits + [h])[..|hits|] == hits;
  }

  lemma {:induction false} SumUpdate(hits: seq<Hit>, i: nat, h: Hit, sc: Scope, cl: Class)
    requires i < |hits|
    ensures Sum(hits[i := h], sc, cl) == Sum(hits, sc, cl) - Weight(hits[i], sc, cl) + Weight(h, sc, cl)
  {
    var last := |hits| - 1;
    if i == last {
      assert hits[i := h][..last] == hits[..last];
    } else {
      assert hits[i := h][..last] == hits[..last][i := h];
      SumUpdate(hits[..last], i, h, sc, cl);
    }
  }

  lemma {:induction false} SumCovers(hits: seq<Hit>, i: nat, sc: Scope, cl: Class)
    requires Positive(hits)
    ensures Sum(hits, sc, cl) >= 0
    ensures i < |hits| ==> Sum(hits, sc, cl) >= Weight(hits[i], sc, cl)
  {
    if hits != [] { SumCovers(hits[..|hits| - 1], i, sc, cl); }
  }

  /** In flight is unsettled. */
  lemma {:induction false} SumClasses(hits: seq<Hit>, sc: Scope)
    requires Positive(hits)
    ensures 0 <= Sum(hits, sc, InFlight) <= Sum(hits, sc, Unsettled)
  {
    if hits != [] { SumClasses(hits[..|hits| - 1], sc); }
  }

  /** A player's share is part of the boss's. */
  lemma {:induction false} SumScopes(hits: seq<Hit>, k: Key, cl: Class)
    requires Positive(hits)
    ensures 0 <= Sum(hits, OfPlayer(k), cl) <= Sum(hits, OfBoss(k.boss), cl)
  {
    if hits != [] { SumScopes(hits[..|hits| - 1], k, cl); }
  }

  function EventOf(h: Hit): Event {
    Event(h.boss, h.player, h.applied)
  }

  /** A new hit is unsettled, and in flight if its reply arrived. */
  lemma NewHitSums(hits: seq<Hit>, h: Hit, sc: Scope)
    requires !h.unacked && (h.phase == Applied || h.phase == Leaked)
    ensures Sum(hits + [h], sc, Durably) == Sum(hits, sc, Durably)
    ensures Sum(hits + [h], sc, Unacked) == Sum(hits, sc, Unacked)
    ensures Sum(hits + [h], sc, Unsettled) == Sum(hits, sc, Unsettled) + Share(EventOf(h), sc)
    ensures Sum(hits + [h], sc, InFlight) ==
            Sum(hits, sc, InFlight) + if h.phase == Applied then Share(EventOf(h), sc) else 0
  {
    SumAppend(hits, h, sc, Durably);
    SumAppend(hits, h, sc, Unacked);
    SumAppend(hits, h, sc, Unsettled);
    SumAppend(hits, h, sc, InFlight);
  }

  // ---------------------------------------------------------------- the end of a batch

  datatype Mark = Persist | Fail | PersistLate

  /** A failed hit whose client gave up has nobody left to undo it. */
  function Marked(h: Hit, m: Mark): Hit {
    match m
    case Persist => h.(phase := Committed)
    case Fail => h.(phase := if h.client == Cancelled then Leaked else Refused)
    case PersistLate => h.(unacked := true)
  }

  predicate Known(hits: seq<Hit>, ids: seq<nat>) {
    forall j :: 0 <= j < |ids| ==> ids[j] < |hits|
  }

  function MarkAll(hits: seq<Hit>, ids: seq<nat>, m: Mark): (r: seq<Hit>)
    requires Known(hits, ids)
    ensures |r| == |hits|
  {
    if ids == [] then hits else
      var last := |ids| - 1;
      var rest := MarkAll(hits, ids[..last], m);
      rest[ids[last] := Marked(hits[ids[last]], m)]
  }

  function EventsOf(hits: seq<Hit>, ids: seq<nat>): seq<Event>
    requires Known(hits, ids)
  {
    seq(|ids|, j requires 0 <= j < |ids| => EventOf(hits[ids[j]]))
  }

  lemma {:induction false} MarkAllAt(hits: seq<Hit>, ids: seq<nat>, m: Mark, i: nat)
    requires Known(hits, ids) && i < |hits|
    ensures MarkAll(hits, ids, m)[i] == if i in ids then Marked(hits[i], m) else hits[i]
  {
    if ids != [] { MarkAllAt(hits, ids[..|ids| - 1], m, i); }
  }

  lemma EventsSumSnoc(hits: seq<Hit>, ids: seq<nat>, sc: Scope)
    requires ids != [] && Known(hits, ids)
    ensures EventSum(EventsOf(hits, ids), sc) ==
            EventSum(EventsOf(hits, ids[..|ids| - 1]), sc) + Share(EventOf(hits[ids[|ids| - 1]]), sc)
  {
    assert EventsOf(hits, ids)[..|ids| - 1] == EventsOf(hits, ids[..|ids| - 1]);
  }

  lemma MarkAllSnoc(hits: seq<Hit>, ids: seq<nat>, m: Mark, sc: Scope, cl: Class)
    requires ids != [] && Known(hits, ids) && Writer.Distinct(ids)
    ensures var h := hits[ids[|ids| - 1]];
            Sum(MarkAll(hits, ids, m), sc, cl) ==
            Sum(MarkAll(hits, ids[..|ids| - 1], m), sc, cl) - Weight(h, sc, cl) + Weight(Marked(h, m), sc, cl)
  {
    var init, i := ids[..|ids| - 1], ids[|ids| - 1];
    MarkAllAt(hits, init, m, i);
    SumUpdate(MarkAll(hits, init, m), i, Marked(hits[i], m), sc, cl);
  }

  /** `x`, its negative, or nothing. */
  function Signed(sign: int, x: int): int {
    if sign > 0 then x else if sign < 0 then -x else 0
  }

  /** If every hit of a batch moves by its damage in one direction, so does the sum. */
  lemma {:induction false} MarkAllSum(hits: seq<Hit>, ids: seq<nat>, m: Mark, sc: Scope, cl: Class, sign: int)
    requires Known(hits, ids) && Writer.Distinct(ids)
    requires forall j :: 0 <= j < |ids| ==>
               Weight(Marked(hits[ids[j]], m), sc, cl) ==
               Weight(hits[ids[j]], sc, cl) + Signed(sign, Share(EventOf(hits[ids[j]]), sc))
    ensures Sum(MarkAll(hits, ids, m), sc, cl) == Sum(hits, sc, cl) + Signed(sign, EventSum(EventsOf(hits, ids), sc))
  {
    if ids != [] {
      MarkAllSum(hits, ids[..|ids| - 1], m, sc, cl, sign);
      MarkAllSnoc(hits, ids, m, sc, cl);
      EventsSumSnoc(hits, ids, sc);
    }
  }

  lemma {:induction false} MarkAllBound(hits: seq<Hit>, ids: seq<nat>, m: Mark, sc: Scope, cl: Class)
    requires Known(hits, ids) && Writer.Distinct(ids)
    requires forall j :: 0 <= j < |ids| ==>
               Weight(Marked(hits[ids[j]], m), sc, cl) <= Weight(hits[ids[j]], sc, cl)
    ensures Sum(MarkAll(hits, ids, m), sc, cl) <= Sum(hits, sc, cl)
  {
    if ids != [] {
      MarkAllBound(hits, ids[..|ids| - 1], m, sc, cl);
      MarkAllSnoc(hits, ids, m, sc, cl);
    }
  }

  /** A batch about to be written. */
  predicate Ready(hits: seq<Hit>, ids: seq<nat>) {
    && Known(hits, ids)
    && Writer.Distinct(ids)
    && (forall j :: 0 <= j < |ids| ==> hits[ids[j]].phase == Accepted && !hits[ids[j]].unacked)
  }

  lemma BatchDurably(hits: seq<Hit>, ids: seq<nat>, m: Mark, sc: Scope)
    requires Ready(hits, ids) && m != PersistLate
    ensures Sum(MarkAll(hits, ids, m), sc, Durably) ==
            Sum(hits, sc, Durably) + if m == Persist then EventSum(EventsOf(hits, ids), sc) else 0
  {
    MarkAllSum(hits, ids, m, sc, Durably, if m == Persist then 1 else 0);
  }

  lemma BatchUnacked(hits: seq<Hit>, ids: seq<nat>, m: Mark, sc: Scope)
    requires Ready(hits, ids) && m != PersistLate
    ensures Sum(MarkAll(hits, ids, m), sc, Unacked) == Sum(hits, sc, Unacked)
  {
    MarkAllSum(hits, ids, m, sc, Unacked, 0);
  }

  lemma BatchUnsettled(hits: seq<Hit>, ids: seq<nat>, m: Mark, sc: Scope)
    requires Ready(hits, ids) && m != PersistLate
    ensures Sum(MarkAll(hits, ids, m), sc, Unsettled) ==
            Sum(hits, sc, Unsettled) - if m == Persist then EventSum(EventsOf(hits, ids), sc) else 0
  {
    MarkAllSum(hits, ids, m, sc, Unsettled, if m == Persist then -1 else 0);
  }

  /** Committing takes the batch out of flight; nothing puts a hit in flight. */
  lemma BatchInFlight(hits: seq<Hit>, ids: seq<nat>, m: Mark, sc: Scope)
    requires Ready(hits, ids) && Positive(hits) && m != PersistLate
    ensures Sum(MarkAll(hits, ids, m), sc, InFlight) <=
            Sum(hits, sc, InFlight) - if m == Persist then EventSum(EventsOf(hits, ids), sc) else 0
  {
    if m == Persist {
      MarkAllSum(hits, ids, m, sc, InFlight, -1);
    } else {
      forall j | 0 <= j < |ids|
        ensures Weight(Marked(hits[ids[j]], m), sc, InFlight) <= Weight(hits[ids[j]], sc, InFlight)
      {
        assert hits[ids[j]].applied > 0;
      }
      MarkAllBound(hits, ids, m, sc, InFlight);
    }
  }

  lemma LandClass(hits: seq<Hit>, ids: seq<nat>, sc: Scope, cl: Class)
    requires Known(hits, ids) && Writer.Distinct(ids)
    requires forall j :: 0 <= j < |ids| ==> !hits[ids[j]].Stored()
    ensures Sum(MarkAll(hits, ids, PersistLate), sc, cl) ==
            Sum(hits, sc, cl) + if cl == Durably || cl == Unacked then EventSum(EventsOf(hits, ids), sc) else 0
  {
    MarkAllSum(hits, ids, PersistLate, sc, cl, if cl == Durably || cl == Unacked then 1 else 0);
  }

  /** A reported failure that commits after all: durable, and as unsettled as it was before. */
  lemma LandSums(hits: seq<Hit>, ids: seq<nat>, sc: Scope)
    requires Known(hits, ids) && Writer.Distinct(ids)
    requires forall j :: 0 <= j < |ids| ==> !hits[ids[j]].Stored()
    ensures var hits', x := MarkAll(hits, ids, PersistLate), EventSum(EventsOf(hits, ids), sc);
            && Sum(hits', sc, Durably) == Sum(hits, sc, Durably) + x
            && Sum(hits', sc, Unacked) == Sum(hits, sc, Unacked) + x
            && Sum(hits', sc, Unsettled) == Sum(hits, sc, Unsettled)
            && Sum(hits', sc, InFlight) == Sum(hits, sc, InFlight)
  {
    LandClass(hits, ids, sc, Durably);
    LandClass(hits, ids, sc, Unacked);
    LandClass(hits, ids, sc, Unsettled);
    LandClass(hits, ids, sc, InFlight);
  }

  // ---------------------------------------------------------------- crash and rebuild

  datatype Sweep = Crash | Rebuild(boss: BossId)

  /** A crash leaves in-flight hits in the cache for good; a rebuild forgets the leaked ones. */
  function Swept(h: Hit, w: Sweep): Hit {
    match w
    case Crash =>
      h.(phase := if Is(h, InFlight) then Leaked else h.phase,
         client := if h.client == Waiting then Cancelled else h.client)
    case Rebuild(b) => if h.boss == b && h.phase == Leaked then h.(phase := Lost) else h
  }

  function SweepAll(hits: seq<Hit>, w: Sweep): seq<Hit> {
    seq(|hits|, i requires 0 <= i < |hits| => Swept(hits[i], w))
  }

  lemma {:induction false} SweepAllSum(hits: seq<Hit>, w: Sweep, sc: Scope, from: Class, to: Class)
    requires forall i :: 0 <= i < |hits| ==> Weight(Swept(hits[i], w), sc, to) == Weight(hits[i], sc, from)
    ensures Sum(SweepAll(hits, w), sc, to) == Sum(hits, sc, from)
  {
    if hits != [] {
      SweepAllSum(hits[..|hits| - 1], w, sc, from, to);
      assert SweepAll(hits, w)[..|hits| - 1] == SweepAll(hits[..|hits| - 1], w);
    }
  }

  /** What a rebuild of `b` turns a hit's share of the unsettled damage into. */
  lemma RebuiltWeight(h: Hit, b: BossId, sc: Scope)
    ensures Weight(Swept(h, Rebuild(b)), sc, InFlight) == Weight(h, sc, InFlight)
    ensures Weight(Swept(h, Rebuild(b)), sc, Unsettled) == Weight(h, sc, if sc.Boss() == b then InFlight else Unsettled)
  {}

  lemma SweepKeepsStored(hits: seq<Hit>, w: Sweep, sc: Scope, cl: Class)
    requires cl == Durably || cl == Unacked
    ensures Sum(SweepAll(hits, w), sc, cl) == Sum(hits, sc, cl)
  {
    SweepAllSum(hits, w, sc, cl, cl);
  }

  lemma {:induction false} CrashSettles(hits: seq<Hit>, sc: Scope)
    ensures Sum(SweepAll(hits, Crash), sc, InFlight) == 0
  {
    if hits != [] {
      CrashSettles(hits[..|hits| - 1], sc);
      assert SweepAll(hits, Crash)[..|hits| - 1] == SweepAll(hits[..|hits| - 1], Crash);
    }
  }

  /** A crash leaves nothing in flight; durable and unsettled damage stay what they are. */
  lemma CrashSums(hits: seq<Hit>, sc: Scope)
    ensures Sum(SweepAll(hits, Crash), sc, InFlight) == 0
    ensures Sum(SweepAll(hits, Crash), sc, Unsettled) == Sum(hits, sc, Unsettled)
  {
    CrashSettles(hits, sc);
    SweepAllSum(hits, Crash, sc, Unsettled, Unsettled);
  }

  /** A rebuild of a boss leaves only its in-flight damage unsettled, and touches no other boss. */
  lemma RebuildSums(hits: seq<Hit>, b: BossId, sc: Scope)
    ensures Sum(SweepAll(hits, Rebuild(b)), sc, InFlight) == Sum(hits, sc, InFlight)
    ensures Sum(SweepAll(hits, Rebuild(b)), sc, Unsettled) ==
            Sum(hits, sc, if sc.Boss() == b then InFlight else Unsettled)
  {
    forall i | 0 <= i < |hits|
      ensures Weight(Swept(hits[i], Rebuild(b)), sc, InFlight) == Weight(hits[i], sc, InFlight)
      ensures Weight(Swept(hits[i], Rebuild(b)), sc, Unsettled) ==
              Weight(hits[i], sc, if sc.Boss() == b then InFlight else Unsettled)
    {
      RebuiltWeight(hits[i], b, sc);
    }
    SweepAllSum(hits, Rebuild(b), sc, InFlight, InFlight);
    SweepAllSum(hits, Rebuild(b), sc, if sc.Boss() == b then InFlight else Unsettled, Unsettled);
  }
}
