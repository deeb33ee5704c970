/**
  The coalescing reconcile queue (internal/recovery/reconcile.go): any number of `Enqueue` calls
  and a fixed set of workers, interleaved at every lock section and channel operation.
 */
module Reconciler {
  import opened Ids

  /**
    `queued` is the map the mutex guards and `ch` the channel. The other fields say where each
    goroutine stands: ids about to be sent, ids whose send found the channel full, the id each
    worker holds during its settle delay, and the rebuilds under way.
   */
  datatype State = State(
    queued: set<BossId>,
    ch: seq<BossId>,
    sending: set<BossId>,
    failing: set<BossId>,
    holding: map<nat, BossId>,
    rebuilding: set<nat>)

  const IDLE := State({}, [], {}, {}, map[], {})

  datatype Config = Config(capacity: nat, workers: nat)

  datatype Move =
    | Mark(boss: BossId)      // Enqueue, first lock section
    | Send(boss: BossId)      // Enqueue, the non-blocking send
    | Discard(boss: BossId)   // Enqueue, second lock section after a failed send
    | Take(worker: nat)       // a worker receives and starts its settle delay
    | Free(worker: nat)       // the worker clears the slot and begins to read
    | Done(worker: nat)       // the rebuild returned

  predicate Busy(s: State, w: nat) {
    w in s.holding || w in s.rebuilding
  }

  predicate Enabled(s: State, m: Move, cfg: Config) {
    match m
    case Mark(_) => true
    case Send(b) => b in s.sending
    case Discard(b) => b in s.failing
    case Take(w) => w < cfg.workers && !Busy(s, w) && s.ch != []
    case Free(w) => w in s.holding
    case Done(w) => w in s.rebuilding
  }

  function Next(s: State, m: Move, cfg: Config): State
    requires Enabled(s, m, cfg)
  {
    match m
    case Mark(b) => if b in s.queued then s else s.(queued := s.queued + {b}, sending := s.sending + {b})
    case Send(b) =>
      if |s.ch| < cfg.capacity then s.(sending := s.sending - {b}, ch := s.ch + [b])
      else s.(sending := s.sending - {b}, failing := s.failing + {b})
    case Discard(b) => s.(failing := s.failing - {b}, queued := s.queued - {b})
    case Take(w) => s.(ch := s.ch[1..], holding := s.holding[w := s.ch[0]])
    case Free(w) =>
      s.(holding := s.holding - {w}, rebuilding := s.rebuilding + {w}, queued := s.queued - {s.holding[w]})
    case Done(w) => s.(rebuilding := s.rebuilding - {w})
  }

  function InChannel(s: State): set<BossId> {
    set b | b in s.ch
  }

  /** The queued set is the disjoint union of the ids on their way, each in one place, once. */
  predicate Located(s: State) {
    && s.queued == s.sending + s.failing + InChannel(s) + s.holding.Values
    && s.sending !! s.failing
    && s.sending + s.failing !! InChannel(s)
    && s.sending + s.failing + InChannel(s) !! s.holding.Values
    && (forall i, j :: 0 <= i < j < |s.ch| ==> s.ch[i] != s.ch[j])
    && (forall v, w :: v in s.holding && w in s.holding && s.holding[v] == s.holding[w] ==> v == w)
    && (forall w :: w in s.holding ==> w !in s.rebuilding)
  }

  lemma TakeLocated(s: State, w: nat)
    requires Located(s) && !Busy(s, w) && s.ch != []
    ensures Located(s.(ch := s.ch[1..], holding := s.holding[w := s.ch[0]]))
  {
    var s' := s.(ch := s.ch[1..], holding := s.holding[w := s.ch[0]]);
    assert s.ch == [s.ch[0]] + s.ch[1..];
    assert InChannel(s) == InChannel(s') + {s.ch[0]};
    assert s'.holding.Values == s.holding.Values + {s.ch[0]} by {
      assert w in s'.holding && s'.holding[w] == s.ch[0];
      forall b | b in s.holding.Values ensures b in s'.holding.Values {
        var v :| v in s.holding && s.holding[v] == b;
        assert v in s'.holding && s'.holding[v] == b;
      }
    }
  }

  lemma FreeLocated(s: State, w: nat)
    requires Located(s) && w in s.holding
    ensures Located(s.(holding := s.holding - {w}, rebuilding := s.rebuilding + {w},
                       queued := s.queued - {s.holding[w]}))
  {
    var held := s.holding - {w};
    assert held.Values == s.holding.Values - {s.holding[w]} by {
      forall b | b in s.holding.Values && b != s.holding[w] ensures b in held.Values {
        var v :| v in s.holding && s.holding[v] == b;
        assert v in held && held[v] == b;
      }
    }
  }

  lemma SendLocated(s: State, b: BossId)
    requires Located(s) && b in s.sending
    ensures Located(s.(sending := s.sending - {b}, ch := s.ch + [b]))
    ensures Located(s.(sending := s.sending - {b}, failing := s.failing + {b}))
  {
    assert InChannel(s.(ch := s.ch + [b])) == InChannel(s) + {b};
  }

  lemma MoveKeepsLocated(s: State, m: Move, cfg: Config)
    requires Located(s) && Enabled(s, m, cfg)
    ensures Located(Next(s, m, cfg))
  {
    match m
    case Take(w) => TakeLocated(s, w);
    case Free(w) => FreeLocated(s, w);
    case Send(b) => SendLocated(s, b);
    case _ =>
  }

  // ---------------------------------------------------------------- whole runs

  predicate Legal(s: State, moves: seq<Move>, cfg: Config)
    decreases |moves|, 0
  {
    moves == [] ||
    (Legal(s, moves[..|moves| - 1], cfg) &&
     Enabled(After(s, moves[..|moves| - 1], cfg), moves[|moves| - 1], cfg))
  }

  function After(s: State, moves: seq<Move>, cfg: Config): State
    requires Legal(s, moves, cfg)
    decreases |moves|, 1
  {
    if moves == [] then s else
      Next(After(s, moves[..|moves| - 1], cfg), moves[|moves| - 1], cfg)
  }

  /** Step `j` ends the request of `b`: dropped, or its worker frees the slot and begins to read. */
  predicate Ends(moves: seq<Move>, j: nat, b: BossId, cfg: Config) {
    && j < |moves| && Legal(IDLE, moves[..j], cfg)
    && match moves[j]
       case Discard(d) => d == b
       case Free(w) =>
         var s := After(IDLE, moves[..j], cfg);
         w in s.holding && s.holding[w] == b
       case _ => false
  }

  /** Of the call at step `i`: its boss is still queued, or its request ended after the call. */
  ghost predicate Accounted(moves: seq<Move>, i: nat, b: BossId, cfg: Config)
    requires Legal(IDLE, moves, cfg)
  {
    b in After(IDLE, moves, cfg).queued || exists j: nat :: i < j && Ends(moves, j, b, cfg)
  }

  /** A boss leaves the queued set by nothing else. */
  lemma OnlyEndsUnqueue(s: State, m: Move, cfg: Config, b: BossId)
    requires Enabled(s, m, cfg) && b in s.queued && b !in Next(s, m, cfg).queued
    ensures m == Discard(b) || (m.Free? && s.holding[m.worker] == b)
  {}

  lemma {:induction false} EveryCallIsAccounted(moves: seq<Move>, i: nat, b: BossId, cfg: Config)
    requires Legal(IDLE, moves, cfg) && i < |moves| && moves[i] == Mark(b)
    ensures Accounted(moves, i, b, cfg)
    decreases |moves|
  {
    var last := |moves| - 1;
    var init := moves[..last];
    var s := After(IDLE, init, cfg);
    if i < last {
      EveryCallIsAccounted(init, i, b, cfg);
      if b in s.queued {
        if b !in After(IDLE, moves, cfg).queued {
          OnlyEndsUnqueue(s, moves[last], cfg, b);
          assert Ends(moves, last, b, cfg);
        }
      } else {
        var j: nat :| i < j && Ends(init, j, b, cfg);
        assert moves[..j] == init[..j];
        assert Ends(moves, j, b, cfg);
      }
    }
  }

  lemma {:induction false} EveryRunIsLocated(moves: seq<Move>, cfg: Config)
    requires Legal(IDLE, moves, cfg)
    ensures Located(After(IDLE, moves, cfg))
  {
    if moves != [] {
      var init := moves[..|moves| - 1];
      EveryRunIsLocated(init, cfg);
      MoveKeepsLocated(After(IDLE, init, cfg), moves[|moves| - 1], cfg);
    }
  }

  /**
    Coalescing loses nothing: in every run, the queued set is the disjoint union of the ids being
    sent, in the channel and held by a waiting worker; and for every `Enqueue`, merged or not, its
    boss is still queued, or later in the run the request it merged into is dropped, or a worker
    holding the boss frees the slot and reads.
   */
  lemma {:induction false} CoalescingLosesNothing(moves: seq<Move>, cfg: Config)
    requires Legal(IDLE, moves, cfg)
    ensures Located(After(IDLE, moves, cfg))
    ensures forall i, b :: 0 <= i < |moves| && moves[i] == Mark(b) ==> Accounted(moves, i, b, cfg)
  {
    EveryRunIsLocated(moves, cfg);
    forall i, b | 0 <= i < |moves| && moves[i] == Mark(b) ensures Accounted(moves, i, b, cfg) {
      EveryCallIsAccounted(moves, i, b, cfg);
    }
  }

  /** A request is dropped only after its send found the channel full. */
  lemma {:induction false} DiscardMeansFull(moves: seq<Move>, cfg: Config, b: BossId)
    requires Legal(IDLE, moves, cfg) && b in After(IDLE, moves, cfg).failing
    ensures exists j: nat :: j < |moves| && moves[j] == Send(b) && Legal(IDLE, moves[..j], cfg) &&
              |After(IDLE, moves[..j], cfg).ch| >= cfg.capacity
    decreases |moves|
  {
    var last := |moves| - 1;
    var init := moves[..last];
    if b in After(IDLE, init, cfg).failing {
      DiscardMeansFull(init, cfg, b);
      var j: nat :| j < |init| && init[j] == Send(b) && Legal(IDLE, init[..j], cfg) &&
        |After(IDLE, init[..j], cfg).ch| >= cfg.capacity;
      assert moves[..j] == init[..j];
    } else {
      assert moves[last] == Send(b);
    }
  }

  /** What is left to do for the requests already made. */
  function Work(s: State): nat {
    4 * |s.sending| + 3 * |s.ch| + 2 * |s.holding| + |s.failing| + |s.rebuilding|
  }

  lemma TakingOutShrinks(holding: map<nat, BossId>, w: nat)
    requires w in holding
    ensures |holding - {w}| == |holding| - 1
  {
    assert (holding - {w}).Keys == holding.Keys - {w};
  }

  lemma PuttingInGrows(holding: map<nat, BossId>, w: nat, b: BossId)
    requires w !in holding
    ensures |holding[w := b]| == |holding| + 1
  {
    assert holding[w := b].Keys == holding.Keys + {w};
  }

  /** A move that brings some queued request on its way. */
  lemma Server(s: State, cfg: Config) returns (m: Move)
    requires Located(s) && cfg.workers > 0 && s.queued != {}
    ensures !m.Mark? && Enabled(s, m, cfg)
  {
    var b :| b in s.queued;
    if b in s.sending { return Send(b); }
    if b in s.failing { return Discard(b); }
    if b in s.holding.Values {
      var w :| w in s.holding && s.holding[w] == b;
      return Free(w);
    }
    if 0 in s.holding { return Free(0); }
    if 0 in s.rebuilding { return Done(0); }
    return Take(0);
  }

  lemma MoveWorks(s: State, m: Move, cfg: Config)
    requires !m.Mark? && Enabled(s, m, cfg)
    ensures Work(Next(s, m, cfg)) < Work(s)
  {
    if m.Free? {
      TakingOutShrinks(s.holding, m.worker);
    } else if m.Take? {
      PuttingInGrows(s.holding, m.worker, s.ch[0]);
    }
  }

  /**
    With a worker, no queued request is stuck: some move other than a new call is possible, and
    each such move uses up work.
   */
  lemma QueuedIsServed(s: State, cfg: Config)
    requires Located(s) && cfg.workers > 0
    ensures s.queued != {} ==> exists m: Move :: !m.Mark? && Enabled(s, m, cfg)
    ensures forall m: Move :: !m.Mark? && Enabled(s, m, cfg) ==> Work(Next(s, m, cfg)) < Work(s)
  {
    if s.queued != {} {
      var m := Server(s, cfg);
    }
    forall m: Move | !m.Mark? && Enabled(s, m, cfg) ensures Work(Next(s, m, cfg)) < Work(s) {
      MoveWorks(s, m, cfg);
    }
  }

  /**
    Without new calls the work ends: from any state of a run, a tail of moves is no longer than
    the work left, and one that cannot be extended has served or dropped every request.
   */
  lemma {:induction false} WorkEnds(s: State, tail: seq<Move>, cfg: Config)
    requires Located(s) && Legal(s, tail, cfg) && forall m :: m in tail ==> !m.Mark?
    ensures Located(After(s, tail, cfg))
    ensures |tail| + Work(After(s, tail, cfg)) <= Work(s)
    ensures cfg.workers > 0 && (forall m: Move :: !m.Mark? ==> !Enabled(After(s, tail, cfg), m, cfg)) ==>
              After(s, tail, cfg).queued == {}
    decreases |tail|
  {
    if tail != [] {
      var init, m := tail[..|tail| - 1], tail[|tail| - 1];
      WorkEnds(s, init, cfg);
      MoveKeepsLocated(After(s, init, cfg), m, cfg);
      assert m in tail;
      MoveWorks(After(s, init, cfg), m, cfg);
    }
    var t := After(s, tail, cfg);
    if cfg.workers > 0 && t.queued != {} {
      var m := Server(t, cfg);
    }
  }

  // ---------------------------------------------------------------- the queue object

  /** One whole `Enqueue` with nothing in between. */
  function Enqueued(s: State, b: BossId, cfg: Config): State {
    var marked := Next(s, Mark(b), cfg);
    if b in s.queued then marked else
      var sent := Next(marked, Send(b), cfg);
      if b in sent.failing then Next(sent, Discard(b), cfg) else sent
  }

  lemma EnqueuedIsLocated(s: State, b: BossId, cfg: Config)
    requires Located(s)
    ensures Located(Enqueued(s, b, cfg))
  {
    var marked := Next(s, Mark(b), cfg);
    MoveKeepsLocated(s, Mark(b), cfg);
    if b !in s.queued {
      var sent := Next(marked, Send(b), cfg);
      MoveKeepsLocated(marked, Send(b), cfg);
      if b in sent.failing {
        MoveKeepsLocated(sent, Discard(b), cfg);
      }
    }
  }

  /** The queue as one caller at a time uses it; `state` follows the moves of its goroutines. */
  class Queue {
    var queued: set<BossId>
    var ch: seq<BossId>
    const cfg: Config
    ghost var state: State

    ghost predicate Valid()
      reads this
    {
      && Located(state)
      && queued == state.queued
      && ch == state.ch
      && state.sending == {} && state.failing == {}
      && |ch| <= cfg.capacity
    }

    constructor (capacity: nat, workers: nat)
      ensures Valid() && state == IDLE && cfg == Config(capacity, workers)
    {
      queued, ch, cfg, state := {}, [], Config(capacity, workers), IDLE;
    }

    /** Coalesces with a queued request, else appends, else drops the request. */
    method Enqueue(boss: BossId)
      requires Valid()
      modifies this`queued, this`ch, this`state
      ensures Valid() && state == Enqueued(old(state), boss, cfg)
      ensures boss in old(queued) ==> queued == old(queued) && ch == old(ch)
      ensures boss !in old(queued) && |old(ch)| < cfg.capacity ==>
                queued == old(queued) + {boss} && ch == old(ch) + [boss]
      ensures boss !in old(queued) && |old(ch)| == cfg.capacity ==> queued == old(queued) && ch == old(ch)
    {
      EnqueuedIsLocated(state, boss, cfg);
      state := Enqueued(state, boss, cfg);
      if boss in queued { return; }
      queued := queued + {boss};
      if |ch| < cfg.capacity {
        ch := ch + [boss];
      } else {
        queued := queued - {boss};
      }
    }

    /** A worker receives the oldest request; until `Free` further requests merge with it. */
    method Take(worker: nat) returns (boss: BossId)
      requires Valid() && Enabled(state, Move.Take(worker), cfg)
      modifies this`ch, this`state
      ensures Valid() && state == Next(old(state), Move.Take(worker), cfg)
      ensures boss == old(ch[0]) && state.holding[worker] == boss
    {
      MoveKeepsLocated(state, Move.Take(worker), cfg);
      state := Next(state, Move.Take(worker), cfg);
      boss := ch[0];
      ch := ch[1..];
    }

    /** Frees the slot before the rebuild reads, so that a later divergence queues again. */
    method Free(worker: nat, boss: BossId)
      requires Valid() && worker in state.holding && state.holding[worker] == boss
      modifies this`queued, this`state
      ensures Valid() && state == Next(old(state), Move.Free(worker), cfg)
      ensures boss !in queued && queued == old(queued) - {boss}
    {
      MoveKeepsLocated(state, Move.Free(worker), cfg);
      state := Next(state, Move.Free(worker), cfg);
      queued := queued - {boss};
    }
  }
}
