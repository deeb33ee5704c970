/**
  The writer as an object over the durable store: `Submit`, the turns of the loops, and `commit`
  with the release of its waiters (internal/store/writer.go).
 */
module Committer {
  import opened Totals
  import opened Durable
  import Writer
  import Postgres

  /** What a caller of `Submit` learns; the last stands for any other error. */
  datatype Answer = MadeDurable | QueueFull | Failed | GaveUp | Unclassified

  predicate Recorded(events: map<nat, Event>, ids: seq<nat>) {
    forall i :: 0 <= i < |ids| ==> ids[i] in events
  }

  /** The events of a batch, in its order. */
  function EventsAt(events: map<nat, Event>, ids: seq<nat>): seq<Event>
    requires Recorded(events, ids)
  {
    seq(|ids|, i requires 0 <= i < |ids| => events[ids[i]])
  }

  lemma MoreServed(served: seq<nat>, batch: seq<nat>, rest: seq<nat>, all: seq<nat>)
    requires served + (batch + rest) == all
    ensures served + batch + rest == all
  {}

  lemma EventsAtConcat(events: map<nat, Event>, a: seq<nat>, b: seq<nat>)
    requires Recorded(events, a) && Recorded(events, b)
    ensures Recorded(events, a + b)
    ensures EventsAt(events, a + b) == EventsAt(events, a) + EventsAt(events, b)
  {}

  lemma EventsAtSnoc(events: map<nat, Event>, ids: seq<nat>, id: nat, ev: Event)
    requires Recorded(events, ids) && id !in events
    ensures Recorded(events[id := ev], ids + [id])
    ensures EventsAt(events[id := ev], ids + [id]) == EventsAt(events, ids) + [ev]
  {}

  /** What the waiters of an accepted batch are told. */
  function OutcomeOf(fate: Fate): Writer.Outcome {
    if fate == Commits then Writer.Persisted else Writer.CommitFailed
  }

  /** Events that a boss's row can take. */
  ghost predicate Fit(events: map<nat, Event>, db: Db) {
    forall id :: id in events ==> events[id].boss in db.bosses && events[id].applied >= 0
  }

  /** The store after the given requests were written in transactions that all end alike. */
  function Stored(db: Db, events: map<nat, Event>, ids: seq<nat>, now: nat, fate: Fate): Db
    requires Recorded(events, ids)
  {
    if fate == RollsBack then db else Durable.Commit(db, EventsAt(events, ids), now)
  }

  lemma FitBatch(db: Db, events: map<nat, Event>, ids: seq<nat>, now: nat, fate: Fate)
    requires Recorded(events, ids) && Fit(events, db) && Clamped(db)
    ensures Accepts(db, EventsAt(events, ids))
    ensures Fit(events, Stored(db, events, ids, now, fate)) && Clamped(Stored(db, events, ids, now, fate))
  {}

  lemma StoredNothing(db: Db, events: map<nat, Event>, now: nat, fate: Fate)
    ensures Stored(db, events, [], now, fate) == db
  {
    assert EventsAt(events, []) == [];
  }

  /** Two batches at one instant store what one would. */
  lemma StoredTwice(db: Db, events: map<nat, Event>, a: seq<nat>, b: seq<nat>, now: nat, fate: Fate)
    requires Recorded(events, a) && Recorded(events, b) && Clamped(db) && Fit(events, db)
    ensures Recorded(events, a + b)
    ensures var mid := Stored(db, events, a, now, fate);
            && Clamped(mid) && Fit(events, mid)
            && Stored(mid, events, b, now, fate) == Stored(db, events, a + b, now, fate)
  {
    EventsAtConcat(events, a, b);
    CommitTwice(db, EventsAt(events, a), EventsAt(events, b), now);
  }

  /** The log has grown by the events, every boss's totals by their damage, and its HP has fallen by it. */
  ghost predicate Moved(db: Db, db': Db, events: seq<Event>) {
    && db'.log == db.log + events
    && db'.bosses.Keys == db.bosses.Keys
    && forall b :: b in db.bosses ==>
         && Total(db'.bosses[b].totals) == Total(db.bosses[b].totals) + EventSum(events, OfBoss(b))
         && db'.bosses[b].hp == Max(0, db.bosses[b].hp - EventSum(events, OfBoss(b)))
  }

  lemma CommitIsMove(db: Db, events: seq<Event>, now: nat)
    requires Clamped(db)
    ensures Moved(db, Durable.Commit(db, events, now), events)
  {
    forall b | b in db.bosses
      ensures Total(CommitRow(db.bosses[b], b, events, now).totals) ==
              Total(db.bosses[b].totals) + EventSum(events, OfBoss(b))
      ensures CommitRow(db.bosses[b], b, events, now).hp == Max(0, db.bosses[b].hp - EventSum(events, OfBoss(b)))
    {
      CommitMoves(db.bosses[b], b, events, now);
    }
  }

  /** Two releases with one outcome. */
  lemma ReleasedTwice(done: map<nat, Writer.Outcome>, a: seq<nat>, b: seq<nat>, o: Writer.Outcome)
    ensures done + Writer.Released(a, o) + Writer.Released(b, o) == done + Writer.Released(a + b, o)
  {
    assert forall id :: id in a + b <==> id in a || id in b;
  }

  lemma ReleasedNothing(done: map<nat, Writer.Outcome>, o: Writer.Outcome)
    ensures done + Writer.Released([], o) == done
  {}

  /** What a caller learns from a full intake, from giving up, or from its transaction. */
  function AnswerOf(full: bool, gaveUp: bool, fate: Fate): Answer {
    if full then QueueFull else if gaveUp then GaveUp else if fate == Commits then MadeDurable else Failed
  }

  /** The writer once its first committer served what waited for it. */
  function Rested(v: Writer.State, fate: Fate): Writer.State
    requires |v.lanes| > 0
  {
    v.(queue := [], lanes := v.lanes[0 := Writer.IDLE_LANE],
       done := v.done + Writer.Released(v.lanes[0].batch + v.queue, OutcomeOf(fate)))
  }

  /** The writer after a call that was answered `a`, the request being `id`. */
  function SubmittedState(v: Writer.State, id: nat, a: Answer, fate: Fate): Writer.State
    requires |v.lanes| > 0
  {
    var accepted := v.(queue := v.queue + [id], accepted := v.accepted + {id});
    match a
    case QueueFull => v
    case GaveUp => accepted
    case _ => Rested(accepted, fate)
  }

  class GroupWriter {
    const pg: Postgres.PostgresStore
    const cfg: Writer.Config
    var queue: seq<nat>
    var closed: bool
    var lanes: seq<Writer.Lane>
    var done: map<nat, Writer.Outcome>
    var events: map<nat, Event>
    var issued: nat
    ghost var accepted: set<nat>

    ghost function View(): Writer.State
      reads this
    {
      Writer.State(queue, closed, lanes, accepted, done)
    }

    ghost predicate Valid()
      reads this
    {
      && cfg.maxBatch > 0
      && |lanes| > 0
      && Writer.Ok(View(), cfg)
      && accepted <= events.Keys
      && (forall id :: id in events ==> id < issued)
    }

    /** Every submitted event is one that Postgres accepts. */
    ghost predicate Fitting()
      reads this, pg
    {
      Fit(events, pg.View()) && Clamped(pg.View())
    }

    /** The requests that the first committer would serve if it were left alone. */
    ghost function Pending(): seq<nat>
      reads this
      requires Valid()
    {
      lanes[0].batch + queue
    }

    lemma PendingIsRecorded()
      requires Valid()
      ensures Recorded(events, Pending())
    {
      Writer.BatchIsUnreleased(View(), 0);
      Writer.QueueIsAccepted(View());
      forall i | 0 <= i < |Pending()| ensures Pending()[i] in events {
        assert Pending()[i] in lanes[0].batch || Pending()[i] in queue;
      }
    }

    ghost function PendingEvents(): seq<Event>
      reads this
      requires Valid()
    {
      PendingIsRecorded();
      EventsAt(events, Pending())
    }

    /** A concurrency below one is raised to one. */
    constructor (pg: Postgres.PostgresStore, cfg: Writer.Config, concurrency: int)
      requires cfg.maxBatch > 0
      ensures Valid() && (Clamped(pg.View()) ==> Fitting()) && this.pg == pg && this.cfg == cfg
      ensures View() == Writer.Start(if concurrency < 1 then 1 else concurrency)
      ensures |lanes| == if concurrency < 1 then 1 else concurrency
    {
      var n := if concurrency < 1 then 1 else concurrency;
      this.pg, this.cfg := pg, cfg;
      queue, closed, done, events, issued, accepted := [], false, map[], map[], 0, {};
      lanes := Writer.Start(n).lanes;
      new;
      Writer.StartIsOk(n, cfg);
    }

    /** The non-blocking send of `Submit`; a full intake refuses and remembers nothing. */
    method Offer(ev: Event) returns (id: nat, full: bool)
      requires Valid() && !closed
      modifies this`queue, this`events, this`issued, this`accepted
      ensures Valid() && id == old(issued) && id !in old(events)
      ensures full <==> |old(queue)| >= cfg.capacity
      ensures View() == if full then old(View()) else Writer.Next(old(View()), Writer.Accept(id), cfg)
      ensures events == if full then old(events) else old(events)[id := ev]
    {
      id, full := issued, |queue| >= cfg.capacity;
      if !full {
        Writer.NextKeepsOk(View(), Writer.Accept(id), cfg);
        queue, events, issued, accepted := queue + [id], events[id := ev], issued + 1, accepted + {id};
      }
    }

    /** One receive of loop `k`, up to the decision to flush. */
    method Receive(k: nat)
      requires Valid() && Writer.Enabled(View(), Writer.Receive(k), cfg)
      modifies this`queue, this`lanes
      ensures Valid() && View() == Writer.Next(old(View()), Writer.Receive(k), cfg)
    {
      Writer.NextKeepsOk(View(), Writer.Receive(k), cfg);
      var lane, id := lanes[k], queue[0];
      queue := queue[1..];
      var batch := lane.batch + [id];
      lane := lane.(batch := batch);
      if |batch| >= cfg.maxBatch {
        lane := lane.(mode := Writer.Flushing);
      } else if !lane.timer {
        lane := lane.(timer := true);
      }
      lanes := lanes[k := lane];
    }

    /** One timer event of loop `k`. */
    method Tick(k: nat)
      requires Valid() && Writer.Enabled(View(), Writer.Tick(k), cfg)
      modifies this`lanes
      ensures Valid() && View() == Writer.Next(old(View()), Writer.Tick(k), cfg)
    {
      Writer.NextKeepsOk(View(), Writer.Tick(k), cfg);
      var lane := lanes[k].(timer := false);
      if lane.batch != [] {
        lane := lane.(mode := Writer.Flushing);
      }
      lanes := lanes[k := lane];
    }

    /** The deferred loop over the batch: one send on each waiter's channel, none of them blocking. */
    method Release(batch: seq<nat>, outcome: Writer.Outcome)
      requires Writer.Distinct(batch)
      requires forall i :: 0 <= i < |batch| ==> batch[i] !in done
      modifies this`done
      ensures done == old(done) + Writer.Released(batch, outcome)
    {
      for i := 0 to |batch|
        invariant forall id :: id in done <==> id in old(done) || id in batch[..i]
        invariant forall id :: id in done ==> done[id] == if id in batch[..i] then outcome else old(done)[id]
      {
        assert batch[i] !in done;
        done := done[batch[i] := outcome];
      }
    }

    /**
      `commit` of loop `k`: one transaction, then the deferred release of every waiter of the
      batch. A panic anywhere in between is recovered and reported as a failure, whatever the
      transaction did. No waiter had been released before, so no send blocks.
     */
    method Commit(k: nat, now: nat, fate: Fate, panics: bool)
      requires Valid() && k < |lanes| && !Writer.AtSelect(lanes[k])
      modifies this`lanes, this`done, pg
      ensures Valid()
      ensures Recorded(old(events), old(lanes[k].batch))
      ensures forall i :: 0 <= i < |old(lanes[k].batch)| ==> old(lanes[k].batch)[i] !in old(done)
      ensures var evs := EventsAt(old(events), old(lanes[k].batch));
              var persisted := !panics && fate == Commits && Accepts(old(pg.View()), evs);
              && View() == Writer.Next(old(View()),
                   Writer.Flush(k, if persisted then Writer.Persisted else Writer.CommitFailed), cfg)
              && pg.View() == if fate != RollsBack && Accepts(old(pg.View()), evs)
                              then Durable.Commit(old(pg.View()), evs, now) else old(pg.View())
    {
      var batch := lanes[k].batch;
      Writer.BatchIsUnreleased(View(), k);
      forall i | 0 <= i < |batch| ensures batch[i] in events && batch[i] !in done { assert batch[i] in batch; }
      var failed, _ := pg.CommitBatch(EventsAt(events, batch), now, fate);
      if panics {
        failed := true;
      }
      var outcome := if failed then Writer.CommitFailed else Writer.Persisted;
      Writer.NextKeepsOk(View(), Writer.Flush(k, outcome), cfg);
      Release(batch, outcome);
      lanes := lanes[k := Writer.Flushed(lanes[k])];
    }

    /** The commit of loop `k` of what it gathered, all of it acceptable. */
    method FlushLane(k: nat, now: nat, fate: Fate)
      requires Valid() && Fitting() && k < |lanes| && !Writer.AtSelect(lanes[k])
      modifies this`lanes, this`done, pg
      ensures Valid() && Fitting() && View() == Writer.Next(old(View()), Writer.Flush(k, OutcomeOf(fate)), cfg)
      ensures Recorded(events, old(lanes[k].batch))
      ensures pg.View() == Stored(old(pg.View()), events, old(lanes[k].batch), now, fate)
    {
      ghost var batch := lanes[k].batch;
      Writer.BatchIsUnreleased(View(), k);
      forall i | 0 <= i < |batch| ensures batch[i] in events { assert batch[i] in batch; }
      FitBatch(pg.View(), events, batch, now, fate);
      Commit(k, now, fate, false);
    }

    /** Since the store was `before` and the outcomes `done0`, exactly `served` was written and released. */
    ghost predicate Wrote(served: seq<nat>, before: Db, done0: map<nat, Writer.Outcome>, now: nat, fate: Fate)
      reads this, pg
    {
      && Recorded(events, served)
      && Fit(events, before) && Clamped(before)
      && pg.View() == Stored(before, events, served, now, fate)
      && done == done0 + Writer.Released(served, OutcomeOf(fate))
    }

    lemma WroteNothing(now: nat, fate: Fate)
      requires Fitting()
      ensures Wrote([], pg.View(), done, now, fate)
    {
      StoredNothing(pg.View(), events, now, fate);
      ReleasedNothing(done, OutcomeOf(fate));
    }

    /** One batch more. */
    method WriteMore(k: nat, now: nat, fate: Fate,
                     ghost served: seq<nat>, ghost before: Db, ghost done0: map<nat, Writer.Outcome>)
      requires Valid() && Fitting() && k < |lanes| && !Writer.AtSelect(lanes[k])
      requires Wrote(served, before, done0, now, fate)
      modifies this`lanes, this`done, pg
      ensures Valid() && Fitting() && View() == Writer.Next(old(View()), Writer.Flush(k, OutcomeOf(fate)), cfg)
      ensures Wrote(served + old(lanes[k].batch), before, done0, now, fate)
    {
      ghost var batch := lanes[k].batch;
      FlushLane(k, now, fate);
      StoredTwice(before, events, served, batch, now, fate);
      ReleasedTwice(done0, served, batch, OutcomeOf(fate));
    }

    /** The first committer's next receive or, when there is none, its timer. */
    method GatherFirst()
      requires Valid() && !closed && lanes[0].mode == Writer.Selecting && Pending() != []
      modifies this`queue, this`lanes
      ensures Valid() && Pending() == old(Pending()) && lanes == old(lanes)[0 := lanes[0]]
      ensures |queue| < |old(queue)| || (queue == old(queue) && lanes[0].mode == Writer.Flushing)
    {
      if queue != [] {
        Receive(0);
      } else {
        Tick(0);
      }
    }

    /** How much the first committer still has to do. */
    ghost function Effort(): nat
      reads this
      requires Valid()
    {
      2 * |Pending()| + |queue| + if lanes[0].mode == Writer.Selecting then 1 else 0
    }

    /** The first committer's next turn, after it served `served`; `batch` is what it commits, if anything. */
    method TurnFirst(now: nat, fate: Fate,
                     ghost served: seq<nat>, ghost before: Db, ghost done0: map<nat, Writer.Outcome>)
      returns (ghost batch: seq<nat>)
      requires Valid() && !closed && Fitting() && Pending() != []
      requires Wrote(served, before, done0, now, fate)
      modifies this`queue, this`lanes, this`done, pg
      ensures Valid() && Fitting() && Effort() < old(Effort())
      ensures old(Pending()) == batch + Pending() && lanes == old(lanes)[0 := lanes[0]]
      ensures Wrote(served + batch, before, done0, now, fate)
    {
      if lanes[0].mode == Writer.Flushing {
        batch := lanes[0].batch;
        WriteMore(0, now, fate, served, before, done0);
      } else {
        GatherFirst();
        batch := [];
        assert served + [] == served;
      }
    }

    /**
      The first committer at work until nothing waits for it, every transaction ending alike. The
      other committers, and what they hold, are left alone.
     */
    method Serve(now: nat, fate: Fate)
      requires Valid() && !closed && Fitting()
      modifies this`queue, this`lanes, this`done, pg
      ensures Valid() && Fitting() && Pending() == []
      ensures View() == Rested(old(View()), fate)
      ensures Recorded(events, old(Pending()))
      ensures pg.View() == Stored(old(pg.View()), events, old(Pending()), now, fate)
    {
      ghost var served: seq<nat>, all, before, done0 := [], Pending(), pg.View(), done;
      WroteNothing(now, fate);
      while queue != [] || lanes[0].batch != []
        invariant Valid() && Fitting() && lanes == old(lanes)[0 := lanes[0]]
        invariant served + Pending() == all
        invariant Wrote(served, before, done0, now, fate)
        decreases Effort()
      {
        ghost var batch := TurnFirst(now, fate, served, before, done0);
        MoreServed(served, batch, Pending(), all);
        served := served + batch;
      }
      assert served == all;
    }

    /**
      The call as one caller sees it: refused at once by a full intake, or waiting for the batch
      with its event while the first committer works, unless the caller gives up.
     */
    method Submit(ev: Event, now: nat, gaveUp: bool, fate: Fate) returns (a: Answer)
      requires Valid() && !closed && Fitting() && ev.boss in pg.bosses && ev.applied >= 0
      modifies this, pg
      ensures Valid() && !closed && Fitting()
      ensures a == AnswerOf(|old(queue)| >= cfg.capacity, gaveUp, fate)
      ensures View() == SubmittedState(old(View()), old(issued), a, fate)
      ensures old(issued) !in old(events)
      ensures events == if a == QueueFull then old(events) else old(events)[old(issued) := ev]
      ensures a == QueueFull ==> pg.View() == old(pg.View())
      ensures a == GaveUp ==> PendingEvents() == old(PendingEvents()) + [ev] && pg.View() == old(pg.View())
      ensures a == MadeDurable || a == Failed ==>
                && Pending() == []
                && pg.View() == if fate == RollsBack then old(pg.View())
                                else Durable.Commit(old(pg.View()), old(PendingEvents()) + [ev], now)
    {
      ghost var pending := Pending();
      PendingIsRecorded();
      var id, full := Offer(ev);
      if full { return QueueFull; }
      assert Pending() == pending + [id];
      EventsAtSnoc(old(events), pending, id, ev);
      if gaveUp { return GaveUp; }
      Serve(now, fate);
      assert id in old(Pending()) + [id];
      a := if done[id] == Writer.Persisted then MadeDurable else Failed;
    }

    /** Loop `k` sees the intake closed: it flushes what it has, or returns. */
    method SeeClosed(k: nat)
      requires Valid() && Writer.Enabled(View(), Writer.SeeClosed(k), cfg)
      modifies this`lanes
      ensures Valid() && View() == Writer.Next(old(View()), Writer.SeeClosed(k), cfg)
    {
      Writer.NextKeepsOk(View(), Writer.SeeClosed(k), cfg);
      lanes := lanes[k := lanes[k].(mode := if lanes[k].batch == [] then Writer.Returned else Writer.Draining)];
    }

    /** Each of them once, and none that had its outcome before. */
    ghost predicate OnceSince(served: seq<nat>, done0: map<nat, Writer.Outcome>) {
      Writer.Distinct(served) && forall id :: id in served ==> id !in done0
    }

    lemma OnceMore(served: seq<nat>, batch: seq<nat>, done0: map<nat, Writer.Outcome>, k: nat)
      requires Valid() && k < |lanes| && batch == lanes[k].batch
      requires OnceSince(served, done0)
      requires (forall id :: id in served ==> id in done) && (forall id :: id in done0 ==> id in done)
      ensures OnceSince(served + batch, done0)
    {
      Writer.BatchIsUnreleased(View(), k);
      assert forall i :: 0 <= i < |batch| ==> batch[i] in batch;
      assert forall i :: 0 <= i < |served| ==> served[i] in served;
    }

    /** One turn of loop `k` after the intake was closed; `served` was written since. */
    method WindDown(k: nat, now: nat, fate: Fate,
                    ghost served: seq<nat>, ghost before: Db, ghost done0: map<nat, Writer.Outcome>)
      returns (ghost served': seq<nat>)
      requires Valid() && Fitting() && closed && k < |lanes| && lanes[k].mode != Writer.Returned
      requires Wrote(served, before, done0, now, fate) && OnceSince(served, done0)
      modifies this`queue, this`lanes, this`done, pg
      ensures Valid() && Fitting() && Writer.Work(View()) < old(Writer.Work(View())) && |lanes| == |old(lanes)|
      ensures Wrote(served', before, done0, now, fate) && OnceSince(served', done0)
    {
      Writer.StopDrains(View(), cfg);
      served' := served;
      if lanes[k].mode == Writer.Selecting {
        if queue != [] { Receive(k); } else { SeeClosed(k); }
      } else {
        served' := served + lanes[k].batch;
        OnceMore(served, lanes[k].batch, done0, k);
        WriteMore(k, now, fate, served, before, done0);
      }
    }

    /** Waits for the loops, once the intake is closed. */
    method AwaitLoops(now: nat, fate: Fate) returns (ghost served: seq<nat>)
      requires Valid() && Fitting() && closed
      modifies this`queue, this`lanes, this`done, pg
      ensures Valid() && Fitting() && Writer.AllReturned(View()) && |lanes| == |old(lanes)|
      ensures Wrote(served, old(pg.View()), old(done), now, fate) && OnceSince(served, old(done))
    {
      served := [];
      ghost var before, done0 := pg.View(), done;
      WroteNothing(now, fate);
      while exists k :: 0 <= k < |lanes| && lanes[k].mode != Writer.Returned
        invariant Valid() && Fitting() && closed && |lanes| == |old(lanes)|
        invariant Wrote(served, before, done0, now, fate) && OnceSince(served, done0)
        decreases Writer.Work(View())
      {
        var k :| 0 <= k < |lanes| && lanes[k].mode != Writer.Returned;
        served := WindDown(k, now, fate, served, before, done0);
      }
    }

    /**
      Closes the intake and waits for the loops. Every one of them returns, and what was buffered
      is written, each request once, in transactions that together store what one would.
     */
    method Stop(now: nat, fate: Fate) returns (ghost served: seq<nat>)
      requires Valid() && Fitting()
      modifies this`closed, this`queue, this`lanes, this`done, pg
      ensures Valid() && closed && Writer.AllReturned(View()) && |lanes| == |old(lanes)|
      ensures queue == [] && done.Keys == accepted
      ensures Writer.Distinct(served) && forall id :: id in served <==> id in accepted && id !in old(done)
      ensures done == old(done) + Writer.Released(served, OutcomeOf(fate))
      ensures Recorded(events, served) && pg.View() == Stored(old(pg.View()), events, served, now, fate)
      ensures fate != RollsBack ==> Moved(old(pg.View()), pg.View(), EventsAt(events, served))
    {
      closed := true;
      served := AwaitLoops(now, fate);
      Writer.StopDrains(View(), cfg);
      if fate != RollsBack { CommitIsMove(old(pg.View()), EventsAt(events, served), now); }
    }
  }
}
