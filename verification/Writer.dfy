/**
  The group-commit writer (internal/store/writer.go): a bounded intake shared by N committer
  loops ("lanes"), each with a private batch, a size limit and a timer. A request is a number;
  `done` records what was sent on its capacity-1 channel.
 */
module Writer {
  import opened Durable

  /** What a waiter receives: nil, or an error tagged `ErrCommitFailed`. */
  datatype Outcome = Persisted | CommitFailed

  /** At the select, inside a flush, inside the last flush after the intake closed, returned. */
  datatype Mode = Selecting | Flushing | Draining | Returned

  datatype Lane = Lane(batch: seq<nat>, timer: bool, mode: Mode)

  const IDLE_LANE := Lane([], false, Selecting)

  // ---------------------------------------------------------------- one turn of the loop

  function Received(lane: Lane, id: nat, maxBatch: nat): Lane {
    var batch := lane.batch + [id];
    if |batch| >= maxBatch then lane.(batch := batch, mode := Flushing)
    else lane.(batch := batch, timer := true)
  }

  function Fired(lane: Lane): Lane {
    lane.(timer := false, mode := if lane.batch == [] then Selecting else Flushing)
  }

  function SawClose(lane: Lane): Lane {
    lane.(mode := if lane.batch == [] then Returned else Draining)
  }

  function Flushed(lane: Lane): Lane {
    Lane([], false, if lane.mode == Draining then Returned else Selecting)
  }

  predicate AtSelect(lane: Lane) {
    lane.mode == Selecting || lane.mode == Returned
  }

  /** At the select the timer runs exactly when a batch has started, and that batch is not full. */
  predicate LaneOk(lane: Lane, maxBatch: nat) {
    match lane.mode
    case Selecting => |lane.batch| < maxBatch && (lane.timer <==> lane.batch != [])
    case Returned => lane.batch == [] && !lane.timer
    case _ => 0 < |lane.batch| <= maxBatch
  }

  // ---------------------------------------------------------------- a whole loop

  /** What one `select` of the loop saw. */
  datatype Select = Request(id: nat) | Timer | Closed

  datatype Trace = Trace(commits: seq<seq<nat>>, lane: Lane)

  function Finish(t: Trace): Trace {
    if AtSelect(t.lane) then t else Trace(t.commits + [t.lane.batch], Flushed(t.lane))
  }

  function Turned(lane: Lane, s: Select, maxBatch: nat): Lane {
    match s
    case Request(id) => Received(lane, id, maxBatch)
    case Timer => Fired(lane)
    case Closed => SawClose(lane)
  }

  function React(t: Trace, s: Select, maxBatch: nat): Trace {
    if t.lane.mode == Returned then t else
      Finish(t.(lane := Turned(t.lane, s, maxBatch)))
  }

  function Replay(selects: seq<Select>, maxBatch: nat): Trace {
    if selects == [] then Trace([], IDLE_LANE) else
      React(Replay(selects[..|selects| - 1], maxBatch), selects[|selects| - 1], maxBatch)
  }

  /** The requests received before the intake was seen closed, in order. */
  function Requests(selects: seq<Select>): seq<nat> {
    if selects == [] then [] else
      var init, s := selects[..|selects| - 1], selects[|selects| - 1];
      if s.Request? && Closed !in init then Requests(init) + [s.id] else Requests(init)
  }

  /** `received` is either committed, in order, or still in the batch at the select. */
  ghost predicate HeadOk(t: Trace, received: seq<nat>, maxBatch: nat) {
    && AtSelect(t.lane) && LaneOk(t.lane, maxBatch)
    && Flatten(t.commits) + t.lane.batch == received
    && (forall c :: c in t.commits ==> 0 < |c| <= maxBatch)
  }

  /** Finishing a turn commits the batch or leaves it, and drops nothing. */
  lemma FinishKeepsHead(t: Trace, received: seq<nat>, maxBatch: nat)
    requires LaneOk(t.lane, maxBatch)
    requires Flatten(t.commits) + t.lane.batch == received
    requires forall c :: c in t.commits ==> 0 < |c| <= maxBatch
    ensures HeadOk(Finish(t), received, maxBatch)
    ensures |Flatten(Finish(t).commits)| >= |Flatten(t.commits)|
    ensures Finish(t).lane.mode == Returned <==> t.lane.mode in {Draining, Returned}
  {
    FlattenSnoc(t.commits, t.lane.batch);
  }

  lemma ReactKeepsHead(t: Trace, s: Select, received: seq<nat>, maxBatch: nat)
    requires HeadOk(t, received, maxBatch) && t.lane.mode == Selecting
    ensures HeadOk(React(t, s, maxBatch), if s.Request? then received + [s.id] else received, maxBatch)
    ensures React(t, s, maxBatch).lane.mode == Returned <==> s.Closed?
    ensures |Flatten(React(t, s, maxBatch).commits)| >= |Flatten(t.commits)|
    ensures s.Timer? ==> React(t, s, maxBatch).lane.batch == []
  {
    var turned := t.(lane := Turned(t.lane, s, maxBatch));
    if s.Request? {
      assert Flatten(t.commits) + (t.lane.batch + [s.id]) == received + [s.id];
    }
    FinishKeepsHead(turned, if s.Request? then received + [s.id] else received, maxBatch);
  }

  /**
    At every loop head: nothing received is lost or reordered, every commit has between one and
    `maxBatch` requests, fewer than `maxBatch` wait, and once the loop saw the intake closed it
    has flushed everything and returned.
   */
  lemma {:induction false} LoopHead(selects: seq<Select>, maxBatch: nat)
    requires maxBatch > 0
    ensures HeadOk(Replay(selects, maxBatch), Requests(selects), maxBatch)
    ensures Replay(selects, maxBatch).lane.mode == Returned <==> Closed in selects
  {
    if selects != [] {
      var init, s := selects[..|selects| - 1], selects[|selects| - 1];
      assert selects == init + [s];
      LoopHead(init, maxBatch);
      var t := Replay(init, maxBatch);
      if t.lane.mode == Selecting {
        ReactKeepsHead(t, s, Requests(init), maxBatch);
      }
    }
  }

  /**
    Size is the only thing that makes a receive commit: with the request that fills it the whole
    batch is committed, any other request only joins the batch and has the timer running.
   */
  lemma ReceiveCommitsFullBatch(selects: seq<Select>, id: nat, maxBatch: nat)
    requires maxBatch > 0 && Closed !in selects
    ensures var t, u := Replay(selects, maxBatch), Replay(selects + [Request(id)], maxBatch);
            var batch := t.lane.batch + [id];
            if |batch| == maxBatch then u == Trace(t.commits + [batch], IDLE_LANE)
            else u == Trace(t.commits, Lane(batch, true, Selecting))
  {
    LoopHead(selects, maxBatch);
    assert (selects + [Request(id)])[..|selects|] == selects;
  }

  /** A timer event, and the close, commit exactly the batch there is; an empty one is no commit. */
  lemma TimerCommitsBatch(selects: seq<Select>, s: Select, maxBatch: nat)
    requires maxBatch > 0 && Closed !in selects && !s.Request?
    ensures var t, u := Replay(selects, maxBatch), Replay(selects + [s], maxBatch);
            && u.commits == t.commits + (if t.lane.batch == [] then [] else [t.lane.batch])
            && u.lane == Lane([], false, if s.Closed? then Returned else Selecting)
  {
    LoopHead(selects, maxBatch);
    assert (selects + [s])[..|selects|] == selects;
  }

  /** The first timer event after a request commits it, whatever happens in between. */
  lemma {:induction false} TimerFlushes(before: seq<Select>, after: seq<Select>, maxBatch: nat)
    requires maxBatch > 0
    ensures |Flatten(Replay(before + [Timer] + after, maxBatch).commits)| >= |Requests(before)|
    decreases |after|
  {
    var whole := before + [Timer] + after;
    var init, s := whole[..|whole| - 1], whole[|whole| - 1];
    var t := Replay(init, maxBatch);
    LoopHead(init, maxBatch);
    if after == [] {
      assert init == before;
    } else {
      assert init == before + [Timer] + after[..|after| - 1];
      TimerFlushes(before, after[..|after| - 1], maxBatch);
    }
    if t.lane.mode == Selecting {
      ReactKeepsHead(t, s, Requests(init), maxBatch);
    }
  }

  /** A request is committed at the latest with the `maxBatch`-th request counted from it. */
  lemma SizeFlushes(selects: seq<Select>, maxBatch: nat)
    requires maxBatch > 0
    ensures |Flatten(Replay(selects, maxBatch).commits)| > |Requests(selects)| - maxBatch
  {
    LoopHead(selects, maxBatch);
  }

  lemma {:induction false} ReturnedIsFinal(selects: seq<Select>, n: nat, maxBatch: nat)
    requires n <= |selects|
    requires n == |selects| || Replay(selects[..n], maxBatch).lane.mode == Returned
    ensures Replay(selects, maxBatch) == Replay(selects[..n], maxBatch)
    decreases |selects|
  {
    if n == |selects| {
      assert selects[..n] == selects;
    } else {
      var init := selects[..|selects| - 1];
      assert init[..n] == selects[..n];
      ReturnedIsFinal(init, n, maxBatch);
    }
  }

  /** `loop`: the goroutine, fed the outcomes of its selects. */
  method Loop(maxBatch: nat, selects: seq<Select>)
    returns (commits: seq<seq<nat>>, batch: seq<nat>, timerActive: bool, returned: bool)
    requires maxBatch > 0
    ensures Flatten(commits) + batch == Requests(selects)
    ensures forall c :: c in commits ==> 0 < |c| <= maxBatch
    ensures |batch| < maxBatch && (timerActive <==> batch != [])
    ensures returned <==> Closed in selects
    ensures returned ==> batch == []
    ensures commits == Replay(selects, maxBatch).commits
  {
    commits, batch, timerActive, returned := [], [], false, false;
    var n := 0;
    while n < |selects| && !returned
      invariant n <= |selects|
      invariant Replay(selects[..n], maxBatch) ==
                Trace(commits, Lane(batch, timerActive, if returned then Returned else Selecting))
    {
      assert selects[..n + 1][..n] == selects[..n];
      match selects[n] {
        case Closed =>
          if batch != [] {
            commits := commits + [batch];
            batch := [];
            timerActive := false;
          }
          returned := true;
        case Request(id) =>
          batch := batch + [id];
          if |batch| >= maxBatch {
            commits := commits + [batch];
            batch := [];
            timerActive := false;
          } else if !timerActive {
            timerActive := true;
          }
        case Timer =>
          timerActive := false;
          if batch != [] {
            commits := commits + [batch];
            batch := [];
          }
      }
      n := n + 1;
    }
    ReturnedIsFinal(selects, n, maxBatch);
    LoopHead(selects, maxBatch);
  }

  // ---------------------------------------------------------------- the shared writer

  datatype Config = Config(capacity: nat, maxBatch: nat)

  /** `accepted` remembers every request the intake took. */
  datatype State = State(
    queue: seq<nat>,
    closed: bool,
    lanes: seq<Lane>,
    accepted: set<nat>,
    done: map<nat, Outcome>)

  datatype Move =
    | Accept(id: nat)
    | Receive(lane: nat)
    | Tick(lane: nat)
    | SeeClosed(lane: nat)
    | Flush(lane: nat, outcome: Outcome)
    | Close

  function InLane(s: State, k: nat): Mode {
    if k < |s.lanes| then s.lanes[k].mode else Returned
  }

  predicate Enabled(s: State, m: Move, cfg: Config) {
    match m
    case Accept(id) => !s.closed && id !in s.accepted && |s.queue| < cfg.capacity
    case Receive(k) => InLane(s, k) == Selecting && s.queue != []
    case Tick(k) => InLane(s, k) == Selecting && s.lanes[k].timer
    case SeeClosed(k) => InLane(s, k) == Selecting && s.closed && s.queue == []
    case Flush(k, _) => InLane(s, k) == Flushing || InLane(s, k) == Draining
    case Close => !s.closed
  }

  function Released(batch: seq<nat>, outcome: Outcome): map<nat, Outcome> {
    map id | id in batch :: outcome
  }

  function Next(s: State, m: Move, cfg: Config): State
    requires Enabled(s, m, cfg)
  {
    match m
    case Accept(id) => s.(queue := s.queue + [id], accepted := s.accepted + {id})
    case Receive(k) =>
      s.(queue := s.queue[1..], lanes := s.lanes[k := Received(s.lanes[k], s.queue[0], cfg.maxBatch)])
    case Tick(k) => s.(lanes := s.lanes[k := Fired(s.lanes[k])])
    case SeeClosed(k) => s.(lanes := s.lanes[k := SawClose(s.lanes[k])])
    case Flush(k, outcome) =>
      s.(done := s.done + Released(s.lanes[k].batch, outcome), lanes := s.lanes[k := Flushed(s.lanes[k])])
    case Close => s.(closed := true)
  }

  function Start(lanes: nat): State {
    State([], false, seq(lanes, i => IDLE_LANE), {}, map[])
  }

  function Held(lanes: seq<Lane>): multiset<nat> {
    if lanes == [] then multiset{} else
      Held(lanes[..|lanes| - 1]) + multiset(lanes[|lanes| - 1].batch)
  }

  /** Every accepted request is in exactly one place, once: the queue, one batch, or released. */
  predicate Conserved(s: State) {
    multiset(s.queue) + Held(s.lanes) + multiset(s.done.Keys) == multiset(s.accepted)
  }

  /** The bounds on queue and batches, and nothing comes in once a loop saw the intake closed. */
  predicate Fits(s: State, cfg: Config) {
    && |s.queue| <= cfg.capacity
    && (forall k :: 0 <= k < |s.lanes| ==> LaneOk(s.lanes[k], cfg.maxBatch))
    && (forall k :: 0 <= k < |s.lanes| && s.lanes[k].mode in {Draining, Returned} ==> s.closed && s.queue == [])
  }

  predicate Ok(s: State, cfg: Config) {
    Conserved(s) && Fits(s, cfg)
  }

  lemma Exchange(rest: multiset<nat>, tail: multiset<nat>, gone: multiset<nat>, come: multiset<nat>)
    requires gone <= rest
    ensures rest - gone + come + tail == rest + tail - gone + come
    ensures gone <= rest + tail
  {}

  lemma {:induction false} HeldUpdate(lanes: seq<Lane>, k: nat, lane: Lane)
    requires k < |lanes|
    ensures multiset(lanes[k].batch) <= Held(lanes)
    ensures Held(lanes[k := lane]) == Held(lanes) - multiset(lanes[k].batch) + multiset(lane.batch)
  {
    var last := |lanes| - 1;
    var init, tail := lanes[..last], multiset(lanes[last].batch);
    if k == last {
      assert lanes[k := lane][..last] == init;
      Exchange(tail, Held(init), tail, multiset(lane.batch));
    } else {
      assert lanes[k := lane][..last] == init[k := lane];
      HeldUpdate(init, k, lane);
      Exchange(Held(init), tail, multiset(lanes[k].batch), multiset(lane.batch));
    }
  }

  predicate Distinct(ids: seq<nat>) {
    forall i, j :: 0 <= i < j < |ids| ==> ids[i] != ids[j]
  }

  lemma OnceIsDistinct(ids: seq<nat>, within: set<nat>)
    requires multiset(ids) <= multiset(within)
    ensures Distinct(ids)
    ensures forall id :: id in ids ==> id in within
  {
    forall i, j | 0 <= i < j < |ids| ensures ids[i] != ids[j] {
      assert ids == ids[..i] + ([ids[i]] + (ids[i + 1..j] + ([ids[j]] + ids[j + 1..])));
      assert multiset(ids)[ids[i]] >= if ids[i] == ids[j] then 2 else 1;
    }
    forall id | id in ids ensures id in within {
      assert id in multiset(ids);
    }
  }

  /** A batch holds distinct accepted requests and none of them has its outcome yet. */
  lemma BatchIsUnreleased(s: State, k: nat)
    requires Conserved(s) && k < |s.lanes|
    ensures Distinct(s.lanes[k].batch)
    ensures forall id :: id in s.lanes[k].batch ==> id in s.accepted && id !in s.done
  {
    HeldUpdate(s.lanes, k, s.lanes[k]);
    OnceIsDistinct(s.lanes[k].batch, s.accepted);
    forall id | id in s.lanes[k].batch ensures id !in s.done {
      assert id in multiset(s.lanes[k].batch);
      assert multiset(s.accepted)[id] >= multiset(s.lanes[k].batch)[id] + multiset(s.done.Keys)[id];
    }
  }

  lemma QueueIsAccepted(s: State)
    requires Conserved(s)
    ensures forall id :: id in s.queue ==> id in s.accepted
  {
    forall id | id in s.queue ensures id in s.accepted {
      assert id in multiset(s.queue);
      assert multiset(s.accepted)[id] >= multiset(s.queue)[id];
    }
  }

  lemma {:induction false} NothingHeld(lanes: seq<Lane>)
    requires forall k :: 0 <= k < |lanes| ==> lanes[k].batch == []
    ensures Held(lanes) == multiset{}
  {
    if lanes != [] { NothingHeld(lanes[..|lanes| - 1]); }
  }

  lemma {:induction false} StartIsOk(lanes: nat, cfg: Config)
    requires cfg.maxBatch > 0
    ensures Ok(Start(lanes), cfg)
  {
    NothingHeld(Start(lanes).lanes);
  }

  lemma DisjointUnion(a: set<nat>, b: set<nat>)
    requires a !! b
    ensures multiset(a + b) == multiset(a) + multiset(b)
  {}

  lemma {:induction false} DistinctIsSet(ids: seq<nat>)
    requires Distinct(ids)
    ensures multiset(ids) == multiset(set id | id in ids)
  {
    if ids != [] {
      var init, id := ids[..|ids| - 1], ids[|ids| - 1];
      DistinctIsSet(init);
      assert ids == init + [id];
      assert (set x | x in ids) == (set x | x in init) + {id};
      assert id !in init;
    }
  }

  lemma ReleaseMoves(s: State, k: nat, outcome: Outcome)
    requires Conserved(s) && k < |s.lanes|
    ensures multiset((s.done + Released(s.lanes[k].batch, outcome)).Keys) ==
            multiset(s.done.Keys) + multiset(s.lanes[k].batch)
  {
    var ids := set id | id in s.lanes[k].batch;
    BatchIsUnreleased(s, k);
    DistinctIsSet(s.lanes[k].batch);
    DisjointUnion(s.done.Keys, ids);
    assert (s.done + Released(s.lanes[k].batch, outcome)).Keys == s.done.Keys + ids;
  }

  lemma AcceptConserves(s: State, id: nat, cfg: Config)
    requires Conserved(s) && Enabled(s, Accept(id), cfg)
    ensures Conserved(Next(s, Accept(id), cfg))
  {
    DisjointUnion(s.accepted, {id});
  }

  lemma HeadAndTail(queue: seq<nat>)
    requires queue != []
    ensures multiset(queue) == multiset{queue[0]} + multiset(queue[1..])
  {
    assert queue == [queue[0]] + queue[1..];
  }

  /** Moving the head of the queue to the end of a batch. */
  lemma ReceiveConserves(s: State, k: nat, lane: Lane)
    requires Conserved(s) && k < |s.lanes| && s.queue != []
    requires lane.batch == s.lanes[k].batch + [s.queue[0]]
    ensures Conserved(s.(queue := s.queue[1..], lanes := s.lanes[k := lane]))
  {
    HeadAndTail(s.queue);
    HeldUpdate(s.lanes, k, lane);
    var rest, head, batch := multiset(s.queue[1..]), multiset{s.queue[0]}, multiset(s.lanes[k].batch);
    assert multiset(lane.batch) == batch + head;
    var others := Held(s.lanes) - batch;
    assert Held(s.lanes) == others + batch;
    assert rest + (others + (batch + head)) == (head + rest) + (others + batch);
  }

  lemma FlushConserves(s: State, k: nat, outcome: Outcome, cfg: Config)
    requires Conserved(s) && Enabled(s, Flush(k, outcome), cfg)
    ensures Conserved(Next(s, Flush(k, outcome), cfg))
  {
    HeldUpdate(s.lanes, k, Flushed(s.lanes[k]));
    ReleaseMoves(s, k, outcome);
  }

  lemma SameBatchConserves(s: State, k: nat, lane: Lane)
    requires Conserved(s) && k < |s.lanes| && lane.batch == s.lanes[k].batch
    ensures Conserved(s.(lanes := s.lanes[k := lane]))
  {
    HeldUpdate(s.lanes, k, lane);
  }

  /** Request conservation: every move keeps every accepted request in exactly one place. */
  lemma NextConserves(s: State, m: Move, cfg: Config)
    requires Conserved(s) && Enabled(s, m, cfg)
    ensures Conserved(Next(s, m, cfg))
  {
    match m
    case Accept(id) => AcceptConserves(s, id, cfg);
    case Receive(k) => ReceiveConserves(s, k, Received(s.lanes[k], s.queue[0], cfg.maxBatch));
    case Tick(k) => SameBatchConserves(s, k, Fired(s.lanes[k]));
    case SeeClosed(k) => SameBatchConserves(s, k, SawClose(s.lanes[k]));
    case Flush(k, outcome) => FlushConserves(s, k, outcome, cfg);
    case Close =>
  }

  lemma NextFits(s: State, m: Move, cfg: Config)
    requires cfg.maxBatch > 0 && Fits(s, cfg) && Enabled(s, m, cfg)
    ensures Fits(Next(s, m, cfg), cfg)
  {}

  lemma NextKeepsOk(s: State, m: Move, cfg: Config)
    requires cfg.maxBatch > 0 && Ok(s, cfg) && Enabled(s, m, cfg)
    ensures Ok(Next(s, m, cfg), cfg)
  {
    NextConserves(s, m, cfg);
    NextFits(s, m, cfg);
  }

  /**
    A flush releases exactly the requests of its own batch, with that batch's outcome, and none
    of them had been released before, so no send on a capacity-1 channel can block.
   */
  lemma ReleasedOnceWithOwnOutcome(s: State, m: Move, cfg: Config)
    requires cfg.maxBatch > 0 && Ok(s, cfg) && Enabled(s, m, cfg)
    ensures forall id :: id in s.done ==> id in Next(s, m, cfg).done && Next(s, m, cfg).done[id] == s.done[id]
    ensures m.Flush? ==>
              forall id :: id in s.lanes[m.lane].batch ==>
                id !in s.done && id in Next(s, m, cfg).done && Next(s, m, cfg).done[id] == m.outcome
    ensures Next(s, m, cfg).done.Keys ==
            s.done.Keys + if m.Flush? then set id | id in s.lanes[m.lane].batch else {}
  {
    if m.Flush? { BatchIsUnreleased(s, m.lane); }
  }

  // ---------------------------------------------------------------- shutdown drains

  function LaneWork(lane: Lane): nat {
    |lane.batch| + (if lane.timer then 1 else 0) + (if lane.mode in {Selecting, Flushing} then 1 else 0)
  }

  function LanesWork(lanes: seq<Lane>): nat {
    if lanes == [] then 0 else LanesWork(lanes[..|lanes| - 1]) + LaneWork(lanes[|lanes| - 1])
  }

  /** What is left to do once the intake is closed. */
  function Work(s: State): nat {
    3 * |s.queue| + LanesWork(s.lanes)
  }

  lemma {:induction false} LanesWorkUpdate(lanes: seq<Lane>, k: nat, lane: Lane)
    requires k < |lanes|
    ensures LanesWork(lanes[k := lane]) == LanesWork(lanes) - LaneWork(lanes[k]) + LaneWork(lane)
  {
    var last := |lanes| - 1;
    if k == last {
      assert lanes[k := lane][..last] == lanes[..last];
    } else {
      assert lanes[k := lane][..last] == lanes[..last][k := lane];
      LanesWorkUpdate(lanes[..last], k, lane);
    }
  }

  predicate AllReturned(s: State) {
    forall k :: 0 <= k < |s.lanes| ==> s.lanes[k].mode == Returned
  }

  /** Every turn of a committer uses up work. */
  lemma MoveWorks(s: State, m: Move, cfg: Config)
    requires Fits(s, cfg) && Enabled(s, m, cfg) && !m.Accept? && !m.Close?
    ensures Work(Next(s, m, cfg)) < Work(s)
  {
    LanesWorkUpdate(s.lanes, m.lane, Next(s, m, cfg).lanes[m.lane]);
  }

  /**
    After `Stop` closed the intake every possible move uses up work, some move is possible until
    every loop has returned, and then every accepted request has its outcome.
   */
  lemma StopDrains(s: State, cfg: Config)
    requires cfg.maxBatch > 0 && Ok(s, cfg) && s.closed && |s.lanes| > 0
    ensures forall m :: Enabled(s, m, cfg) ==> Next(s, m, cfg).closed && Work(Next(s, m, cfg)) < Work(s)
    ensures !AllReturned(s) ==> exists m :: Enabled(s, m, cfg)
    ensures AllReturned(s) ==> s.queue == [] && s.done.Keys == s.accepted
  {
    forall m | Enabled(s, m, cfg) ensures Next(s, m, cfg).closed && Work(Next(s, m, cfg)) < Work(s) {
      MoveWorks(s, m, cfg);
    }
    if AllReturned(s) {
      assert s.lanes[0].mode == Returned;
      NothingHeld(s.lanes);
      assert multiset(s.done.Keys) == multiset(s.accepted);
      forall id ensures id in s.done.Keys <==> id in s.accepted {
        assert id in multiset(s.done.Keys) <==> id in multiset(s.accepted);
      }
    } else {
      var k :| 0 <= k < |s.lanes| && s.lanes[k].mode != Returned;
      if s.lanes[k].mode == Selecting {
        assert Enabled(s, if s.queue == [] then SeeClosed(k) else Receive(k), cfg);
      } else {
        assert Enabled(s, Flush(k, Persisted), cfg);
      }
    }
  }
}
