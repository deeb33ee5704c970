/**
  The row locks of concurrent `CommitBatch` transactions. A transaction takes the locks of its
  `contributions` rows and then of its `bosses` rows, one statement at a time, and keeps them
  until it ends.
 */
module Locks {
  import opened Ids

  datatype Lock = ContributionRow(key: Key) | BossLine(boss: BossId)

  /** The global order: contributions by (boss, player), then bosses by id. */
  predicate LockBefore(a: Lock, b: Lock) {
    match (a, b)
    case (ContributionRow(k), ContributionRow(j)) => KeyBefore(k, j)
    case (BossLine(x), BossLine(y)) => Before(x, y)
    case (ContributionRow(_), BossLine(_)) => true
    case (BossLine(_), ContributionRow(_)) => false
  }

  ghost predicate Increasing(plan: seq<Lock>) {
    forall i, j :: 0 <= i < j < |plan| ==> LockBefore(plan[i], plan[j])
  }

  lemma LockBeforeIrreflexive(a: Lock)
    ensures !LockBefore(a, a)
  {
    match a
    case ContributionRow(k) => KeyBeforeIrreflexive(k);
    case BossLine(b) => BeforeIrreflexive(b);
  }

  lemma LockBeforeTransitive(a: Lock, b: Lock, c: Lock)
    requires LockBefore(a, b) && LockBefore(b, c)
    ensures LockBefore(a, c)
  {
    match (a, b, c)
    case (ContributionRow(x), ContributionRow(y), ContributionRow(z)) => KeyBeforeTransitive(x, y, z);
    case (BossLine(x), BossLine(y), BossLine(z)) => BeforeTransitive(x, y, z);
    case _ =>
  }

  // ---------------------------------------------------------------- committers

  /** A transaction holding the first `held` locks of its plan, all of them released once `done`. */
  datatype Tx = Tx(plan: seq<Lock>, held: nat, done: bool) {
    predicate Holds(l: Lock) {
      !done && held <= |plan| && l in plan[..held]
    }
  }

  ghost predicate Consistent(txs: seq<Tx>) {
    && (forall i :: 0 <= i < |txs| ==> txs[i].held <= |txs[i].plan| && Increasing(txs[i].plan))
    && (forall i, j, l :: 0 <= i < |txs| && 0 <= j < |txs| && txs[i].Holds(l) && txs[j].Holds(l) ==> i == j)
  }

  /** Not finished, and either ready to commit or its next lock is free. */
  predicate CanProceed(txs: seq<Tx>, i: nat) {
    && i < |txs|
    && !txs[i].done
    && txs[i].held <= |txs[i].plan|
    && (txs[i].held < |txs[i].plan| ==>
          forall j :: 0 <= j < |txs| && j != i ==> !txs[j].Holds(txs[i].plan[txs[i].held]))
  }

  /** Take the next lock, or commit and release everything. */
  function Proceed(txs: seq<Tx>, i: nat): seq<Tx>
    requires CanProceed(txs, i)
  {
    txs[i := if txs[i].held < |txs[i].plan| then txs[i].(held := txs[i].held + 1) else txs[i].(done := true)]
  }

  predicate AllDone(txs: seq<Tx>) {
    forall i :: 0 <= i < |txs| ==> txs[i].done
  }

  function LocksOf(txs: seq<Tx>): set<Lock> {
    set i, l | 0 <= i < |txs| && l in txs[i].plan :: l
  }

  /** The known locks that come after the one `i` is about to take. */
  function Later(txs: seq<Tx>, i: nat): set<Lock>
    requires i < |txs|
  {
    set l | l in LocksOf(txs) && txs[i].held < |txs[i].plan| && LockBefore(txs[i].plan[txs[i].held], l)
  }

  lemma ProceedKeepsConsistent(txs: seq<Tx>, i: nat)
    requires Consistent(txs) && CanProceed(txs, i)
    ensures Consistent(Proceed(txs, i))
  {
    var txs' := Proceed(txs, i);
    forall j, k, l | 0 <= j < |txs'| && 0 <= k < |txs'| && txs'[j].Holds(l) && txs'[k].Holds(l)
      ensures j == k
    {
      if txs[i].held < |txs[i].plan| {
        var next := txs[i].plan[txs[i].held];
        assert txs'[i].plan[..txs'[i].held] == txs[i].plan[..txs[i].held] + [next];
      }
    }
  }

  /** Follows the waits-for chain from `i`: each wait leads to a strictly later lock. */
  lemma {:induction false} Unblocked(txs: seq<Tx>, i: nat) returns (k: nat)
    requires Consistent(txs) && i < |txs| && !txs[i].done
    ensures CanProceed(txs, k)
    decreases Later(txs, i)
  {
    if CanProceed(txs, i) { return i; }
    var wanted := txs[i].plan[txs[i].held];
    var j: nat :| j < |txs| && j != i && txs[j].Holds(wanted);
    if txs[j].held == |txs[j].plan| { return j; }
    var next := txs[j].plan[txs[j].held];
    var p :| 0 <= p < txs[j].held && txs[j].plan[p] == wanted;
    assert LockBefore(wanted, next);
    assert next in txs[j].plan;
    assert next in Later(txs, i);
    LockBeforeIrreflexive(next);
    forall l | l in LocksOf(txs) && LockBefore(next, l) ensures LockBefore(wanted, l) {
      LockBeforeTransitive(wanted, next, l);
    }
    k := Unblocked(txs, j);
  }

  /** Deadlock freedom: while some transaction is unfinished, some unfinished one can proceed. */
  lemma NoDeadlock(txs: seq<Tx>)
    requires Consistent(txs) && !AllDone(txs)
    ensures exists k :: CanProceed(txs, k)
  {
    var i :| 0 <= i < |txs| && !txs[i].done;
    var k := Unblocked(txs, i);
  }

  // ---------------------------------------------------------------- every schedule finishes

  function Remaining(txs: seq<Tx>): int {
    if txs == [] then 0 else
      var t := txs[|txs| - 1];
      Remaining(txs[..|txs| - 1]) + if t.done then 0 else |t.plan| - t.held + 1
  }

  lemma {:induction false} RemainingUpdate(txs: seq<Tx>, i: nat, t: Tx)
    requires i < |txs|
    ensures Remaining(txs[i := t]) == Remaining(txs)
              - (if txs[i].done then 0 else |txs[i].plan| - txs[i].held + 1)
              + (if t.done then 0 else |t.plan| - t.held + 1)
  {
    var last := |txs| - 1;
    if i == last {
      assert txs[i := t][..last] == txs[..last];
    } else {
      assert txs[i := t][..last] == txs[..last][i := t];
      RemainingUpdate(txs[..last], i, t);
    }
  }

  lemma {:induction false} RemainingNonNegative(txs: seq<Tx>)
    requires forall i :: 0 <= i < |txs| ==> txs[i].held <= |txs[i].plan|
    ensures Remaining(txs) >= 0
    ensures Remaining(txs) == 0 <==> AllDone(txs)
  {
    if txs != [] {
      var last := |txs| - 1;
      RemainingNonNegative(txs[..last]);
      assert AllDone(txs) <==> AllDone(txs[..last]) && txs[last].done;
    }
  }

  predicate Legal(txs: seq<Tx>, schedule: seq<nat>)
    decreases |schedule|
  {
    schedule == [] || (CanProceed(txs, schedule[0]) && Legal(Proceed(txs, schedule[0]), schedule[1..]))
  }

  function After(txs: seq<Tx>, schedule: seq<nat>): seq<Tx>
    requires Legal(txs, schedule)
    decreases |schedule|
  {
    if schedule == [] then txs else After(Proceed(txs, schedule[0]), schedule[1..])
  }

  /**
    However the database schedules the committers, each schedule is finite, it can be extended
    as long as one transaction is unfinished, and once it has used up `Remaining` moves all of
    them have committed.
   */
  lemma {:induction false} EveryScheduleFinishes(txs: seq<Tx>, schedule: seq<nat>)
    requires Consistent(txs) && Legal(txs, schedule)
    ensures Consistent(After(txs, schedule))
    ensures |schedule| <= Remaining(txs)
    ensures |schedule| == Remaining(txs) <==> AllDone(After(txs, schedule))
    ensures !AllDone(After(txs, schedule)) ==> exists k :: CanProceed(After(txs, schedule), k)
    decreases |schedule|
  {
    if schedule == [] {
      RemainingNonNegative(txs);
      if !AllDone(txs) { NoDeadlock(txs); }
    } else {
      var txs' := Proceed(txs, schedule[0]);
      ProceedKeepsConsistent(txs, schedule[0]);
      RemainingUpdate(txs, schedule[0], txs'[schedule[0]]);
      EveryScheduleFinishes(txs', schedule[1..]);
    }
  }

  // ---------------------------------------------------------------- the plan of one batch

  function PlayerPlan(playerKeys: seq<Key>): seq<Lock> {
    seq(|playerKeys|, i requires 0 <= i < |playerKeys| => ContributionRow(playerKeys[i]))
  }

  function BossPlan(bossKeys: seq<BossId>): seq<Lock> {
    seq(|bossKeys|, i requires 0 <= i < |bossKeys| => BossLine(bossKeys[i]))
  }

  lemma PlayerPlanNext(held: seq<Lock>, playerKeys: seq<Key>, i: nat)
    requires i < |playerKeys|
    ensures playerKeys[..i + 1] == playerKeys[..i] + [playerKeys[i]]
    ensures held + PlayerPlan(playerKeys[..i + 1]) ==
            held + PlayerPlan(playerKeys[..i]) + [ContributionRow(playerKeys[i])]
  {}

  lemma BossPlanNext(held: seq<Lock>, bossKeys: seq<BossId>, i: nat)
    requires i < |bossKeys|
    ensures bossKeys[..i + 1] == bossKeys[..i] + [bossKeys[i]]
    ensures held + BossPlan(bossKeys[..i + 1]) == held + BossPlan(bossKeys[..i]) + [BossLine(bossKeys[i])]
  {}

  /** The locks of a batch: its contribution keys, then its bosses. */
  function PlanOf(playerKeys: seq<Key>, bossKeys: seq<BossId>): seq<Lock> {
    PlayerPlan(playerKeys) + BossPlan(bossKeys)
  }

  /** Sorting both key lists puts the whole plan in the global order. */
  lemma PlanIncreasing(playerKeys: seq<Key>, bossKeys: seq<BossId>)
    requires forall i, j :: 0 <= i < j < |playerKeys| ==> KeyBefore(playerKeys[i], playerKeys[j])
    requires forall i, j :: 0 <= i < j < |bossKeys| ==> Before(bossKeys[i], bossKeys[j])
    ensures Increasing(PlanOf(playerKeys, bossKeys))
  {}
}
