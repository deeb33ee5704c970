# Behemoth: the hit protocol, verified

Behemoth keeps a world boss in two stores. A hit is applied at once in Redis and becomes durable
later in Postgres, in a batch with other hits. Between the two, the writer's queue can be full,
a commit can fail or its reply get lost, the client can give up, the cache can expire, rebuilds
can race with hits, and the service can crash. This project models that protocol and proves what
survives it. Check it with `dafny verify dfyconfig.toml`.

## How the model is built

| Module | Models |
|---|---|
| `Ids`, `Totals` | row keys and Go's string order; SQL `SUM` over a table |
| `Redis`, `Expiry`, `Schedules` | the two Lua scripts and the rebuild, on a loaded boss and on the keys with their expiries |
| `Durable`, `Locks`, `Postgres` | one `CommitBatch` transaction as a function, its row locks, and the store as an object |
| `Writer`, `Committer` | the committer loop, the shared group-commit writer, and the writer as an object over the store |
| `Reconciler`, `Recovery` | the coalescing repair queue and the rebuilds |
| `Claims`, `Reward` | concurrent claims, pricing, and the bound on a boss's payout |
| `Service` | one `Damage` or `Claim` call from entry to reply, through cache, writer and Postgres |
| `Ledger`, `Protocol` | the history of all hits, and every interleaving of all of the above as one step system |
| `Soundness`, `Guarantees` | what holds in every run |
| `Conservation`, `Overshoot`, `Restart`, `Finality`, `Payout`, `Witnesses` | conservation across the stores, what drift leads to, crash and restart, defeat, rewards, and a run that attains the overshoot bound |
| `Outcomes`, `Journeys` | the worth of a reply, and single hits and bosses followed through a run |

The scripts, `CommitBatch`, the committer loop, the reconciler, the rebuilds and the service are
methods and classes that change state as the source does. Each is proved against a function
(`Redis.Strike`, `Redis.Undo`, `Durable.Commit`, `Writer.Next`, `Claims.SaveClaim`), and
`Protocol.Next` is built from the same functions, so a property of the step system is a property of
the code behind it. The reconciler is a state machine of its own (`Reconciler.Next`): `Protocol`
lets rebuilds start at any time, whoever asked for them.

A hit in `Ledger` goes through phases (applied, accepted by the writer, refused, committed,
undone, leaked, lost); sums over the ledger are the in-flight, unsettled and durable damage of a
boss or of a player on it. A rebuild in `Protocol` is three steps, two reads and one overwrite, with
anything in between. A batch whose commit was reported as failed stays in doubt: its transaction may
commit at any later time (`Land`), after the client heard the failure and the cache was put back. The
fate `CommitsUnacked` of the methods is the case in which it does so at once.

## What the proofs found

* **Total damage can exceed `max_hp`.** ARCHITECT.md:50-51 says that the applied damage equals
  `max_hp` exactly. A rebuild that overwrites the cache after a hit landed brings HP back.
  `Witnesses.OvershootAttained` is a run without any failure in which twice a boss's HP becomes
  durable; `Conservation.BoundedOvershoot` bounds the excess in every run, and
  `Conservation.LawOfEveryRun` is the equation that does hold in every run. Which rebuilds are harmless
  has an exact answer, for the law (`Conservation.RebuildKeepsLawIffQuiet`) and for the damage total
  itself (`Overshoot.HarmlessIffQuiet`): the quiet ones.
* **A failed commit may persist.** internal/store/store.go:15-17 says that the event did not
  persist; ARCHITECT.md:125-127 says that it may have. The code behaves as the latter says
  (`Outcomes.RefusedYetDurable`). A hit refused for a failed commit is durable if and only if the run
  has a late commit of its batch (`Outcomes.FailedIsDurableIffItLands`); without late commits every
  answer is true (`Outcomes.DefiniteAnswersAreTrue`). `Conservation.LandKeepsLawIffUntouched` gives the
  exact damage of a late commit to the conservation law.
* **A ttl must be whole seconds.** The scripts truncate the ttl to seconds, a rebuild does not. The
  keys of a boss share one expiry exactly for ttls of whole seconds
  (`Expiry.SharedExpiryIffWholeSeconds`), and then they vanish as one (`Redis.ExpiresAsOne`). The results
  across both stores are about such ttls: their expiry takes a whole boss. With a ttl of 1.5 seconds a
  rebuilt leaderboard is gone half a second before its boss.

Vocabulary used below. A rebuild is *quiet* if, when it overwrites, nothing of its boss is in
flight and nothing was committed for the boss since its first read. A *late commit* is a transaction
that commits after its failure was reported. A run is *calm* for a boss if all rebuilds of that boss
are quiet and no late commit has one of its hits. Crashes, expiries, rollbacks, full queues,
cancelled clients and lost Redis replies may all occur in a calm run.

## Model

| member | source | states |
|---|---|---|
| `Ids.KeyBeforeTransitive` | internal/store/postgres.go:123-128 | boss first, then player, is transitive on Go strings |
| `Ids.KeyBeforeTotal` | internal/store/postgres.go:123-128 | and orders any two different keys |
| `Redis.StrikeConserves` | internal/store/redis.go:25-51 | a hit takes from the HP exactly what it credits to one player, never more than was left, lands exactly when damage and HP are positive, and keeps the cache coherent; refusals change nothing |
| `Redis.UndoConserves` | internal/store/redis.go:65-89 | an undo credits the amount back, revives the boss, and takes it off one player's score, who leaves the leaderboard at 0 |
| `Redis.UndoRestores` | internal/store/redis.go:54-90 | an undo right after any hit, the killing blow included, restores the starting state |
| `Redis.DamageScriptRefines` | internal/store/redis.go:19-52 | the script is the clamped hit on the visible boss, whatever its keys and expiries, and unloaded is reported as such; keys that expire together go on doing so |
| `Redis.CompensateScriptRefines` | internal/store/redis.go:60-90 | the same for the compensating script and the undo; it does nothing on an unloaded boss |
| `Redis.RebuildRefines` | internal/store/redis.go:232-252 | after a rebuild exactly what was read is visible; its keys expire together exactly for whole-second ttls or an empty leaderboard |
| `Redis.ExpiresAsOne` | internal/store/redis.go:29-50 | keys with one expiry show the same boss until all of them are gone |
| `Redis.Lifetimes` | internal/store/redis.go:44-50 | a landed hit or an undo gives a boss one ttl, on whole seconds, from now; a rebuild gives HP and state the ttl to the millisecond and the leaderboard whole seconds, at least one; no ttl is for ever |
| `Redis.RedisStore.ApplyDamage` | internal/store/redis.go:173-187 | the statements of the script, run on one boss, are the clamped hit, and no other boss changes |
| `Redis.RedisStore.CompensateDamage` | internal/store/redis.go:190-193 | the statements of the script are the undo |
| `Redis.RedisStore.Rehydrate` | internal/store/redis.go:232-252 | the pipeline overwrites one boss with what was read, row by row for the leaderboard |
| `Expiry.LoadedForOneTtl` | internal/store/redis.go:29-50 | in every history of calls, a boss is loaded exactly within one ttl of its last write, HP, state and leaderboard expire together, and never within one ttl of a landed hit |
| `Expiry.OnlookersWriteNothing` | internal/store/redis.go:26-31 | attacks on a dead boss and reads never extend its life |
| `Expiry.DeadEntryExpires` | internal/store/redis.go:26-50 | a 0-HP entry seen only by attackers and readers is gone one ttl after its last write |
| `Expiry.SharedExpiryIffWholeSeconds` | internal/store/redis.go:159-161 | one expiry in every history if and only if the ttl is whole seconds |
| `Schedules.SurvivorsDecide` | internal/store/redis.go:13-90 | for any interleaving of hits and undos of earlier hits, final HP, scores, membership and state are what the surviving hits' recorded damage gives |
| `Durable.AddTotalsTotal` | internal/store/postgres.go:156-163 | the upserts raise the sum of a boss's contributions by exactly the batch's damage on it |
| `Durable.CommitKeepsRow` | internal/store/postgres.go:164-173 | stored HP stays max(0, max_hp - SUM), state and `defeated_at` stay in step with the sum |
| `Durable.CommitKeepsDb` | internal/store/postgres.go:104-189 | every accepted batch keeps the durable invariants, contributions equal to the sums of the log included |
| `Durable.CommitAdvances` | internal/store/postgres.go:164-173 | no contribution shrinks, HP never rises, a defeat is not reverted, `defeated_at` is set once |
| `Durable.CommitConcat` | internal/store/postgres.go:104-189 | two consecutive batches act as one, clamp at 0 included |
| `Durable.CommitTwice` | internal/store/postgres.go:104-189 | at one instant they are equal to one, `defeated_at` included |
| `Durable.CommitPermute` | internal/store/postgres.go:104-189 | the order inside a batch is irrelevant |
| `Durable.CommitMoves` | internal/store/postgres.go:156-173 | a batch raises the sum of a boss's contributions by its damage on it and lowers the HP by that, down to 0 |
| `Durable.GroupCommitPreservesMeaning` | internal/store/postgres.go:104-189 | however hits are split into batches, over any committers and in any commit order, contributions, log, HP and state are those of committing one at a time |
| `Durable.RecoveryIsCoherent` | internal/store/postgres.go:62-81 | the derived HP equals the stored HP, and a recovered boss is defeated exactly at 0 HP |
| `Locks.PlanIncreasing` | internal/store/postgres.go:118-133 | with both key lists sorted, a batch takes its row locks in one global order |
| `Locks.NoDeadlock` | internal/store/postgres.go:118-173 | among any number of committers holding locks until they end, some unfinished one can proceed |
| `Locks.EveryScheduleFinishes` | internal/store/postgres.go:118-189 | every schedule is finite, can be extended until all are done, and all of them finish |
| `Postgres.Aggregate` | internal/store/postgres.go:109-116 | the loop computes the per-player and per-boss sums of the batch, for exactly the keys in it |
| `Postgres.SortKeys` | internal/store/postgres.go:118-133 | the sorted list has exactly the map's keys, strictly increasing |
| `Postgres.LockOrder` | internal/store/postgres.go:118-133 | the two key lists give a plan in the global lock order |
| `Postgres.UpsertContributions` | internal/store/postgres.go:156-163 | the upserts, run row by row in the order of the list, lock those rows in that order and add exactly their sums |
| `Postgres.UpdateBosses` | internal/store/postgres.go:164-173 | exactly the listed bosses are decremented, each once, and locked in that order |
| `Postgres.BatchIsCommit` | internal/store/postgres.go:141-183 | the row-by-row statements add up to the whole transaction |
| `Postgres.WriteBatch` | internal/store/postgres.go:141-183 | aggregation, sorting and statements together are the transaction; the locks that its statements took as they ran are exactly the batch's rows, in the global order |
| `Postgres.PostgresStore.CommitBatch` | internal/store/postgres.go:104-189 | all or nothing: the batch is committed or the store is unchanged; an empty batch succeeds; an error is reported on every rejection, rollback and lost reply; what its statements locked, in the order in which they ran, follows the global lock order |
| `Postgres.PostgresStore.RecoveryState` | internal/store/postgres.go:64-81 | max(0, max_hp - SUM), state and max HP of a known boss, nothing otherwise |
| `Postgres.PostgresStore.Contributions` | internal/store/postgres.go:84-100 | each contributor's row once, so that a sorted set built from the rows holds exactly the contributions; no rows for an unknown boss |
| `Postgres.PostgresStore.ListBossIds` | internal/store/postgres.go:45-60 | exactly the known bosses, each once |
| `Postgres.PostgresStore.ClaimBasis` | internal/store/postgres.go:193-216 | the boss row and the player's total, or what is missing; together they say whether the player is entitled to a reward |
| `Postgres.PostgresStore.SaveClaim` | internal/store/postgres.go:220-267 | the first call inserts, later ones return the existing row unchanged; a rollback changes nothing |
| `Writer.LoopHead` | internal/store/writer.go:85-124 | at every loop head nothing received is lost or reordered, commits have 1 to MaxBatch requests, the timer runs exactly when a batch has started, which is not full, and after close everything is flushed |
| `Writer.ReceiveCommitsFullBatch` | internal/store/writer.go:112-118 | a receive commits exactly when it fills the batch to MaxBatch, and then the whole batch; any other only joins it and has the timer running |
| `Writer.TimerCommitsBatch` | internal/store/writer.go:108-122 | a timer event, and the close, commit exactly the batch there is, if any |
| `Writer.TimerFlushes` | internal/store/writer.go:119-122 | the first timer event after a request commits it, whatever happens in between |
| `Writer.SizeFlushes` | internal/store/writer.go:112-114 | a request is committed at the latest with the MaxBatch-th request counted from it |
| `Writer.Loop` | internal/store/writer.go:85-124 | the loop's commits and batch are exactly what it received, in order |
| `Writer.NextConserves` | internal/store/writer.go:64-156 | every accepted request is in exactly one place, once: the queue, one committer's batch, or released |
| `Writer.NextKeepsOk` | internal/store/writer.go:64-156 | with the bounds of queue, batches and timers, over any number of committers |
| `Writer.BatchIsUnreleased` | internal/store/writer.go:128-142 | a batch holds distinct accepted requests, none of them released |
| `Writer.ReleasedOnceWithOwnOutcome` | internal/store/writer.go:128-156 | a flush releases exactly its batch with its own outcome, nobody twice, so no send blocks |
| `Writer.StopDrains` | internal/store/writer.go:79-124 | after close every possible move uses up work, one is possible until all loops returned, and then every accepted request has its outcome |
| `Committer.GroupWriter.constructor` | internal/store/writer.go:41-60 | starts empty with as many idle committers as configured, at least one |
| `Committer.GroupWriter.Offer` | internal/store/writer.go:65-71 | the non-blocking send accepts unless the intake is full, and then remembers nothing |
| `Committer.GroupWriter.Receive` | internal/store/writer.go:107-118 | one receive of one committer, up to the decision to flush |
| `Committer.GroupWriter.Tick` | internal/store/writer.go:119-121 | one timer event of one committer |
| `Committer.GroupWriter.Commit` | internal/store/writer.go:128-156 | one transaction over the batch's events, and what it leaves stored for each way it can end; all its waiters, and no others, get its outcome; a panic, whatever the transaction did, is reported as a failure |
| `Committer.GroupWriter.Release` | internal/store/writer.go:140-142 | one send to each waiter of the batch |
| `Committer.GroupWriter.FlushLane` | internal/store/writer.go:128-156 | one flush stores its batch once, and is the writer's Flush move |
| `Committer.GroupWriter.Serve` | internal/store/writer.go:106-156 | one committer left alone writes all that waits for it, each event once, in batches that store what one transaction would, tells every waiter, and leaves the other committers and their batches alone |
| `Committer.GroupWriter.Submit` | internal/store/writer.go:62-77 | with the first committer working alone, success means that Postgres holds the event and all that had been waiting for that committer, each once; a full queue changes nothing; a caller that gives up leaves its event waiting behind the others |
| `Committer.GroupWriter.SeeClosed` | internal/store/writer.go:108-112 | a committer that sees the closed intake flushes what it has or returns |
| `Committer.GroupWriter.AwaitLoops` | internal/store/writer.go:79-83 | the loops return, and have written each unreleased request once since the close |
| `Committer.CommitIsMove` | internal/store/postgres.go:141-183 | a commit grows the log by exactly its events and moves every boss's sum and HP by their damage |
| `Committer.GroupWriter.Stop` | internal/store/writer.go:79-83 | closes the intake and waits: every committer returns, every request ever accepted has its outcome, and exactly those that had none are written, each once: log, every sum of contributions and every HP move by just these events, or by nothing on rollback |
| `Recovery.Rehydrator.RehydrateBoss` | internal/recovery/recovery.go:25-38 | with nothing in between, a known boss becomes what Postgres has, maximum HP and expiries included, a lost reply included; an unknown one, or an error before the write, changes nothing |
| `Recovery.Rehydrator.RehydrateAll` | internal/recovery/recovery.go:42-54 | after a boot rebuild without error every boss is loaded with its durable state and maximum HP; it fails exactly if one store call does, and then only such bosses changed |
| `Reconciler.CoalescingLosesNothing` | internal/recovery/reconcile.go:60-97 | in every run the queued set is the disjoint union of ids being sent, in the channel and held by a waiting worker; and for every Enqueue its boss is still queued, or later in the run its request is dropped or a worker holding the boss starts to read |
| `Reconciler.DiscardMeansFull` | internal/recovery/reconcile.go:69-76 | a request is about to be dropped only after an earlier send of it found the channel full |
| `Reconciler.QueuedIsServed` | internal/recovery/reconcile.go:79-97 | no queued request is stuck, and each move but a new call uses up work |
| `Reconciler.WorkEnds` | internal/recovery/reconcile.go:79-97 | without new calls every tail of a run is at most as long as the work left, and one that cannot be extended has served or dropped every request |
| `Reconciler.EnqueuedIsLocated` | internal/recovery/reconcile.go:60-77 | a whole Enqueue keeps the union |
| `Reconciler.Queue.Enqueue` | internal/recovery/reconcile.go:60-77 | coalesces, appends, or drops when full, as the moves of the state machine |
| `Reconciler.Queue.Take` | internal/recovery/reconcile.go:79-84 | a worker holds the oldest request |
| `Reconciler.Queue.Free` | internal/recovery/reconcile.go:85-88 | the slot is free before the rebuild reads |
| `Service.StrikeShowsHit` | internal/store/redis.go:32-45 | a landed hit lowers the HP and raises one player's score by the clamped amount, and the state follows the HP |
| `Service.ArrivalMeans` | internal/boss/service.go:139-155 | a reply is that of the hit on the loaded or rebuilt boss; after an error the boss is as it was, as rebuilt, or struck by a script whose reply was lost; not found means neither loaded nor in Postgres |
| `Service.Service.ApplyWithRehydrate` | internal/boss/service.go:139-155 | the hit lands on the loaded boss, or on the one rebuilt on a miss; an error leaves the boss as it was loaded or rebuilt, or struck if the script ran and its reply was lost |
| `Service.Service.Compensate` | internal/boss/service.go:111-117 | the undo runs, and an error of it, whether it ran or not, asks for a rebuild |
| `Service.Service.ReconcileFailedWrite` | internal/boss/service.go:108-128 | definite failures are undone, a cancelled hit is left alone, what may not be undone is queued for a rebuild, and the error says which |
| `Service.Service.RecordHit` | internal/boss/service.go:90-94 | the answer is the writer's; a hit is in Postgres exactly when it says so or its failed commit went through; only a definite failure is undone in the cache, a cancelled hit stays there and in the writer; other bosses are left alone |
| `Service.Service.Damage` | internal/boss/service.go:74-102 | success means that the hit landed with the right numbers and that Postgres now holds it, after what had been waiting for the same committer; a definite failure leaves Postgres, and with its undo the boss, as they were; a cancelled hit stays on the boss, HP, score and state, and in the writer; possible divergence is queued unless that queue is full, and nothing else is; an invalid or refused hit changes no store but by a rebuild on a miss; other bosses stay as they are |
| `Service.Service.Claim` | internal/boss/service.go:179-201 | succeeds exactly for a contributor to a defeated boss; the first success inserts the tier, gold and items of the price list, later ones return the row, and it is the three steps of a concurrent claim with nothing in between |
| `Claims.MoveKeepsOk` | internal/store/postgres.go:191-267 | every interleaving of reads and inserts of concurrent claims keeps exactly-once, and no row ever changes |
| `Claims.CommitKeepsOk` | internal/store/postgres.go:191-216 | batches committed between a claim's two reads do not invalidate it |
| `Claims.CrashKeepsOk` | internal/store/postgres.go:218-267 | nor does a crash |
| `Claims.AloneIsThreeMoves` | internal/boss/service.go:179-201 | a claim with nothing in between is exactly its two reads and its insert in sequence |
| `Claims.RepliesAgree` | internal/store/postgres.go:218-267 | all replies for one (boss, player) carry the one row, exactly one claimant inserted it, at most one reply is fresh |
| `Reward.PctReaches` | internal/boss/service.go:194-195 | a percentage reaches a threshold exactly when damage * 100 reaches threshold * max_hp |
| `Reward.LeastDamage` | internal/boss/reward.go:12-44 | each amount of gold is earned if and only if the damage reaches a fifth, a tenth, a twentieth or a hundredth of max_hp, bounds included |
| `Reward.PriceList` | internal/boss/reward.go:12-44 | the whole price list in whole numbers: tier, gold and items for each of the five ranges of damage, if and only if the damage is in it |
| `Reward.TierPrice` | internal/boss/reward.go:14-44 | tiers above common pay at most 500 gold per percent, legendary took 20 percent |
| `Reward.RewardMonotone` | internal/boss/reward.go:14-44 | a larger contribution never earns less |
| `Reward.LegendaryBound` | internal/boss/reward.go:14-27 | every five legendary claims stand for max_hp in contributions |
| `Reward.GoldBound` | internal/boss/reward.go:14-44 | beyond 100 gold per common claim, a boss's claims pay at most 500 gold per percent contributed |
| `Reward.ExactPayout` | internal/boss/reward.go:14-44 | contributions of exactly max_hp earn at most 5 legendary rewards and 50,000 gold plus 100 per common claim |
| `Reward.PercentagesTotal100` | ARCHITECT.md:50-51 | percentages total 100 when contributions sum to max_hp |
| `Soundness.InitialIsSound` | db/init.sql:5-51 | a freshly seeded database with an empty cache satisfies every invariant |
| `Soundness.BatchIsReady` | internal/store/writer.go:128-153 | a batch about to be written holds distinct accepted hits that are not durable, and Postgres accepts it |
| `Soundness.KeepsMatches` | internal/store/postgres.go:156-173 | what a step adds to stored sums is what it makes durable in the ledger |
| `Soundness.KeepsCacheOk` | internal/store/redis.go:232-252 | cache coherence survives every step, rebuilds from old snapshots included |
| `Soundness.KeepsAuditOk` | internal/store/postgres.go:141-152 | the log grows by exactly the hits that become durable, none of them logged before |
| `Soundness.StepKeepsSound` | internal/boss/service.go:72-201 | every step of the protocol keeps all invariants of both stores, writer, clients and claims |
| `Soundness.EveryRunIsSound` | internal/boss/service.go:72-201 | so they hold in every run |
| `Guarantees.DurableInvariants` | internal/store/postgres.go:62-81 | in every run: stored HP = recovered HP = max(0, max_hp - SUM), defeated exactly when SUM reaches max_hp, `defeated_at` set exactly then, contributions are the sums of the log |
| `Guarantees.RowsOnlyAdvance` | internal/store/postgres.go:164-173 | in every run nothing durable is taken back and a defeat is final in its state and time |
| `Guarantees.CacheCoherence` | internal/store/redis.go:19-90 | in every run, HP is never negative, defeated means 0 HP, every score is positive |
| `Guarantees.ExactlyOnceClaims` | internal/store/postgres.go:218-267 | in every run a claim row belongs to a durable contributor to a defeated boss, at its price, exactly one claimant inserted it, and every reply carries it |
| `Guarantees.ClaimRowsStay` | internal/store/postgres.go:218-267 | no claim row ever changes |
| `Outcomes.OutcomeIsFinal` | internal/store/writer.go:62-77 | in every continuation of every run: success means durable forever; queue-full means never durable; a commit-failed hit becomes durable if and only if the continuation has the late commit of its batch |
| `Outcomes.UnackedIffLands` | ARCHITECT.md:125-127 | a hit is marked as late exactly if some step of the run was the late commit of a batch with it |
| `Outcomes.FailedIsDurableIffItLands` | internal/store/store.go:15-18 | in every run from the start, a hit whose client was told of a failed commit is durable if and only if the run has the late commit of its batch |
| `Outcomes.RefusalsAreFinal` | internal/store/store.go:15-18 | without late commits a refused hit never becomes durable in any continuation |
| `Outcomes.DefiniteAnswersAreTrue` | internal/store/writer.go:62-77 | without late commits every success is durable and no refusal is |
| `Outcomes.DefiniteOvershoot` | internal/recovery/recovery.go:25-38 | without late commits durable damage is at most max_hp plus the worst race of a rebuild |
| `Outcomes.DurableOnce` | internal/store/postgres.go:141-152 | no hit is made durable twice: the log has exactly one row per durable hit |
| `Outcomes.CancelledEitherWay` | internal/boss/service.go:122-124 | a cancelled hit still in the writer may become durable or not |
| `Outcomes.RefusedYetDurable` | ARCHITECT.md:125-127 | from every state in which a waiting hit is about to be written, its client can be told of a failure and the cache put back, and the hit still becomes durable |
| `Journeys.AttackRecords` | internal/store/redis.go:25-51 | a landing hit takes from its boss what is recorded for its player, can be undone by that amount, and touches nothing else |
| `Journeys.FullQueueRestores` | internal/boss/service.go:110-120 | hit, refusal by a full queue and undo are together the identity on both stores and the writer |
| `Journeys.GivenUpStaysQueued` | internal/boss/service.go:122-124 | a hit that finds room is the newest request; when its client gives up, nothing else changes, and no undo is possible |
| `Journeys.HearsItsOutcome` | internal/store/writer.go:72-77 | a released client is told success exactly if its hit was committed, and hearing changes nothing else |
| `Journeys.UndoneAtMostOnce` | internal/boss/service.go:110-117 | after the undo of a hit ran or failed, no continuation can undo it again |
| `Journeys.CrashDecides` | internal/store/writer.go:72-77 | a crash loses writer, rebuilds and waiting clients and neither store; of the interrupted hits those become durable whose batch is committed late, and no others |
| `Journeys.LostReplyNeverDurable` | internal/boss/service.go:79-82 | a hit whose reply from Redis is lost never becomes durable, in any continuation |
| `Journeys.ExpiredUntilRebuilt` | internal/store/redis.go:29-30 | an expiry forgets one boss and changes nothing else; no hit lands on that boss until a rebuild overwrites it |
| `Conservation.StepKeepsExact` | internal/boss/service.go:74-155 | every calm step keeps hp + durable + unsettled = max_hp and score = contribution + unsettled, and the room for in-flight hits |
| `Conservation.ExactConservation` | internal/boss/service.go:74-155 | the two equations hold for a loaded boss in every calm run from the start, crashes and boot rebuilds included |
| `Conservation.RebuildKeepsLawIffQuiet` | internal/recovery/recovery.go:25-38 | a rebuild keeps the law if and only if it is quiet |
| `Conservation.LandKeepsLawIffUntouched` | internal/boss/service.go:110-121 | a late commit keeps the law of a loaded boss if and only if it had no hit on it |
| `Conservation.NoZombie` | internal/boss/service.go:104-128 | the cache is the durable view (HP, state, totals) if and only if nothing is unsettled |
| `Conservation.QuietRebuildHeals` | internal/recovery/recovery.go:25-38 | from any drifted state a quiet rebuild restores the durable view; the law holds from there if and only if there was no overshoot |
| `Conservation.CrashLeavesNothingInFlight` | internal/recovery/recovery.go:40-54 | after a crash nothing is in flight |
| `Conservation.RebuildAtRestHeals` | internal/recovery/recovery.go:40-54 | read, read, overwrite with nothing in flight, as at boot, is quiet and heals |
| `Conservation.OnlyRebuildsRaise` | internal/recovery/recovery.go:25-38 | no step but a rebuild raises the potential hp + durable + unsettled - max_hp, apart from what a late commit stores |
| `Conservation.LawOfEveryRun` | internal/boss/service.go:74-155 | in every run a loaded boss has hp + durable + unsettled = max_hp + drift, where the last rebuild sets the drift, late commits raise it and nothing else moves it; calm runs have none |
| `Conservation.BoundedOvershoot` | internal/boss/service.go:74-155 | in every run durable damage is at most max_hp plus the worst race of a rebuild plus what late commits stored |
| `Overshoot.PotentialIsReached` | internal/boss/service.go:74-155 | with a working writer and no leaked hits, some calm continuation makes exactly max_hp plus the potential durable: the potential is real |
| `Overshoot.LoudRebuildOvershoots` | internal/recovery/recovery.go:25-38 | after a rebuild that is not quiet some calm continuation makes more than max_hp durable, by exactly the race of that rebuild |
| `Overshoot.HarmlessIffQuiet` | internal/recovery/recovery.go:25-38 | under the law and with a working writer, all calm continuations of a rebuild stay within max_hp if and only if it is quiet |
| `Restart.RestartRestores` | internal/recovery/recovery.go:40-54 | from every state of every run, a crash and the boot rebuild of all bosses is a run after which each is loaded with its durable HP, state and totals, nothing is in flight, and the law holds if and only if there was no overshoot |
| `Witnesses.OvershootAttained` | internal/recovery/recovery.go:25-38 | for every HP some run without failures attains that bound, with twice the HP durable |
| `Payout.ClaimKeepsBacked` | internal/boss/service.go:179-200 | a claim is priced at no more than its player has contributed by then, however batches fall between its two reads |
| `Payout.PayoutInEveryRun` | internal/boss/service.go:179-201 | in every run, racing rebuilds included, a boss's claims pay within its contributions, whose excess over max_hp is bounded |
| `Finality.DefeatIsComplete` | internal/store/postgres.go:165-171 | under the law, once Postgres says defeated contributions sum to exactly max_hp, nothing is in flight, and a loaded boss is at 0 |
| `Finality.DefeatIsFinal` | internal/store/postgres.go:165-171 | in every calm continuation the defeated boss's row and contributions never change again |
| `Finality.PriceIsTimeless` | internal/boss/service.go:179-196 | a claim that saw the defeat gets the same price whenever it makes its second read |
| `Finality.CalmRunsPriceFinally` | internal/boss/service.go:194-200 | calm continuations keep every claim, saved or on its way, priced at the final contributions |
| `Finality.SeededRunsPriceFinally` | internal/boss/service.go:194-200 | so in every calm run from the start every claim is |
| `Finality.BoundedPayout` | internal/boss/service.go:179-201 | in every calm run a boss's claim rows include at most 5 legendary and pay at most 50,000 gold plus 100 per common row, and percentages total 100 |

## Left out

- HTTP, JSON, metrics, logging, environment parsing, start-up retries, `toInt64` and `decodePayload`: plumbing.
- `Service.Get` and `GetBossView`, the top ten included: an untransacted read of values modelled here.
- The load generators, the shell and compose files, and the tests under qa.
- Redis, Postgres and driver internals: a script or MULTI/EXEC runs atomically and at most once per call, a transaction is atomic, foreign-key share locks do not block the updates of boss rows, and the sort is taken as any sort (`Postgres.SortKeys` inserts).
- Row values: `name`, `created_at` and `updated_at` are not modelled; contributions are kept grouped by boss, which their foreign key allows.
- Integer width: HP, damage and scores are unbounded integers, which is exact below 2^53, where Redis's floating-point scores and Lua's numbers are exact too.
- Real time: expiry uses an abstract millisecond clock, the committer's timer may fire at any time, and the settle delay of the reconciler has no length.
- Calls after shutdown: no `Submit` after `Stop`, and no `Enqueue` after the reconciler's `Stop`, as cmd/server/main.go:101-109 orders them.
- Zero-capacity intake (a rendezvous with a receiving committer) and a MaxBatch of 0 or less: internal/config/config.go:42-44 defaults to 20,000 and 500.
- From a queued reconcile to its rebuild: `Protocol` lets rebuilds start freely, which includes every start the reconciler makes.
- The row locks a transaction in doubt holds until it ends: it lands, or not, at one instant.
- Waiting for row locks that are not a batch's: only `CommitBatch` transactions lock more than one row.
- The order of checks inside a failing transaction: the foreign key and CHECK of `damage_events` are decided before the other statements; the outcome is the same rollback.
- Reward.Pct: percentages are exact rationals, not float64 rounded at the thresholds.
- Redis.WholeSeconds: that the client sends whole seconds for `EXPIRE` (at least one) but milliseconds for `SET` is the documented behaviour of go-redis, which is not part of this model.
- Service.Service.Damage: one call with nothing interleaved, its surroundings given as flags; interleavings are the subject of `Protocol`, where each store access is its own step.
- Fractional-second ttls in `Protocol`: `Expire` removes a whole boss, as it does for whole seconds (the default is 60); with others the score half of the law fails once a leaderboard expires before its boss.
- Conservation.ExactConservation: holds in calm runs only, because the code does not keep the law in others; the two conditions of calmness are proved exact by `Conservation.RebuildKeepsLawIffQuiet` and `Conservation.LandKeepsLawIffUntouched`. For all runs `Conservation.LawOfEveryRun` gives the HP equation with its drift; the scores have no such equation, because undoing a hit on a drifted score stops at 0.
- Finality.BoundedPayout: for calm runs, where contributions are exactly max_hp; `Payout.PayoutInEveryRun` is the bound for all runs.
