# Veya's durable-execution protocol, in Dafny

Veya runs agents whose every step is recorded. This project models the part of
it that the guarantees rest on: the in-memory store and its transactions, the
engine that advances runs over it, the leases and their reaper, the effect
ledger with its executor and background reconciler, the outbox relay, and the
replay driver of the Python SDK. It proves what every interleaving of those
actors keeps, and it says precisely where a promise does not hold.

## How it is built

* **Values.** `Core` has the rows, statuses, events and decision tables, `Names`
  the step names and keys down to the characters, `Tables` the store's tables as
  one immutable value.
* **Transactions.** `Transactions` specifies every transaction of the runtime as
  a function from tables to tables, with its reasons to abort. `Memory` is the
  store itself: a class whose maps one transaction changes in place. The bodies
  in `TaskEngine`, `RunEngine`, `Reaper`, `Executor`, `Reconciling` and `Relay`
  take the source's steps on that class and are proved equal to the
  specification.
* **Interleavings.** In `Behaviours` a behaviour is any sequence of transactions
  by any number of engines, workers, reapers, senders and relays. What an actor
  read earlier is given by positions in the past, so reads may be as stale as
  they like; deliveries may be lost, repeated or reordered; a crashed actor is
  one that never steps again. The decider is an arbitrary function. The
  invariant (`Invariants`) and the relation between any earlier and any later
  state hold of all of them (`Behaviours.AllReachable`), and the promises are
  consequences.
* **The operations as called.** `Engine`, `Executor`, `Workers`, `Reconciling`,
  `Reaper` and `Relay` also have the methods that make several reads and
  transactions in a row. `Executor.Interfere` stands between them for whatever
  the others commit meanwhile. A ghost record of `deeds` in the store tells the two
  apart: it lists what this process has itself changed and sent, in order, so a
  contract says not only what an operation leaves but that it did nothing else.
* **The ledger and the provider.** `Ledger` is a machine for one external action:
  every executor and sweep has its own place in the code, requests may take
  effect late or never, and actors may stop anywhere. `Retention` gives it clocks,
  and a provider that recognises a key only for so long.
* **Replay.** `Histories` and `Agents` are history.py and agent.py; `Replay`,
  `Recording`, `Readability` and `Skipping` relate them to one uninterrupted
  execution and to the engine. `Following` carries that relation through every
  step of every behaviour, for every body that is steady: what it asks for does
  not depend on what else comes in on a join it has passed. `BodyRuns` draws the
  conclusions: nothing about where a body stands is assumed there.
* **Records and read-back.** `Records` says what each commit puts on record, row by
  row and event by event, `ReadBack` what a replaying body gets back of it, and
  `Wakings` when a wait may end.
* **Wake-ups.** `WakeUps` says which commits leave a run parked over a signal that
  has come, and when no run is; `Oversleeping` what the system forgets.
* **Counterexamples.** Where a promise fails, a concrete sequence of actions from
  the empty tables reaches the failure (`Oversleeping`, `Stragglers`, `Strandings`,
  `Edits`, `Unsteady`, `SplitReads`, `Escalations`, `Overlaps`, `Retention`), and a
  theorem over all inputs says exactly when.

## What was found

1. *A run can sleep through its signal.* docs/execution-model.md:133-150 says that
   storing signals on arrival deletes the race between a delivery and a wait;
   internal/engine/engine.go:295-308 and signals.go:53-57 that no run sleeps for
   ever on something that has occurred. Two runs do: one whose engine stops
   between its park and its second look (`Oversleeping.EarlySignalIsSleptThrough`),
   and, with nobody stopping, one that is parked again by a pass that read the
   signals before the delivery, since a release leaves the version alone
   (`Oversleeping.LateSignalIsSleptThrough`; cmd/veya/signal.go:67 delivers without a
   pass of its own). The scan lists neither before year 9999. A park leaves the run
   so exactly when such a signal is stored already (`WakeUps.ParkSleepsIff`), a
   re-park exactly when one was delivered between its reading and its commit
   (`WakeUps.ReparkSleepsIffDelivered`); until the
   park ends nothing but a delivery to the run, a pass over it or failRun wakes it
   (`WakeUps.SleepsOn`). If no delivery falls between a pass's reading and its commit
   and every park is followed by another look, no run sleeps through a signal
   (`WakeUps.NoRunSleepsThrough`); and nothing but such a run is ever forgotten
   (`Oversleeping.ForgottenIff`).
2. *A retry does not wait out its backoff.* internal/engine/tasks.go:207-210 says
   that notBefore delays the dispatch. It delays the new outbox row. The recovery
   scan publishes every PENDING task, and a claim never looks at notBefore: both
   may come at the instant of the failure (`Recovery.TheScanIgnoresTheBackoff`). The
   backoff holds exactly where the relay alone announces and no older row of the
   task is left unpublished (`Recovery.BackoffHoldsIff`).
3. *A body can diverge from itself.* sdk/python/veya/agent.py:270-281 returns
   outcomes in the order of the calls, because the order of completion is not
   reproducible, and shows a body that uses those that are ok. On ANY and QUORUM
   which of them are in is not reproducible either: on the next replay more may
   be, and an unedited, deterministic body fails its run for nondeterminism
   (`Unsteady.AnUnsteadyBodyDivergesFromItself`), exactly if what it asks for now
   differs in a call from what it asked for then (`Unsteady.SelfDivergesIff`).
   Steady bodies never do (`Replay.ReplayIsDirect`, `BodyRuns.RunsFollowTheirBody`).
4. *A failed re-send erases a doubt, and the retention check with it.* An
   IDEMPOTENT_BY_KEY effect whose first request was ambiguous and whose second
   definitely failed is recorded as FAILED, which internal/core/lease.go:90 takes
   for "definitely did not happen" (`Retention.AFailedResendLies`); the next attempt
   begins afresh without looking at the key's age, since only
   internal/effects/reconcile.go:39-43 does, and acts a second time
   (`Retention.LateRestartActsTwice`). So does an attempt that is paused after that
   check (`Retention.TooLateActsTwice`). Such an action is done at most once exactly
   if the provider remembers keys for the declared retention and the longest pause
   together, and no failed effect is begun afresh after it
   (`Retention.AtMostOnceIff`).
5. *A finished run can be signalled.* internal/engine/signals.go:42-44 refuses a
   signal for a finished run, but looks before its transaction: one that finishes
   in between gets it stored, and the sender is told so
   (`Oversleeping.AFinishedRunIsSignalled`, `Engine.DeliverSignal`).
6. *A late heartbeat blocks a retry.* `ExtendLease` checks the token and not the
   status, so a heartbeat that commits after its own worker's failure report
   gives a PENDING task a live lease, and every claim is refused until that runs
   out. The comment at internal/engine/tasks.go:31-32 says a task is never owned
   without being RUNNING. It holds exactly as long as heartbeats find their task
   RUNNING (`Ownership.HeartbeatKeepsIt`, `Ownership.NothingIdleIsOwned`,
   `Ownership.LateHeartbeatBlocksTheRetry`).
7. *A run can wait on time and on tasks.* docs/execution-model.md:26 and
   internal/core/wait.go:38-41 say it never does both. After an ANY or QUORUM
   join the siblings are still in flight while the body goes on to sleep
   (`Stragglers.TheRunThatWaitsOnBoth`), and when the sleep is over the recovery
   scan does not list the run (`Stragglers.TheSleeperIsNotListed`). Of all valid
   policies only ALL leaves nobody behind, fan-outs of one aside
   (`Joins.OnlyAllLeavesNoneBehind`); a run whose body joins on ALL never waits on
   both, and its sleepers are listed when due (`BodyRuns.NeverWaitsOnBoth`,
   `BodyRuns.SleepersAreListed`).
8. *A failure without a message strands a fan-out.* The driver takes a recorded
   failure with an empty error text for a step still in flight
   (sdk/python/veya/agent.py:321-328), the engine takes it for settled. The two
   disagree exactly when the counts of successes, failures and silent failures
   say so, for each policy (`BodyRuns.AskedInVainIff`), and then the run is
   owed a decision for ever and no pass changes anything
   (`Strandings.SilentFailureStrands`).
9. *Overlapping attempts can act twice.* Ledger transitions are conditional on
   the status alone, which can return to what a slow attempt expects. For
   QUERYABLE tools two attempts that both hold the answer "it never happened"
   are enough (`Overlaps.OverlapDuplicates`, `Overlaps.OverlapIsReachable`), and so
   is an attempt paused just before it sends
   (`Overlaps.PausedSenderDuplicates`, `Overlaps.PausedSenderIsReachable`); a
   sweep holding such an answer makes the ledger lie (`Overlaps.StaleSweepLies`).
   Without overlap the ledger is exact (`Ledger.QueryableIsExact`), and attempts
   that take turns do not overlap (`Ledger.TakingTurnsIsExact`); the first step
   after which two overlap leaves a way to act twice
   (`Overlaps.FirstOverlapCanDuplicate`).
10. *An UNRECONCILABLE tool with a reconciler can act twice.*
    internal/tool/registry.go:52 demands a reconciler of QUERYABLE tools and forbids
    it to none, and the sweep asks whichever has one
    (internal/effects/reconciler.go:191). At most once, in every interleaving,
    holds of those without (`Ledger.UnreconcilableIsAtMostOnce`) and fails with
    one (`Overlaps.ReconcilerBreaksAtMostOnce`).
11. *A child the reaper dead-letters never settles its join*, because the reaper
    appends no final TASK_FAILED. A child settles as failed exactly when a
    worker's report dead-lettered it (`DeadLetters.FailedIffReported`); from a
    reclaim of an exhausted child on, no join ever counts it
    (`DeadLetters.ReapedChildNeverSettles`, and a run stranded by it:
    `Strandings.ReapedChildStrands`).
12. *A dead step of its own wedges a run that nobody fails.* The comment at
    internal/lease/reaper.go:257-258 says the run of an exhausted task fails on the
    next advance. Nothing in a pass looks for dead letters: under a plan, the
    same step is asked for again, it exists, and nothing is committed, then and
    ever after (`Wedges.WedgedForever`). The same follows if an engine stops between
    a failure report and failRun. A running planned run is wedged exactly when
    one of its tasks is dead (`Wedges.WedgedIffDead`).
13. *An escalation can be lost.* internal/engine/tasks.go:241-244 says an escalated
    task stops the run whatever shape it is in. failRun writes under the version
    it has read, and takes a lost swap for a run that has finished
    (internal/engine/engine.go:408-410); a sibling's pass may have moved it on
    instead. The run fails exactly if nobody moved it in between
    (`Engine.FailsIffUnmoved`); `Escalations.AnEscalationIsLost` is a run that goes
    on to its next step with a task waiting for a human.
14. *Some edits of a body go unreported.* sdk/python/veya/agent.py:699-702 says the
    check cannot miss a divergence that changed a durable call. It reports exactly
    the edits in which a call that both versions make differs, alone or inside a
    fan-out (`Replay.ReportedIff`, `Replay.EditedBodyIsCaught`). A fan-out made
    longer is not reported, and strands the run unless its join is met without the
    new calls (`Replay.LongerFanOutStrands`, `Edits.AnUnreportedEditStrands`); a
    call turned into a sleep is not reported either
    (`Replay.CallTurnedSleepIsNotReported`).
15. *Reading again after a resume must be one step with it.* Between the commit
    and the re-read another engine may park the run; asking the decider then
    opens a second wait. Suspending keeps the invariant exactly when no wait is
    open (`Recovery.SuspendingKeepsInvIff`), and two engines do get there
    (`SplitReads.TheSplitRereadBreaks`). The model takes the commit and the
    re-read as one step.
16. *A wait asked for again loses its deadline.* The driver re-issues an
    unresolved `wait_for` with no deadline (sdk/python/veya/agent.py:439-462). It
    does no harm only because the engine never asks while a wait is open
    (`Replay.RecordedNeverDiverges` states what is re-issued).
17. *A sweep counts what others settled.* record takes a lost transition for
    success, so the reconciler's count includes effects somebody else settled
    meanwhile (`Reconciling.DefiniteAnswers`).

## Model

| member | source | states |
|---|---|---|
| Names.ParentInvertsChild | internal/core/ids.go:39-88 | parent and index are read back from every child name an int can number; the empty step is the one exception |
| Names.ChildInjective | internal/core/ids.go:39-41 | two children share a name only if they are the same child of the same step |
| Names.StepIsNoChild | internal/core/ids.go:27-41 | a top-level step and a child never share a name |
| Names.Children | internal/core/ids.go:48-54 | the loop yields the n child names in order, pairwise different |
| Names.KeyInjective | internal/core/effect.go:40-42 | two actions with colon-free steps share a key only if they are the same action, whatever their run ids contain |
| Names.KeyCollision | internal/core/effect.go:40-42 | without that restriction keys do collide |
| Retries.Backoff | internal/core/tool.go:136-171 | the loop with its early exit computes the capped geometric curve; jitter keeps the delay between (1 - jitter) of it and it |
| Retries.CurveIsMonotone | internal/core/tool.go:98-171 | the curve never falls from one attempt to a later one nor exceeds the cap |
| Waits.PendingWait | internal/core/wait.go:43-80 | the loop computes the fold that keeps one open wait |
| Waits.PendingIsUnmatched | internal/core/wait.go:38-80 | on a history that never opens a wait over another, the one slot is exactly the set of unmatched waits |
| Waits.SequentialIffOneOpen | internal/core/wait.go:38-41 | such histories are exactly those that never have two unmatched waits |
| Waits.ConsumedSignals | internal/core/wait.go:88-101 | the loop collects the ids of all consumed signals |
| Joins.Counts | internal/core/join.go:34-50 | one pass counts successes, failures and their sum |
| Joins.JoinIsExact | internal/core/join.go:59-84 | ALL is satisfied iff every child has settled; ANY and QUORUM iff every way the rest could still end gives the same answer to "enough successes?" |
| Joins.SatisfiedIsMonotone | internal/core/join.go:59-84 | settling more children never un-satisfies a join |
| Joins.OnlyAllLeavesNoneBehind | docs/execution-model.md:24-33 | a satisfied join leaves no child in flight, whatever its children did, if and only if it joins on ALL or has one child |
| FanOuts.PolicyRoundTrip | internal/core/join.go:168-181 | the recorded text of a valid policy parses back to it, but for the quorum that ALL and ANY do not use |
| FanOuts.PendingFanOut | internal/core/join.go:98-161 | the loop with its index map and early return finds the last fan-out, each child with its own story since, and says whether it is still joining |
| FanOuts.ChildOrderIsIrrelevant | internal/core/join.go:98-161 | reordering events across children, keeping each child's own order, changes neither the fan-out nor whether it is joining |
| Memory.Tx.constructor | internal/store/memory/memory.go:92-138 | a transaction starts from a copy of every table |
| Memory.Store.Finish | internal/store/memory/memory.go:142-152 | success publishes the copy; failure changes nothing but the shared delivery counter; what changed is on the process's own record of deeds |
| Memory.Tx.CreateRun | internal/store/memory/memory.go:301-312 | inserts a run unless its id is taken |
| Memory.Tx.AdvanceRun | internal/store/memory/memory.go:314-344 | compare-and-swap on the version and the status edge; exactly one version further |
| Memory.Tx.CreateTask | internal/store/memory/memory.go:346-366 | inserts a task and its unique (run, step) entry, or refuses with the reason |
| Memory.Tx.TransitionTask | internal/store/memory/memory.go:368-397 | a conditional move along a legal edge, counting an attempt on entering RUNNING |
| Memory.Tx.NextSeq | internal/store/memory/memory.go:399-410 | one more than the largest sequence number of the run |
| Memory.Tx.AppendEvent | internal/store/memory/memory.go:412-427 | appends unless that sequence number is taken |
| Memory.Tx.Append | internal/core/append.go:15-25 | never collides with itself: it fails only for a run that does not exist |
| Memory.Tx.RegisterWorker | internal/store/memory/leases.go:52-66 | adds a worker with a name |
| Memory.Tx.AcquireLease | internal/store/memory/leases.go:68-96 | grants a lease only over none or an expired one, under the next token |
| Memory.Tx.ExtendLease | internal/store/memory/leases.go:106-122 | renews under the current token only, whatever the status |
| Memory.Tx.ReleaseLease | internal/store/memory/leases.go:124-138 | expires the lease and keeps its token |
| Memory.Tx.EnqueueDelivery | internal/store/memory/outbox.go:42-61 | one more row under a number never used before |
| Memory.Tx.MarkDelivered | internal/store/memory/outbox.go:63-70 | the loop marks exactly the given ids |
| Memory.Tx.FailDelivery | internal/store/memory/outbox.go:72-83 | counts an attempt and keeps the row |
| Memory.Tx.RecordSignal | internal/store/memory/signals.go:30-44 | inserts a signal unless the sender's id is taken |
| Memory.Tx.ReleaseRun | internal/store/memory/signals.go:46-57 | clears the park and leaves the version |
| Memory.Tx.ReserveEffect | internal/store/memory/effects.go:83-107 | one row per key |
| Memory.Tx.TransitionEffect | internal/store/memory/effects.go:117-147 | a conditional move along a legal edge that overwrites only what the outcome carries |
| Queries.SortAndCut | internal/store/memory/memory.go:199-238 | whatever order rows come in, the result is the first of them in the given order, up to the limit |
| Queries.ExpiredLeases | internal/store/memory/leases.go:20-50 | exactly the run-out leases of unfinished tasks, oldest first, up to the limit |
| Queries.PendingDeliveries | internal/store/memory/outbox.go:20-38 | exactly the unpublished rows that are due, by id, up to the limit |
| Queries.RunsAwaitingAdvance | internal/store/memory/memory.go:216-238 | exactly the running runs with nothing in flight and no park ahead |
| Queries.PendingTasks | internal/store/memory/memory.go:199-214 | exactly the PENDING tasks, by creation and then id, up to the limit |
| Queries.UnresolvedEffects | internal/store/memory/effects.go:44-70 | exactly the RUNNING and UNKNOWN rows untouched for long enough |
| Queries.Signals | internal/store/memory/signals.go:16-28 | all signals of that name, in the order of their arrival |
| Queries.UnconsumedSignal | internal/engine/signals.go:91-106 | finds the oldest signal of the name that history has not consumed, or none if there is none |
| TaskEngine.ClaimTask | internal/engine/tasks.go:34-66 | the body commits the claim transaction: PENDING to RUNNING, lease, event, or the reason it does not |
| TaskEngine.Heartbeat | internal/engine/tasks.go:76-84 | the body commits the renewal, or the reason it does not |
| TaskEngine.AssertToken | internal/engine/tasks.go:293-303 | refuses a task without lease, and any token but the current one |
| TaskEngine.RecordCompletion | internal/engine/tasks.go:91-113 | the body commits the completion transaction, fenced |
| TaskEngine.RecordFailure | internal/engine/tasks.go:144-212 | the body commits the failure transaction: retry with its announcement, or dead letter |
| Records.ClaimIsRecorded | internal/engine/tasks.go:34-66 | a claim is granted if and only if the task is PENDING, the worker registered and no lease live; then the task runs, one attempt on, leased to that worker under the next token, and history says so; otherwise nothing changes |
| Records.HeartbeatIsRecorded | internal/engine/tasks.go:76-84 | a heartbeat renews the lease if and only if it presents the current token, whatever the task is doing, and touches nothing else |
| Records.CompletionIsRecorded | internal/engine/tasks.go:91-113 | a completion is accepted if and only if it is reported under the current token of a running task; then the row is COMPLETED, the lease over, and the result at the end of history; otherwise nothing changes |
| Records.FailureIsRecorded | internal/engine/tasks.go:144-212 | a failure is accepted likewise; exactly with attempts left and no human needed the task waits again, announced from the very instant that history gives; otherwise it is dead and the failure final |
| Reaper.Reclaim | internal/lease/reaper.go:220-305 | the body commits the reclaim: token bump, event, requeue or dead letter; a task that moved on is left alone |
| Reaper.RequeuedMeansPending | internal/lease/reaper.go:257-305 | a requeued task is PENDING, announced once more, under the next token, with no live lease, and no other task changes |
| Records.ReclaimIsRecorded | internal/lease/reaper.go:220-305 | a task that moved on or is leased again stays as it is; any other is taken back under the next token, with the lapsed owner and token in history, and announced at once or dead |
| Reaper.RequeuesIff | internal/lease/reaper.go:179-305 | what a sweep counts are exactly the tasks its reclaims turned PENDING |
| Reaper.ReapOnce | internal/lease/reaper.go:179-212 | every run-out lease the query lists, as it was read, gets its own reclaim transaction over whatever the tables are by then, others in between, and the sweep does nothing else; the count is of those that became PENDING again |
| RunEngine.CreateRun | internal/engine/engine.go:150-175 | the body commits a new run with its first event |
| RunEngine.AdvanceAndRecord | internal/engine/engine.go:401-420 | finish, park, resume and repark: compare-and-swap, then at most one event, in one transaction |
| RunEngine.DispatchOne | internal/engine/engine.go:347-380 | the body commits version, task, event and delivery together or nothing |
| RunEngine.DispatchFanOut | internal/engine/fanout.go:39-104 | the loops commit the whole fan-out or none of it |
| RunEngine.RecordAndRelease | internal/engine/signals.go:46-52 | the body commits the signal and the release together |
| Engine.WaitIsOver | internal/engine/engine.go:502-548 | a wait is over if and only if its instant has come or, for a signal, one is there; a timer then fires at that instant, and a wait for a signal ends by the oldest unconsumed one as it is stored, and with none by its deadline |
| Engine.Resume | internal/engine/engine.go:431-494 | unless another pass moved the run on, exactly if its instant has come or its signal is there, one event that ends the wait is appended, the run is awake and it is ready, with no wait open; otherwise nothing is recorded and the run is put back to sleep until then; losing the race is no error; that commit is all it does |
| Engine.ServingServes | internal/engine/engine.go:431-548 | the same of any committed pass over a waiting run, however old its reads |
| Engine.Act | internal/engine/engine.go:225-338 | nothing is committed while a fan-out is joining or when nobody can decide, which is reported; otherwise exactly what the decider's answer to the history it read calls for, against whatever tables it meets; a lost race is no error |
| Records.DecisionIsRecorded | internal/engine/engine.go:266-338 | what each decision without a task becomes: the row's status, output, error and park, one event that says the same, and nothing else |
| Records.NoDecisionIsRecorded | internal/engine/engine.go:256-264 | a decider that cannot decide fails the run with its error |
| Records.CallIsRecorded | internal/engine/engine.go:347-398 | a call becomes one new task, never tried and announced at once, with its event and the run awake; if its step or id is taken nothing changes at all |
| Engine.Advance | internal/engine/engine.go:189-338 | everything it does is a chain of specified passes, each over reads made in order since the one before; a park on a signal is followed by another look that begins by reading the run again, unless an error, the end of the run or the bound on passes comes first; it commits nothing exactly for unknown and finished runs and those of other agents |
| Engine.OnePass | internal/engine/engine.go:189-338 | one of its passes: it asks to look again exactly if it has recorded that the run waits for a signal |
| Engine.StartRun | internal/engine/engine.go:150-182 | creates the run once, RUNNING, with its input and with the agent version pinned for good, and then passes over it |
| Engine.FailRun | internal/engine/tasks.go:273-286 | leaves a terminal run alone, and otherwise commits RUN_FAILED against the version it read |
| Engine.FailsIffUnmoved | internal/engine/engine.go:401-420 | the run ends FAILED with the reason on record if and only if nobody moved it on between failRun's read and its swap; otherwise nothing is written |
| Engine.ReportComplete | internal/engine/tasks.go:91-131 | the report, then the passes over the run, and nothing else; a report that is fenced or late is discarded and changes nothing |
| Engine.ReportFailure | internal/engine/tasks.go:144-265 | after the report: nothing for a retry, the passes over the run for a child, and for a step of its own or an escalation the failing of the run, with the source's reason; nothing else is done |
| Escalations.AnEscalationIsLost | internal/engine/tasks.go:241-248 | a reachable run that goes on to sleep although one of its tasks was escalated and failRun was called |
| Engine.DeliverSignal | internal/engine/signals.go:32-63 | blanks, unknown and finished runs are refused and change nothing; anything else is stored in the tables as they are by then, whatever the run's status there, and releases the run; a repeat changes nothing |
| Oversleeping.AFinishedRunIsSignalled | internal/engine/signals.go:37-52 | a reachable run that fails between the check and the transaction, and gets its signal stored |
| TaskSteps.ClaimKeepsInv | internal/engine/tasks.go:34-66 | a claim keeps every invariant and only moves the tables forward |
| TaskSteps.FailKeepsInv | internal/engine/tasks.go:144-212 | so does a failure report |
| TaskSteps.ReclaimKeepsInv | internal/lease/reaper.go:220-305 | so does a reclaim, however stale the lease it was given |
| CreateSteps.FanOutKeepsInv | internal/engine/fanout.go:61-104 | so does a fan-out, committed or aborted half way |
| Advancing.PassKeepsInv | internal/engine/engine.go:189-338 | so does a pass whose run, history and signals were each read at a different time |
| Behaviours.AllReachable | internal/engine/engine.go:189-338 | every state of every behaviour satisfies the invariants, and stands to each earlier one as it should |
| Promises.StoreIsConsistent | internal/store/memory/memory.go:346-427 | sequences are exactly 1..n, the unique index and the tasks are mutually inverse, every row points at rows that exist |
| Promises.CurrentStateIsDerivable | internal/engine/tasks.go:34-211 | folding a run's events gives its status, each task's status, and each attempt as the number of claims |
| Promises.ClaimsEndOnce | internal/engine/tasks.go:34-211 | along every history each claim ends in exactly one completion, failure or lapse before the next |
| Promises.DeliveriesAreConserved | internal/engine/engine.go:350-378 | a task has as many outbox rows as attempts, and one more while PENDING |
| Promises.TokensStrictlyIncrease | internal/store/memory/leases.go:68-96 | a task's token never goes back, and is higher whenever it runs again |
| Promises.NoSupersededReport | internal/engine/tasks.go:293-303 | a report is accepted only if its task has run under that very claim, uninterrupted, ever since |
| Fencing.LeaseIsTheLatestClaim | internal/engine/tasks.go:25-66 | while a task runs, its lease carries the worker and the very token that the latest claim in the behaviour was granted, and the attempt it counted |
| Promises.SuspensionAgrees | internal/engine/engine.go:431-609 | for any decider: never two open waits, PendingWait is exactly the unmatched one, and a park is that wait's end |
| Wakings.WaitsEndOnTime | internal/engine/engine.go:502-548 | in every behaviour, a step that ends a wait ends one that is open, adding that one event: TIMER_FIRED only of a sleep whose instant has come, SIGNAL_WAIT_TIMED_OUT only past its deadline, SIGNAL_RECEIVED only of a stored signal of the name waited for |
| Promises.SignalsAreConsumedOnce | internal/engine/signals.go:91-106 | no signal id is consumed twice, and only stored ones are |
| Promises.AttemptsAreBounded | internal/engine/tasks.go:163-177 | PENDING means an attempt is left, and lifecycle events are bounded by the attempts |
| Promises.HistoryOnlyGrows | internal/store/memory/memory.go:412-427 | history is append-only and a finished run stays as it finished |
| Ownership.EveryMoveShrinks | internal/lease/reaper.go:257-269 | every step leaves a task's row alone or strictly decreases the work it has left |
| Ownership.HeartbeatKeepsIt | internal/store/memory/leases.go:106-122 | a heartbeat leaves nothing owned without being RUNNING exactly when its task is RUNNING |
| Ownership.NothingIdleIsOwned | internal/engine/tasks.go:25-32 | while heartbeats are prompt, no task that is not RUNNING has a live lease |
| Ownership.UnownedIsClaimable | internal/engine/tasks.go:34-66 | and then no registered worker is refused a PENDING task |
| Ownership.LateHeartbeatBlocksTheRetry | internal/store/memory/leases.go:106-122 | a heartbeat after the failure report makes every claim of the retry fail with the lease held |
| Arrivals.SignalsAreTakenInArrivalOrder | internal/engine/signals.go:91-106 | same-name signals are consumed in the order they arrived, however stale the reads |
| Arrivals.EarlyAndLateAreTheSame | internal/engine/engine.go:281-308 | delivering before or after the wait ends in identical tables when nothing interleaves with the passes |
| WakeUps.ParkSleepsIff | internal/engine/engine.go:278-308 | a park on a signal leaves the run asleep over one exactly when an untaken one of that name is stored in the tables it lands on |
| WakeUps.ReparkSleepsIff | internal/engine/engine.go:446-452 | so does parking again, exactly when one has arrived since the pass read the signals |
| WakeUps.ReparkSleepsIffDelivered | internal/engine/signals.go:46-58 | in every behaviour that is exactly when one was delivered between the position of the reading and that of the commit |
| WakeUps.SleepsOn | internal/store/memory/memory.go:216-238 | such a run stays asleep and unlisted until its park ends, through every step but a delivery to it, a pass over it and failRun |
| WakeUps.NoRunSleepsThrough | docs/execution-model.md:133-150 | in every behaviour in which no delivery falls between a pass's reading and its commit, and every park on a signal is followed by another look, no run sleeps through a signal |
| Oversleeping.EarlySignalIsSleptThrough | internal/engine/engine.go:295-308 | a reachable run, its signal delivered before its park and its engine stopped before the second look, that nothing lists for as long as it is parked |
| Oversleeping.LateSignalIsSleptThrough | internal/engine/engine.go:446-452 | another, with nobody stopping: parked again by a pass that read the signals before the delivery |
| LedgerFrames.AnswersComeWithCommitment | internal/effects/executor.go:195-234 | no ledger row holds an answer before it is COMMITTED |
| Agreement.CompletedMeansCommitted | internal/worker/worker.go:167-182 | in all interleavings a recorded completion of a consequential tool is backed by a COMMITTED effect with that same answer |
| Agreement.OneAnswerPerKey | internal/effects/executor.go:109-152 | whatever two executions of one action found committed, at any two times, is one answer |
| Executor.Reserve | internal/effects/executor.go:160-192 | a free key gets a PENDING row of this task and its event; a taken key changes nothing and is answered from the ledger |
| Executor.Transition | internal/effects/executor.go:268-290 | the row moves on its status, with the event rendered from the caller's copy, in one transaction |
| Executor.Perform | internal/effects/executor.go:195-234 | the request goes out under the effect's key exactly if the row is still what the attempt saw, and after RUNNING is committed; then a result makes it COMMITTED with that response, an error that claims nothing was sent FAILED, and any other error UNKNOWN, each with its event and its answer to the caller, unless somebody else moved the row; nothing else is done, and it is the ledger machine's Begin and Record |
| Executor.Resolve | internal/effects/reconcile.go:23-64 | a row that says RUNNING becomes UNKNOWN first, unless somebody else was quicker; past the provider's retention, or for a class that cannot be resolved, one escalation event is all there is and nothing is sent; otherwise it sends again under the key, or asks |
| Executor.ExpiresIff | internal/core/tool.go:78-85 | a key has expired if and only if a retention is declared and the effect was created longer ago than that |
| Executor.Query | internal/effects/reconcile.go:67-116 | without a reconciler it is left to a human; a failed or undecided lookup changes nothing and sends nothing; the provider's commitment becomes the row if that is still UNKNOWN, and sends nothing; only the answer that nothing happened lets the action be performed |
| Executor.Execute | internal/effects/executor.go:109-152 | at most one request is sent, and only if the row it read never began or definitely failed, or is open under a key that is still good, of a tool whose provider deduplicates or says that nothing happened; an open effect of an UNRECONCILABLE tool gets one escalation event and nothing else; a result of a tool with consequences is what the ledger holds committed, under any interference, and one committed already is returned as it stands |
| Executor.SendsAreBegins | internal/effects/executor.go:128-152 | those conditions are the ledger machine's: with a good key, an actor that holds the row comes to begin, after deciding, marking and asking, if and only if the executor may send |
| Workers.WorkOn | internal/worker/worker.go:146-183 | a refused claim does nothing; otherwise one attempt is made under the claim and, unless the lease was lost, reported under its token: a result as a completion, which is what the ledger holds, and an error as a failure, escalated exactly if the execution was; nothing else is done |
| Reconciling.MarkUnknown | internal/effects/reconciler.go:234-253 | a RUNNING row becomes UNKNOWN with its event at the end of the run and nothing else changes; a row no longer RUNNING is left alone, and that is no error |
| Reconciling.Record | internal/effects/reconciler.go:255-277 | an UNKNOWN row becomes the verdict with its event; any other row is left alone, and that is no error |
| Reconciling.Settle | internal/effects/reconciler.go:161-232 | marks, asks if it may, and takes a definite answer: an effect still UNKNOWN by then becomes COMMITTED with the provider's response or FAILED without one; an undecided answer changes nothing; nothing is sent |
| Reconciling.DefiniteAnswers | internal/effects/reconciler.go:208-232 | told row by row: after a definite answer an UNKNOWN row is the answer with its event, any other row stays as somebody left it, and both count as settled; after any other answer nothing has changed |
| Reconciling.SettlesAsTheMachine | internal/effects/reconciler.go:191-232 | it is what the ledger machine's sweep comes to record after marking and asking |
| Reconciling.ReconcileOnce | internal/effects/reconciler.go:133-158 | every stale effect the query lists, oldest first, is taken up once as Settle does, others in between, and one that cannot be settled stops none; the count is of those settled without error |
| Reconciling.SweepsSendNothing | internal/effects/reconciler.go:133-232 | whatever a sweep does, it sends nothing |
| Relay.Mark | internal/outbox/relay.go:225-244 | in one transaction the rows handed over are published and the refused ones have one more attempt and its cause; no other row changes |
| Relay.RelayOnce | internal/outbox/relay.go:178-220 | the due rows are offered in order until the dispatcher closes; exactly the accepted ones are marked published and exactly the refused ones get an attempt and its cause, in one transaction, and nothing else is done |
| Ledger.MovesIsTheTransaction | internal/store/memory/effects.go:117-147 | the machine's conditional move is the store's, with its event or without: same commits, same row, no other row touched |
| Ledger.ReserveIsTheTransaction | internal/effects/executor.go:160-192 | the machine's reservation is the store's: one insert, and the loser told that the key is taken |
| Ledger.QueryableIsExact | internal/effects/reconcile.go:23-116 | without overlapping attempts: at most once through any crashes, and COMMITTED, FAILED and PENDING always tell the truth |
| Ledger.TakingTurnsIsExact | internal/effects/reconcile.go:23-116 | attempts and sweeps of which at most one at a time has not returned or crashed do not overlap, so the same holds of them |
| Ledger.UnreconcilableIsAtMostOnce | internal/effects/executor.go:131-150 | of a tool without a reconciler at most one request ever takes effect, in every interleaving of executors and sweeps |
| Overlaps.ReconcilerBreaksAtMostOnce | internal/effects/reconciler.go:191-232 | with a reconciler it can take effect twice: a run from the empty ledger |
| Overlaps.OverlapDuplicates | internal/effects/executor.go:276-279 | two attempts holding the same answer can always do the action twice |
| Overlaps.StaleSweepLies | internal/effects/reconciler.go:255-277 | a sweep holding a stale answer can always record that what happened did not |
| Overlaps.OverlapIsReachable | internal/effects/reconcile.go:67-116 | such an overlap comes about from the empty ledger |
| Overlaps.PausedSenderDuplicates | internal/effects/executor.go:195-234 | an attempt paused before sending and one that holds the answer "never happened" can always do the action twice |
| Overlaps.PausedSenderIsReachable | internal/effects/executor.go:195-234 | that overlap, too, comes about from the empty ledger |
| Overlaps.FirstOverlapCanDuplicate | internal/effects/executor.go:276-279 | from any ledger in order, the first step after which two attempts on a QUERYABLE action overlap leaves a way for it to be done twice |
| Retention.AtMostOnceIff | internal/effects/reconcile.go:34-55 | an IDEMPOTENT_BY_KEY action is done at most once in every interleaving, exactly if the provider remembers a key for the declared retention and the longest pause together, and no failed effect is begun afresh after the retention |
| Retention.TooLateActsTwice | internal/effects/reconcile.go:39-43 | an attempt paused after it has looked at the clock can act a second time |
| Retention.AFailedResendLies | internal/effects/executor.go:222-234 | a re-send that definitely failed records FAILED of an action that has been done |
| Retention.LateRestartActsTwice | internal/core/lease.go:96-103 | and from FAILED the action is begun afresh, whatever the age of the key, and done again |
| Overlaps.RecoveryFinishes | internal/effects/reconcile.go:23-116 | after any crashes one more attempt can end with the action committed and done exactly once |
| StaticPlan.CompletedSteps | internal/decider/static.go:66-74 | the loop counts completions |
| StaticPlan.FindLastResult | internal/decider/static.go:78-90 | the backward loop finds the last completion's result, or that it cannot be read |
| StaticPlan.Decide | internal/decider/static.go:44-62 | the next call of the plan, or completion with the last result |
| StaticPlan.RunsNeverFork | internal/decider/static.go:44-74 | under a plan every interleaving keeps the tasks S1..Sm, the first c completed once each and in order, m at most c + 1 |
| StaticPlan.CompletedRunsDidEverything | internal/decider/static.go:44-74 | a COMPLETED run has completed every step of the plan once, in order, and its output is the last result |
| Wedges.WedgedIff | internal/decider/static.go:44-62 | a listed planned run is wedged if and only if the next step of its plan exists already |
| Wedges.WedgedIffDead | internal/lease/reaper.go:257-269 | a running planned run is wedged if and only if one of its tasks is dead-lettered |
| Wedges.WedgedForever | internal/lease/reaper.go:257-258 | unless somebody fails it, a wedged run is owed a decision in every later state and no pass by its plan changes any table |
| Histories.Read | sdk/python/veya/history.py:152-251 | the loop over two dictionaries, with its protocol errors, computes the fold |
| Agents.JoinSatisfied | sdk/python/veya/agent.py:744-761 | the driver's own count and rule |
| Agents.Context.CallTool | sdk/python/veya/agent.py:215-259 | what history answers a call with: result, failure, divergence, or nothing yet |
| Agents.Context.CallParallel | sdk/python/veya/agent.py:261-350 | outcomes in invocation order, the first diverging child, or the same fan-out again |
| Agents.Context.Sleep | sdk/python/veya/agent.py:354-412 | over, or parked until the instant already recorded |
| Agents.Context.WaitFor | sdk/python/veya/agent.py:414-462 | payload, timeout, or the wait again |
| Agents.Decide | sdk/python/veya/agent.py:541-594 | replays the body as far as history answers, decides what comes next, and always ends |
| Agents.OneReplay | sdk/python/veya/agent.py:541-594 | a replay is a function of the body and the history |
| ReadBack.CallGetsBack | sdk/python/veya/history.py:152-251 | a call gets back the result of the last completion of its step, or the text of its final failure, or is asked again if the history only has its start |
| ReadBack.OtherCallsDiverge | sdk/python/veya/agent.py:215-259 | a call is reported if and only if its tool or payload is not the one the history decided for that step |
| ReadBack.OutcomeGetsBack | sdk/python/veya/agent.py:303-350 | a fan-out's outcome at an index is what the last event of that child recorded |
| ReadBack.SleepGetsBack | sdk/python/veya/agent.py:354-412 | a sleep is over once it has fired, and until then lasts until the instant on record |
| ReadBack.SignalGetsBack | sdk/python/veya/agent.py:414-462 | a wait gets back the payload of the signal that ended it, or its timeout, or is asked again |
| Replay.AnswerStands | sdk/python/veya/agent.py:215-462 | an answer to a call, sleep, wait or ALL join is the same however history goes on |
| Replay.AnswerGrows | sdk/python/veya/agent.py:303-350 | any request on record, once answered, stays answered; on ANY and QUORUM what has settled stands and more may have |
| Replay.ReplayIsDirect | sdk/python/veya/agent.py:215-594 | for steady bodies, whatever they join on: alternating replay and recording asks for exactly what one uninterrupted run asks for, in order, and never reports a divergence |
| Unsteady.AnUnsteadyBodyDivergesFromItself | sdk/python/veya/agent.py:261-350 | a body that uses the first success of an ANY join, and a run of three rounds in which its own replay reports it |
| Unsteady.SelfDivergesIff | sdk/python/veya/agent.py:696-707 | a replay of a body that agrees with itself so far reports it exactly if its next request differs in a call from the one on record |
| Replay.EditedBodyIsCaught | sdk/python/veya/agent.py:215-350 | an edited body is reported at the request it changed, on record and perhaps answered, if and only if a call both versions make differs, and then at that very step or child |
| Replay.ReportedIff | sdk/python/veya/agent.py:696-707 | of all edits of one recorded request exactly those are reported, however much of it is answered |
| Replay.LongerFanOutStrands | sdk/python/veya/agent.py:303-350 | a recorded fan-out made longer, under any join, is not reported and exists already; it is asked for again exactly if what is in falls short of the join, which under ALL is always |
| Edits.AnUnreportedEditStrands | sdk/python/veya/agent.py:696-707 | a reachable run whose body was edited so: joined for the engine, asked for again by the body, owed a decision at any time, and no pass changes it |
| Replay.CallTurnedSleepIsNotReported | sdk/python/veya/agent.py:354-412 | a recorded call turned into a sleep is not reported |
| Replay.RecordedNeverDiverges | sdk/python/veya/agent.py:215-462 | a request on record is answered or asked again, and never diverges |
| Recording.DecisionsAreRecorded | internal/engine/engine.go:225-338 | a committed decision adds exactly the events replay reads it back from |
| BodyRuns.RunsFollowTheirBody | sdk/python/veya/agent.py:541-594 | in every behaviour of the whole system the recorded decisions of a run with a steady body are those of one uninterrupted run of it, in order, and its replay never diverges |
| BodyRuns.TailsAreRounds | internal/engine/engine.go:189-338 | what a behaviour adds to a history while its run is not advanced is a proper tail that only carries on what had begun |
| Readability.EngineHistoriesAreReadable | sdk/python/veya/history.py:188-251 | in every behaviour, the reader never meets an outcome without its start, or a body it cannot decode |
| FanOutRuns.FanOutHistory | internal/engine/fanout.go:61-104 | a committed fan-out adds its own event and its children's, in order |
| FanOutRuns.FanOutsAreWhole | internal/engine/fanout.go:61-104 | every fan-out on record is followed at once by the creation of all its children |
| Skipping.TablesAgree | internal/core/join.go:98-161 | a child is settled and succeeded iff its row is COMPLETED, settled and failed iff it is DEAD_LETTER with a final failure on record |
| DeadLetters.FailedIffReported | internal/engine/tasks.go:163-212 | in every behaviour a child is settled and failed if and only if the step that dead-lettered it is a worker's failure report |
| DeadLetters.ReapedDeath | internal/lease/reaper.go:257-269 | a reclaim dead-letters exactly the exhausted, and records no final failure |
| DeadLetters.ReapedChildNeverSettles | internal/lease/reaper.go:257-269 | a child whose reclaim found it exhausted is unsettled in every later state |
| Strandings.ReapedChildStrands | internal/lease/reaper.go:257-269 | a reachable run, its one child reaped, that is owed a decision at any time and that no pass changes |
| BodyRuns.SkippedBodiesWouldRepeat | internal/core/join.go:89-97 | for steady bodies, whatever they join on: when the engine asks nobody, the replayed body stands at that fan-out and would have issued the identical one again |
| BodyRuns.AskedInVainIff | sdk/python/veya/agent.py:303-350 | for steady bodies, whatever they join on: the body re-issues its latest fan-out just while the engine finds it joining, if and only if the counts of successes, failures and silent failures do not turn its policy |
| Strandings.SilentFailureStrands | sdk/python/veya/agent.py:321-328 | a reachable run, its one child failed without a message: joined for the engine, re-issued by the body, owed a decision at any time, and no pass changes it |
| Skipping.ReissueCommitsNothing | internal/engine/fanout.go:61-112 | committing the identical fan-out again leaves every table as it was |
| Oversleeping.ForgottenIff | internal/engine/runtime.go:155-175 | in every reachable state a running run is listed, or parked with nothing stored that ends its wait, or has a task that the scan publishes, a live lease covers or the reaper's query lists; or else it sleeps through a signal with nothing in flight, and only then |
| Oversleeping.NoRunIsForgotten | internal/engine/runtime.go:155-175 | under the conditions of NoRunSleepsThrough no running run is forgotten |
| Recovery.RetryRowsWaitOutTheBackoff | internal/engine/tasks.go:163-211 | a retry gets a new outbox row; in every later state in which it waits for that attempt the relay may announce it from the end of the backoff on, and before only through a row left from before the failure |
| Recovery.TheScanIgnoresTheBackoff | internal/engine/runtime.go:155-163 | at the instant of the failure the scan lists the task and a claim of it commits |
| Recovery.BackoffHoldsIff | internal/engine/tasks.go:207-210 | until the backoff has passed nobody announces the task if and only if the scan does not run and no older row of it is left to the relay |
| BodyRuns.SleepersAreListed | internal/store/memory/memory.go:216-238 | a parked run whose body joins on ALL is listed as soon as its park is over, in every behaviour |
| BodyRuns.NeverWaitsOnBoth | docs/execution-model.md:24-33 | in every behaviour a run whose body joins on ALL is never parked with a task in flight |
| Stragglers.TheRunThatWaitsOnBoth | docs/execution-model.md:24-33 | a reachable run that is parked with a task in flight |
| Stragglers.TheSleeperIsNotListed | internal/store/memory/memory.go:220-236 | that run again, once its sleep is over: due, and not listed |
| Recovery.SuspendingKeepsInvIff | internal/engine/engine.go:480-493 | recording a suspension keeps the invariants exactly when no wait is open |
| SplitReads.TheSplitRereadBreaks | internal/engine/engine.go:480-493 | two engines reach a state in which a re-read of its own step, and asking on it, commits a second open wait |

## Left out

- Engine.Advance: the pass after parking on a signal repeats itself at most `passes` times; the source has no bound, and with senders delivering forever neither has it an end.
- Engine.Resume: the commit and the re-read after it are one step; SplitReads shows why.
- Engine.ReportComplete: texts the source wraps around errors are not kept, only which error it is.
- Ledger.QueryableIsExact: is stated for attempts that do not overlap, because otherwise it is false; see the findings.
- Replay.ReplayIsDirect: is stated for steady bodies, because otherwise it is false; see the findings.
- Arrivals.EarlyAndLateAreTheSame: is stated for passes that nothing interleaves with; what interleaving does to a wake-up is said in WakeUps.
- BodyRuns.AskedInVainIff: a QUORUM join of more calls than a 64-bit integer counts is set aside.
- Overlaps.FirstOverlapCanDuplicate: further attempts may join in; which pairs can break the ledger by themselves is said only of those with rows of their own.
- Reconciling.Settle: the detail text of a resolution is not kept.
- Retention.AtMostOnceIff: the retention of keys that a QUERYABLE provider answers by is not modelled; there an expired key is an attempt that stops.
- PostgreSQL, NATS, the gRPC gateway and sessions, HTTP, the CLI, wiring and logging are input and output.
- JSON, envelopes and the coercions of history.py are not modelled: bodies are datatypes, payloads opaque text compared after their trip over the wire; a body of the wrong kind reads as absent fields.
- Clocks and random sources are parameters; a clock never goes back. Contexts, cancellation, tickers and mutexes are interleaved atomic transactions.
- Provider calls, tool handlers and lookups are parameters or steps of the ledger machine; a claim that nothing was sent is taken to be truthful there.
- The operator's manual resolution of an effect, the determinism warnings and the tool declaration checks are not part of this model.
- Created, updated and completed instants of runs and tasks, worker types and delivery creation times are not kept: the one query that orders by them takes them as a parameter.
- NextWakeUp, ListTasks and the runtime's loops are liveness hints around what is modelled.
- The sort by sequence in History is omitted: sequences are proved to be 1..n in order.
- Rounding and overflow of durations, versions, tokens and sequences are not modelled: they are unbounded integers and reals.
