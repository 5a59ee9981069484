/** Every RunInTx body of the runtime as one atomic step: what it commits, or
    why it aborts. Abort keeps the tables as they were, except for the delivery
    counter, which is a sequence and is not rolled back. */
module Transactions {
  import opened Prelude
  import opened Names
  import opened Core
  import opened Tables

  datatype TxResult =
    | Commit(st: State)
    | Abort(error: Error, st: State)

  const REAPER := "veya-reaper"

  // ----- advancing a run -----

  /** Why AdvanceRun refuses, if it does: the compare half of compare-and-swap. */
  function AdvanceError(s: State, r: RunId, expected: int, next: RunState): Option<Error> {
    if r !in s.runs then Some(NotFound)
    else if s.runs[r].version != expected then Some(Conflict)
    else if next.status != s.runs[r].status &&
      !s.runs[r].status.CanTransitionTo(next.status) then Some(InvalidTransition)
    else None
  }

  function Advanced(run: Run, next: RunState): Run {
    run.(status := next.status, output := next.output, lastError := next.lastError,
         availableAt := next.availableAt, version := run.version + 1)
  }

  function Bump(s: State, r: RunId, next: RunState): State
    requires r in s.runs
  {
    s.(runs := s.runs[r := Advanced(s.runs[r], next)])
  }

  function StartRunTx(s: State, r: RunId, agent: string, version: string, input: Json): TxResult {
    if r in s.runs then Abort(Conflict, s)
    else
      Commit(LogOn(s.(runs := s.runs[r := Run(agent, version, RunRunning, 0, input, None, "", None)]), r,
                   Fact(EvRunStarted, "", RunStartedData(agent, version, input))))
  }

  /** finish, park, resume and repark: one compare-and-swap and at most one event. */
  function AdvanceTx(s: State, r: RunId, expected: int, next: RunState, fact: Option<Fact>): TxResult {
    var e := AdvanceError(s, r, expected, next);
    if e.Some? then Abort(e.value, s)
    else if fact.Some? then Commit(LogOn(Bump(s, r, next), r, fact.value))
    else Commit(Bump(s, r, next))
  }

  // The row, the unique index, the event and the delivery intent of one task.
  function AddTask(s: State, r: RunId, step: StepId, id: TaskId, call: Call, max: int): State {
    LogOn(s, r, Fact(EvTaskCreated, step, TaskCreatedData(id, call.tool, call.payload)))
      .(tasks := s.tasks[id := Task(r, step, call.tool, call.payload, TaskPending, 0, max, "")],
        stepIndex := s.stepIndex[StepKey(r, step) := id],
        deliverySeq := s.deliverySeq + 1,
        deliveries := s.deliveries[s.deliverySeq + 1 := Delivery(id, 0, "", ZERO_TIME)])
  }

  function AddTaskError(s: State, r: RunId, step: StepId, id: TaskId): Option<Error> {
    if r !in s.runs then Some(NotFound)
    else if StepKey(r, step) in s.stepIndex then Some(TaskExists)
    else if id in s.tasks then Some(Conflict)
    else None
  }

  function StillRunning(run: Run): RunState {
    RunState(RunRunning, run.output, "", None)
  }

  function DispatchTx(s: State, r: RunId, expected: int, output: Json, step: StepId, id: TaskId, call: Call,
                      max: int): TxResult {
    var next := RunState(RunRunning, output, "", None);
    var e := AdvanceError(s, r, expected, next);
    if e.Some? then Abort(e.value, s)
    else
      var e' := AddTaskError(s, r, step, id);
      if e'.Some? then Abort(e'.value, s)
      else Commit(AddTask(Bump(s, r, next), r, step, id, call, max))
  }

  function PolicyText(join: JoinPolicy): string {
    match join.kind
    case JoinAll => "ALL"
    case JoinAny => "ANY"
    case JoinQuorum =>
      "QUORUM(" + (if join.quorum < 0 then "-" + Decimal(0 - join.quorum) else Decimal(join.quorum)) + ")"
    case JoinUnknown(text) => text
  }

  function ToolNames(calls: seq<Call>): seq<string> {
    seq(|calls|, i requires 0 <= i < |calls| => calls[i].tool)
  }

  /** The first n children of a fan-out, in invocation order; the first one
      that already exists aborts the batch. */
  function AddChildren(s: State, r: RunId, step: StepId, calls: seq<Call>, ids: seq<TaskId>, max: int, n: nat): TxResult
    requires |ids| == |calls| && n <= |calls|
  {
    if n == 0 then Commit(s)
    else
      match AddChildren(s, r, step, calls, ids, max, n - 1)
      case Abort(e, st) => Abort(e, st)
      case Commit(t) =>
        var e := AddTaskError(t, r, Child(step, n - 1), ids[n - 1]);
        if e.Some? then Abort(e.value, t)
        else Commit(AddTask(t, r, Child(step, n - 1), ids[n - 1], calls[n - 1], max))
  }

  function FanOutTx(s: State, r: RunId, expected: int, output: Json, step: StepId,
                    calls: seq<Call>, join: JoinPolicy, ids: seq<TaskId>, max: int): TxResult
    requires |ids| == |calls|
  {
    var next := RunState(RunRunning, output, "", None);
    var e := AdvanceError(s, r, expected, next);
    if e.Some? then Abort(e.value, s)
    else
      var started := LogOn(Bump(s, r, next), r,
                           Fact(EvFanOutStarted, step, FanOutData(ToolNames(calls), PolicyText(join))));
      match AddChildren(started, r, step, calls, ids, max, |calls|)
      case Commit(t) => Commit(t)
      case Abort(err, t) => Abort(err, s.(deliverySeq := t.deliverySeq))
  }

  // ----- tasks: claim, report, reclaim -----

  function LeaseTaken(s: State, id: TaskId, worker: string, now: Time, expiresAt: Time): Lease {
    Lease(worker, if id in s.leases then s.leases[id].token + 1 else 1, now, expiresAt, now)
  }

  predicate LeaseIsHeld(s: State, id: TaskId, now: Time) {
    id in s.leases && !s.leases[id].Expired(now)
  }

  function ClaimTx(s: State, id: TaskId, worker: string, now: Time, ttl: int): TxResult {
    if id !in s.tasks then Abort(NotFound, s)
    else
      var t := s.tasks[id];
      if !t.status.TaskPending? then Abort(Conflict, s)
      else if worker !in s.workers then Abort(NotFound, s)
      else if LeaseIsHeld(s, id, now) then Abort(LeaseHeld, s)
      else if t.run !in s.runs then Abort(NotFound, s)
      else
        Commit(LogOn(s, t.run, Fact(EvTaskClaimed, t.step, TaskClaimedData(id, worker, t.attempt + 1)))
                 .(tasks := s.tasks[id := t.(status := TaskRunning, attempt := t.attempt + 1)],
                   leases := s.leases[id := LeaseTaken(s, id, worker, now, now + ttl)]))
  }

  function HeartbeatTx(s: State, id: TaskId, token: int, now: Time, ttl: int): TxResult {
    if id !in s.leases then Abort(NotFound, s)
    else if s.leases[id].token != token then Abort(Fenced, s)
    else Commit(s.(leases := s.leases[id := s.leases[id].(expiresAt := now + ttl, heartbeatAt := now)]))
  }

  /** Why a report is refused: assertToken, then the conditional transition. */
  function ReportError(s: State, id: TaskId, token: int): Option<Error> {
    if id !in s.tasks || id !in s.leases then Some(NotFound)
    else if s.leases[id].token != token then Some(Fenced)
    else if !s.tasks[id].status.TaskRunning? then Some(Conflict)
    else if s.tasks[id].run !in s.runs then Some(NotFound)
    else None
  }

  function Released(s: State, id: TaskId, now: Time): map<TaskId, Lease>
    requires id in s.leases
  {
    s.leases[id := s.leases[id].(expiresAt := now)]
  }

  function CompleteTx(s: State, id: TaskId, token: int, result: Json, now: Time): TxResult {
    var e := ReportError(s, id, token);
    if e.Some? then Abort(e.value, s)
    else
      var t := s.tasks[id];
      Commit(LogOn(s, t.run, Fact(EvTaskCompleted, t.step, TaskCompletedData(id, result)))
               .(tasks := s.tasks[id := t.(status := TaskCompleted)], leases := Released(s, id, now)))
  }

  function Noted(t: Task, status: TaskStatus, reason: string): Task {
    t.(status := status, lastError := if reason != "" then reason else t.lastError)
  }

  function Enqueued(s: State, id: TaskId, availableAt: Time): State {
    s.(deliverySeq := s.deliverySeq + 1,
       deliveries := s.deliveries[s.deliverySeq + 1 := Delivery(id, 0, "", availableAt)])
  }

  predicate WillRetry(t: Task, escalated: bool) {
    !t.Exhausted() && !escalated
  }

  /** delay is what the retry policy's curve computed for this attempt. */
  function NotBefore(t: Task, escalated: bool, delay: int, now: Time): Time {
    if WillRetry(t, escalated) && delay > 0 then now + delay else ZERO_TIME
  }

  function FailTx(s: State, id: TaskId, token: int, reason: string, escalated: bool, delay: int, now: Time): TxResult {
    var e := ReportError(s, id, token);
    if e.Some? then Abort(e.value, s)
    else
      var t := s.tasks[id];
      var retry := WillRetry(t, escalated);
      var notBefore := NotBefore(t, escalated, delay, now);
      var failed := LogOn(s, t.run, Fact(EvTaskFailed, t.step, TaskFailedData(id, reason, t.attempt, !retry)));
      var noted := LogOn(failed, t.run, Fact(if retry then EvTaskRetryScheduled else EvTaskDeadLettered, t.step,
                                             TaskRetryData(id, t.attempt, reason, notBefore)))
                     .(tasks := s.tasks[id := Noted(t, if retry then TaskPending else TaskDeadLetter, reason)],
                       leases := Released(s, id, now));
      Commit(if retry then Enqueued(noted, id, notBefore) else noted)
  }

  /** The reaper's transaction. stale is the lease its query returned; reason
      is the text built from it. Finding the task no longer running, or its
      lease live again, commits nothing and is not an error. */
  function ReclaimTx(s: State, id: TaskId, stale: Lease, reason: string, now: Time): TxResult {
    if id !in s.tasks then Abort(NotFound, s)
    else if !s.tasks[id].status.TaskRunning? then Commit(s)
    else if REAPER !in s.workers then Abort(NotFound, s)
    else if LeaseIsHeld(s, id, now) then Commit(s)
    else if s.tasks[id].run !in s.runs then Abort(NotFound, s)
    else
      var t := s.tasks[id];
      var retry := !t.Exhausted();
      var expired := LogOn(s, t.run, Fact(EvLeaseExpired, t.step, LeaseExpiredData(id, stale.worker, stale.token)));
      var noted := LogOn(expired, t.run, Fact(if retry then EvTaskRetryScheduled else EvTaskDeadLettered, t.step,
                                              TaskRetryData(id, t.attempt, reason, ZERO_TIME)))
                     .(tasks := s.tasks[id := Noted(t, if retry then TaskPending else TaskDeadLetter, reason)],
                       leases := s.leases[id := LeaseTaken(s, id, REAPER, now, now)]);
      Commit(if retry then Enqueued(noted, id, ZERO_TIME) else noted)
  }

  // ----- signals, workers, outbox -----

  function DeliverTx(s: State, r: RunId, id: string, name: string, payload: Json, now: Time): TxResult {
    if r !in s.runs then Abort(NotFound, s)
    else if SignalKey(r, id) in s.signals then Abort(SignalExists, s)
    else
      Commit(s.(signals := s.signals[SignalKey(r, id) := Signal(name, payload, now)],
                runs := s.runs[r := s.runs[r].(availableAt := None)]))
  }

  function RegisterTx(s: State, worker: string): TxResult {
    if worker == "" then Abort(InvalidTransition, s)
    else Commit(s.(workers := s.workers + {worker}))
  }

  /** The relay's mark: rows that were handed over, and rows that were not. */
  function MarkTx(s: State, delivered: set<int>, failed: map<int, string>): TxResult {
    if !(failed.Keys <= s.deliveries.Keys) then Abort(NotFound, s)
    else
      Commit(s.(published := s.published + delivered,
                deliveries := map d | d in s.deliveries ::
                  if d in failed then s.deliveries[d].(attempts := s.deliveries[d].attempts + 1, lastError := failed[d])
                  else s.deliveries[d]))
  }

  // ----- the effect ledger -----

  function ReserveTx(s: State, key: Key, e: Effect, step: StepId, now: Time): TxResult {
    if e.run !in s.runs || e.task !in s.tasks then Abort(NotFound, s)
    else if key in s.effects then Abort(EffectExists, s)
    else
      Commit(LogOn(s, e.run, Fact(EvEffectCreated, step, EffectFact(key, e, "")))
               .(effects := s.effects[key := e.(createdAt := now, updatedAt := now)]))
  }

  function EffectFact(key: Key, e: Effect, detail: string): Data {
    EffectData(e.task, key, e.tool, e.class_, e.status, e.externalRef, e.response, e.lastError, detail)
  }

  function Moved(e: Effect, to: EffectStatus, out: EffectOutcome, now: Time): Effect {
    e.(status := to, updatedAt := now,
       response := if out.response.Some? then out.response else e.response,
       externalRef := if out.externalRef != "" then out.externalRef else e.externalRef,
       lastError := if out.error != "" then out.error else e.lastError)
  }

  /** A conditional ledger transition and, optionally, the event beside it. The
      event renders the caller's own copy of the row, local, which may be stale. */
  function EffectTx(s: State, key: Key, from: EffectStatus, to: EffectStatus, out: EffectOutcome,
                    run: RunId, fact: Option<Fact>, now: Time): TxResult
  {
    if key !in s.effects then Abort(NotFound, s)
    else if s.effects[key].status != from then Abort(Conflict, s)
    else if !from.CanTransitionTo(to) then Abort(InvalidTransition, s)
    else
      var moved := s.(effects := s.effects[key := Moved(s.effects[key], to, out, now)]);
      if fact.None? then Commit(moved)
      else if run !in s.runs then Abort(NotFound, s)
      else Commit(LogOn(moved, run, fact.value))
  }

  // An event on its own: an escalation.
  function NoteTx(s: State, run: RunId, fact: Fact): TxResult {
    if run !in s.runs then Abort(NotFound, s) else Commit(LogOn(s, run, fact))
  }
}
