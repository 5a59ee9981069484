/** The domain vocabulary of internal/core: rows, events, statuses and the
    decision tables over them. JSON bodies are opaque text, and an event's
    decoded body is a datatype whose constructor says which struct it is. */
module Core {
  import opened Prelude
  import opened Names

  type Time = int

  // A raw JSON value, or nil.
  type Json = Option<string>

  // The zero time.Time: "no deadline", "available immediately".
  const ZERO_TIME: Time := 0

  // A park with no schedule of its own: 9999-12-31T23:59:59Z in seconds.
  const INDEFINITE: Time := 253402300799

  datatype Error =
    | NotFound | Conflict | TaskExists | SeqConflict | InvalidTransition
    | EffectExists | SignalExists | Fenced | LeaseHeld
    | ToolNotFound | NeedsReconciliation | Escalated | ToolError | DeciderUnavailable

  // ----- runs (run.go) -----

  datatype RunStatus = RunRunning | RunCompleted | RunFailed | RunCancelled {
    predicate IsTerminal() {
      RunCompleted? || RunFailed? || RunCancelled?
    }
    predicate CanTransitionTo(next: RunStatus) {
      !IsTerminal() && next.IsTerminal() && RunRunning?
    }
  }

  datatype Run = Run(
    agent: string, agentVersion: string,  // pinned at start
    status: RunStatus, version: int,
    input: Json, output: Json, lastError: string,
    availableAt: Option<Time>)            // None: ready
  {
    predicate IsWaiting(now: Time) {
      availableAt.Some? && availableAt.value > now
    }
  }

  // The mutable slice of a run that advancement writes.
  datatype RunState = RunState(status: RunStatus, output: Json, lastError: string, availableAt: Option<Time>)

  // ----- tasks (task.go) -----

  datatype TaskStatus = TaskPending | TaskRunning | TaskCompleted | TaskFailed | TaskCancelled | TaskDeadLetter {
    predicate IsTerminal() {
      TaskCompleted? || TaskFailed? || TaskCancelled? || TaskDeadLetter?
    }
    predicate CanTransitionTo(next: TaskStatus) {
      match this
      case TaskPending => next == TaskRunning || next == TaskCancelled
      case TaskRunning => next.IsTerminal() || next == TaskPending
      case _ => false
    }
  }

  datatype Task = Task(
    run: RunId, step: StepId, tool: string, payload: Json,
    status: TaskStatus, attempt: int, maxAttempts: int, lastError: string)
  {
    predicate Exhausted() {
      attempt >= maxAttempts
    }
  }

  // ----- leases (lease.go) -----

  datatype Lease = Lease(worker: string, token: int, acquiredAt: Time, expiresAt: Time, heartbeatAt: Time) {
    predicate Expired(now: Time) {
      now >= expiresAt
    }
  }

  datatype RecoveryAction = RecoverExecute | RecoverReconcile | RecoverComplete | RecoverEscalate

  /** What to do about an action, given what the ledger knows of it. */
  function RecoveryFor(hasEffect: bool, status: EffectStatus, class_: EffectClass): RecoveryAction {
    if !hasEffect then RecoverExecute
    else
      match status
      case EffectPending | EffectFailed => RecoverExecute
      case EffectCommitted => RecoverComplete
      case EffectRunning | EffectUnknown =>
        if class_.CanAutoResolve() then RecoverReconcile else RecoverEscalate
  }

  // ----- effects (effect.go) -----

  datatype EffectStatus = EffectPending | EffectRunning | EffectCommitted | EffectFailed | EffectUnknown {
    predicate CanTransitionTo(next: EffectStatus) {
      match this
      case EffectPending => next == EffectRunning || next == EffectFailed
      case EffectRunning => next == EffectCommitted || next == EffectFailed || next == EffectUnknown
      case EffectFailed => next == EffectRunning
      case EffectUnknown =>
        next == EffectCommitted || next == EffectFailed || next == EffectRunning || next == EffectUnknown
      case EffectCommitted => false
    }
  }

  datatype EffectClass = ClassNone | ClassIdempotentByKey | ClassQueryable | ClassUnreconcilable {
    predicate HasConsequence() {
      this != ClassNone
    }
    predicate CanAutoResolve() {
      ClassIdempotentByKey? || ClassQueryable?
    }
  }

  datatype Effect = Effect(
    task: TaskId, run: RunId, tool: string, class_: EffectClass, status: EffectStatus,
    request: Json, response: Json, externalRef: string, lastError: string,
    createdAt: Time, updatedAt: Time)

  datatype EffectOutcome = EffectOutcome(response: Json, externalRef: string, error: string)

  // ----- signals and deliveries (signal.go, outbox.go) -----

  datatype SignalKey = SignalKey(run: RunId, id: string)

  datatype Signal = Signal(name: string, payload: Json, createdAt: Time)

  datatype Delivery = Delivery(task: TaskId, attempts: nat, lastError: string, availableAt: Time)

  // ----- history (event.go) -----

  datatype EventType =
    | EvRunStarted | EvRunCompleted | EvRunFailed | EvRunCancelled
    | EvTaskCreated | EvTaskClaimed | EvTaskCompleted | EvTaskFailed
    | EvTaskRetryScheduled | EvTaskDeadLettered | EvLeaseExpired
    | EvEffectCreated | EvEffectCommitted | EvEffectFailed | EvEffectUnknown | EvEffectReconciled | EvEffectEscalated
    | EvTimerSet | EvTimerFired | EvSignalWaitStarted | EvSignalReceived | EvSignalWaitTimedOut
    | EvFanOutStarted

  datatype Data =
    | RunStartedData(agent: string, agentVersion: string, input: Json)
    | RunCompletedData(output: Json)
    | RunFailedData(reason: string)
    | RunCancelledData(reason: string)
    | TaskCreatedData(task: TaskId, tool: string, payload: Json)
    | TaskClaimedData(task: TaskId, worker: string, attempt: int)
    | TaskCompletedData(task: TaskId, result: Json)
    | TaskFailedData(task: TaskId, error: string, attempt: int, final: bool)
    | TaskRetryData(task: TaskId, attempt: int, why: string, notBefore: Time)
    | LeaseExpiredData(task: TaskId, previousOwner: string, previousToken: int)
    | EffectData(effectOf: TaskId, key: Key, effectTool: string, class_: EffectClass, status: EffectStatus,
                 externalRef: string, response: Json, effectError: string, detail: string)
    | TimerSetData(wakeAt: Time)
    | TimerFiredData(firedAt: Time)
    | SignalWaitData(name: string, deadline: Time)
    | SignalReceivedData(name: string, signal: string, payload: Json)
    | SignalTimedOutData(name: string, deadline: Time)
    | FanOutData(calls: seq<string>, join: string)
    | Unreadable  // an envelope this build cannot decode

  datatype Event = Event(seqNo: int, typ: EventType, step: StepId, data: Data)

  // ----- decisions (decision.go) -----

  datatype JoinKind = JoinAll | JoinAny | JoinQuorum | JoinUnknown(text: string)

  datatype JoinPolicy = JoinPolicy(kind: JoinKind, quorum: int) {
    /** Whether the policy makes sense for n children. */
    predicate Valid(n: int) {
      n > 0 &&
      match kind
      case JoinAll | JoinAny => true
      case JoinQuorum => 0 < quorum <= n
      case JoinUnknown(_) => false
    }
  }

  datatype Call = Call(tool: string, payload: Json)

  datatype Decision =
    | CallTool(step: StepId, tool: string, payload: Json)
    | CallToolParallel(step: StepId, calls: seq<Call>, join: JoinPolicy)
    | Sleep(step: StepId, wakeAt: Time)
    | WaitForSignal(step: StepId, name: string, deadline: Time)
    | Complete(output: Json)
    | Fail(error: string)
    | Cancel(reason: string)
}
