/** Current state as a fold of history. A run's rows carry its status, and each
    task's status and attempt; the event log carries the same facts, and these
    folds read them back. They are partial on purpose: an order of events the
    runtime must never produce folds to Malformed. */
module Lifecycle {
  import opened Prelude
  import opened Names
  import opened Core
  import opened Tables
  import opened Waits

  // ----- one task -----

  datatype Phase =
    | Absent | Queued | Claimed
    | Failing(final: bool)   // a failure is recorded, its consequence not yet
    | LeaseGone               // the lease is recorded as lapsed, its consequence not yet
    | Done | Dead | Malformed

  /** holder is the worker of the latest claim; events counts the lifecycle
      events recorded about the task. */
  datatype View = View(phase: Phase, attempt: int, holder: string, events: int)

  predicate IsTaskEvent(typ: EventType) {
    typ.EvTaskCreated? || typ.EvTaskClaimed? || typ.EvTaskCompleted? || typ.EvTaskFailed? ||
    typ.EvTaskRetryScheduled? || typ.EvTaskDeadLettered? || typ.EvLeaseExpired?
  }

  function TaskIdOf(d: Data): Option<TaskId> {
    match d
    case TaskCreatedData(t, _, _) => Some(t)
    case TaskClaimedData(t, _, _) => Some(t)
    case TaskCompletedData(t, _) => Some(t)
    case TaskFailedData(t, _, _, _) => Some(t)
    case TaskRetryData(t, _, _, _) => Some(t)
    case LeaseExpiredData(t, _, _) => Some(t)
    case _ => None
  }

  predicate Concerns(e: Event, id: TaskId) {
    IsTaskEvent(e.typ) && TaskIdOf(e.data) == Some(id)
  }

  function NextPhase(v: View, e: Event): Phase {
    match (v.phase, e.typ)
    case (Absent, EvTaskCreated) => Queued
    case (Queued, EvTaskClaimed) =>
      if e.data.TaskClaimedData? && e.data.attempt == v.attempt + 1 then Claimed else Malformed
    case (Claimed, EvTaskCompleted) => Done
    case (Claimed, EvTaskFailed) =>
      if e.data.TaskFailedData? && e.data.attempt == v.attempt then Failing(e.data.final) else Malformed
    case (Claimed, EvLeaseExpired) => LeaseGone
    case (Failing(final), EvTaskRetryScheduled) => if final then Malformed else Queued
    case (Failing(final), EvTaskDeadLettered) => if final then Dead else Malformed
    case (LeaseGone, EvTaskRetryScheduled) => Queued
    case (LeaseGone, EvTaskDeadLettered) => Dead
    case _ => Malformed
  }

  function StepView(v: View, e: Event): View {
    View(NextPhase(v, e),
         if e.typ.EvTaskClaimed? then v.attempt + 1 else v.attempt,
         if e.typ.EvTaskClaimed? && e.data.TaskClaimedData? then e.data.worker else v.holder,
         v.events + 1)
  }

  const NEVER: View := View(Absent, 0, "", 0)

  /** What a history says about one task. */
  function ViewOf(h: seq<Event>, id: TaskId): View {
    if h == [] then NEVER
    else
      var before := ViewOf(h[..|h| - 1], id);
      var e := h[|h| - 1];
      if Concerns(e, id) then StepView(before, e) else before
  }

  function PhaseOf(status: TaskStatus): Phase {
    match status
    case TaskPending => Queued
    case TaskRunning => Claimed
    case TaskCompleted => Done
    case TaskDeadLetter => Dead
    case TaskFailed => Malformed     // never entered by this runtime
    case TaskCancelled => Malformed  // never entered by this runtime
  }

  lemma ViewLog(h: seq<Event>, f: Fact, id: TaskId)
    ensures ViewOf(Log(h, f), id) ==
            if Concerns(Stamp(h, f), id) then StepView(ViewOf(h, id), Stamp(h, f)) else ViewOf(h, id)
  {
    assert Log(h, f)[..|h|] == h;
  }

  lemma {:induction false} ViewSkips(h: seq<Event>, g: seq<Event>, id: TaskId)
    requires h <= g
    requires forall i :: |h| <= i < |g| ==> !Concerns(g[i], id)
    ensures ViewOf(g, id) == ViewOf(h, id)
  {
    if |h| < |g| {
      ViewSkips(h, g[..|g| - 1], id);
    } else {
      assert g == h;
    }
  }

  /** Each task's Attempt is its number of TASK_CLAIMED events. */
  function Claims(h: seq<Event>, id: TaskId): int {
    if h == [] then 0
    else Claims(h[..|h| - 1], id) + (if Concerns(h[|h| - 1], id) && h[|h| - 1].typ.EvTaskClaimed? then 1 else 0)
  }

  lemma {:induction false} AttemptCountsClaims(h: seq<Event>, id: TaskId)
    ensures ViewOf(h, id).attempt == Claims(h, id)
  {
    if h != [] { AttemptCountsClaims(h[..|h| - 1], id); }
  }

  // ----- the run -----

  datatype RunPhase = NotStarted | Is(status: RunStatus) | RunMalformed

  function StepRun(p: RunPhase, e: Event): RunPhase {
    match e.typ
    case EvRunStarted => if p == NotStarted then Is(RunRunning) else RunMalformed
    case EvRunCompleted => if p == Is(RunRunning) then Is(RunCompleted) else RunMalformed
    case EvRunFailed => if p == Is(RunRunning) then Is(RunFailed) else RunMalformed
    case EvRunCancelled => if p == Is(RunRunning) then Is(RunCancelled) else RunMalformed
    case _ => if p == NotStarted then RunMalformed else p
  }

  function StatusOf(h: seq<Event>): RunPhase {
    if h == [] then NotStarted else StepRun(StatusOf(h[..|h| - 1]), h[|h| - 1])
  }

  lemma StatusLog(h: seq<Event>, f: Fact)
    ensures StatusOf(Log(h, f)) == StepRun(StatusOf(h), Stamp(h, f))
  {
    assert Log(h, f)[..|h|] == h;
  }

  /** An event that says nothing about the run's status or its suspensions. */
  predicate RunNeutral(e: Event) {
    !e.typ.EvRunStarted? && !e.typ.EvRunCompleted? && !e.typ.EvRunFailed? && !e.typ.EvRunCancelled? &&
    !IsWaitEvent(e)
  }

  predicate SameRunStory(h: seq<Event>, g: seq<Event>) {
    StatusOf(g) == StatusOf(h) && Pending(g) == Pending(h) && Consumed(g) == Consumed(h) &&
    (Sequential(h) ==> Sequential(g))
  }

  lemma {:induction false} NeutralEvents(h: seq<Event>, g: seq<Event>)
    requires h <= g
    requires forall i :: |h| <= i < |g| ==> RunNeutral(g[i])
    requires StatusOf(h).Is?
    ensures SameRunStory(h, g)
  {
    if |h| < |g| {
      var n := |g| - 1;
      var m := g[..n];
      NeutralEvents(h, m);
      assert RunNeutral(g[n]);
      assert Consumed(g) == Consumed(m) + [];
      if Sequential(m) {
        assert forall i :: 0 <= i < n ==> m[i] == g[i] && m[..i] == g[..i];
      }
    } else {
      assert g == h;
    }
  }
}
