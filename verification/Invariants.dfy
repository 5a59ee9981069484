/** What every reachable state of the store keeps, and how any later state
    stands to any earlier one. */
module Invariants {
  import opened Names
  import opened Core
  import opened Tables
  import opened Waits
  import opened Lifecycle

  // ----- the tables -----

  /** tasks and the unique (run, step) index are mutually inverse. */
  predicate IndexOk(s: State) {
    && (forall id :: id in s.tasks ==>
          StepKey(s.tasks[id].run, s.tasks[id].step) in s.stepIndex &&
          s.stepIndex[StepKey(s.tasks[id].run, s.tasks[id].step)] == id)
    && (forall k :: k in s.stepIndex ==>
          s.stepIndex[k] in s.tasks && s.tasks[s.stepIndex[k]].run == k.run && s.tasks[s.stepIndex[k]].step == k.step)
  }

  /** Every row points at rows that exist, and no instant lies in the future. */
  predicate ParentsOk(s: State) {
    && s.deliverySeq >= 0
    && s.events.Keys == s.runs.Keys
    && (forall id :: id in s.tasks ==> s.tasks[id].run in s.runs)
    && (forall d :: d in s.deliveries ==> 0 < d <= s.deliverySeq && s.deliveries[d].task in s.tasks)
    && (forall id :: id in s.leases ==> id in s.tasks && s.leases[id].worker in s.workers)
    && (forall k :: k in s.signals ==> k.run in s.runs && s.signals[k].createdAt <= s.clock)
  }

  /** The ledger's rows belong to the task their key names. */
  predicate EffectsOk(s: State) {
    forall k :: k in s.effects ==>
      s.effects[k].task in s.tasks && s.effects[k].run == s.tasks[s.effects[k].task].run &&
      k == NewKey(s.effects[k].run, s.tasks[s.effects[k].task].step, FIRST_EFFECT)
  }

  predicate EventOk(s: State, r: RunId, e: Event) {
    IsTaskEvent(e.typ) ==>
      TaskIdOf(e.data).Some? && TaskIdOf(e.data).value in s.tasks &&
      s.tasks[TaskIdOf(e.data).value].run == r && s.tasks[TaskIdOf(e.data).value].step == e.step
  }

  /** Histories are numbered 1..n, and a task event names a task of this run,
      under that task's step. */
  predicate HistoryOk(s: State, r: RunId) {
    Gapless(Hist(s, r)) && forall i :: 0 <= i < |Hist(s, r)| ==> EventOk(s, r, Hist(s, r)[i])
  }

  // ----- one task -----

  /** The row is derivable from history; the outbox holds one announcement for
      every attempt, and one more while the task is waiting to be claimed. */
  predicate TaskOk(s: State, id: TaskId)
    requires id in s.tasks
  {
    var t := s.tasks[id];
    var v := ViewOf(Hist(s, t.run), id);
    && v.phase == PhaseOf(t.status) && !v.phase.Malformed?
    && v.attempt == t.attempt
    && 0 <= t.attempt <= t.maxAttempts
    && (t.status.TaskPending? ==> t.attempt < t.maxAttempts)
    && (!t.status.TaskPending? ==> 0 < t.attempt)
    && |Rows(s.deliveries, id)| == t.attempt + (if t.status.TaskPending? then 1 else 0)
    && v.events <= 1 + 3 * t.attempt - (if t.status.TaskRunning? then 2 else 0)
    && LeaseOk(s, id, v.holder)
  }

  /** A task is leased from its first claim on, and while it runs, the lease is
      the latest claimer's. */
  predicate LeaseOk(s: State, id: TaskId, holder: string)
    requires id in s.tasks
  {
    var t := s.tasks[id];
    && (id in s.leases <==> t.attempt > 0)
    && (id in s.leases ==>
          s.leases[id].token >= t.attempt &&
          (t.status.TaskRunning? ==> s.leases[id].worker == holder))
  }

  // ----- one run -----

  /** The row's status is derivable from history; at most one wait is ever
      open; a park is that wait's; and no signal is consumed twice. */
  predicate RunOk(s: State, r: RunId)
    requires r in s.runs
  {
    var h := Hist(s, r);
    var run := s.runs[r];
    && StatusOf(h) == Is(run.status)
    && Sequential(h)
    && (run.status.RunRunning? && run.availableAt.Some? ==>
          Pending(h).Some? && Pending(h).value.until == run.availableAt.value)
    && SignalsOk(s.signals, r, Consumed(h))
  }

  predicate SignalsOk(signals: map<SignalKey, Signal>, r: RunId, ts: seq<Taken>) {
    && (forall i, j :: 0 <= i < j < |ts| ==> ts[i].id != ts[j].id)
    && (forall i :: 0 <= i < |ts| ==>
        SignalKey(r, ts[i].id) in signals && signals[SignalKey(r, ts[i].id)].name == ts[i].name)
  }

  predicate TasksOk(s: State) {
    forall id :: id in s.tasks ==> TaskOk(s, id)
  }

  predicate RunsOk(s: State) {
    forall r :: r in s.runs ==> RunOk(s, r)
  }

  predicate HistoriesOk(s: State) {
    forall r :: r in s.runs ==> HistoryOk(s, r)
  }

  predicate Inv(s: State) {
    IndexOk(s) && ParentsOk(s) && EffectsOk(s) && HistoriesOk(s) && TasksOk(s) && RunsOk(s)
  }

  // ----- later states -----

  predicate RunEvolves(a: State, b: State, r: RunId)
    requires r in a.runs
  {
    && r in b.runs
    && a.runs[r].agent == b.runs[r].agent
    && a.runs[r].agentVersion == b.runs[r].agentVersion
    && a.runs[r].version <= b.runs[r].version
    && (a.runs[r].version == b.runs[r].version ==>
          a.runs[r].status == b.runs[r].status &&
          Pending(Hist(a, r)) == Pending(Hist(b, r)) && Consumed(Hist(a, r)) == Consumed(Hist(b, r)))
    && Hist(a, r) <= Hist(b, r)
    && Consumed(Hist(a, r)) <= Consumed(Hist(b, r))
    && (a.runs[r].status.IsTerminal() ==> b.runs[r].status == a.runs[r].status)
  }

  /** Tokens never repeat: while a token stands, no claim or reclaim happened. */
  predicate TaskEvolves(a: State, b: State, id: TaskId)
    requires id in a.tasks
  {
    && id in b.tasks
    && a.tasks[id].run == b.tasks[id].run && a.tasks[id].step == b.tasks[id].step
    && a.tasks[id].tool == b.tasks[id].tool && a.tasks[id].payload == b.tasks[id].payload
    && a.tasks[id].maxAttempts == b.tasks[id].maxAttempts
    && a.tasks[id].attempt <= b.tasks[id].attempt
    && (a.tasks[id].status.IsTerminal() ==> b.tasks[id] == a.tasks[id])
    && (id in a.leases ==>
          id in b.leases && a.leases[id].token <= b.leases[id].token &&
          (a.leases[id].token == b.leases[id].token ==>
             a.leases[id].worker == b.leases[id].worker &&
             a.tasks[id].attempt == b.tasks[id].attempt &&
             (b.tasks[id].status.TaskRunning? ==> a.tasks[id].status.TaskRunning?)))
  }

  predicate EffectEvolves(a: Effect, b: Effect) {
    && a.task == b.task && a.run == b.run && a.tool == b.tool && a.class_ == b.class_ && a.createdAt == b.createdAt
    && (a.status.EffectCommitted? ==> b == a)
  }

  predicate LedgerEvolves(a: State, b: State) {
    forall k :: k in a.effects ==> k in b.effects && EffectEvolves(a.effects[k], b.effects[k])
  }

  /** Signals are never lost, and a new one is never older than the clock was. */
  predicate SignalsEvolve(a: State, b: State) {
    && (forall k :: k in a.signals ==> k in b.signals && b.signals[k] == a.signals[k])
    && (forall k :: k in b.signals && k !in a.signals ==> b.signals[k].createdAt >= a.clock)
  }

  predicate RunsEvolve(a: State, b: State) {
    forall r :: r in a.runs ==> RunEvolves(a, b, r)
  }

  predicate TasksEvolve(a: State, b: State) {
    forall id :: id in a.tasks ==> TaskEvolves(a, b, id)
  }

  predicate OutboxEvolves(a: State, b: State) {
    && a.deliverySeq <= b.deliverySeq && a.published <= b.published
    && (forall d :: d in a.deliveries ==>
          d in b.deliveries && b.deliveries[d].task == a.deliveries[d].task &&
          b.deliveries[d].availableAt == a.deliveries[d].availableAt)
  }

  predicate Evolves(a: State, b: State) {
    && a.clock <= b.clock
    && a.workers <= b.workers
    && RunsEvolve(a, b) && TasksEvolve(a, b) && LedgerEvolves(a, b) && SignalsEvolve(a, b) && OutboxEvolves(a, b)
  }

  lemma EvolvesReflexive(s: State)
    ensures Evolves(s, s)
  {
  }

  lemma EvolvesTransitive(a: State, b: State, c: State)
    requires Evolves(a, b) && Evolves(b, c)
    ensures Evolves(a, c)
  {
    forall r | r in a.runs
      ensures RunEvolves(a, c, r)
    {
      assert RunEvolves(a, b, r) && RunEvolves(b, c, r);
    }
    forall id | id in a.tasks
      ensures TaskEvolves(a, c, id)
    {
      assert TaskEvolves(a, b, id) && TaskEvolves(b, c, id);
    }
  }
}
