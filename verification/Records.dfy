/** What the main commits put on record, row by row and event by event, and
    exactly when a report or a claim is accepted. */
module Records {
  import opened Prelude
  import opened Names
  import opened Core
  import opened Tables
  import opened Transactions
  import opened RunSteps
  import opened Advancing
  import opened Marks

  /** These facts, in this order, at the end of one run's history; every other
      history as it was. */
  ghost predicate Notes(s: State, t: State, r: RunId, facts: seq<Fact>) {
    && |Hist(t, r)| == |Hist(s, r)| + |facts| && Hist(s, r) <= Hist(t, r)
    && (forall i :: 0 <= i < |facts| ==>
          var e := Hist(t, r)[|Hist(s, r)| + i];
          e.typ == facts[i].typ && e.step == facts[i].step && e.data == facts[i].data)
    && (forall q :: q != r ==> Hist(t, q) == Hist(s, q))
  }

  lemma OneNote(s: State, t: State, r: RunId, f: Fact)
    requires t.events == s.events[r := Log(Hist(s, r), f)]
    ensures Notes(s, t, r, [f])
  {
    StampIs(Hist(s, r), f);
  }

  lemma TwoNotes(s: State, t: State, r: RunId, f: Fact, g: Fact)
    requires t.events == s.events[r := Log(Log(Hist(s, r), f), g)]
    ensures Notes(s, t, r, [f, g])
  {
    StampIs(Hist(s, r), f);
    StampIs(Log(Hist(s, r), f), g);
  }

  // ----- what a decision becomes -----

  /** The run's row after a decision: how it stands, what it returned or why it
      failed, and how long it sleeps. */
  predicate RowIs(s: State, t: State, r: RunId, status: RunStatus, output: Json, error: string, park: Option<Time>) {
    && r in s.runs && r in t.runs
    && t == s.(runs := t.runs, events := t.events)
    && t.runs == s.runs[r := s.runs[r].(status := status, output := output, lastError := error, availableAt := park,
                                        version := s.runs[r].version + 1)]
  }

  /** What the engine commits for a decision that creates no task. */
  lemma DecisionIsRecorded(cfg: Config, s: State, r: RunId, run: Run, decision: Decision)
    requires r in s.runs && s.runs[r] == run && run.status.RunRunning?
    ensures var t := CommitTx(cfg, s, r, run, Enact(run, decision), []).st;
            match decision
            case Complete(output) =>
              RowIs(s, t, r, RunCompleted, output, "", None) &&
              Notes(s, t, r, [Fact(EvRunCompleted, "", RunCompletedData(output))])
            case Fail(error) =>
              RowIs(s, t, r, RunFailed, None, error, None) &&
              Notes(s, t, r, [Fact(EvRunFailed, "", RunFailedData(error))])
            case Cancel(reason) =>
              RowIs(s, t, r, RunCancelled, None, "", None) &&
              Notes(s, t, r, [Fact(EvRunCancelled, "", RunCancelledData(reason))])
            case Sleep(step, wakeAt) =>
              RowIs(s, t, r, RunRunning, run.output, "", Some(wakeAt)) &&
              Notes(s, t, r, [Fact(EvTimerSet, step, TimerSetData(wakeAt))])
            case WaitForSignal(step, name, deadline) =>
              RowIs(s, t, r, RunRunning, run.output, "", Some(if deadline == 0 then INDEFINITE else deadline)) &&
              Notes(s, t, r, [Fact(EvSignalWaitStarted, step, SignalWaitData(name, deadline))])
            case CallToolParallel(_, calls, join) =>
              !join.Valid(|calls|) ==> t.runs[r].status.RunFailed?
            case CallTool(_, _, _) => true
  {
    hide Log, Notes;
    var c := Enact(run, decision);
    var t := CommitTx(cfg, s, r, run, c, []).st;
    if c.Write? && c.fact.Some? { OneNote(s, t, r, c.fact.value); }
  }

  /** A decider that cannot decide fails the run: the row says where. */
  lemma NoDecisionIsRecorded(cfg: Config, s: State, r: RunId, run: Run, error: string)
    requires r in s.runs && s.runs[r] == run && run.status.RunRunning?
    ensures var t := CommitTx(cfg, s, r, run, CannotGoOn(error), []).st;
            RowIs(s, t, r, RunFailed, None, "decide: " + error, None) &&
            Notes(s, t, r, [Fact(EvRunFailed, "", RunFailedData(error))])
  {
    hide Log, Notes;
    var t := CommitTx(cfg, s, r, run, CannotGoOn(error), []).st;
    OneNote(s, t, r, Fact(EvRunFailed, "", RunFailedData(error)));
  }

  /** A call becomes one new task, PENDING and never tried, announced at once,
      unless its step or its id is taken: then nothing changes at all. */
  lemma CallIsRecorded(cfg: Config, s: State, r: RunId, run: Run, step: StepId, tool: string, payload: Json, id: TaskId)
    requires r in s.runs && s.runs[r] == run && run.status.RunRunning?
    ensures var t := CommitTx(cfg, s, r, run, Enact(run, CallTool(step, tool, payload)), [id]).st;
            if StepKey(r, step) in s.stepIndex || id in s.tasks then t == s
            else
              && Notes(s, t, r, [Fact(EvTaskCreated, step, TaskCreatedData(id, tool, payload))])
              && t.tasks == s.tasks[id := Task(r, step, tool, payload, TaskPending, 0, cfg.maxAttempts, "")]
              && t.stepIndex == s.stepIndex[StepKey(r, step) := id]
              && t.deliveries == s.deliveries[s.deliverySeq + 1 := Delivery(id, 0, "", ZERO_TIME)]
              && t.runs == s.runs[r := run.(lastError := "", availableAt := None, version := run.version + 1)]
              && t.effects == s.effects && t.leases == s.leases && t.signals == s.signals
  {
    hide Log, Notes;
    var t := CommitTx(cfg, s, r, run, Enact(run, CallTool(step, tool, payload)), [id]).st;
    if !(StepKey(r, step) in s.stepIndex || id in s.tasks) {
      OneNote(s, t, r, Fact(EvTaskCreated, step, TaskCreatedData(id, tool, payload)));
    }
  }

  // ----- claims and reports -----

  /** What every move of a task leaves alone. */
  predicate OnlyTask(s: State, t: State, id: TaskId) {
    && id in s.tasks && id in t.tasks && id in t.leases
    && t.runs == s.runs && t.effects == s.effects && t.signals == s.signals && t.stepIndex == s.stepIndex
    && t.published == s.published && t.workers == s.workers && t.clock == s.clock
    && t.tasks == s.tasks[id := t.tasks[id]] && t.leases == s.leases[id := t.leases[id]]
  }

  /** A claim is granted exactly to a registered worker, of a task that waits and
      whose lease has run out, and it is that worker's, under the next token. */
  lemma ClaimIsRecorded(s: State, id: TaskId, worker: string, ttl: int)
    requires id in s.tasks && s.tasks[id].run in s.runs
    ensures var res, task := ClaimTx(s, id, worker, s.clock, ttl), s.tasks[id];
            && (res.Commit? <==> task.status.TaskPending? && worker in s.workers &&
                                 (id in s.leases ==> s.leases[id].expiresAt <= s.clock))
            && if res.Abort? then res.st == s
               else
                 && OnlyTask(s, res.st, id) && res.st.deliveries == s.deliveries
                 && res.st.tasks[id] == task.(status := TaskRunning, attempt := task.attempt + 1)
                 && (var l := res.st.leases[id];
                     && l.worker == worker && l.expiresAt == s.clock + ttl
                     && l.token == if id in s.leases then s.leases[id].token + 1 else 1)
                 && Notes(s, res.st, task.run,
                          [Fact(EvTaskClaimed, task.step, TaskClaimedData(id, worker, task.attempt + 1))])
  {
    hide Log, Notes;
    var res, task := ClaimTx(s, id, worker, s.clock, ttl), s.tasks[id];
    if res.Commit? {
      OneNote(s, res.st, task.run, Fact(EvTaskClaimed, task.step, TaskClaimedData(id, worker, task.attempt + 1)));
    }
  }

  /** A heartbeat renews the lease exactly under its current token, whatever the
      task is doing, and touches nothing else. */
  lemma HeartbeatIsRecorded(s: State, id: TaskId, token: int, ttl: int)
    ensures var res := HeartbeatTx(s, id, token, s.clock, ttl);
            && (res.Commit? <==> id in s.leases && s.leases[id].token == token)
            && if res.Abort? then res.st == s
               else
                 res.st == s.(leases := s.leases[id := Lease(s.leases[id].worker, token, s.leases[id].acquiredAt,
                                                             s.clock + ttl, s.clock)])
  {
  }

  /** A report is accepted exactly under the token of the task's lease, while the
      task runs. */
  predicate Accepted(s: State, id: TaskId, token: int) {
    && id in s.tasks && id in s.leases && s.tasks[id].run in s.runs
    && s.leases[id].token == token && s.tasks[id].status.TaskRunning?
  }

  /** The report ends the lease where it stands, and keeps its token. */
  predicate EndsLease(s: State, t: State, id: TaskId) {
    id in s.leases && id in t.leases && t.leases[id] == s.leases[id].(expiresAt := s.clock)
  }

  lemma CompletionIsRecorded(s: State, id: TaskId, token: int, result: Json)
    ensures var res := CompleteTx(s, id, token, result, s.clock);
            && (res.Commit? <==> Accepted(s, id, token))
            && if res.Abort? then res.st == s
               else
                 && OnlyTask(s, res.st, id) && res.st.deliveries == s.deliveries && EndsLease(s, res.st, id)
                 && res.st.tasks[id] == s.tasks[id].(status := TaskCompleted)
                 && Notes(s, res.st, s.tasks[id].run,
                          [Fact(EvTaskCompleted, s.tasks[id].step, TaskCompletedData(id, result))])
  {
    hide Log, Notes;
    var res := CompleteTx(s, id, token, result, s.clock);
    if res.Commit? {
      OneNote(s, res.st, s.tasks[id].run, Fact(EvTaskCompleted, s.tasks[id].step, TaskCompletedData(id, result)));
    }
  }

  /** A failure is retried exactly while attempts are left and no human is needed:
      it waits, announced once more from the end of its backoff on, which is the
      instant history gives. Otherwise it is dead, and final. */
  lemma FailureIsRecorded(s: State, id: TaskId, token: int, reason: string, escalated: bool, delay: int)
    ensures var res := FailTx(s, id, token, reason, escalated, delay, s.clock);
            && (res.Commit? <==> Accepted(s, id, token))
            && if res.Abort? then res.st == s
               else
                 var task := s.tasks[id];
                 && OnlyTask(s, res.st, id) && EndsLease(s, res.st, id)
                 && (reason != "" ==> res.st.tasks[id].lastError == reason)
                 && res.st.tasks[id].attempt == task.attempt
                 && if task.attempt < task.maxAttempts && !escalated then
                      var notBefore := if delay > 0 then s.clock + delay else ZERO_TIME;
                      && res.st.tasks[id].status.TaskPending?
                      && res.st.deliveries == s.deliveries[s.deliverySeq + 1 := Delivery(id, 0, "", notBefore)]
                      && Notes(s, res.st, task.run,
                               [Fact(EvTaskFailed, task.step, TaskFailedData(id, reason, task.attempt, false)),
                                Fact(EvTaskRetryScheduled, task.step, TaskRetryData(id, task.attempt, reason,
                                    notBefore))])
                    else
                      && res.st.tasks[id].status.TaskDeadLetter? && res.st.deliveries == s.deliveries
                      && Notes(s, res.st, task.run,
                               [Fact(EvTaskFailed, task.step, TaskFailedData(id, reason, task.attempt, true)),
                                Fact(EvTaskDeadLettered, task.step,
                                     TaskRetryData(id, task.attempt, reason, ZERO_TIME))])
  {
    hide Log, Notes, Hist;
    FailLogsTwo(s, id, token, reason, escalated, delay, s.clock);
    var res := FailTx(s, id, token, reason, escalated, delay, s.clock);
    if res.Commit? {
      var task := s.tasks[id];
      var retry := task.attempt < task.maxAttempts && !escalated;
      var notBefore := if retry && delay > 0 then s.clock + delay else ZERO_TIME;
      TwoNotes(s, res.st, task.run, Fact(EvTaskFailed, task.step, TaskFailedData(id, reason, task.attempt, !retry)),
               Fact(if retry then EvTaskRetryScheduled else EvTaskDeadLettered, task.step,
                    TaskRetryData(id, task.attempt, reason, notBefore)));
    }
  }

  /** The rows of a task that the reaper takes back: the next token, and a lease
      nobody holds; another announcement, or none and it is dead. */
  predicate TakenBack(s: State, t: State, id: TaskId, reason: string, now: Time) {
    && OnlyTask(s, t, id) && t.leases[id].worker == REAPER && t.leases[id].expiresAt == now
    && (t.leases[id].token == if id in s.leases then s.leases[id].token + 1 else 1)
    && (reason != "" ==> t.tasks[id].lastError == reason)
    && t.tasks[id].attempt == s.tasks[id].attempt
    && if s.tasks[id].attempt < s.tasks[id].maxAttempts then
         && t.tasks[id].status.TaskPending?
         && t.deliveries == s.deliveries[s.deliverySeq + 1 := Delivery(id, 0, "", ZERO_TIME)]
       else t.tasks[id].status.TaskDeadLetter? && t.deliveries == s.deliveries
  }

  lemma ReclaimedRows(s: State, id: TaskId, stale: Lease, reason: string, now: Time)
    requires id in s.tasks && s.tasks[id].run in s.runs && REAPER in s.workers
    ensures var res, task := ReclaimTx(s, id, stale, reason, now), s.tasks[id];
            && res.Commit?
            && if !task.status.TaskRunning? || (id in s.leases && now < s.leases[id].expiresAt) then res.st == s
               else res.st != s && TakenBack(s, res.st, id, reason, now)
  {
    hide Log, Hist;
    var t := ReclaimTx(s, id, stale, reason, now).st;
    if s.tasks[id].status.TaskRunning? && !(id in s.leases && now < s.leases[id].expiresAt) {
      assert t.tasks[id].status != s.tasks[id].status;
    }
  }

  /** The reaper takes a task back exactly if it still runs and its lease is not
      live by then: history names the owner and the token that lapsed, the token
      moves on, and the task is announced again at once or is dead. Anything
      else it leaves as it is. */
  lemma ReclaimIsRecorded(s: State, id: TaskId, stale: Lease, reason: string, now: Time)
    requires id in s.tasks && s.tasks[id].run in s.runs && REAPER in s.workers
    ensures var res, task := ReclaimTx(s, id, stale, reason, now), s.tasks[id];
            && res.Commit?
            && if !task.status.TaskRunning? || (id in s.leases && now < s.leases[id].expiresAt) then res.st == s
               else
                 && TakenBack(s, res.st, id, reason, now)
                 && var again := task.attempt < task.maxAttempts;
                    Notes(s, res.st, task.run,
                             [Fact(EvLeaseExpired, task.step, LeaseExpiredData(id, stale.worker, stale.token)),
                              Fact(if again then EvTaskRetryScheduled else EvTaskDeadLettered, task.step,
                                   TaskRetryData(id, task.attempt, reason, ZERO_TIME))])
  {
    hide ReclaimTx, Log, Notes, TakenBack;
    var res, task := ReclaimTx(s, id, stale, reason, now), s.tasks[id];
    ReclaimedRows(s, id, stale, reason, now);
    if task.status.TaskRunning? && !(id in s.leases && now < s.leases[id].expiresAt) {
      ReclaimLogsTwo(s, id, stale, reason, now);
      TwoNotes(s, res.st, task.run, Fact(EvLeaseExpired, task.step, LeaseExpiredData(id, stale.worker, stale.token)),
               Fact(if task.attempt < task.maxAttempts then EvTaskRetryScheduled else EvTaskDeadLettered, task.step,
                    TaskRetryData(id, task.attempt, reason, ZERO_TIME)));
    }
  }
}
