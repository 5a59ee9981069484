/** The engine's task operations (internal/engine/tasks.go) and the reaper's
    reclaim (internal/lease/reaper.go): each one transaction over the store,
    step by step as the source takes them, equal to its specification. */
module TaskEngine {
  import opened Prelude
  import opened Names
  import opened Core
  import opened Tables
  import opened Transactions
  import opened Memory

  function ErrorOf(res: TxResult): Option<Error> {
    if res.Commit? then None else Some(res.error)
  }

  /** A transaction body has done to its copy what the specification says. */
  predicate Ran(was: State, res: TxResult, err: Option<Error>, now: State) {
    err == ErrorOf(res) && res.st == if res.Commit? then now else was.(deliverySeq := now.deliverySeq)
  }

  datatype Claim = Claim(task: Task, lease: Lease)

  const NO_CLAIM := Claim(Task("", "", "", None, TaskPending, 0, 0, ""), Lease("", 0, 0, 0, 0))

  method ClaimBody(tx: Tx, id: TaskId, worker: string, ttl: int) returns (claim: Claim, err: Option<Error>)
    modifies tx
    ensures Ran(old(tx.View()), ClaimTx(old(tx.View()), id, worker, tx.now, ttl), err, tx.View())
    ensures err.None? ==> id in tx.tasks && id in tx.leases && claim == Claim(tx.tasks[id], tx.leases[id])
  {
    hide Log;
    claim := NO_CLAIM;
    var found := tx.GetTask(id);
    if found.None? { return claim, Some(NotFound); }
    var task := found.value;
    err := tx.TransitionTask(id, TaskPending, TaskRunning, "");
    if err.Some? { return; }
    var lease, refused := tx.AcquireLease(id, worker, tx.now, tx.now + ttl);
    if refused.Some? { return claim, refused; }
    task := task.(status := TaskRunning, attempt := task.attempt + 1);
    claim := Claim(task, lease);
    err := tx.Append(task.run, EvTaskClaimed, task.step, TaskClaimedData(id, worker, task.attempt));
  }

  /** Take ownership: at most one caller gets a claim, and with it the token
      every later report is checked against. */
  method ClaimTask(store: Store, id: TaskId, worker: string, ttl: int) returns (claim: Claim, err: Option<Error>)
    modifies store
    ensures store.deeds == Written(old(store.deeds), old(store.st), store.st)
    ensures var res := ClaimTx(old(store.st), id, worker, old(store.st).clock, ttl);
            store.st == res.st && err == ErrorOf(res)
    ensures err.None? ==> id in store.st.tasks && id in store.st.leases &&
                          claim == Claim(store.st.tasks[id], store.st.leases[id])
  {
    hide ClaimTx;
    var tx := new Tx(store.st);
    claim, err := ClaimBody(tx, id, worker, ttl);
    store.Finish(tx, err);
  }

  method Heartbeat(store: Store, id: TaskId, token: int, ttl: int) returns (err: Option<Error>)
    modifies store
    ensures store.deeds == Written(old(store.deeds), old(store.st), store.st)
    ensures var res := HeartbeatTx(old(store.st), id, token, old(store.st).clock, ttl);
            store.st == res.st && err == ErrorOf(res)
  {
    var tx := new Tx(store.st);
    err := tx.ExtendLease(id, token, tx.now + ttl);
    store.Finish(tx, err);
  }

  /** assertToken: the presenter still owns the task. */
  method AssertToken(tx: Tx, id: TaskId, token: int) returns (err: Option<Error>)
    ensures err == if id !in tx.leases then Some(NotFound) else if tx.leases[id].token != token then Some(Fenced)
            else None
  {
    if id !in tx.leases { return Some(NotFound); }
    if tx.leases[id].token != token { return Some(Fenced); }
    return None;
  }

  /** The three fenced steps every report takes: token, transition, release. */
  method Report(tx: Tx, id: TaskId, token: int, to: TaskStatus, reason: string) returns (err: Option<Error>)
    requires to.TaskCompleted? || to.TaskPending? || to.TaskDeadLetter?
    modifies tx
    ensures id in old(tx.tasks) && old(tx.tasks)[id].run in old(tx.runs) ==>
            err == ReportError(old(tx.View()), id, token)
    ensures id in old(tx.tasks) && err.Some? ==> err == ReportError(old(tx.View()), id, token)
    ensures id in old(tx.tasks) && err.None? ==>
              id in old(tx.leases) && old(tx.leases)[id].token == token && old(tx.tasks)[id].status.TaskRunning?
    ensures tx.deliverySeq == old(tx.deliverySeq)
    ensures id in old(tx.tasks) && err.None? ==>
              tx.View() == old(tx.View()).(tasks := old(tx.tasks)[id := Noted(old(tx.tasks)[id], to, reason)],
                                           leases := Released(old(tx.View()), id, tx.now))
  {
    err := AssertToken(tx, id, token);
    if err.Some? { return; }
    err := tx.TransitionTask(id, TaskRunning, to, reason);
    if err.Some? { return; }
    err := tx.ReleaseLease(id, token, tx.now);
  }

  method CompleteBody(tx: Tx, id: TaskId, token: int, result: Json) returns (err: Option<Error>)
    modifies tx
    ensures Ran(old(tx.View()), CompleteTx(old(tx.View()), id, token, result, tx.now), err, tx.View())
  {
    hide Log;
    var found := tx.GetTask(id);
    if found.None? { return Some(NotFound); }
    var task := found.value;
    err := Report(tx, id, token, TaskCompleted, "");
    if err.Some? { return; }
    err := tx.Append(task.run, EvTaskCompleted, task.step, TaskCompletedData(id, result));
  }

  method RecordCompletion(store: Store, id: TaskId, token: int, result: Json) returns (err: Option<Error>)
    modifies store
    ensures store.deeds == Written(old(store.deeds), old(store.st), store.st)
    ensures var res := CompleteTx(old(store.st), id, token, result, old(store.st).clock);
            store.st == res.st && err == ErrorOf(res)
  {
    hide CompleteTx;
    var tx := new Tx(store.st);
    err := CompleteBody(tx, id, token, result);
    store.Finish(tx, err);
  }

  // Rows and history are different tables: the order of writing them is free.
  lemma WritesCommute(s: State, tasks: map<TaskId, Task>, leases: map<TaskId, Lease>, r: RunId, f: Fact)
    ensures LogOn(s.(tasks := tasks, leases := leases), r, f) == LogOn(s, r, f).(tasks := tasks, leases := leases)
  {
    hide Log;
  }

  /** What follows a failure or a lapsed lease: another announcement, or none. */
  method FollowUp(tx: Tx, id: TaskId, task: Task, retry: bool, reason: string, notBefore: Time)
    returns (err: Option<Error>)
    modifies tx
    ensures err == if task.run in old(tx.runs) && (retry ==> id in old(tx.tasks)) then None else Some(NotFound)
    ensures tx.deliverySeq == old(tx.deliverySeq) + (if err.None? && retry then 1 else 0)
    ensures err.None? ==>
              var noted := LogOn(old(tx.View()), task.run, Fact(if retry then EvTaskRetryScheduled
                                                                else EvTaskDeadLettered,
                                                               task.step, TaskRetryData(id, task.attempt, reason,
                                                                   notBefore)));
              tx.View() == if retry then Enqueued(noted, id, notBefore) else noted
  {
    hide Log;
    err := tx.Append(task.run, if retry then EvTaskRetryScheduled else EvTaskDeadLettered, task.step,
                     TaskRetryData(id, task.attempt, reason, notBefore));
    if err.Some? || !retry { return; }
    err := tx.EnqueueDelivery(id, notBefore);
  }

  method FailBody(tx: Tx, id: TaskId, token: int, reason: string, escalated: bool, delay: int)
    returns (err: Option<Error>)
    modifies tx
    ensures Ran(old(tx.View()), FailTx(old(tx.View()), id, token, reason, escalated, delay, tx.now), err, tx.View())
  {
    hide LogOn, Noted, Released;
    var found := tx.GetTask(id);
    if found.None? { return Some(NotFound); }
    var task := found.value;
    var retry := !task.Exhausted() && !escalated;
    var next, notBefore := TaskDeadLetter, ZERO_TIME;
    if retry {
      next := TaskPending;
      if delay > 0 { notBefore := tx.now + delay; }
    }
    ghost var s := tx.View();
    err := Report(tx, id, token, next, reason);
    if err.Some? { return; }
    ghost var f := Fact(EvTaskFailed, task.step, TaskFailedData(id, reason, task.attempt, !retry));
    ghost var g := Fact(if retry then EvTaskRetryScheduled else EvTaskDeadLettered, task.step,
                        TaskRetryData(id, task.attempt, reason, notBefore));
    WritesCommute(s, tx.tasks, tx.leases, task.run, f);
    WritesCommute(LogOn(s, task.run, f), tx.tasks, tx.leases, task.run, g);
    LogTouchesEvents(s, task.run, f);
    LogTouchesEvents(LogOn(s, task.run, f), task.run, g);
    err := tx.Append(task.run, EvTaskFailed, task.step, TaskFailedData(id, reason, task.attempt, !retry));
    if err.Some? { return; }
    err := FollowUp(tx, id, task, retry, reason, notBefore);
  }

  lemma LogTouchesEvents(s: State, r: RunId, f: Fact)
    ensures LogOn(s, r, f) == s.(events := LogOn(s, r, f).events)
  {
  }

  method RecordFailure(store: Store, id: TaskId, token: int, reason: string, escalated: bool, delay: int)
    returns (err: Option<Error>)
    modifies store
    ensures store.deeds == Written(old(store.deeds), old(store.st), store.st)
    ensures var res := FailTx(old(store.st), id, token, reason, escalated, delay, old(store.st).clock);
            store.st == res.st && err == ErrorOf(res)
  {
    hide FailTx;
    var tx := new Tx(store.st);
    err := FailBody(tx, id, token, reason, escalated, delay);
    store.Finish(tx, err);
  }
}
