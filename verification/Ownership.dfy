/** Termination of attempts, and the promise that nothing is owned without
    being worked on, which one late heartbeat is enough to break. */
module Ownership {
  import opened Names
  import opened Core
  import opened Tables
  import opened Lifecycle
  import opened Invariants
  import opened Transactions
  import opened TaskSteps
  import opened Behaviours
  import opened Frames

  // ----- every claim, report and reclaim uses something up -----

  function WorkLeft(t: Task): int {
    if t.status.TaskPending? then 2 * (t.maxAttempts - t.attempt)
    else if t.status.TaskRunning? then 2 * (t.maxAttempts - t.attempt) + 1
    else 0
  }

  predicate Shrinks(a: Task, b: Task) {
    0 <= WorkLeft(b) < WorkLeft(a)
  }

  predicate MovesOnly(s: State, t: State, id: TaskId) {
    forall other :: other in s.tasks ==>
      other in t.tasks && (t.tasks[other] == s.tasks[other] || (other == id && Shrinks(s.tasks[id], t.tasks[id])))
  }

  lemma ClaimShrinks(s: State, id: TaskId, worker: string, now: Time, ttl: int)
    requires id in s.tasks ==> TaskOk(s, id)
    ensures MovesOnly(s, ClaimTx(s, id, worker, now, ttl).st, id)
  {
    hide ViewOf, Rows, LeaseOk, LogOn, Hist, LeaseTaken;
    LogTasks(s, id);
  }

  lemma LogTasks(s: State, id: TaskId)
    ensures forall r, f :: LogOn(s, r, f).tasks == s.tasks
  {
  }

  lemma CompleteShrinks(s: State, id: TaskId, token: int, result: Json, now: Time)
    requires id in s.tasks ==> TaskOk(s, id)
    ensures MovesOnly(s, CompleteTx(s, id, token, result, now).st, id)
  {
    hide ViewOf, Rows, LeaseOk, LogOn, Hist, Released;
    LogTasks(s, id);
  }

  lemma FailShrinks(s: State, id: TaskId, token: int, reason: string, escalated: bool, delay: int, now: Time)
    requires id in s.tasks ==> TaskOk(s, id)
    ensures MovesOnly(s, FailTx(s, id, token, reason, escalated, delay, now).st, id)
  {
    hide ViewOf, Rows, LeaseOk, LogOn, Hist, Released, NotBefore;
    LogTasks(s, id);
  }

  lemma ReclaimShrinks(s: State, id: TaskId, stale: Lease, reason: string, now: Time)
    requires id in s.tasks ==> TaskOk(s, id)
    ensures MovesOnly(s, ReclaimTx(s, id, stale, reason, now).st, id)
  {
    hide ViewOf, Rows, LeaseOk, LogOn, Hist, LeaseTaken;
    LogTasks(s, id);
  }

  /** In any behaviour a step leaves a task's row as it was or strictly
      decreases the work it has left, so no amount of redelivery, retrying or
      reaping keeps a task going round. */
  lemma EveryMoveShrinks(tools: Tools, acts: seq<Action>, k: nat, id: TaskId)
    requires k < |acts| && id in States(tools, acts)[k].tasks
    ensures var s, t := States(tools, acts)[k], States(tools, acts)[k + 1];
            id in t.tasks && (t.tasks[id] == s.tasks[id] || Shrinks(s.tasks[id], t.tasks[id]))
  {
    hide States, Good, Inv, Evolves, Shrinks, Next;
    AllReachable(tools, acts);
    StepAt(tools, acts, k);
    var past := States(tools, acts)[..k + 1];
    assert Last(past) == States(tools, acts)[k];
    GoodAt(States(tools, acts), k, k);
    if MovesTasks(acts[k]) { MoveShrinks(tools, past, acts[k], id); } else { OthersRowsStand(tools, past, acts[k]); }
  }

  lemma NothingMoved(s: State, moved: TaskId)
    ensures MovesOnly(s, s, moved)
  {
  }

  lemma MovedRow(s: State, t: State, moved: TaskId, id: TaskId)
    requires id in s.tasks
    ensures MovesOnly(s, t, moved) ==>
            id in t.tasks && (t.tasks[id] == s.tasks[id] || Shrinks(s.tasks[id], t.tasks[id]))
  {
    hide Shrinks;
  }

  lemma MoveShrinks(tools: Tools, past: seq<State>, a: Action, id: TaskId)
    requires past != [] && MovesTasks(a) && Inv(Last(past)) && id in Last(past).tasks
    ensures var s, t := Last(past), Next(tools, past, a);
            id in t.tasks && (t.tasks[id] == s.tasks[id] || Shrinks(s.tasks[id], t.tasks[id]))
  {
    hide Inv, Shrinks, ClaimTx, CompleteTx, FailTx, ReclaimTx, Executed, TaskOk, MovesOnly;
    var s := Last(past);
    NothingMoved(s, a.id);
    MovedRow(s, Next(tools, past, a), a.id, id);
    if a.id in s.tasks { InvTask(s, a.id); }
    match a {
      case Claim(i, worker, ttl) => ClaimShrinks(s, i, worker, s.clock, ttl);
      case Complete(i, token, result, _) => CompleteShrinks(s, i, token, result, s.clock);
      case FailTask(i, token, reason, escalated, delay) =>
        FailShrinks(s, i, token, reason, escalated, delay, s.clock);
      case Reclaim(i, stale, reason, now) => ReclaimShrinks(s, i, stale, reason, now);
      case _ =>
    }
  }

  // ----- owned without being RUNNING -----

  /** No task that is not RUNNING has a live lease. */
  predicate IdleUnowned(s: State) {
    forall id :: id in s.tasks && id in s.leases && !s.tasks[id].status.TaskRunning? ==> s.leases[id].Expired(s.clock)
  }

  /** A heartbeat that finds its task RUNNING. */
  predicate Prompt(s: State, a: Action) {
    a.Heartbeat? ==> a.id in s.tasks && s.tasks[a.id].status.TaskRunning?
  }

  /** A heartbeat keeps the promise exactly when it finds the task RUNNING. */
  lemma HeartbeatKeepsIt(s: State, id: TaskId, token: int, ttl: int)
    requires IdleUnowned(s) && id in s.tasks && ttl > 0
    requires HeartbeatTx(s, id, token, s.clock, ttl).Commit?
    ensures IdleUnowned(HeartbeatTx(s, id, token, s.clock, ttl).st) <==> s.tasks[id].status.TaskRunning?
  {
    var t := HeartbeatTx(s, id, token, s.clock, ttl).st;
    assert !t.leases[id].Expired(t.clock);
  }

  lemma WorkKeepsIt(tools: Tools, past: seq<State>, a: Action)
    requires past != [] && IdleUnowned(Last(past)) && MovesTasks(a)
    ensures IdleUnowned(Next(tools, past, a))
  {
    hide IdleUnowned, ClaimTx, CompleteTx, FailTx, ReclaimTx, Executed;
    var s := Last(past);
    match a {
      case Claim(id, worker, ttl) => ClaimKeepsIt(s, id, worker, s.clock, ttl);
      case Complete(id, token, result, _) => CompleteKeepsIt(s, id, token, result, s.clock);
      case FailTask(id, token, reason, escalated, delay) =>
        FailKeepsIt(s, id, token, reason, escalated, delay, s.clock);
      case Reclaim(id, stale, reason, now) => if now <= s.clock { ReclaimKeepsIt(s, id, stale, reason, now); }
      case _ =>
    }
  }

  lemma ClaimKeepsIt(s: State, id: TaskId, worker: string, now: Time, ttl: int)
    requires IdleUnowned(s)
    ensures IdleUnowned(ClaimTx(s, id, worker, now, ttl).st)
  {
    hide Log;
  }

  lemma CompleteKeepsIt(s: State, id: TaskId, token: int, result: Json, now: Time)
    requires IdleUnowned(s) && now <= s.clock
    ensures IdleUnowned(CompleteTx(s, id, token, result, now).st)
  {
    hide Log;
  }

  lemma FailKeepsIt(s: State, id: TaskId, token: int, reason: string, escalated: bool, delay: int, now: Time)
    requires IdleUnowned(s) && now <= s.clock
    ensures IdleUnowned(FailTx(s, id, token, reason, escalated, delay, now).st)
  {
    hide Log, NotBefore;
  }

  lemma ReclaimKeepsIt(s: State, id: TaskId, stale: Lease, reason: string, now: Time)
    requires IdleUnowned(s) && now <= s.clock
    ensures IdleUnowned(ReclaimTx(s, id, stale, reason, now).st)
  {
    hide Log;
  }

  /** A step keeps it if existing rows and leases stand, and new tasks have no
      lease yet. */
  lemma StandingKeepsIt(s: State, t: State)
    requires IdleUnowned(s) && RowsStand(s, t) && LeasesStand(s, t) && ParentsOk(s)
    ensures IdleUnowned(t)
  {
    forall id | id in t.tasks && id in t.leases && !t.tasks[id].status.TaskRunning?
      ensures t.leases[id].Expired(t.clock)
    {
      assert id in s.tasks;
    }
  }

  lemma StepKeepsIt(tools: Tools, past: seq<State>, a: Action)
    requires past != [] && Inv(Last(past)) && IdleUnowned(Last(past)) && Prompt(Last(past), a)
    ensures IdleUnowned(Next(tools, past, a))
  {
    hide Inv, IdleUnowned, Next, RowsStand, LeasesStand;
    if MovesTasks(a) {
      WorkKeepsIt(tools, past, a);
    } else if a.Heartbeat? {
      PromptHeartbeat(tools, past, a);
    } else {
      OthersRowsStand(tools, past, a);
      ParentsOf(Last(past));
      StandingKeepsIt(Last(past), Next(tools, past, a));
    }
  }

  lemma ParentsOf(s: State)
    requires Inv(s)
    ensures ParentsOk(s)
  {
    hide ParentsOk, IndexOk, EffectsOk, HistoriesOk, TasksOk, RunsOk;
  }

  lemma PromptHeartbeat(tools: Tools, past: seq<State>, a: Action)
    requires past != [] && a.Heartbeat? && IdleUnowned(Last(past)) && Prompt(Last(past), a)
    ensures IdleUnowned(Next(tools, past, a))
  {
  }

  ghost predicate PromptHeartbeats(tools: Tools, acts: seq<Action>) {
    forall k :: 0 <= k < |acts| ==> Prompt(States(tools, acts)[k], acts[k])
  }

  lemma PromptPrefix(tools: Tools, acts: seq<Action>, n: nat)
    requires n <= |acts| && PromptHeartbeats(tools, acts)
    ensures PromptHeartbeats(tools, acts[..n])
  {
    hide States, Prompt;
    StatesExtend(tools, acts, n);
    forall k | 0 <= k < n
      ensures Prompt(States(tools, acts[..n])[k], acts[..n][k])
    {
      assert States(tools, acts[..n])[k] == States(tools, acts)[k];
    }
  }

  /** While heartbeats are prompt, nothing is owned without being RUNNING, so a
      registered worker is never refused a PENDING task for being owned. */
  lemma {:induction false} NothingIdleIsOwned(tools: Tools, acts: seq<Action>)
    requires PromptHeartbeats(tools, acts)
    ensures IdleUnowned(Last(States(tools, acts)))
  {
    hide Next, PromptHeartbeats, Good, Inv, Evolves, Prompt;
    if acts != [] {
      var n := |acts| - 1;
      PromptPrefix(tools, acts, n);
      NothingIdleIsOwned(tools, acts[..n]);
      AllReachable(tools, acts[..n]);
      GoodAt(States(tools, acts[..n]), n, n);
      StatesExtend(tools, acts, n);
      assert States(tools, acts)[n] == Last(States(tools, acts[..n]));
      LastPrompt(tools, acts, n);
      StepKeepsIt(tools, States(tools, acts[..n]), acts[n]);
    }
  }

  lemma LastPrompt(tools: Tools, acts: seq<Action>, k: nat)
    requires PromptHeartbeats(tools, acts) && k < |acts|
    ensures Prompt(States(tools, acts)[k], acts[k])
  {
    hide States;
  }

  lemma UnownedIsClaimable(s: State, id: TaskId, worker: string, ttl: int)
    requires Inv(s) && IdleUnowned(s) && id in s.tasks && s.tasks[id].status.TaskPending? && worker in s.workers
    ensures ClaimTx(s, id, worker, s.clock, ttl).Commit?
  {
    ParentsOf(s);
    hide Inv, LogOn;
  }

  /** The promise fails when a heartbeat commits after its own worker's failure
      report: the token still matches, the lease comes back to life on a task
      that is PENDING, and every worker is refused until it runs out. */
  lemma LateHeartbeatBlocksTheRetry(s: State, id: TaskId, token: int, reason: string, delay: int, ttl: int,
                                    worker: string)
    requires FailTx(s, id, token, reason, false, delay, s.clock).Commit? && !s.tasks[id].Exhausted()
    requires ttl > 0 && worker in s.workers
    ensures var failed := FailTx(s, id, token, reason, false, delay, s.clock).st;
            var beaten := HeartbeatTx(failed, id, token, s.clock, ttl);
            && beaten.Commit?
            && beaten.st.tasks[id].status.TaskPending?
            && ClaimTx(beaten.st, id, worker, s.clock, ttl) == Abort(LeaseHeld, beaten.st)
  {
    hide Log, NotBefore;
  }
}
