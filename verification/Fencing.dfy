/** A running task's lease is the one its latest claim was given. */
module Fencing {
  import opened Names
  import opened Core
  import opened Tables
  import opened Invariants
  import opened Transactions
  import opened TaskSteps
  import opened Behaviours
  import opened Frames
  import opened DeadLetters

  predicate Runs(s: State, id: TaskId) {
    id in s.tasks && s.tasks[id].status.TaskRunning?
  }

  /** The same holder, under the same token, on the same attempt. */
  predicate SameClaim(s: State, t: State, id: TaskId) {
    && id in s.tasks && id in t.tasks && s.tasks[id].attempt == t.tasks[id].attempt
    && (id in s.leases ==>
          id in t.leases && t.leases[id].token == s.leases[id].token && t.leases[id].worker == s.leases[id].worker)
  }

  lemma ClaimGrants(s: State, i: TaskId, worker: string, now: Time, ttl: int, id: TaskId)
    ensures var t := ClaimTx(s, i, worker, now, ttl).st;
            && (Runs(s, id) && Runs(t, id) ==> SameClaim(s, t, id))
            && (id in s.tasks && !Runs(s, id) && Runs(t, id) ==>
                  i == id && s.tasks[id].status.TaskPending? && t.tasks[id].attempt == s.tasks[id].attempt + 1 &&
                  id in t.leases && t.leases[id] == LeaseTaken(s, id, worker, now, now + ttl))
  {
    hide Log;
  }

  lemma CompleteKeepsClaim(s: State, i: TaskId, token: int, result: Json, now: Time, id: TaskId)
    ensures Runs(CompleteTx(s, i, token, result, now).st, id) && id in s.tasks ==>
              Runs(s, id) && SameClaim(s, CompleteTx(s, i, token, result, now).st, id)
  {
    hide Log;
  }

  lemma FailKeepsClaim(s: State, i: TaskId, token: int, reason: string, escalated: bool, delay: int, now: Time,
                       id: TaskId)
    ensures var t := FailTx(s, i, token, reason, escalated, delay, now).st;
            Runs(t, id) && id in s.tasks ==> Runs(s, id) && SameClaim(s, t, id)
  {
    hide Log, NotBefore;
  }

  lemma ReclaimKeepsClaim(s: State, i: TaskId, stale: Lease, reason: string, now: Time, id: TaskId)
    ensures var t := ReclaimTx(s, i, stale, reason, now).st;
            Runs(t, id) && id in s.tasks ==> Runs(s, id) && SameClaim(s, t, id)
  {
    hide Log;
  }

  lemma HeartbeatKeepsClaim(s: State, i: TaskId, token: int, now: Time, ttl: int, id: TaskId)
    ensures id in s.tasks ==> SameClaim(s, HeartbeatTx(s, i, token, now, ttl).st, id)
    ensures HeartbeatTx(s, i, token, now, ttl).st.tasks == s.tasks
  {
  }

  /** One step: a task that comes to run was claimed by it, and one that goes on
      running keeps its claim. */
  lemma StepKeepsClaim(tools: Tools, past: seq<State>, a: Action, id: TaskId)
    requires past != [] && id in Last(past).tasks && Runs(Next(tools, past, a), id)
    ensures var s, t := Last(past), Next(tools, past, a);
            if Runs(s, id) then SameClaim(s, t, id)
            else
              && a.Claim? && a.id == id && s.tasks[id].status.TaskPending?
              && t.tasks[id].attempt == s.tasks[id].attempt + 1
              && id in t.leases && t.leases[id] == LeaseTaken(s, id, a.worker, s.clock, s.clock + a.ttl)
  {
    hide ClaimTx, CompleteTx, FailTx, ReclaimTx, HeartbeatTx, Executed, LeaseTaken, AdvanceTx, StartRunTx, DeliverTx,
         RegisterTx, MarkTx, ReserveTx, EffectTx, NoteTx, AdvanceEnabled;
    var s := Last(past);
    match a {
      case Claim(i, worker, ttl) => ClaimGrants(s, i, worker, s.clock, ttl, id);
      case Complete(i, token, result, _) => CompleteKeepsClaim(s, i, token, result, s.clock, id);
      case FailTask(i, token, reason, escalated, delay) =>
        FailKeepsClaim(s, i, token, reason, escalated, delay, s.clock, id);
      case Reclaim(i, stale, reason, now) => ReclaimKeepsClaim(s, i, stale, reason, now, id);
      case Heartbeat(i, token, ttl) => HeartbeatKeepsClaim(s, i, token, s.clock, ttl, id);
      case _ =>
        hide Next;
        OthersRowsStand(tools, past, a);
    }
  }

  /** While a task runs, its lease is the one its latest claim was given: the
      claimer's, under the token that claim returned, on the attempt it counted. */
  lemma {:induction false} LeaseIsTheLatestClaim(tools: Tools, acts: seq<Action>, m: nat, id: TaskId) returns (k: nat)
    requires m <= |acts| && Runs(States(tools, acts)[m], id)
    ensures id in States(tools, acts)[m].leases
    ensures k < m && acts[k].Claim? && acts[k].id == id
    ensures var before, after, s := States(tools, acts)[k], States(tools, acts)[k + 1], States(tools, acts)[m];
            && id in before.tasks && before.tasks[id].status.TaskPending?
            && id in after.leases &&
              after.leases[id] == LeaseTaken(before, id, acts[k].worker, before.clock, before.clock + acts[k].ttl)
            && s.leases[id].token == after.leases[id].token && s.leases[id].worker == acts[k].worker
            && s.tasks[id].attempt == before.tasks[id].attempt + 1
  {
    hide States, Next, SameClaim;
    LeasedAt(tools, acts, m, id);
    if m == 0 {
      EmptyAtFirst(tools, acts);
      assert false;
    } else {
      StepAt(tools, acts, m - 1);
      var past := States(tools, acts)[..m];
      assert Last(past) == States(tools, acts)[m - 1];
      if id !in States(tools, acts)[m - 1].tasks {
        NewIsPending(tools, past, acts[m - 1], id);
        assert false;
      }
      StepKeepsClaim(tools, past, acts[m - 1], id);
      var s, t := States(tools, acts)[m - 1], States(tools, acts)[m];
      if Runs(s, id) {
        k := LeaseIsTheLatestClaim(tools, acts, m - 1, id);
        assert SameClaim(s, t, id);
        KeptClaim(s, t, id);
      } else {
        k := m - 1;
      }
    }
  }

  lemma LeasedAt(tools: Tools, acts: seq<Action>, m: nat, id: TaskId)
    requires m <= |acts| && Runs(States(tools, acts)[m], id)
    ensures id in States(tools, acts)[m].leases
  {
    hide States, Good, Inv, Evolves, TaskOk;
    AllReachable(tools, acts);
    GoodAt(States(tools, acts), m, m);
    InvTask(States(tools, acts)[m], id);
    LeasedWhileRunning(States(tools, acts)[m], id);
  }

  lemma KeptClaim(s: State, t: State, id: TaskId)
    requires SameClaim(s, t, id) && id in s.leases && id in t.leases
    ensures id in s.tasks && id in t.tasks && t.leases[id].token == s.leases[id].token
    ensures t.leases[id].worker == s.leases[id].worker && t.tasks[id].attempt == s.tasks[id].attempt
  {
  }
}
