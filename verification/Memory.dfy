/** The in-memory store (internal/store/memory, internal/core/append.go): the
    write surface of one transaction, over tables it updates in place, and the
    store, which publishes a transaction's tables only if it succeeds. */
module Memory {
  import opened Prelude
  import opened Names
  import opened Core
  import opened Tables
  import opened Transactions

  /** One transaction's private copy of the tables. now is what its clock says. */
  class Tx {
    var runs: map<RunId, Run>
    var tasks: map<TaskId, Task>
    var stepIndex: map<StepKey, TaskId>
    var events: map<RunId, seq<Event>>
    var effects: map<Key, Effect>
    var leases: map<TaskId, Lease>
    var workers: set<string>
    var signals: map<SignalKey, Signal>
    var deliveries: map<int, Delivery>
    var published: set<int>
    var deliverySeq: int
    const now: Time

    ghost function View(): State
      reads this
    {
      State(runs, tasks, stepIndex, events, effects, leases, workers, signals, deliveries, published, deliverySeq, now)
    }

    /** clone */
    constructor (s: State)
      ensures View() == s
    {
      runs, tasks, stepIndex, events := s.runs, s.tasks, s.stepIndex, s.events;
      effects, leases, workers, signals := s.effects, s.leases, s.workers, s.signals;
      deliveries, published, deliverySeq, now := s.deliveries, s.published, s.deliverySeq, s.clock;
    }

    // ----- runs -----

    method CreateRun(id: RunId, run: Run) returns (err: Option<Error>)
      modifies this`runs
      ensures err == if id in old(runs) then Some(Conflict) else None
      ensures runs == if err.Some? then old(runs) else old(runs)[id := run]
    {
      if id in runs { return Some(Conflict); }
      runs := runs[id := run];
      return None;
    }

    method AdvanceRun(id: RunId, expected: int, next: RunState) returns (err: Option<Error>)
      modifies this`runs
      ensures err == AdvanceError(old(View()), id, expected, next)
      ensures View() == if err.Some? then old(View()) else Bump(old(View()), id, next)
    {
      if id !in runs { return Some(NotFound); }
      var r := runs[id];
      if r.version != expected { return Some(Conflict); }
      if next.status != r.status && !r.status.CanTransitionTo(next.status) { return Some(InvalidTransition); }
      r := r.(status := next.status, output := next.output, lastError := next.lastError,
              availableAt := next.availableAt);
      r := r.(version := r.version + 1);
      runs := runs[id := r];
      return None;
    }

    // ----- tasks -----

    method GetTask(id: TaskId) returns (task: Option<Task>)
      ensures task == if id in tasks then Some(tasks[id]) else None
    {
      if id !in tasks { return None; }
      return Some(tasks[id]);
    }

    method CreateTask(id: TaskId, task: Task) returns (err: Option<Error>)
      modifies this`tasks, this`stepIndex
      ensures err == AddTaskError(old(View()), task.run, task.step, id)
      ensures tasks == if err.Some? then old(tasks) else old(tasks)[id := task]
      ensures stepIndex == if err.Some? then old(stepIndex) else old(stepIndex)[StepKey(task.run, task.step) := id]
    {
      if task.run !in runs { return Some(NotFound); }
      var key := StepKey(task.run, task.step);
      if key in stepIndex { return Some(TaskExists); }
      if id in tasks { return Some(Conflict); }
      tasks := tasks[id := task];
      stepIndex := stepIndex[key := id];
      return None;
    }

    method TransitionTask(id: TaskId, from: TaskStatus, to: TaskStatus, reason: string) returns (err: Option<Error>)
      modifies this`tasks
      ensures err == if id !in old(tasks) then Some(NotFound)
                     else if old(tasks)[id].status != from then Some(Conflict)
                     else if !from.CanTransitionTo(to) then Some(InvalidTransition)
                     else None
      ensures err.Some? ==> tasks == old(tasks)
      ensures err.None? ==>
                var was := old(tasks)[id];
                tasks == old(tasks)[id := Noted(was, to, reason)
                                            .(attempt := was.attempt + if to.TaskRunning? then 1 else 0)]
    {
      if id !in tasks { return Some(NotFound); }
      var task := tasks[id];
      if task.status != from { return Some(Conflict); }
      if !from.CanTransitionTo(to) { return Some(InvalidTransition); }
      task := task.(status := to);
      if reason != "" {
        task := task.(lastError := reason);
      }
      if to == TaskRunning {
        task := task.(attempt := task.attempt + 1);
      }
      tasks := tasks[id := task];
      return None;
    }

    // ----- history -----

    method NextSeq(r: RunId) returns (next: int, err: Option<Error>)
      ensures err == if r in runs then None else Some(NotFound)
      ensures err.None? ==> next == MaxSeq(Hist(View(), r)) + 1
    {
      if r !in runs { return 0, Some(NotFound); }
      var h := if r in events then events[r] else [];
      var max := 0;
      for k := 0 to |h|
        invariant max == MaxSeq(h[..k])
      {
        assert h[..k + 1][..k] == h[..k];
        if h[k].seqNo > max {
          max := h[k].seqNo;
        }
      }
      assert h[..|h|] == h;
      return max + 1, None;
    }

    /** Conditional on the caller's belief about what comes next. */
    method AppendEvent(r: RunId, e: Event) returns (err: Option<Error>)
      modifies this`events
      ensures err == if r !in runs then Some(NotFound)
                     else if exists k ::
                       0 <= k < |Hist(old(View()), r)| && Hist(old(View()), r)[k].seqNo == e.seqNo
                     then Some(SeqConflict)
                     else None
      ensures events == if err.Some? then old(events) else old(events)[r := Hist(old(View()), r) + [e]]
    {
      if r !in runs { return Some(NotFound); }
      var h := if r in events then events[r] else [];
      for k := 0 to |h|
        invariant forall j :: 0 <= j < k ==> h[j].seqNo != e.seqNo
      {
        if h[k].seqNo == e.seqNo {
          assert Hist(View(), r)[k].seqNo == e.seqNo;
          return Some(SeqConflict);
        }
      }
      events := events[r := h + [e]];
      return None;
    }

    /** core.Append: it never collides with itself. */
    method Append(r: RunId, typ: EventType, step: StepId, data: Data) returns (err: Option<Error>)
      modifies this`events
      ensures err == if r in runs then None else Some(NotFound)
      ensures View() == if err.Some? then old(View()) else LogOn(old(View()), r, Fact(typ, step, data))
    {
      var next, e := NextSeq(r);
      if e.Some? { return e; }
      err := AppendEvent(r, Event(next, typ, step, data));
    }

    // ----- leases and workers -----

    method RegisterWorker(worker: string) returns (err: Option<Error>)
      modifies this`workers
      ensures err == if worker == "" then Some(InvalidTransition) else None
      ensures workers == if err.Some? then old(workers) else old(workers) + {worker}
    {
      if worker == "" { return Some(InvalidTransition); }
      workers := workers + {worker};
      return None;
    }

    method AcquireLease(id: TaskId, worker: string, at: Time, expiresAt: Time)
      returns (lease: Lease, err: Option<Error>)
      modifies this`leases
      ensures err == if id !in tasks || worker !in workers then Some(NotFound)
                     else if LeaseIsHeld(old(View()), id, at) then Some(LeaseHeld)
                     else None
      ensures err.Some? ==> leases == old(leases)
      ensures err.None? ==>
                lease == LeaseTaken(old(View()), id, worker, at, expiresAt) && leases == old(leases)[id := lease]
    {
      lease := Lease(worker, 1, at, expiresAt, at);
      if id !in tasks || worker !in workers { return lease, Some(NotFound); }
      var token := 1;
      if id in leases {
        var existing := leases[id];
        if !existing.Expired(at) { return lease, Some(LeaseHeld); }
        token := existing.token + 1;
      }
      lease := Lease(worker, token, at, expiresAt, at);
      leases := leases[id := lease];
      return lease, None;
    }

    method ExtendLease(id: TaskId, token: int, expiresAt: Time) returns (err: Option<Error>)
      modifies this`leases
      ensures err == if id !in old(leases) then Some(NotFound) else if old(leases)[id].token != token then Some(Fenced)
              else None
      ensures leases == if err.Some? then old(leases)
                        else old(leases)[id := old(leases)[id].(expiresAt := expiresAt, heartbeatAt := now)]
    {
      if id !in leases { return Some(NotFound); }
      var l := leases[id];
      if l.token != token { return Some(Fenced); }
      leases := leases[id := l.(expiresAt := expiresAt, heartbeatAt := now)];
      return None;
    }

    /** Expired, not deleted, so that the token keeps counting. */
    method ReleaseLease(id: TaskId, token: int, at: Time) returns (err: Option<Error>)
      modifies this`leases
      ensures err == if id !in old(leases) then Some(NotFound) else if old(leases)[id].token != token then Some(Fenced)
              else None
      ensures leases == if err.Some? then old(leases) else old(leases)[id := old(leases)[id].(expiresAt := at)]
    {
      if id !in leases { return Some(NotFound); }
      var l := leases[id];
      if l.token != token { return Some(Fenced); }
      leases := leases[id := l.(expiresAt := at)];
      return None;
    }

    // ----- signals -----

    method RecordSignal(r: RunId, id: string, signal: Signal) returns (err: Option<Error>)
      modifies this`signals
      ensures err == if r !in runs then Some(NotFound)
                     else if SignalKey(r, id) in old(signals) then Some(SignalExists) else None
      ensures signals == if err.Some? then old(signals) else old(signals)[SignalKey(r, id) := signal.(createdAt := now)]
    {
      if r !in runs { return Some(NotFound); }
      var key := SignalKey(r, id);
      if key in signals { return Some(SignalExists); }
      signals := signals[key := signal.(createdAt := now)];
      return None;
    }

    /** No version bump: releasing is not advancing. */
    method ReleaseRun(r: RunId) returns (err: Option<Error>)
      modifies this`runs
      ensures err == if r in old(runs) then None else Some(NotFound)
      ensures runs == if err.Some? then old(runs) else old(runs)[r := old(runs)[r].(availableAt := None)]
    {
      if r !in runs { return Some(NotFound); }
      runs := runs[r := runs[r].(availableAt := None)];
      return None;
    }

    // ----- outbox -----

    method EnqueueDelivery(id: TaskId, availableAt: Time) returns (err: Option<Error>)
      modifies this`deliverySeq, this`deliveries
      ensures err == if id in tasks then None else Some(NotFound)
      ensures View() == if err.Some? then old(View()) else Enqueued(old(View()), id, availableAt)
    {
      if id !in tasks { return Some(NotFound); }
      deliverySeq := deliverySeq + 1;
      deliveries := deliveries[deliverySeq := Delivery(id, 0, "", availableAt)];
      return None;
    }

    method MarkDelivered(ids: seq<int>)
      modifies this`published
      ensures published == old(published) + (set i | 0 <= i < |ids| :: ids[i])
    {
      for k := 0 to |ids|
        invariant published == old(published) + (set i | 0 <= i < k :: ids[i])
      {
        published := published + {ids[k]};
      }
    }

    method FailDelivery(id: int, cause: string) returns (err: Option<Error>)
      modifies this`deliveries
      ensures err == if id in old(deliveries) then None else Some(NotFound)
      ensures deliveries == if err.Some? then old(deliveries)
                            else
                              var d := old(deliveries)[id];
                              old(deliveries)[id := d.(attempts := d.attempts + 1, lastError := cause)]
    {
      if id !in deliveries { return Some(NotFound); }
      var d := deliveries[id];
      d := d.(attempts := d.attempts + 1, lastError := cause);
      deliveries := deliveries[id := d];
      return None;
    }

    // ----- the ledger -----

    method ReserveEffect(key: Key, e: Effect) returns (err: Option<Error>)
      modifies this`effects
      ensures err == if e.run !in runs || e.task !in tasks then Some(NotFound)
                     else if key in old(effects) then Some(EffectExists) else None
      ensures effects == if err.Some? then old(effects) else old(effects)[key := e.(createdAt := now, updatedAt := now)]
    {
      if e.run !in runs { return Some(NotFound); }
      if e.task !in tasks { return Some(NotFound); }
      if key in effects { return Some(EffectExists); }
      effects := effects[key := e.(createdAt := now, updatedAt := now)];
      return None;
    }

    method TransitionEffect(key: Key, from: EffectStatus, to: EffectStatus, out: EffectOutcome)
      returns (err: Option<Error>)
      modifies this`effects
      ensures err == if key !in old(effects) then Some(NotFound)
                     else if old(effects)[key].status != from then Some(Conflict)
                     else if !from.CanTransitionTo(to) then Some(InvalidTransition)
                     else None
      ensures effects == if err.Some? then old(effects) else old(effects)[key := Moved(old(effects)[key], to, out, now)]
    {
      if key !in effects { return Some(NotFound); }
      var e := effects[key];
      if e.status != from { return Some(Conflict); }
      if !from.CanTransitionTo(to) { return Some(InvalidTransition); }
      e := e.(status := to, updatedAt := now);
      if out.response.Some? { e := e.(response := out.response); }
      if out.externalRef != "" { e := e.(externalRef := out.externalRef); }
      if out.error != "" { e := e.(lastError := out.error); }
      effects := effects[key := e];
      return None;
    }
  }

  /** What one process does that others can see: it changes the tables, or a
      tool's handler sends a request under a key. */
  datatype Deed = Wrote(before: State, after: State) | Sent(key: Key, payload: Json)

  /** A transaction that changes nothing is no deed. */
  ghost function Written(deeds: seq<Deed>, before: State, after: State): seq<Deed> {
    if before == after then deeds else deeds + [Wrote(before, after)]
  }

  /** The store, as one process has it. st is what a reader outside any
      transaction sees; deeds is what this process, and nobody else, has done. */
  class Store {
    var st: State
    ghost var deeds: seq<Deed>

    constructor ()
      ensures st == EMPTY && deeds == []
    {
      st, deeds := EMPTY, [];
    }

    /** RunInTx, once its function has returned: the copy is published, or
        dropped except for the delivery counter, which is shared. */
    method Finish(tx: Tx, err: Option<Error>)
      modifies this
      ensures st == if err.None? then tx.View() else old(st).(deliverySeq := tx.deliverySeq)
      ensures deeds == Written(old(deeds), old(st), st)
    {
      ghost var was := st;
      if err.None? {
        st := State(tx.runs, tx.tasks, tx.stepIndex, tx.events, tx.effects, tx.leases, tx.workers, tx.signals,
                    tx.deliveries, tx.published, tx.deliverySeq, tx.now);
      } else {
        st := st.(deliverySeq := tx.deliverySeq);
      }
      deeds := Written(deeds, was, st);
    }
  }
}
