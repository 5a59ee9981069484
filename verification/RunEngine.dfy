/** The engine's transactions on runs (internal/engine/engine.go, fanout.go and
    signals.go), step by step, each equal to its specification. */
module RunEngine {
  import opened Prelude
  import opened Names
  import opened Core
  import opened Tables
  import opened Transactions
  import opened Memory
  import opened TaskEngine

  method CreateRun(store: Store, id: RunId, agent: string, version: string, input: Json) returns (err: Option<Error>)
    modifies store
    ensures store.deeds == Written(old(store.deeds), old(store.st), store.st)
    ensures var res := StartRunTx(old(store.st), id, agent, version, input);
            store.st == res.st && err == ErrorOf(res)
  {
    hide Log;
    var tx := new Tx(store.st);
    err := tx.CreateRun(id, Run(agent, version, RunRunning, 0, input, None, "", None));
    if err.None? {
      err := tx.Append(id, EvRunStarted, "", RunStartedData(agent, version, input));
    }
    store.Finish(tx, err);
  }

  /** finish, park, resume and repark: the compare-and-swap first, so a losing
      caller stops before it records anything. */
  method AdvanceAndRecord(store: Store, r: RunId, expected: int, next: RunState, fact: Option<Fact>)
    returns (err: Option<Error>)
    modifies store
    ensures store.deeds == Written(old(store.deeds), old(store.st), store.st)
    ensures var res := AdvanceTx(old(store.st), r, expected, next, fact);
            store.st == res.st && err == ErrorOf(res)
  {
    hide Log;
    var tx := new Tx(store.st);
    err := tx.AdvanceRun(r, expected, next);
    if err.None? && fact.Some? {
      err := tx.Append(r, fact.value.typ, fact.value.step, fact.value.data);
    }
    store.Finish(tx, err);
  }

  lemma AddTaskInSteps(s: State, r: RunId, step: StepId, id: TaskId, call: Call, max: int)
    ensures var rows := s.(tasks := s.tasks[id := Task(r, step, call.tool, call.payload, TaskPending, 0, max, "")],
                           stepIndex := s.stepIndex[StepKey(r, step) := id]);
            AddTask(s, r, step, id, call, max) ==
            Enqueued(LogOn(rows, r, Fact(EvTaskCreated, step, TaskCreatedData(id, call.tool, call.payload))), id,
                     ZERO_TIME)
  {
    hide Log;
  }

  /** One task, with its event and the intent to deliver it. */
  method Add(tx: Tx, r: RunId, step: StepId, id: TaskId, call: Call, max: int) returns (err: Option<Error>)
    modifies tx
    ensures err == AddTaskError(old(tx.View()), r, step, id)
    ensures tx.deliverySeq == old(tx.deliverySeq) + if err.None? then 1 else 0
    ensures err.None? ==> tx.View() == AddTask(old(tx.View()), r, step, id, call, max)
    ensures err.Some? ==> tx.View() == old(tx.View())
  {
    hide LogOn, AddTask;
    AddTaskInSteps(tx.View(), r, step, id, call, max);
    ghost var task := Task(r, step, call.tool, call.payload, TaskPending, 0, max, "");
    LogTouchesEvents(tx.View().(tasks := tx.tasks[id := task], stepIndex := tx.stepIndex[StepKey(r, step) := id]), r,
                     Fact(EvTaskCreated, step, TaskCreatedData(id, call.tool, call.payload)));
    err := tx.CreateTask(id, Task(r, step, call.tool, call.payload, TaskPending, 0, max, ""));
    if err.Some? { return; }
    err := tx.Append(r, EvTaskCreated, step, TaskCreatedData(id, call.tool, call.payload));
    if err.Some? { return; }
    err := tx.EnqueueDelivery(id, ZERO_TIME);
  }

  method DispatchOne(store: Store, r: RunId, run: Run, step: StepId, id: TaskId, call: Call, max: int)
    returns (err: Option<Error>)
    modifies store
    ensures store.deeds == Written(old(store.deeds), old(store.st), store.st)
    ensures var res := DispatchTx(old(store.st), r, run.version, run.output, step, id, call, max);
            store.st == res.st && err == ErrorOf(res)
  {
    hide AddTask;
    var tx := new Tx(store.st);
    err := tx.AdvanceRun(r, run.version, RunState(RunRunning, run.output, "", None));
    if err.None? {
      err := Add(tx, r, step, id, call, max);
    }
    store.Finish(tx, err);
  }

  method DispatchAll(tx: Tx, r: RunId, step: StepId, calls: seq<Call>, ids: seq<TaskId>, max: int)
    returns (err: Option<Error>)
    requires |ids| == |calls|
    modifies tx
    ensures var res := AddChildren(old(tx.View()), r, step, calls, ids, max, |calls|);
            err == ErrorOf(res) && tx.View() == res.st
  {
    hide AddTask, AddTaskError;
    var children := Children(step, |calls|);
    ghost var s := tx.View();
    for i := 0 to |calls|
      invariant AddChildren(s, r, step, calls, ids, max, i) == Commit(tx.View())
    {
      err := Add(tx, r, children[i], ids[i], calls[i], max);
      if err.Some? {
        StaysAborted(s, r, step, calls, ids, max, i + 1);
        return;
      }
    }
    return None;
  }

  lemma {:induction false} StaysAborted(s: State, r: RunId, step: StepId, calls: seq<Call>, ids: seq<TaskId>, max: int,
                                        n: nat)
    requires |ids| == |calls| && n <= |calls| && AddChildren(s, r, step, calls, ids, max, n).Abort?
    ensures AddChildren(s, r, step, calls, ids, max, |calls|) == AddChildren(s, r, step, calls, ids, max, n)
    decreases |calls| - n
  {
    if n < |calls| {
      StaysAborted(s, r, step, calls, ids, max, n + 1);
    }
  }

  /** The whole fan-out in one transaction, or none of it. */
  method DispatchFanOut(store: Store, r: RunId, run: Run, step: StepId, calls: seq<Call>, join: JoinPolicy,
                          ids: seq<TaskId>, max: int) returns (err: Option<Error>)
    requires |ids| == |calls|
    modifies store
    ensures store.deeds == Written(old(store.deeds), old(store.st), store.st)
    ensures var res := FanOutTx(old(store.st), r, run.version, run.output, step, calls, join, ids, max);
            store.st == res.st && err == ErrorOf(res)
  {
    hide AddChildren, ToolNames, PolicyText, Log;
    var tools: seq<string> := [];
    for i := 0 to |calls|
      invariant |tools| == i && forall k :: 0 <= k < i ==> tools[k] == calls[k].tool
    {
      tools := tools + [calls[i].tool];
    }
    NamesAre(tools, calls);
    var tx := new Tx(store.st);
    err := tx.AdvanceRun(r, run.version, RunState(RunRunning, run.output, "", None));
    if err.None? {
      err := tx.Append(r, EvFanOutStarted, step, FanOutData(tools, PolicyText(join)));
    }
    if err.None? {
      err := DispatchAll(tx, r, step, calls, ids, max);
    }
    store.Finish(tx, err);
  }

  lemma NamesAre(tools: seq<string>, calls: seq<Call>)
    requires |tools| == |calls| && forall k :: 0 <= k < |tools| ==> tools[k] == calls[k].tool
    ensures tools == ToolNames(calls)
  {
  }

  /** Record the signal and release the run, in one transaction. */
  method RecordAndRelease(store: Store, r: RunId, id: string, name: string, payload: Json) returns (err: Option<Error>)
    modifies store
    ensures store.deeds == Written(old(store.deeds), old(store.st), store.st)
    ensures var res := DeliverTx(old(store.st), r, id, name, payload, old(store.st).clock);
            store.st == res.st && err == ErrorOf(res)
  {
    var tx := new Tx(store.st);
    err := tx.RecordSignal(r, id, Signal(name, payload, 0));
    if err.None? {
      err := tx.ReleaseRun(r);
    }
    store.Finish(tx, err);
  }

  method RegisterWorker(store: Store, worker: string) returns (err: Option<Error>)
    modifies store
    ensures store.deeds == Written(old(store.deeds), old(store.st), store.st)
    ensures var res := RegisterTx(old(store.st), worker); store.st == res.st && err == ErrorOf(res)
  {
    var tx := new Tx(store.st);
    err := tx.RegisterWorker(worker);
    store.Finish(tx, err);
  }
}
