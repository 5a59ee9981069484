/** Dispatching one call or a fan-out: the row, its place in the unique index,
    its event and its announcement appear together, or nothing does. */
module CreateSteps {
  import opened Prelude
  import opened Names
  import opened Core
  import opened Tables
  import opened Waits
  import opened Lifecycle
  import opened Invariants
  import opened Transactions
  import opened RunSteps

  lemma NoEventsBefore(s: State, r: RunId, id: TaskId)
    requires r in s.runs && HistoryOk(s, r) && id !in s.tasks
    ensures ViewOf(Hist(s, r), id) == NEVER
  {
    var h := Hist(s, r);
    forall i | 0 <= i < |h|
      ensures !Concerns(h[i], id)
    {
      assert EventOk(s, r, h[i]);
    }
    hide EventOk, HistoryOk, Hist;
    ViewSkips([], h, id);
  }

  function CreatedFact(step: StepId, id: TaskId, call: Call): Fact {
    Fact(EvTaskCreated, step, TaskCreatedData(id, call.tool, call.payload))
  }

  lemma AddedFields(s: State, r: RunId, step: StepId, id: TaskId, call: Call, max: int)
    ensures var t := AddTask(s, r, step, id, call, max);
            && t.runs == s.runs && t.effects == s.effects && t.leases == s.leases && t.workers == s.workers
            && t.signals == s.signals && t.published == s.published && t.clock == s.clock
            && t.tasks == s.tasks[id := Task(r, step, call.tool, call.payload, TaskPending, 0, max, "")]
            && t.stepIndex == s.stepIndex[StepKey(r, step) := id]
            && t.deliverySeq == s.deliverySeq + 1
            && t.deliveries == s.deliveries[t.deliverySeq := Delivery(id, 0, "", ZERO_TIME)]
            && t.events == s.events[r := Log(Hist(s, r), CreatedFact(step, id, call))]
  {
  }

  lemma NoRowsBefore(s: State, id: TaskId)
    requires ParentsOk(s) && id !in s.tasks
    ensures Rows(s.deliveries, id) == {} && id !in s.leases && s.deliverySeq + 1 !in s.deliveries
  {
    forall d | d in s.deliveries
      ensures d !in Rows(s.deliveries, id)
    {
      assert s.deliveries[d].task in s.tasks;
    }
  }

  lemma NewTask(s: State, r: RunId, step: StepId, id: TaskId, call: Call, max: int)
    requires HistoriesOk(s) && ParentsOk(s) && AddTaskError(s, r, step, id).None? && max >= 1
    ensures id in AddTask(s, r, step, id, call, max).tasks
    ensures TaskOk(AddTask(s, r, step, id, call, max), id)
  {
    var t := AddTask(s, r, step, id, call, max);
    AddedFields(s, r, step, id, call, max);
    NoRowsBefore(s, id);
    RowsAfterEnqueue(s.deliveries, t.deliverySeq, Delivery(id, 0, "", ZERO_TIME), id);
    assert HistoryOk(s, r);
    NoEventsBefore(s, r, id);
    var f := CreatedFact(step, id, call);
    ViewLog(Hist(s, r), f, id);
    assert Hist(t, r) == Log(Hist(s, r), f);
    hide AddTask, HistoryOk, HistoriesOk, ParentsOk, Rows, ViewOf, Log, Hist;
  }

  lemma OldTask(s: State, r: RunId, step: StepId, id: TaskId, call: Call, max: int, other: TaskId)
    requires ParentsOk(s) && AddTaskError(s, r, step, id).None?
    requires other in s.tasks && TaskOk(s, other)
    ensures other in AddTask(s, r, step, id, call, max).tasks
    ensures TaskOk(AddTask(s, r, step, id, call, max), other) &&
            TaskEvolves(s, AddTask(s, r, step, id, call, max), other)
  {
    var t := AddTask(s, r, step, id, call, max);
    AddedFields(s, r, step, id, call, max);
    NoRowsBefore(s, id);
    RowsAfterEnqueue(s.deliveries, t.deliverySeq, Delivery(id, 0, "", ZERO_TIME), other);
    ViewLog(Hist(s, r), CreatedFact(step, id, call), other);
    var q := s.tasks[other].run;
    assert Hist(t, q) == if q == r then Log(Hist(s, r), CreatedFact(step, id, call)) else Hist(s, q);
    hide AddTask, ParentsOk, Rows, ViewOf, Log, Hist;
  }

  lemma AllTasks(s: State, r: RunId, step: StepId, id: TaskId, call: Call, max: int)
    requires ParentsOk(s) && HistoriesOk(s) && TasksOk(s) && AddTaskError(s, r, step, id).None? && max >= 1
    ensures TasksOk(AddTask(s, r, step, id, call, max)) && TasksEvolve(s, AddTask(s, r, step, id, call, max))
  {
    var t := AddTask(s, r, step, id, call, max);
    AddedFields(s, r, step, id, call, max);
    hide TaskOk, TaskEvolves, AddTask, ParentsOk, HistoriesOk;
    NewTask(s, r, step, id, call, max);
    forall other | other in s.tasks
      ensures TaskOk(t, other) && TaskEvolves(s, t, other)
    {
      OldTask(s, r, step, id, call, max, other);
    }
  }

  lemma AllRunsStand(s: State, r: RunId, step: StepId, id: TaskId, call: Call, max: int)
    requires RunsOk(s) && r in s.runs
    ensures RunsOk(AddTask(s, r, step, id, call, max)) && RunsEvolve(s, AddTask(s, r, step, id, call, max))
  {
    var t := AddTask(s, r, step, id, call, max);
    var f := CreatedFact(step, id, call);
    AddedFields(s, r, step, id, call, max);
    hide RunOk, RunEvolves, AddTask;
    forall q | q in t.runs
      ensures RunOk(t, q) && RunEvolves(s, t, q)
    {
      RunStands(s, t, r, f, q);
    }
  }

  lemma RunStands(s: State, t: State, r: RunId, f: Fact, q: RunId)
    requires q in s.runs && RunOk(s, q) && t.runs == s.runs && t.signals == s.signals
    requires f.typ == EvTaskCreated && t.events == s.events[r := Log(Hist(s, r), f)]
    ensures RunOk(t, q) && RunEvolves(s, t, q)
  {
    if q == r {
      assert Hist(t, q) == Log(Hist(s, r), f);
    } else {
      assert Hist(t, q) == Hist(s, q);
    }
    hide StatusOf, Pending, Consumed, Sequential;
    NeutralEvents(Hist(s, q), Hist(t, q));
  }

  lemma IndexAfter(s: State, r: RunId, step: StepId, id: TaskId, call: Call, max: int)
    requires IndexOk(s) && ParentsOk(s) && AddTaskError(s, r, step, id).None?
    ensures IndexOk(AddTask(s, r, step, id, call, max))
  {
    AddedFields(s, r, step, id, call, max);
    hide AddTask, Hist, Log;
  }

  lemma ParentsAfter(s: State, r: RunId, step: StepId, id: TaskId, call: Call, max: int)
    requires ParentsOk(s) && AddTaskError(s, r, step, id).None?
    ensures ParentsOk(AddTask(s, r, step, id, call, max)) && OutboxEvolves(s, AddTask(s, r, step, id, call, max))
    ensures SignalsEvolve(s, AddTask(s, r, step, id, call, max))
  {
    AddedFields(s, r, step, id, call, max);
    hide AddTask, Hist, Log;
  }

  lemma LedgerAfter(s: State, r: RunId, step: StepId, id: TaskId, call: Call, max: int)
    requires EffectsOk(s) && AddTaskError(s, r, step, id).None?
    ensures EffectsOk(AddTask(s, r, step, id, call, max)) && LedgerEvolves(s, AddTask(s, r, step, id, call, max))
  {
    AddedFields(s, r, step, id, call, max);
    hide AddTask, Hist, Log, NewKey;
  }

  lemma HistoryAfter(s: State, t: State, r: RunId, f: Fact, q: RunId)
    requires q in s.runs && HistoryOk(s, q) && t.events == s.events[r := Log(Hist(s, r), f)]
    requires forall id :: id in s.tasks ==> id in t.tasks && t.tasks[id] == s.tasks[id]
    requires IsTaskEvent(f.typ) ==> EventOk(t, r, AsEvent(f))
    ensures HistoryOk(t, q)
  {
    var h, g := Hist(s, q), Hist(t, q);
    assert g == if q == r then Log(h, f) else h;
    if Gapless(h) { LogKeepsGapless(h, f); }
    hide Gapless, MaxSeq;
    forall i | 0 <= i < |g|
      ensures EventOk(t, q, g[i])
    {
      if i < |h| { assert EventOk(s, q, h[i]); }
    }
  }

  lemma Histories(s: State, r: RunId, step: StepId, id: TaskId, call: Call, max: int)
    requires HistoriesOk(s) && AddTaskError(s, r, step, id).None?
    ensures HistoriesOk(AddTask(s, r, step, id, call, max))
  {
    var t := AddTask(s, r, step, id, call, max);
    AddedFields(s, r, step, id, call, max);
    hide AddTask, HistoryOk, Hist, Log;
    forall q | q in t.runs
      ensures HistoryOk(t, q)
    {
      HistoryAfter(s, t, r, CreatedFact(step, id, call), q);
    }
  }

  lemma AddTaskKeepsInv(s: State, r: RunId, step: StepId, id: TaskId, call: Call, max: int)
    requires Inv(s) && AddTaskError(s, r, step, id).None? && max >= 1
    ensures Inv(AddTask(s, r, step, id, call, max)) && Evolves(s, AddTask(s, r, step, id, call, max))
  {
    InvParts(s);
    AddedFields(s, r, step, id, call, max);
    hide IndexOk, ParentsOk, EffectsOk, HistoriesOk, TasksOk, RunsOk, AddTask, LedgerEvolves, SignalsEvolve,
         RunsEvolve, TasksEvolve, OutboxEvolves;
    IndexAfter(s, r, step, id, call, max);
    ParentsAfter(s, r, step, id, call, max);
    LedgerAfter(s, r, step, id, call, max);
    Histories(s, r, step, id, call, max);
    AllTasks(s, r, step, id, call, max);
    AllRunsStand(s, r, step, id, call, max);
  }

  // ----- the two dispatching transactions -----

  lemma BumpKeepsInv(s: State, r: RunId, expected: int, output: Json)
    requires Inv(s) && AdvanceError(s, r, expected, RunState(RunRunning, output, "", None)).None?
    requires s.runs[r].status.RunRunning?
    ensures Inv(Bump(s, r, RunState(RunRunning, output, "", None)))
    ensures Evolves(s, Bump(s, r, RunState(RunRunning, output, "", None)))
  {
    hide Inv, Evolves, Bump, Pending;
    AdvanceKeepsInv(s, r, expected, RunState(RunRunning, output, "", None), None);
  }

  lemma DispatchKeepsInv(s: State, r: RunId, expected: int, output: Json, step: StepId, id: TaskId, call: Call,
                         max: int)
    requires Inv(s) && max >= 1
    requires r in s.runs && s.runs[r].version == expected ==> s.runs[r].status.RunRunning?
    ensures Inv(DispatchTx(s, r, expected, output, step, id, call, max).st)
    ensures Evolves(s, DispatchTx(s, r, expected, output, step, id, call, max).st)
  {
    hide Inv, Evolves, AddTask;
    var res := DispatchTx(s, r, expected, output, step, id, call, max);
    if res.Commit? {
      var m := Bump(s, r, RunState(RunRunning, output, "", None));
      BumpKeepsInv(s, r, expected, output);
      AddTaskKeepsInv(m, r, step, id, call, max);
      EvolvesTransitive(s, m, res.st);
    } else {
      EvolvesReflexive(s);
    }
  }

  lemma {:induction false} AddChildrenKeepsInv(s: State, r: RunId, step: StepId, calls: seq<Call>, ids: seq<TaskId>,
                                               max: int, n: nat)
    requires Inv(s) && |ids| == |calls| && n <= |calls| && max >= 1
    ensures Inv(AddChildren(s, r, step, calls, ids, max, n).st) &&
            Evolves(s, AddChildren(s, r, step, calls, ids, max, n).st)
  {
    hide Inv, Evolves, AddTask, Child;
    if n == 0 {
      EvolvesReflexive(s);
    } else {
      AddChildrenKeepsInv(s, r, step, calls, ids, max, n - 1);
      var before := AddChildren(s, r, step, calls, ids, max, n - 1);
      if before.Commit? && AddTaskError(before.st, r, Child(step, n - 1), ids[n - 1]).None? {
        AddTaskKeepsInv(before.st, r, Child(step, n - 1), ids[n - 1], calls[n - 1], max);
        EvolvesTransitive(s, before.st, AddChildren(s, r, step, calls, ids, max, n).st);
      }
    }
  }

  lemma CounterKeepsInv(s: State, n: int)
    requires Inv(s) && s.deliverySeq <= n
    ensures Inv(s.(deliverySeq := n)) && Evolves(s, s.(deliverySeq := n))
  {
    hide Inv, Evolves, EffectsOk, LedgerEvolves;
    var t := s.(deliverySeq := n);
    InvParts(s);
    SameLedger(s, t);
    QuietKeepsInv(s, t);
  }

  lemma CounterGrows(s: State, t: State)
    requires Evolves(s, t)
    ensures s.deliverySeq <= t.deliverySeq
  {
    hide RunsEvolve, TasksEvolve, LedgerEvolves, SignalsEvolve;
  }

  lemma FanOutKeepsInv(s: State, r: RunId, expected: int, output: Json, step: StepId,
                       calls: seq<Call>, join: JoinPolicy, ids: seq<TaskId>, max: int)
    requires Inv(s) && max >= 1 && |ids| == |calls|
    requires r in s.runs && s.runs[r].version == expected ==> s.runs[r].status.RunRunning?
    ensures Inv(FanOutTx(s, r, expected, output, step, calls, join, ids, max).st)
    ensures Evolves(s, FanOutTx(s, r, expected, output, step, calls, join, ids, max).st)
  {
    hide Inv, Evolves, AddChildren, ToolNames, PolicyText, LogOn, Beside;
    var next := RunState(RunRunning, output, "", None);
    if AdvanceError(s, r, expected, next).None? {
      var m := Bump(s, r, next);
      BumpKeepsInv(s, r, expected, output);
      var f := Fact(EvFanOutStarted, step, FanOutData(ToolNames(calls), PolicyText(join)));
      FanOutIsBeside(f);
      var o := LogOn(m, r, f);
      NoteKeepsInv(m, r, f);
      AddChildrenKeepsInv(o, r, step, calls, ids, max, |calls|);
      var t := AddChildren(o, r, step, calls, ids, max, |calls|).st;
      EvolvesTransitive(s, m, o);
      EvolvesTransitive(s, o, t);
      CounterGrows(s, t);
      CounterKeepsInv(s, t.deliverySeq);
    } else {
      EvolvesReflexive(s);
    }
  }

  lemma FanOutIsBeside(f: Fact)
    requires f.typ == EvFanOutStarted
    ensures Beside(f)
  {
  }
}
