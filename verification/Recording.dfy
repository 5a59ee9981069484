/** The engine records what the driver decides: the events committed for a
    decision are the ones replay is proved against. */
module Recording {
  import opened Prelude
  import opened Names
  import opened Core
  import opened Tables
  import opened Transactions
  import opened CreateSteps
  import opened Advancing
  import opened Agents
  import opened Replay

  /** The same facts, under whatever sequence numbers. */
  predicate SameFacts(a: seq<Event>, b: seq<Event>) {
    |a| == |b| && forall i :: 0 <= i < |a| ==> a[i].typ == b[i].typ && a[i].step == b[i].step && a[i].data == b[i].data
  }

  /** h grows by these facts. */
  predicate GrowsBy(h: seq<Event>, g: seq<Event>, facts: seq<Event>) {
    h <= g && SameFacts(g[|h|..], facts)
  }

  lemma GrowsByOne(h: seq<Event>, f: Fact, e: Event)
    requires e.typ == f.typ && e.step == f.step && e.data == f.data
    ensures GrowsBy(h, Log(h, f), [e])
  {
    assert Log(h, f)[|h|..] == [Stamp(h, f)];
  }

  lemma GrowsTwice(h: seq<Event>, m: seq<Event>, g: seq<Event>, a: seq<Event>, b: seq<Event>)
    requires GrowsBy(h, m, a) && GrowsBy(m, g, b)
    ensures GrowsBy(h, g, a + b)
  {
    assert g[|h|..] == m[|h|..] + g[|m|..];
  }

  lemma {:induction false} ChildrenRecorded(s: State, r: RunId, step: StepId, calls: seq<Call>, ids: seq<TaskId>,
                                            max: int, n: nat)
    requires |ids| == |calls| && n <= |calls| && AddChildren(s, r, step, calls, ids, max, n).Commit?
    ensures GrowsBy(Hist(s, r), Hist(AddChildren(s, r, step, calls, ids, max, n).st, r),
                    CreationEvents(step, calls, ids, n))
  {
    hide Child, AddTask, Hist, Log, GrowsBy;
    if n == 0 {
      GrowsNot(Hist(s, r));
    } else {
      ChildrenRecorded(s, r, step, calls, ids, max, n - 1);
      var m := AddChildren(s, r, step, calls, ids, max, n - 1).st;
      var g := AddChildren(s, r, step, calls, ids, max, n).st;
      AddedFields(m, r, Child(step, n - 1), ids[n - 1], calls[n - 1], max);
      var f := CreatedFact(Child(step, n - 1), ids[n - 1], calls[n - 1]);
      var e := Event(0, f.typ, f.step, f.data);
      AddedHistory(m, r, Child(step, n - 1), ids[n - 1], calls[n - 1], max);
      GrowsByOne(Hist(m, r), f, e);
      GrowsTwice(Hist(s, r), Hist(m, r), Hist(g, r), CreationEvents(step, calls, ids, n - 1), [e]);
    }
  }

  lemma GrowsNot(h: seq<Event>)
    ensures GrowsBy(h, h, [])
  {
  }

  lemma AddedHistory(s: State, r: RunId, step: StepId, id: TaskId, call: Call, max: int)
    ensures Hist(AddTask(s, r, step, id, call, max), r) == Log(Hist(s, r), CreatedFact(step, id, call))
  {
    hide Log;
  }

  lemma FanOutRecorded(s: State, r: RunId, expected: int, output: Json, step: StepId, calls: seq<Call>,
                       join: JoinPolicy,
                       ids: seq<TaskId>, max: int)
    requires |ids| == |calls| && FanOutTx(s, r, expected, output, step, calls, join, ids, max).Commit?
    ensures GrowsBy(Hist(s, r), Hist(FanOutTx(s, r, expected, output, step, calls, join, ids, max).st, r),
                    StartEvents(CallToolParallel(step, calls, join), ids))
  {
    hide AddChildren, ToolNames, PolicyText, Log, GrowsBy, CreationEvents;
    var f := Fact(EvFanOutStarted, step, FanOutData(ToolNames(calls), PolicyText(join)));
    var o := LogOn(Bump(s, r, RunState(RunRunning, output, "", None)), r, f);
    assert Hist(o, r) == Log(Hist(s, r), f);
    var e := Event(0, f.typ, f.step, f.data);
    GrowsByOne(Hist(s, r), f, e);
    ChildrenRecorded(o, r, step, calls, ids, max, |calls|);
    GrowsTwice(Hist(s, r), Hist(o, r), Hist(AddChildren(o, r, step, calls, ids, max, |calls|).st, r), [e],
               CreationEvents(step, calls, ids, |calls|));
  }

  lemma DispatchRecorded(s: State, r: RunId, expected: int, output: Json, step: StepId, id: TaskId, call: Call,
                         max: int)
    requires DispatchTx(s, r, expected, output, step, id, call, max).Commit?
    ensures GrowsBy(Hist(s, r), Hist(DispatchTx(s, r, expected, output, step, id, call, max).st, r),
                    StartEvents(CallTool(step, call.tool, call.payload), [id]))
  {
    hide AddTask, Log, GrowsBy;
    var b := Bump(s, r, RunState(RunRunning, output, "", None));
    assert Hist(b, r) == Hist(s, r);
    AddedHistory(b, r, step, id, call, max);
    GrowsByOne(Hist(s, r), CreatedFact(step, id, call), StartEvents(CallTool(step, call.tool, call.payload), [id])[0]);
  }

  lemma ParkRecorded(s: State, r: RunId, expected: int, next: RunState, f: Fact)
    requires AdvanceTx(s, r, expected, next, Some(f)).Commit?
    ensures GrowsBy(Hist(s, r), Hist(AdvanceTx(s, r, expected, next, Some(f)).st, r), [Event(0, f.typ, f.step, f.data)])
  {
    hide Log, GrowsBy;
    GrowsByOne(Hist(s, r), f, Event(0, f.typ, f.step, f.data));
  }

  /** How many task ids a request needs. */
  function Needs(w: Want): nat {
    match w
    case WantCall(_, _) => 1
    case WantAll(calls, _) => |calls|
    case _ => 0
  }

  /** When the engine commits what the body asks for, history grows by exactly
      the events that replay reads the request back from. */
  lemma DecisionsAreRecorded(cfg: Config, s: State, r: RunId, run: Run, w: Want, step: StepId, ids: seq<TaskId>)
    requires Durable(w) && WellFormed(w) && |ids| == Needs(w)
    requires CommitTx(cfg, s, r, run, Enact(run, Asking(w, step)), ids).Commit?
    ensures GrowsBy(Hist(s, r), Hist(CommitTx(cfg, s, r, run, Enact(run, Asking(w, step)), ids).st, r),
                    StartEvents(Asking(w, step), ids))
  {
    hide AdvanceTx, DispatchTx, FanOutTx, GrowsBy, Hist;
    match w {
      case WantCall(tool, payload) =>
        DispatchRecorded(s, r, run.version, run.output, step, ids[0], Call(tool, payload), cfg.maxAttempts);
        assert ids == [ids[0]];
      case WantAll(calls, join) =>
        FanOutRecorded(s, r, run.version, run.output, step, calls, join, ids, cfg.maxAttempts);
      case WantSleep(until) =>
        ParkRecorded(s, r, run.version, RunState(RunRunning, run.output, "", Some(until)),
                     Fact(EvTimerSet, step, TimerSetData(until)));
      case WantSignal(name, deadline) =>
        ParkRecorded(s, r, run.version, RunState(RunRunning, run.output, "", Some(WaitDeadline(deadline))),
                     Fact(EvSignalWaitStarted, step, SignalWaitData(name, deadline)));
    }
  }
}
