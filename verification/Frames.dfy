/** What each kind of step leaves alone. */
module Frames {
  import opened Prelude
  import opened Names
  import opened Core
  import opened Tables
  import opened Waits
  import opened Transactions
  import opened RunSteps
  import opened CreateSteps
  import opened Advancing
  import opened Behaviours

  predicate RowsStand(s: State, t: State) {
    forall id :: id in s.tasks ==> id in t.tasks && t.tasks[id] == s.tasks[id]
  }

  predicate LeasesStand(s: State, t: State) {
    t.leases == s.leases && s.clock <= t.clock
  }

  ghost predicate OtherHistories(s: State, t: State, r: RunId) {
    forall q: RunId :: q != r ==> Hist(t, q) == Hist(s, q)
  }

  /** Only the claim, the two reports and the reclaim move a task that exists. */
  predicate MovesTasks(a: Action) {
    a.Claim? || a.Complete? || a.FailTask? || a.Reclaim?
  }

  lemma {:induction false} ChildrenStand(s: State, r: RunId, step: StepId, calls: seq<Call>, ids: seq<TaskId>,
                                         max: int, n: nat)
    requires |ids| == |calls| && n <= |calls|
    ensures RowsStand(s, AddChildren(s, r, step, calls, ids, max, n).st)
    ensures LeasesStand(s, AddChildren(s, r, step, calls, ids, max, n).st)
    ensures Consumed(Hist(AddChildren(s, r, step, calls, ids, max, n).st, r)) == Consumed(Hist(s, r))
    ensures OtherHistories(s, AddChildren(s, r, step, calls, ids, max, n).st, r)
  {
    hide Child, AddTask, Consumed;
    if n > 0 {
      ChildrenStand(s, r, step, calls, ids, max, n - 1);
      var before := AddChildren(s, r, step, calls, ids, max, n - 1);
      if before.Commit? && AddTaskError(before.st, r, Child(step, n - 1), ids[n - 1]).None? {
        AddedStands(before.st, r, Child(step, n - 1), ids[n - 1], calls[n - 1], max);
      }
    }
  }

  lemma AddedStands(s: State, r: RunId, step: StepId, id: TaskId, call: Call, max: int)
    requires AddTaskError(s, r, step, id).None?
    ensures RowsStand(s, AddTask(s, r, step, id, call, max)) && LeasesStand(s, AddTask(s, r, step, id, call, max))
    ensures Consumed(Hist(AddTask(s, r, step, id, call, max), r)) == Consumed(Hist(s, r))
    ensures OtherHistories(s, AddTask(s, r, step, id, call, max), r)
  {
    AddedFields(s, r, step, id, call, max);
    ConsumedNothing(Hist(s, r), CreatedFact(step, id, call));
    hide AddTask, Consumed, Log;
  }

  ghost predicate PassFrame(s: State, t: State, r: RunId, taken: seq<Taken>) {
    RowsStand(s, t) && LeasesStand(s, t) && OtherHistories(s, t, r) &&
      Consumed(Hist(t, r)) == Consumed(Hist(s, r)) + taken
  }

  lemma FrameOthers(s: State, t: State, r: RunId, taken: seq<Taken>)
    requires PassFrame(s, t, r, taken)
    ensures forall q: RunId :: q != r ==> Hist(t, q) == Hist(s, q)
  {
    hide Hist, Consumed;
  }

  lemma WriteFrame(s: State, r: RunId, expected: int, next: RunState, fact: Option<Fact>)
    ensures var t := AdvanceTx(s, r, expected, next, fact).st;
            PassFrame(s, t, r, if t == s || fact.None? then [] else TakenBy(AsEvent(fact.value)))
  {
    hide Consumed, Log;
    var t := AdvanceTx(s, r, expected, next, fact).st;
    if t != s && fact.Some? {
      ConsumedLog(Hist(s, r), fact.value);
      assert Hist(t, r) == Log(Hist(s, r), fact.value);
      StampIs(Hist(s, r), fact.value);
    } else {
      assert Consumed(Hist(s, r)) + [] == Consumed(Hist(s, r));
      assert Hist(t, r) == Hist(s, r);
    }
  }

  lemma DispatchFrame(s: State, r: RunId, expected: int, output: Json, step: StepId, id: TaskId, call: Call, max: int)
    ensures PassFrame(s, DispatchTx(s, r, expected, output, step, id, call, max).st, r, [])
  {
    hide Consumed, AddTask;
    var next := RunState(RunRunning, output, "", None);
    if DispatchTx(s, r, expected, output, step, id, call, max).Commit? {
      AddedStands(Bump(s, r, next), r, step, id, call, max);
    }
    assert Consumed(Hist(s, r)) + [] == Consumed(Hist(s, r));
  }

  lemma OpenedFrame(s: State, r: RunId, next: RunState, f: Fact)
    requires r in s.runs && f.typ.EvFanOutStarted?
    ensures PassFrame(s, LogOn(Bump(s, r, next), r, f), r, [])
  {
    hide Consumed, Log;
    var o := LogOn(Bump(s, r, next), r, f);
    ConsumedNothing(Hist(s, r), f);
    assert Hist(o, r) == Log(Hist(s, r), f);
    assert Consumed(Hist(s, r)) + [] == Consumed(Hist(s, r));
  }

  lemma FramesCompose(s: State, o: State, t: State, r: RunId)
    requires PassFrame(s, o, r, [])
    requires RowsStand(o, t) && LeasesStand(o, t) && OtherHistories(o, t, r) &&
             Consumed(Hist(t, r)) == Consumed(Hist(o, r))
    ensures PassFrame(s, t, r, [])
  {
    hide Consumed, Hist;
  }

  lemma FanFrame(s: State, r: RunId, expected: int, output: Json, step: StepId,
                 calls: seq<Call>, join: JoinPolicy, ids: seq<TaskId>, max: int)
    requires |ids| == |calls|
    ensures PassFrame(s, FanOutTx(s, r, expected, output, step, calls, join, ids, max).st, r, [])
  {
    hide Consumed, AddChildren, ToolNames, PolicyText, LogOn, PassFrame, OtherHistories;
    var next := RunState(RunRunning, output, "", None);
    UnchangedFrame(s, r);
    if AdvanceError(s, r, expected, next).None? {
      var f := Fact(EvFanOutStarted, step, FanOutData(ToolNames(calls), PolicyText(join)));
      var o := LogOn(Bump(s, r, next), r, f);
      OpenedFrame(s, r, next, f);
      ChildrenStand(o, r, step, calls, ids, max, |calls|);
      FramesCompose(s, o, AddChildren(o, r, step, calls, ids, max, |calls|).st, r);
      CounterFrame(s, AddChildren(o, r, step, calls, ids, max, |calls|).st.deliverySeq, r);
    }
  }

  lemma CounterFrame(s: State, n: int, r: RunId)
    ensures PassFrame(s, s.(deliverySeq := n), r, [])
  {
    assert Consumed(Hist(s, r)) + [] == Consumed(Hist(s, r));
  }

  /** What an advancing pass does to the consumed signals: nothing, or it takes
      the one it chose. */
  lemma CommitFrame(cfg: Config, s: State, r: RunId, run: Run, c: Commitment, ids: seq<TaskId>)
    ensures var t := CommitTx(cfg, s, r, run, c, ids).st;
            PassFrame(s, t, r, if t == s || !c.Write? || c.fact.None? then [] else TakenBy(AsEvent(c.fact.value)))
  {
    hide Consumed, AdvanceTx, DispatchTx, FanOutTx, PassFrame;
    match c {
      case Nothing => UnchangedFrame(s, r);
      case Write(next, fact) => WriteFrame(s, r, run.version, next, fact);
      case Dispatch(step, call) =>
        if |ids| == 0 { UnchangedFrame(s, r); }
        else { DispatchFrame(s, r, run.version, run.output, step, ids[0], call, cfg.maxAttempts); }
      case Fan(step, calls, join) =>
        if |ids| != |calls| { UnchangedFrame(s, r); }
        else { FanFrame(s, r, run.version, run.output, step, calls, join, ids, cfg.maxAttempts); }
    }
  }

  lemma UnchangedFrame(s: State, r: RunId)
    ensures PassFrame(s, s, r, [])
  {
    assert Consumed(Hist(s, r)) + [] == Consumed(Hist(s, r));
  }

  lemma AdvanceRowsStand(tools: Tools, past: seq<State>, a: Action)
    requires past != [] && (a.Advance? || a.FailRun?)
    ensures RowsStand(Last(past), Next(tools, past, a)) && LeasesStand(Last(past), Next(tools, past, a))
  {
    hide AdvanceTx, CommitTx, Pass, Chosen, Pending, Ids, Consumed, Hist;
    var s := Last(past);
    if a.Advance? {
      if AdvanceEnabled(past, a) {
        var c := PassOf(past, a);
        CommitFrame(a.cfg, s, a.r, past[a.i].runs[a.r], c, a.ids);
      }
    } else if a.i < |past| && a.r in past[a.i].runs && !past[a.i].runs[a.r].status.IsTerminal() {
      WriteFrame(s, a.r, past[a.i].runs[a.r].version, RunFailure(past[a.i].runs[a.r], a.reason),
                 Some(Fact(EvRunFailed, "", RunFailedData(a.reason))));
    }
  }

  /** What an enabled pass set out to commit. */
  ghost function PassOf(past: seq<State>, a: Action): Commitment
    requires past != [] && a.Advance? && AdvanceEnabled(past, a)
  {
    Pass(a.cfg, a.r, past[a.i].runs[a.r], Hist(past[a.j], a.r), past[a.l].signals, a.found, a.now)
  }

  lemma LoggedStands(s: State, r: RunId, f: Fact)
    ensures RowsStand(s, LogOn(s, r, f)) && LeasesStand(s, LogOn(s, r, f))
  {
  }

  lemma StartStands(s: State, r: RunId, agent: string, version: string, input: Json)
    ensures RowsStand(s, StartRunTx(s, r, agent, version, input).st) &&
            LeasesStand(s, StartRunTx(s, r, agent, version, input).st)
  {
    hide Log;
  }

  lemma ReserveStands(s: State, key: Key, e: Effect, step: StepId, now: Time)
    ensures RowsStand(s, ReserveTx(s, key, e, step, now).st) && LeasesStand(s, ReserveTx(s, key, e, step, now).st)
  {
    hide Log;
  }

  lemma MoveStands(s: State, key: Key, from: EffectStatus, to: EffectStatus, out: EffectOutcome,
                   run: RunId, fact: Option<Fact>, now: Time)
    ensures RowsStand(s, EffectTx(s, key, from, to, out, run, fact, now).st)
    ensures LeasesStand(s, EffectTx(s, key, from, to, out, run, fact, now).st)
  {
    hide Log, Moved;
  }

  lemma LedgerRowsStand(tools: Tools, past: seq<State>, a: Action)
    requires past != [] && (a.Start? || a.Reserve? || a.MoveEffect? || a.Escalate?)
    ensures RowsStand(Last(past), Next(tools, past, a)) && LeasesStand(Last(past), Next(tools, past, a))
  {
    hide RowsStand, LeasesStand, StartRunTx, ReserveTx, EffectTx, LogOn, KeyOf, FreshEffect, IsEffectEvent;
    var s := Last(past);
    assert RowsStand(s, s) && LeasesStand(s, s) by { ItselfStands(s); }
    match a {
      case Start(r, agent, version, input) => StartStands(s, r, agent, version, input);
      case Reserve(id) =>
        if id in s.tasks && s.tasks[id].tool in tools {
          ReserveStands(s, KeyOf(s.tasks[id]), FreshEffect(tools, s.tasks[id], id), s.tasks[id].step, s.clock);
        }
      case MoveEffect(key, from, to, out, run, fact) => MoveStands(s, key, from, to, out, run, fact, s.clock);
      case Escalate(run, note) => LoggedStands(s, run, note);
      case _ =>
    }
  }

  lemma ItselfStands(s: State)
    ensures RowsStand(s, s) && LeasesStand(s, s)
  {
  }

  lemma QuietRowsStand(tools: Tools, past: seq<State>, a: Action)
    requires past != [] && (a.Tick? || a.Heartbeat? || a.Deliver? || a.Register? || a.Mark?)
    ensures RowsStand(Last(past), Next(tools, past, a))
    ensures !a.Heartbeat? ==> LeasesStand(Last(past), Next(tools, past, a))
  {
    hide StartRunTx, CommitTx, AdvanceTx, ClaimTx, CompleteTx, FailTx, ReclaimTx, ReserveTx, EffectTx, NoteTx,
         Executed, AdvanceEnabled;
  }

  /** Every other step leaves the rows of existing tasks alone. */
  lemma OthersRowsStand(tools: Tools, past: seq<State>, a: Action)
    requires past != [] && !MovesTasks(a)
    ensures RowsStand(Last(past), Next(tools, past, a))
    ensures !a.Heartbeat? ==> LeasesStand(Last(past), Next(tools, past, a))
  {
    hide Next, RowsStand, LeasesStand;
    if a.Advance? || a.FailRun? {
      AdvanceRowsStand(tools, past, a);
    } else if a.Start? || a.Reserve? || a.MoveEffect? || a.Escalate? {
      LedgerRowsStand(tools, past, a);
    } else {
      QuietRowsStand(tools, past, a);
    }
  }
}
