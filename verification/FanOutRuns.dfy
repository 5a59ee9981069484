/** A fan-out is whole: in every reachable history the opening of a fan-out is
    followed at once by the creation of each of its children, in order. */
module FanOutRuns {
  import opened Prelude
  import opened Names
  import opened Core
  import opened Tables
  import opened Waits
  import opened Transactions
  import opened CreateSteps
  import opened FanOuts
  import opened Advancing
  import opened Behaviours
  import opened Frames
  import opened Marks
  import opened StaticPlan

  predicate CreatedAt(h: seq<Event>, k: int, step: StepId, tool: string) {
    0 <= k < |h| && h[k].typ.EvTaskCreated? && h[k].step == step && h[k].data.TaskCreatedData? && h[k].data.tool == tool
  }

  /** What is recorded at p: the fan-out, its policy as text, and each child
      created under its own step with its own tool. */
  ghost predicate WholeAt(h: seq<Event>, p: int)
    requires 0 <= p < |h|
  {
    && h[p].data.FanOutData?
    && (exists join: JoinPolicy {:trigger Renders(join, h[p].data.join)} ::
          Renders(join, h[p].data.join) && join.Valid(|h[p].data.calls|))
    && forall i :: 0 <= i < |h[p].data.calls| ==> CreatedAt(h, p + 1 + i, Child(h[p].step, i), h[p].data.calls[i])
  }

  predicate Renders(join: JoinPolicy, text: string) {
    PolicyText(join) == text
  }

  ghost predicate Whole(h: seq<Event>) {
    forall p :: 0 <= p < |h| && h[p].typ.EvFanOutStarted? ==> WholeAt(h, p)
  }

  lemma WholeAtExtends(h: seq<Event>, g: seq<Event>, p: int)
    requires h <= g && 0 <= p < |h| && WholeAt(h, p)
    ensures WholeAt(g, p)
  {
    hide Child, PolicyText;
    forall i | 0 <= i < |h[p].data.calls|
      ensures CreatedAt(g, p + 1 + i, Child(g[p].step, i), g[p].data.calls[i])
    {
      assert CreatedAt(h, p + 1 + i, Child(h[p].step, i), h[p].data.calls[i]);
    }
  }

  lemma WholeExtends(h: seq<Event>, g: seq<Event>)
    requires Whole(h) && h <= g && forall k :: |h| <= k < |g| ==> !g[k].typ.EvFanOutStarted?
    ensures Whole(g)
  {
    hide WholeAt;
    forall p | 0 <= p < |g| && g[p].typ.EvFanOutStarted?
      ensures WholeAt(g, p)
    {
      assert p < |h| && h[p] == g[p];
      WholeAtExtends(h, g, p);
    }
  }

  // ----- what a fan-out commits -----

  predicate ChildrenCreated(h: seq<Event>, g: seq<Event>, step: StepId, calls: seq<Call>, n: nat)
    requires n <= |calls|
  {
    h <= g && |g| == |h| + n && forall i :: 0 <= i < n ==> CreatedAt(g, |h| + i, Child(step, i), calls[i].tool)
  }

  lemma OneCreated(s: State, r: RunId, step: StepId, id: TaskId, call: Call, max: int)
    ensures var h, g := Hist(s, r), Hist(AddTask(s, r, step, id, call, max), r);
            h <= g && |g| == |h| + 1 && CreatedAt(g, |h|, step, call.tool)
  {
    AddedFields(s, r, step, id, call, max);
    hide AddTask;
  }

  lemma {:induction false} ChildrenHistory(s: State, r: RunId, step: StepId, calls: seq<Call>, ids: seq<TaskId>,
                                           max: int, n: nat)
    requires |ids| == |calls| && n <= |calls|
    requires AddChildren(s, r, step, calls, ids, max, n).Commit?
    ensures ChildrenCreated(Hist(s, r), Hist(AddChildren(s, r, step, calls, ids, max, n).st, r), step, calls, n)
  {
    hide Child, AddTask, Hist;
    if n > 0 {
      ChildrenHistory(s, r, step, calls, ids, max, n - 1);
      var m := AddChildren(s, r, step, calls, ids, max, n - 1).st;
      OneCreated(m, r, Child(step, n - 1), ids[n - 1], calls[n - 1], max);
      OneMoreChild(Hist(s, r), Hist(m, r), Hist(AddChildren(s, r, step, calls, ids, max, n).st, r), step, calls, n - 1);
    }
  }

  lemma OneMoreChild(h: seq<Event>, m: seq<Event>, g: seq<Event>, step: StepId, calls: seq<Call>, n: nat)
    requires n < |calls| && ChildrenCreated(h, m, step, calls, n)
    requires m <= g && |g| == |m| + 1 && CreatedAt(g, |m|, Child(step, n), calls[n].tool)
    ensures ChildrenCreated(h, g, step, calls, n + 1)
  {
    hide Child;
    forall i | 0 <= i < n + 1
      ensures CreatedAt(g, |h| + i, Child(step, i), calls[i].tool)
    {
      if i < n { assert CreatedAt(m, |h| + i, Child(step, i), calls[i].tool); }
    }
  }

  /** N tasks and their events, in one transaction, in order. */
  lemma FanOutHistory(s: State, r: RunId, expected: int, output: Json, step: StepId,
                      calls: seq<Call>, join: JoinPolicy, ids: seq<TaskId>, max: int)
    requires |ids| == |calls| && FanOutTx(s, r, expected, output, step, calls, join, ids, max).Commit?
    ensures var h, g := Hist(s, r), Hist(FanOutTx(s, r, expected, output, step, calls, join, ids, max).st, r);
            && h < g && |g| == |h| + 1 + |calls|
            && g[|h|].typ.EvFanOutStarted? && g[|h|].step == step
            && g[|h|].data == FanOutData(ToolNames(calls), PolicyText(join))
            && forall i :: 0 <= i < |calls| ==> CreatedAt(g, |h| + 1 + i, Child(step, i), calls[i].tool)
  {
    hide Child, AddChildren, ToolNames, PolicyText;
    var f := Fact(EvFanOutStarted, step, FanOutData(ToolNames(calls), PolicyText(join)));
    var o := LogOn(Bump(s, r, RunState(RunRunning, output, "", None)), r, f);
    assert Hist(o, r) == Log(Hist(s, r), f);
    ChildrenHistory(o, r, step, calls, ids, max, |calls|);
    hide FanOutTx, Log;
    assert forall i :: 0 <= i < |calls| ==>
      CreatedAt(Hist(AddChildren(o, r, step, calls, ids, max, |calls|).st, r), |Hist(o, r)| + i, Child(step, i),
                calls[i].tool);
  }

  lemma FanOutKeepsWhole(s: State, r: RunId, expected: int, output: Json, step: StepId,
                         calls: seq<Call>, join: JoinPolicy, ids: seq<TaskId>, max: int)
    requires |ids| == |calls| && join.Valid(|calls|) && Whole(Hist(s, r))
    ensures Whole(Hist(FanOutTx(s, r, expected, output, step, calls, join, ids, max).st, r))
  {
    hide Child, PolicyText, WholeAt, AddChildren, CreatedAt, Hist;
    var res := FanOutTx(s, r, expected, output, step, calls, join, ids, max);
    if res.Commit? {
      FanOutHistory(s, r, expected, output, step, calls, join, ids, max);
      hide FanOutTx;
      AppendedWhole(Hist(s, r), Hist(res.st, r), step, calls, join);
    } else {
      AbortedFanOut(s, r, expected, output, step, calls, join, ids, max);
    }
  }

  lemma AbortedFanOut(s: State, r: RunId, expected: int, output: Json, step: StepId,
                      calls: seq<Call>, join: JoinPolicy, ids: seq<TaskId>, max: int)
    requires |ids| == |calls| && FanOutTx(s, r, expected, output, step, calls, join, ids, max).Abort?
    ensures Hist(FanOutTx(s, r, expected, output, step, calls, join, ids, max).st, r) == Hist(s, r)
  {
    hide AddChildren, Log, ToolNames, PolicyText;
  }

  lemma AppendedWhole(h: seq<Event>, g: seq<Event>, step: StepId, calls: seq<Call>, join: JoinPolicy)
    requires Whole(h) && h < g && |g| == |h| + 1 + |calls| && join.Valid(|calls|)
    requires g[|h|].step == step && g[|h|].data == FanOutData(ToolNames(calls), PolicyText(join))
    requires forall i :: 0 <= i < |calls| ==> CreatedAt(g, |h| + 1 + i, Child(step, i), calls[i].tool)
    ensures Whole(g)
  {
    hide Child, PolicyText;
    assert Renders(join, g[|h|].data.join);
    assert WholeAt(g, |h|);
    hide WholeAt;
    forall p | |h| < p < |g|
      ensures g[p].typ.EvTaskCreated?
    {
      var i := p - |h| - 1;
      assert CreatedAt(g, |h| + 1 + i, Child(step, i), calls[i].tool);
    }
    forall p | 0 <= p < |g| && g[p].typ.EvFanOutStarted?
      ensures WholeAt(g, p)
    {
      if p < |h| {
        WholeAtExtends(h, g, p);
      }
    }
  }

  // ----- every step keeps it -----

  ghost predicate AllWhole(s: State) {
    forall r :: Whole(Hist(s, r))
  }

  lemma UnmarkedKeepsWhole(s: State, t: State)
    requires AllWhole(s) && Unmarked(s, t, FanOutsToo)
    ensures AllWhole(t)
  {
    hide Whole, Hist;
    forall r
      ensures Whole(Hist(t, r))
    {
      assert QuietTail(Hist(s, r), Hist(t, r), FanOutsToo);
      WholeExtends(Hist(s, r), Hist(t, r));
    }
  }

  lemma CompleteKeepsWhole(s: State, id: TaskId, token: int, result: Json, now: Time)
    requires AllWhole(s)
    ensures AllWhole(CompleteTx(s, id, token, result, now).st)
  {
    hide Whole, Hist, CompleteTx;
    var res := CompleteTx(s, id, token, result, now);
    forall r
      ensures Whole(Hist(res.st, r))
    {
      CompletedRow(s, id, token, result, now, r);
      if res.Commit? && s.tasks[id].run == r {
        LoggedWhole(Hist(s, r), Fact(EvTaskCompleted, s.tasks[id].step, TaskCompletedData(id, result)));
      } else if res.Abort? {
        AbortedComplete(s, id, token, result, now);
      }
    }
  }

  lemma LoggedWhole(h: seq<Event>, f: Fact)
    requires Whole(h) && !f.typ.EvFanOutStarted?
    ensures Whole(Log(h, f))
  {
    hide Whole;
    WholeExtends(h, Log(h, f));
  }

  lemma FanIsValid(cfg: Config, r: RunId, run: Run, h: seq<Event>, signals: map<SignalKey, Signal>,
                   found: Option<string>, now: Time)
    requires found.Some? ==> SignalKey(r, found.value) in signals
    ensures var c := Pass(cfg, r, run, h, signals, found, now);
            c.Fan? ==> c.join.Valid(|c.calls|)
  {
    hide Pending, Joining;
  }

  lemma FanKeepsWhole(tools: Tools, past: seq<State>, a: Action)
    requires past != [] && AllWhole(Last(past)) && a.Advance? && AdvanceEnabled(past, a) && PassOf(past, a).Fan?
    ensures AllWhole(Next(tools, past, a))
  {
    hide Whole, Hist, Pass, Chosen, Pending, Ids, Consumed, FanOutTx, PassFrame;
    var s, t := Last(past), Next(tools, past, a);
    var c := PassOf(past, a);
    var run := past[a.i].runs[a.r];
    FanIsValid(a.cfg, a.r, run, Hist(past[a.j], a.r), past[a.l].signals, a.found, a.now);
    CommitFrame(a.cfg, s, a.r, run, c, a.ids);
    FrameOthers(s, t, a.r, []);
    if |a.ids| == |c.calls| {
      assert Whole(Hist(s, a.r));
      FanOutKeepsWhole(s, a.r, run.version, run.output, c.step, c.calls, c.join, a.ids, a.cfg.maxAttempts);
    }
    forall q
      ensures Whole(Hist(t, q))
    {
      if q != a.r { assert Hist(t, q) == Hist(s, q); }
    }
  }

  lemma StepKeepsWhole(tools: Tools, past: seq<State>, a: Action)
    requires past != [] && AllWhole(Last(past))
    ensures AllWhole(Next(tools, past, a))
  {
    hide AllWhole, Next, AdvanceEnabled, PassOf, Unmarked;
    if a.Complete? {
      ReportKeepsWhole(tools, past, a);
    } else if a.Advance? && AdvanceEnabled(past, a) && PassOf(past, a).Fan? {
      FanKeepsWhole(tools, past, a);
    } else {
      OthersAddNone(tools, past, a, FanOutsToo);
      UnmarkedKeepsWhole(Last(past), Next(tools, past, a));
    }
  }

  lemma ReportKeepsWhole(tools: Tools, past: seq<State>, a: Action)
    requires past != [] && AllWhole(Last(past)) && a.Complete?
    ensures AllWhole(Next(tools, past, a))
  {
    hide AllWhole, CompleteTx, Executed;
    CompleteKeepsWhole(Last(past), a.id, a.token, a.result, Last(past).clock);
  }

  lemma EmptyIsWhole()
    ensures AllWhole(EMPTY)
  {
  }

  /** In every behaviour, every fan-out on record is whole. */
  lemma {:induction false} FanOutsAreWhole(tools: Tools, acts: seq<Action>)
    ensures AllWhole(Last(States(tools, acts)))
  {
    hide Next, AllWhole;
    if acts == [] {
      EmptyIsWhole();
    } else {
      FanOutsAreWhole(tools, acts[..|acts| - 1]);
      StepKeepsWhole(tools, States(tools, acts[..|acts| - 1]), acts[|acts| - 1]);
    }
  }
}
