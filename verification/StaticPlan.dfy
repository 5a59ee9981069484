/** A decider that walks a fixed plan (internal/decider/static.go), and what
    every interleaving of stale passes, duplicated deliveries, retries and
    reaping makes of a run that follows one. */
module StaticPlan {
  import opened Prelude
  import opened Names
  import opened Core
  import opened Tables
  import opened Waits
  import opened Lifecycle
  import opened Invariants
  import opened Transactions
  import opened TaskSteps
  import opened RunSteps
  import opened CreateSteps
  import opened FanOuts
  import opened Advancing
  import opened Behaviours
  import opened Frames
  import opened Agreement
  import opened Marks
  import opened Arrivals

  // ----- position, read back out of history -----

  /** The steps whose tasks have completed, in the order they did. */
  function Completions(h: seq<Event>): seq<StepId> {
    if h == [] then []
    else Completions(h[..|h| - 1]) + (if h[|h| - 1].typ.EvTaskCompleted? then [h[|h| - 1].step] else [])
  }

  method CompletedSteps(history: seq<Event>) returns (n: nat)
    ensures n == |Completions(history)|
  {
    n := 0;
    for k := 0 to |history|
      invariant n == |Completions(history[..k])|
    {
      assert history[..k + 1][..k] == history[..k];
      if history[k].typ.EvTaskCompleted? {
        n := n + 1;
      }
    }
    assert history[..|history|] == history;
  }

  datatype Output = Readable(output: Json) | Undecodable

  /** The result of the last completion, which becomes the run's output. */
  function LastResult(h: seq<Event>): Output {
    if h == [] then Readable(None)
    else
      var e := h[|h| - 1];
      if !e.typ.EvTaskCompleted? then LastResult(h[..|h| - 1])
      else if e.data.TaskCompletedData? then Readable(e.data.result)
      else Undecodable
  }

  method FindLastResult(history: seq<Event>) returns (out: Output)
    ensures out == LastResult(history)
  {
    assert history[..|history|] == history;
    var i := |history|;
    while i > 0
      invariant 0 <= i <= |history|
      invariant LastResult(history) == LastResult(history[..i])
    {
      i := i - 1;
      assert history[..i + 1][..i] == history[..i];
      if history[i].typ.EvTaskCompleted? {
        match history[i].data {
          case TaskCompletedData(_, result) => return Readable(result);
          case _ => return Undecodable;
        }
      }
    }
    return Readable(None);
  }

  /** What the static decider answers. */
  function ByPlan(plan: seq<Call>, h: seq<Event>): Answer {
    var done := |Completions(h)|;
    if done < |plan| then Decided(CallTool(Step(done + 1), plan[done].tool, plan[done].payload))
    else
      match LastResult(h)
      case Readable(output) => Decided(Decision.Complete(output))
      case Undecodable => CannotDecide("unreadable completion")
  }

  method Decide(plan: seq<Call>, history: seq<Event>) returns (answer: Answer)
    ensures answer == ByPlan(plan, history)
  {
    var done := CompletedSteps(history);
    if done < |plan| {
      var step := plan[done];
      return Decided(CallTool(Step(done + 1), step.tool, step.payload));
    }
    var out := FindLastResult(history);
    match out {
      case Readable(output) => return Decided(Decision.Complete(output));
      case Undecodable => return CannotDecide("unreadable completion");
    }
  }

  // ----- a run that follows a plan -----

  function StepsTo(c: nat): seq<StepId> {
    seq(c, i requires 0 <= i < c => Step(i + 1))
  }

  /** A task of the plan's i-th call, counting from 1. */
  predicate IsCall(t: Task, plan: seq<Call>, i: int) {
    1 <= i <= |plan| && t.step == Step(i) && t.tool == plan[i - 1].tool && t.payload == plan[i - 1].payload
  }

  predicate IsStep(t: Task, plan: seq<Call>, last: int) {
    exists i :: 1 <= i <= last && IsCall(t, plan, i)
  }

  predicate TasksOnPlan(s: State, r: RunId, plan: seq<Call>, last: int) {
    forall id :: id in s.tasks && s.tasks[id].run == r ==> IsStep(s.tasks[id], plan, last)
  }

  predicate FinishedRight(h: seq<Event>, n: nat) {
    forall k :: 0 <= k < |h| && h[k].typ.EvRunCompleted? ==>
      |Completions(h)| == n && LastResult(h).Readable? && h[k].data == RunCompletedData(LastResult(h).output)
  }

  /** Completions are S1..Sc in order, tasks are among S1..Sc+1, and the run
      completes only after all n, with the last one's result. */
  predicate OnPlan(s: State, r: RunId, plan: seq<Call>) {
    var h := Hist(s, r);
    var c := |Completions(h)|;
    && c <= |plan| && Completions(h) == StepsTo(c)
    && TasksOnPlan(s, r, plan, c + 1)
    && FinishedRight(h, |plan|)
  }

  // ----- history lemmas -----

  lemma CompletionsLog(h: seq<Event>, f: Fact)
    ensures Completions(Log(h, f)) == Completions(h) + (if f.typ.EvTaskCompleted? then [f.step] else [])
  {
    assert Log(h, f)[..|h|] == h;
  }

  lemma {:induction false} CompletionsOfQuiet(h: seq<Event>, g: seq<Event>)
    requires QuietTail(h, g, Completed)
    ensures Completions(g) == Completions(h) && LastResult(g) == LastResult(h)
  {
    if |g| == |h| {
      assert g == h;
    } else {
      var n := |g| - 1;
      assert QuietTail(h, g[..n], Completed);
      CompletionsOfQuiet(h, g[..n]);
      assert !IsCompletion(g[n]);
    }
  }

  lemma {:induction false} CompletionsGrow(h: seq<Event>, g: seq<Event>)
    requires h <= g
    ensures Completions(h) <= Completions(g)
  {
    if |g| == |h| {
      assert g == h;
    } else {
      CompletionsGrow(h, g[..|g| - 1]);
    }
  }

  /** A history that ends in the same status as a prefix of it finished nothing since. */
  lemma {:induction false} NothingFinished(h: seq<Event>, g: seq<Event>, status: RunStatus)
    requires h <= g && StatusOf(h) == Is(status) && StatusOf(g) == Is(status)
    ensures forall k :: |h| <= k < |g| ==> !g[k].typ.EvRunCompleted?
  {
    if |g| > |h| {
      var n := |g| - 1;
      StatusStays(h, g[..n]);
      assert StatusOf(g[..n]).Is?;
      NothingFinished(h, g[..n], status);
    }
  }

  lemma {:induction false} StatusStays(h: seq<Event>, g: seq<Event>)
    requires h <= g
    ensures StatusOf(h) == RunMalformed ==> StatusOf(g) == RunMalformed
    ensures StatusOf(h).Is? && StatusOf(g).Is? && StatusOf(h).status.IsTerminal() ==> StatusOf(g) == StatusOf(h)
    ensures StatusOf(h).Is? && StatusOf(g).Is? && StatusOf(g).status.RunRunning? ==> StatusOf(h) == StatusOf(g)
    ensures StatusOf(h).Is? ==> StatusOf(g) != NotStarted
  {
    if |g| > |h| {
      StatusStays(h, g[..|g| - 1]);
    } else {
      assert g == h;
    }
  }

  // ----- steps that complete and create nothing of this run -----

  predicate NothingCreated(s: State, t: State, r: RunId) {
    forall id :: id in t.tasks && t.tasks[id].run == r ==>
      id in s.tasks && s.tasks[id].run == r && s.tasks[id].step == t.tasks[id].step &&
      s.tasks[id].tool == t.tasks[id].tool && s.tasks[id].payload == t.tasks[id].payload
  }

  predicate NothingCompleted(h: seq<Event>, g: seq<Event>) {
    h <= g && forall k :: |h| <= k < |g| ==> !g[k].typ.EvRunCompleted? && !IsCompletion(g[k])
  }

  lemma TasksStayOnPlan(s: State, t: State, r: RunId, plan: seq<Call>, last: int)
    requires TasksOnPlan(s, r, plan, last) && NothingCreated(s, t, r)
    ensures TasksOnPlan(t, r, plan, last)
  {
    hide Step;
    forall id | id in t.tasks && t.tasks[id].run == r
      ensures IsStep(t.tasks[id], plan, last)
    {
      assert IsStep(s.tasks[id], plan, last);
      var i :| 1 <= i <= last && IsCall(s.tasks[id], plan, i);
      assert IsCall(t.tasks[id], plan, i);
    }
  }

  lemma QuietOnPlan(s: State, t: State, r: RunId, plan: seq<Call>)
    requires OnPlan(s, r, plan) && NothingCreated(s, t, r) && NothingCompleted(Hist(s, r), Hist(t, r))
    ensures OnPlan(t, r, plan)
  {
    hide Completions, LastResult, IsStep, Hist;
    CompletionsOfQuiet(Hist(s, r), Hist(t, r));
    TasksStayOnPlan(s, t, r, plan, |Completions(Hist(s, r))| + 1);
    hide NothingCreated, TasksOnPlan;
    var g := Hist(t, r);
    forall k | 0 <= k < |g| && g[k].typ.EvRunCompleted?
      ensures |Completions(g)| == |plan| && LastResult(g).Readable? &&
              g[k].data == RunCompletedData(LastResult(g).output)
    {
      assert k < |Hist(s, r)| && Hist(s, r)[k] == g[k];
    }
  }

  lemma TasksOf(s: State, t: State, r: RunId)
    requires Evolves(s, t) && t.tasks.Keys == s.tasks.Keys
    ensures NothingCreated(s, t, r)
  {
    hide RunsEvolve, LedgerEvolves, SignalsEvolve, OutboxEvolves;
    forall id | id in t.tasks
      ensures id in s.tasks && s.tasks[id].run == t.tasks[id].run && s.tasks[id].step == t.tasks[id].step &&
              s.tasks[id].tool == t.tasks[id].tool && s.tasks[id].payload == t.tasks[id].payload
    {
      assert TaskEvolves(s, t, id);
    }
  }

  lemma ReclaimCreatesNothing(s: State, id: TaskId, stale: Lease, reason: string, now: Time)
    ensures ReclaimTx(s, id, stale, reason, now).st.tasks.Keys == s.tasks.Keys
  {
    hide Log, LeaseTaken, Noted;
  }

  lemma FailCreatesNothing(s: State, id: TaskId, token: int, reason: string, escalated: bool, delay: int, now: Time)
    ensures FailTx(s, id, token, reason, escalated, delay, now).st.tasks.Keys == s.tasks.Keys
  {
    hide Log, NotBefore, Released, Noted;
  }

  lemma WorkCreatesNothing(tools: Tools, past: seq<State>, a: Action)
    requires past != [] && MovesTasks(a)
    ensures Next(tools, past, a).tasks.Keys == Last(past).tasks.Keys
  {
    hide Log, Executed, LeaseTaken, Released, ReclaimTx, FailTx;
    var s := Last(past);
    match a {
      case FailTask(id, token, reason, escalated, delay) =>
        FailCreatesNothing(s, id, token, reason, escalated, delay, s.clock);
      case Reclaim(id, stale, reason, now) => ReclaimCreatesNothing(s, id, stale, reason, now);
      case _ =>
    }
  }

  lemma OutsideCreatesNothing(tools: Tools, past: seq<State>, a: Action)
    requires past != [] && (a.Tick? || a.Start? || a.FailRun? || a.Heartbeat? || a.Deliver? || a.Register? || a.Mark?)
    ensures Next(tools, past, a).tasks == Last(past).tasks
  {
    hide Log, CommitTx, ClaimTx, CompleteTx, FailTx, ReclaimTx, Executed, AdvanceEnabled, RunFailure, ReserveTx,
         EffectTx, NoteTx, KeyOf, FreshEffect;
  }

  lemma RestCreatesNothing(tools: Tools, past: seq<State>, a: Action)
    requires past != [] && !a.Advance? && !MovesTasks(a)
    ensures Next(tools, past, a).tasks.Keys == Last(past).tasks.Keys
  {
    hide Next;
    if a.Reserve? || a.MoveEffect? || a.Escalate? {
      LedgerAdvancesNothing(tools, past, a);
    } else {
      OutsideCreatesNothing(tools, past, a);
    }
  }

  lemma OthersCreateNothing(tools: Tools, past: seq<State>, a: Action)
    requires past != [] && !a.Advance?
    ensures Next(tools, past, a).tasks.Keys == Last(past).tasks.Keys
  {
    hide Next;
    if MovesTasks(a) { WorkCreatesNothing(tools, past, a); } else { RestCreatesNothing(tools, past, a); }
  }

  /** A run whose row has not been advanced has finished nothing. */
  lemma UnmovedFinishesNothing(s: State, t: State, r: RunId)
    requires Inv(s) && Inv(t) && Evolves(s, t) && r in s.runs && r in t.runs && t.runs[r].version == s.runs[r].version
    ensures forall k :: |Hist(s, r)| <= k < |Hist(t, r)| ==> !Hist(t, r)[k].typ.EvRunCompleted?
  {
    hide Inv, Evolves, Hist, StatusOf, Sequential, Pending, SignalsOk, Consumed;
    RunEvolvesOf(s, t, r);
    InvRun(s, r);
    InvRun(t, r);
    NothingFinished(Hist(s, r), Hist(t, r), s.runs[r].status);
  }

  lemma StartOnPlan(s: State, r: RunId, agent: string, version: string, input: Json, plan: seq<Call>)
    requires OnPlan(s, r, plan) && r !in s.runs && ParentsOk(s)
    ensures OnPlan(StartRunTx(s, r, agent, version, input).st, r, plan)
  {
    var t := StartRunTx(s, r, agent, version, input).st;
    var f := Fact(EvRunStarted, "", RunStartedData(agent, version, input));
    assert Hist(t, r) == Log(Hist(s, r), f);
    hide ParentsOk, OnPlan, Hist;
    QuietOnPlan(s, t, r, plan);
  }

  /** Steps beside the advancing of runs and the reporting of completions. */
  lemma OthersOnPlan(tools: Tools, past: seq<State>, a: Action, r: RunId, plan: seq<Call>)
    requires past != [] && Inv(Last(past)) && OnPlan(Last(past), r, plan)
    requires Inv(Next(tools, past, a)) && Evolves(Last(past), Next(tools, past, a))
    requires !a.Advance? && !a.FailRun? && !a.Complete?
    ensures OnPlan(Next(tools, past, a), r, plan)
  {
    hide Inv, Evolves, OnPlan, Next, Hist, NothingCreated, StartRunTx, ParentsOk, Unmarked, VersionsStand,
         NothingCompleted, QuietTail;
    var s, t := Last(past), Next(tools, past, a);
    OthersAdvanceNothing(tools, past, a);
    OthersCreateNothing(tools, past, a);
    TasksOf(s, t, r);
    OthersAddNone(tools, past, a, Completed);
    QuietTailOf(s, t, r);
    InvParts(s);
    InvParts(t);
    if r in s.runs {
      VersionOf(s, t, r);
      UnmovedFinishesNothing(s, t, r);
      QuietIsNothing(Hist(s, r), Hist(t, r));
      QuietOnPlan(s, t, r, plan);
    } else {
      NoRunNoHistory(s, r);
      if r in t.runs {
        StartsOnPlan(tools, past, a, plan);
      } else {
        NoRunNoHistory(t, r);
        QuietIsNothing([], []);
        QuietOnPlan(s, t, r, plan);
      }
    }
  }

  lemma StartsOnPlan(tools: Tools, past: seq<State>, a: Action, plan: seq<Call>)
    requires past != [] && a.Start? && OnPlan(Last(past), a.r, plan) && a.r !in Last(past).runs && ParentsOk(Last(past))
    ensures OnPlan(Next(tools, past, a), a.r, plan)
  {
    hide OnPlan, StartRunTx, ParentsOk;
    StartOnPlan(Last(past), a.r, a.agent, a.version, a.input, plan);
  }

  lemma QuietIsNothing(h: seq<Event>, g: seq<Event>)
    requires QuietTail(h, g, Completed) && forall k :: |h| <= k < |g| ==> !g[k].typ.EvRunCompleted?
    ensures NothingCompleted(h, g)
  {
  }

  lemma QuietTailOf(s: State, t: State, r: RunId)
    requires Unmarked(s, t, Completed)
    ensures QuietTail(Hist(s, r), Hist(t, r), Completed)
  {
    hide Hist, QuietTail;
  }

  // ----- advancing -----

  /** What a commit creates: at most the task it dispatches, or children of its fan-out. */
  predicate CreatedBy(s: State, t: State, r: RunId, c: Commitment) {
    forall id :: id in t.tasks && id !in s.tasks ==>
      t.tasks[id].run == r && t.tasks[id].status.TaskPending? && (c.Dispatch? || c.Fan?)
  }

  lemma {:induction false} ChildrenAreTheRuns(s: State, r: RunId, step: StepId, calls: seq<Call>, ids: seq<TaskId>,
                                              max: int, n: nat)
    requires |ids| == |calls| && n <= |calls|
    ensures var t := AddChildren(s, r, step, calls, ids, max, n).st;
            forall id :: id in t.tasks && id !in s.tasks ==> t.tasks[id].run == r && t.tasks[id].status.TaskPending?
  {
    hide Child, AddTask;
    if n > 0 {
      ChildrenAreTheRuns(s, r, step, calls, ids, max, n - 1);
      var before := AddChildren(s, r, step, calls, ids, max, n - 1).st;
      AddedFields(before, r, Child(step, n - 1), ids[n - 1], calls[n - 1], max);
    }
  }

  lemma DispatchCreates(s: State, r: RunId, expected: int, output: Json, step: StepId, id: TaskId, call: Call, max: int)
    ensures CreatedBy(s, DispatchTx(s, r, expected, output, step, id, call, max).st, r, Commitment.Dispatch(step, call))
  {
    hide AddTask, Log;
    if r in s.runs { AddedFields(Bump(s, r, RunState(RunRunning, output, "", None)), r, step, id, call, max); }
  }

  lemma WriteCreates(s: State, r: RunId, expected: int, next: RunState, fact: Option<Fact>)
    ensures AdvanceTx(s, r, expected, next, fact).st.tasks == s.tasks
  {
    hide Log;
  }

  lemma CommitCreates(cfg: Config, s: State, r: RunId, run: Run, c: Commitment, ids: seq<TaskId>)
    ensures CreatedBy(s, CommitTx(cfg, s, r, run, c, ids).st, r, c)
  {
    match c {
      case Nothing =>
      case Write(next, fact) => WriteCreates(s, r, run.version, next, fact); hide AdvanceTx;
      case Dispatch(step, call) =>
        if ids != [] { DispatchCreates(s, r, run.version, run.output, step, ids[0], call, cfg.maxAttempts); }
        hide DispatchTx;
      case Fan(step, calls, join) => FanCreates(cfg, s, r, run, c, ids); hide FanOutTx;
    }
  }

  lemma FanCreates(cfg: Config, s: State, r: RunId, run: Run, c: Commitment, ids: seq<TaskId>)
    requires c.Fan?
    ensures CreatedBy(s, CommitTx(cfg, s, r, run, c, ids).st, r, c)
  {
    hide AddChildren, Log, ToolNames, PolicyText;
    if |ids| == |c.calls| && AdvanceError(s, r, run.version, RunState(RunRunning, run.output, "", None)).None? {
      var o := LogOn(Bump(s, r, RunState(RunRunning, run.output, "", None)), r,
                     Fact(EvFanOutStarted, c.step, FanOutData(ToolNames(c.calls), PolicyText(c.join))));
      ChildrenAreTheRuns(o, r, c.step, c.calls, ids, cfg.maxAttempts, |c.calls|);
    }
  }

  lemma {:induction false} SameLastResult(h: seq<Event>, g: seq<Event>)
    requires h <= g && |Completions(h)| == |Completions(g)|
    ensures LastResult(g) == LastResult(h)
  {
    if |g| == |h| {
      assert g == h;
    } else {
      CompletionsGrow(h, g[..|g| - 1]);
      SameLastResult(h, g[..|g| - 1]);
    }
  }

  lemma LogOnPlan(s: State, t: State, r: RunId, plan: seq<Call>, f: Fact)
    requires OnPlan(s, r, plan) && Hist(t, r) == Log(Hist(s, r), f) && !f.typ.EvTaskCompleted?
    requires TasksOnPlan(t, r, plan, |Completions(Hist(s, r))| + 1)
    requires f.typ.EvRunCompleted? ==>
               |Completions(Hist(s, r))| == |plan| && LastResult(Hist(s, r)).Readable? &&
               f.data == RunCompletedData(LastResult(Hist(s, r)).output)
    ensures OnPlan(t, r, plan)
  {
    var h, g := Hist(s, r), Hist(t, r);
    assert g[..|h|] == h && g[|h|].typ == f.typ && g[|h|].data == f.data;
    CompletionsLog(h, f);
    assert LastResult(g) == LastResult(h);
    hide Completions, LastResult, IsStep, Hist;
    forall k | 0 <= k < |g| && g[k].typ.EvRunCompleted?
      ensures |Completions(g)| == |plan| && LastResult(g).Readable? &&
              g[k].data == RunCompletedData(LastResult(g).output)
    {
      if k < |h| { assert h[k] == g[k]; }
    }
  }

  lemma SameOnPlan(s: State, t: State, r: RunId, plan: seq<Call>)
    requires OnPlan(s, r, plan) && Hist(t, r) == Hist(s, r)
    requires TasksOnPlan(t, r, plan, |Completions(Hist(s, r))| + 1)
    ensures OnPlan(t, r, plan)
  {
    hide Completions, LastResult, IsStep, Hist;
  }

  lemma WriteOnPlan(s: State, r: RunId, expected: int, next: RunState, fact: Option<Fact>, plan: seq<Call>)
    requires OnPlan(s, r, plan)
    requires fact.Some? ==> !fact.value.typ.EvTaskCompleted?
    requires fact.Some? && fact.value.typ.EvRunCompleted? ==>
               |Completions(Hist(s, r))| == |plan| && LastResult(Hist(s, r)).Readable? &&
               fact.value.data == RunCompletedData(LastResult(Hist(s, r)).output)
    ensures OnPlan(AdvanceTx(s, r, expected, next, fact).st, r, plan)
  {
    hide Completions, LastResult, IsStep, Log;
    var t := AdvanceTx(s, r, expected, next, fact).st;
    assert t.tasks == s.tasks;
    if fact.Some? && t != s {
      assert Hist(t, r) == Log(Hist(s, r), fact.value);
      LogOnPlan(s, t, r, plan, fact.value);
    } else {
      assert Hist(t, r) == Hist(s, r);
      SameOnPlan(s, t, r, plan);
    }
  }

  lemma DispatchOnPlan(s: State, r: RunId, expected: int, output: Json, d: nat, id: TaskId, call: Call, max: int,
                       plan: seq<Call>)
    requires OnPlan(s, r, plan) && d < |plan| && call == plan[d] && d <= |Completions(Hist(s, r))|
    ensures OnPlan(DispatchTx(s, r, expected, output, Step(d + 1), id, call, max).st, r, plan)
  {
    hide Completions, LastResult, Step, FinishedRight, AddTask, Log;
    var step := Step(d + 1);
    var t := DispatchTx(s, r, expected, output, step, id, call, max).st;
    if DispatchTx(s, r, expected, output, step, id, call, max).Commit? {
      var b := Bump(s, r, RunState(RunRunning, output, "", None));
      AddedFields(b, r, step, id, call, max);
      assert Hist(b, r) == Hist(s, r);
      assert Hist(t, r) == Log(Hist(s, r), CreatedFact(step, id, call));
      assert IsCall(t.tasks[id], plan, d + 1);
      assert IsStep(t.tasks[id], plan, |Completions(Hist(s, r))| + 1);
      assert TasksOnPlan(t, r, plan, |Completions(Hist(s, r))| + 1);
      LogOnPlan(s, t, r, plan, CreatedFact(step, id, call));
    }
  }

  /** What a pass of the static decider sets out to do. */
  predicate PlannedCommit(plan: seq<Call>, h: seq<Event>, c: Commitment) {
    var d := |Completions(h)|;
    match c
    case Nothing => true
    case Dispatch(step, call) => d < |plan| && step == Step(d + 1) && call == plan[d]
    case Fan(_, _, _) => false
    case Write(_, fact) =>
      (fact.Some? ==> !fact.value.typ.EvTaskCompleted?) &&
      (fact.Some? && fact.value.typ.EvRunCompleted? ==>
         d >= |plan| && LastResult(h).Readable? && fact.value.data == RunCompletedData(LastResult(h).output))
  }

  lemma PassIsPlanned(cfg: Config, plan: seq<Call>, r: RunId, run: Run, h: seq<Event>, signals: map<SignalKey, Signal>,
                      found: Option<string>, now: Time)
    requires found.Some? ==> SignalKey(r, found.value) in signals
    requires cfg.decide(run, h) == ByPlan(plan, h)
    ensures PlannedCommit(plan, h, Pass(cfg, r, run, h, signals, found, now))
  {
    hide Pending, Joining, Completions, LastResult, Step;
  }

  lemma CommitOnPlan(cfg: Config, plan: seq<Call>, s: State, r: RunId, run: Run, h: seq<Event>, c: Commitment,
                     ids: seq<TaskId>)
    requires OnPlan(s, r, plan) && h <= Hist(s, r) && PlannedCommit(plan, h, c)
    ensures OnPlan(CommitTx(cfg, s, r, run, c, ids).st, r, plan)
  {
    hide Completions, LastResult, Step, TasksOnPlan, FinishedRight, AdvanceTx, DispatchTx, FanOutTx;
    CompletionsGrow(h, Hist(s, r));
    match c {
      case Nothing =>
      case Write(next, fact) =>
        if fact.Some? && fact.value.typ.EvRunCompleted? { SameLastResult(h, Hist(s, r)); }
        WriteOnPlan(s, r, run.version, next, fact, plan);
      case Dispatch(step, call) =>
        if ids != [] {
          DispatchOnPlan(s, r, run.version, run.output, |Completions(h)|, ids[0], call, cfg.maxAttempts, plan);
        }
    }
  }

  lemma HistoryGrew(a: State, b: State, r: RunId)
    requires Evolves(a, b) && (r in a.runs || Hist(a, r) == [])
    ensures Hist(a, r) <= Hist(b, r)
  {
    hide Evolves, Pending, Consumed, Hist;
    if r in a.runs { RunEvolvesOf(a, b, r); }
  }

  lemma AdvanceOnPlan(tools: Tools, past: seq<State>, a: Action, r: RunId, plan: seq<Call>)
    requires past != [] && Good(past) && OnPlan(Last(past), r, plan) && a.Advance?
    requires Evolves(Last(past), Next(tools, past, a))
    requires a.r == r ==> forall run, h :: a.cfg.decide(run, h) == ByPlan(plan, h)
    ensures OnPlan(Next(tools, past, a), r, plan)
  {
    hide Inv, Evolves, Good, OnPlan, Pass, CommitTx, Chosen, Pending, Consumed, Ids, Hist, PlannedCommit, PassFrame,
         CreatedBy;
    var s, t := Last(past), Next(tools, past, a);
    if AdvanceEnabled(past, a) {
      var c := PassOf(past, a);
      var run := past[a.i].runs[a.r];
      if a.r == r {
        GoodAt(past, a.j, |past| - 1);
        GoodAt(past, a.i, a.j);
        RunEvolvesOf(past[a.i], past[a.j], r);
        HistoryGrew(past[a.j], s, r);
        PassIsPlanned(a.cfg, plan, r, run, Hist(past[a.j], r), past[a.l].signals, a.found, a.now);
        CommitOnPlan(a.cfg, plan, s, r, run, Hist(past[a.j], r), c, a.ids);
      } else {
        CommitFrame(a.cfg, s, a.r, run, c, a.ids);
        CommitCreates(a.cfg, s, a.r, run, c, a.ids);
        ElsewhereOnPlan(s, t, a.r, c, if t == s || !c.Write? || c.fact.None? then []
                        else TakenBy(AsEvent(c.fact.value)), r, plan);
      }
    }
  }

  lemma ElsewhereOnPlan(s: State, t: State, q: RunId, c: Commitment, taken: seq<Taken>, r: RunId, plan: seq<Call>)
    requires OnPlan(s, r, plan) && q != r && PassFrame(s, t, q, taken) && CreatedBy(s, t, q, c)
    ensures OnPlan(t, r, plan)
  {
    assert Hist(t, r) == Hist(s, r);
    hide Completions, LastResult, FinishedRight, Hist;
  }

  // ----- failing the run, and completing a step -----

  lemma FailRunOnPlan(tools: Tools, past: seq<State>, a: Action, r: RunId, plan: seq<Call>)
    requires past != [] && a.FailRun? && OnPlan(Last(past), r, plan)
    ensures OnPlan(Next(tools, past, a), r, plan)
  {
    hide OnPlan, AdvanceTx;
    var s := Last(past);
    if a.i < |past| && a.r in past[a.i].runs && !past[a.i].runs[a.r].status.IsTerminal() {
      var run := past[a.i].runs[a.r];
      var fact := Some(Fact(EvRunFailed, "", RunFailedData(a.reason)));
      if a.r == r {
        WriteOnPlan(s, r, run.version, RunFailure(run, a.reason), fact, plan);
      } else {
        ElsewhereWrite(s, a.r, run.version, RunFailure(run, a.reason), fact, r, plan);
      }
    }
  }

  lemma ElsewhereWrite(s: State, q: RunId, expected: int, next: RunState, fact: Option<Fact>, r: RunId, plan: seq<Call>)
    requires OnPlan(s, r, plan) && q != r
    ensures OnPlan(AdvanceTx(s, q, expected, next, fact).st, r, plan)
  {
    var t := AdvanceTx(s, q, expected, next, fact).st;
    WriteCreates(s, q, expected, next, fact);
    assert Hist(t, r) == Hist(s, r);
    hide AdvanceTx, Completions, LastResult, FinishedRight, Hist;
  }

  lemma {:induction false} OpenMeansNotCompleted(h: seq<Event>, id: TaskId, k: nat)
    requires k < |h| && IsCompletion(h[k]) && Concerns(h[k], id)
    ensures ViewOf(h, id).phase.Done? || ViewOf(h, id).phase.Malformed?
  {
    if k < |h| - 1 { OpenMeansNotCompleted(h[..|h| - 1], id, k); }
  }

  lemma {:induction false} DoneMeansCompleted(h: seq<Event>, id: TaskId) returns (k: nat)
    requires ViewOf(h, id).phase.Done?
    ensures k < |h| && IsCompletion(h[k]) && Concerns(h[k], id)
  {
    if Concerns(h[|h| - 1], id) { k := |h| - 1; } else { k := DoneMeansCompleted(h[..|h| - 1], id); }
  }

  lemma {:induction false} CompletionAt(h: seq<Event>, i: nat) returns (k: nat)
    requires i < |Completions(h)|
    ensures k < |h| && IsCompletion(h[k]) && h[k].step == Completions(h)[i]
  {
    var n := |h| - 1;
    if i < |Completions(h[..n])| { k := CompletionAt(h[..n], i); } else { k := n; }
  }

  lemma {:induction false} CompletionListed(h: seq<Event>, k: nat)
    requires k < |h| && IsCompletion(h[k])
    ensures h[k].step in Completions(h)
  {
    if k < |h| - 1 { CompletionListed(h[..|h| - 1], k); }
  }

  /** The task a completion event of run r at this step is about. */
  lemma CompletionIsAbout(s: State, r: RunId, k: nat, id: TaskId)
    requires IndexOk(s) && HistoryOk(s, r) && k < |Hist(s, r)| && IsCompletion(Hist(s, r)[k])
    requires id in s.tasks && s.tasks[id].run == r && s.tasks[id].step == Hist(s, r)[k].step
    ensures Concerns(Hist(s, r)[k], id)
  {
    hide Gapless;
    var e := Hist(s, r)[k];
    assert EventOk(s, r, e);
    var other := TaskIdOf(e.data).value;
    assert s.stepIndex[StepKey(r, e.step)] == id;
    assert s.stepIndex[StepKey(r, s.tasks[other].step)] == other;
  }

  lemma NotListed(h: seq<Event>, id: TaskId, step: StepId)
    requires forall k :: 0 <= k < |h| && IsCompletion(h[k]) && h[k].step == step ==> Concerns(h[k], id)
    requires !ViewOf(h, id).phase.Done? && !ViewOf(h, id).phase.Malformed?
    ensures step !in Completions(h)
  {
    hide ViewOf, Completions, Concerns, IsCompletion;
    forall i | 0 <= i < |Completions(h)|
      ensures Completions(h)[i] != step
    {
      var k := CompletionAt(h, i);
      if Concerns(h[k], id) { OpenMeansNotCompleted(h, id, k); }
    }
  }

  lemma OpenPhase(s: State, id: TaskId)
    requires Inv(s) && id in s.tasks && !s.tasks[id].status.TaskCompleted?
    ensures var v := ViewOf(Hist(s, s.tasks[id].run), id); !v.phase.Done? && !v.phase.Malformed?
  {
    hide Inv, ViewOf, Rows, LeaseOk, Hist, NextPhase, StepView;
    InvTask(s, id);
  }

  lemma OpenIsNotListed(s: State, r: RunId, id: TaskId)
    requires Inv(s) && r in s.runs && id in s.tasks && s.tasks[id].run == r && !s.tasks[id].status.TaskCompleted?
    ensures s.tasks[id].step !in Completions(Hist(s, r))
  {
    OpenPhase(s, id);
    InvParts(s);
    assert HistoryOk(s, r);
    hide Inv, ViewOf, HistoriesOk, TasksOk, RunsOk, IndexOk, HistoryOk, Hist, Completions, Concerns, IsCompletion,
         ParentsOk, EffectsOk;
    var h := Hist(s, r);
    forall k | 0 <= k < |h| && IsCompletion(h[k]) && h[k].step == s.tasks[id].step
      ensures Concerns(h[k], id)
    {
      CompletionIsAbout(s, r, k, id);
    }
    NotListed(h, id, s.tasks[id].step);
  }

  lemma DoneIsListed(s: State, r: RunId, id: TaskId)
    requires Inv(s) && r in s.runs && id in s.tasks && s.tasks[id].run == r && s.tasks[id].status.TaskCompleted?
    ensures s.tasks[id].step in Completions(Hist(s, r))
  {
    InvTask(s, id);
    InvParts(s);
    assert HistoryOk(s, r);
    hide Inv, ViewOf, Rows, LeaseOk, HistoriesOk, TasksOk, IndexOk, Hist, Completions, Gapless;
    var h := Hist(s, r);
    var k := DoneMeansCompleted(h, id);
    assert EventOk(s, r, h[k]);
    CompletionListed(h, k);
  }

  lemma CompletedRow(s: State, id: TaskId, token: int, result: Json, now: Time, r: RunId)
    ensures NothingCreated(s, CompleteTx(s, id, token, result, now).st, r)
    ensures CompleteTx(s, id, token, result, now).Commit? ==>
              id in s.tasks && s.tasks[id].status.TaskRunning? && s.tasks[id].run in s.runs &&
              Hist(CompleteTx(s, id, token, result, now).st, r)
              == if s.tasks[id].run == r then
                Log(Hist(s, r), Fact(EvTaskCompleted, s.tasks[id].step, TaskCompletedData(id, result)))
                 else Hist(s, r)
  {
    hide Log, Released;
  }

  lemma FailedRow(s: State, id: TaskId, token: int, reason: string, escalated: bool, delay: int, now: Time, r: RunId)
    ensures var res := FailTx(s, id, token, reason, escalated, delay, now);
            if res.Commit? then
              id in s.tasks && s.tasks[id].status.TaskRunning? &&
              (s.tasks[id].run == r ==>
                 var task := s.tasks[id];
                 var retry := WillRetry(task, escalated);
                 Hist(res.st, r) ==
                 Log(Log(Hist(s, r), Fact(EvTaskFailed, task.step, TaskFailedData(id, reason, task.attempt, !retry))),
                     Fact(if retry then EvTaskRetryScheduled else EvTaskDeadLettered, task.step,
                          TaskRetryData(id, task.attempt, reason, NotBefore(task, escalated, delay, now))))) &&
              (s.tasks[id].run != r ==> Hist(res.st, r) == Hist(s, r))
            else res.st == s
  {
    hide Log, NotBefore, Released, Noted;
  }

  /** The task that completes is the one after the last that did. */
  lemma NextToComplete(s: State, r: RunId, id: TaskId, plan: seq<Call>)
    requires Inv(s) && r in s.runs && OnPlan(s, r, plan)
    requires id in s.tasks && s.tasks[id].run == r && s.tasks[id].status.TaskRunning?
    ensures |Completions(Hist(s, r))| < |plan| && s.tasks[id].step == Step(|Completions(Hist(s, r))| + 1)
  {
    OpenIsNotListed(s, r, id);
    hide Inv, Completions, Hist, FinishedRight, Step, StepsTo;
    var c := |Completions(Hist(s, r))|;
    assert IsStep(s.tasks[id], plan, c + 1);
    var i :| 1 <= i <= c + 1 && IsCall(s.tasks[id], plan, i);
    ListedUpTo(s.tasks[id].step, i, c);
  }

  lemma OneMoreCompleted(s: State, t: State, r: RunId, id: TaskId, result: Json, plan: seq<Call>)
    requires OnPlan(s, r, plan) && NothingCreated(s, t, r) && |Completions(Hist(s, r))| < |plan|
    requires Hist(t, r) ==
             Log(Hist(s, r), Fact(EvTaskCompleted, Step(|Completions(Hist(s, r))| + 1), TaskCompletedData(id, result)))
    ensures OnPlan(t, r, plan)
  {
    var h, g := Hist(s, r), Hist(t, r);
    var c := |Completions(h)|;
    var f := Fact(EvTaskCompleted, Step(c + 1), TaskCompletedData(id, result));
    CompletionsLog(h, f);
    assert StepsTo(c) + [Step(c + 1)] == StepsTo(c + 1);
    TasksStayOnPlan(s, t, r, plan, c + 1);
    FurtherOnPlan(t, r, plan, c + 1);
    assert g[..|h|] == h && g[|h|].typ.EvTaskCompleted?;
    hide Completions, LastResult, IsStep, Hist, NothingCreated;
    forall k | 0 <= k < |g|
      ensures !g[k].typ.EvRunCompleted?
    {
      if k < |h| { assert h[k] == g[k]; }
    }
  }

  lemma FurtherOnPlan(t: State, r: RunId, plan: seq<Call>, last: int)
    requires TasksOnPlan(t, r, plan, last)
    ensures TasksOnPlan(t, r, plan, last + 1)
  {
    hide IsCall;
  }

  lemma CompleteOnPlan(s: State, id: TaskId, token: int, result: Json, now: Time, r: RunId, plan: seq<Call>)
    requires Inv(s) && OnPlan(s, r, plan)
    ensures OnPlan(CompleteTx(s, id, token, result, now).st, r, plan)
  {
    hide OnPlan, Inv, CompleteTx, NothingCreated, Hist;
    var res := CompleteTx(s, id, token, result, now);
    CompletedRow(s, id, token, result, now, r);
    if res.Commit? && s.tasks[id].run == r {
      NextToComplete(s, r, id, plan);
      OneMoreCompleted(s, res.st, r, id, result, plan);
    } else if res.Commit? {
      QuietOnPlan(s, res.st, r, plan);
    } else {
      AbortedComplete(s, id, token, result, now);
    }
  }

  lemma AbortedComplete(s: State, id: TaskId, token: int, result: Json, now: Time)
    requires CompleteTx(s, id, token, result, now).Abort?
    ensures CompleteTx(s, id, token, result, now).st == s
  {
  }

  lemma StepOnPlan(tools: Tools, past: seq<State>, a: Action, r: RunId, plan: seq<Call>)
    requires past != [] && Good(past) && OnPlan(Last(past), r, plan)
    requires a.Advance? && a.r == r ==> forall run, h :: a.cfg.decide(run, h) == ByPlan(plan, h)
    ensures OnPlan(Next(tools, past, a), r, plan)
  {
    hide OnPlan, Inv, Evolves, Good, Next, ByPlan;
    NextKeeps(tools, past, a);
    GoodAt(past, |past| - 1, |past| - 1);
    if a.Advance? {
      AdvanceOnPlan(tools, past, a, r, plan);
    } else if a.FailRun? {
      FailRunOnPlan(tools, past, a, r, plan);
    } else if a.Complete? {
      CompletesOnPlan(tools, past, a, r, plan);
    } else {
      OthersOnPlan(tools, past, a, r, plan);
    }
  }

  lemma CompletesOnPlan(tools: Tools, past: seq<State>, a: Action, r: RunId, plan: seq<Call>)
    requires past != [] && a.Complete? && Inv(Last(past)) && OnPlan(Last(past), r, plan)
    ensures OnPlan(Next(tools, past, a), r, plan)
  {
    hide OnPlan, Inv, CompleteTx, Executed;
    CompleteOnPlan(Last(past), a.id, a.token, a.result, Last(past).clock, r, plan);
  }

  // ----- whole runs -----

  /** Every engine that advances run r does so with the static decider. */
  ghost predicate FollowsPlan(acts: seq<Action>, r: RunId, plan: seq<Call>) {
    forall k :: 0 <= k < |acts| && acts[k].Advance? && acts[k].r == r ==>
      forall run, h :: acts[k].cfg.decide(run, h) == ByPlan(plan, h)
  }

  lemma {:induction false} AlwaysOnPlan(tools: Tools, acts: seq<Action>, r: RunId, plan: seq<Call>)
    requires FollowsPlan(acts, r, plan)
    ensures OnPlan(Last(States(tools, acts)), r, plan)
  {
    hide Next, Good, OnPlan, ByPlan;
    if acts == [] {
      EmptyOnPlan(r, plan);
    } else {
      var n := |acts| - 1;
      AlwaysOnPlan(tools, acts[..n], r, plan);
      AllReachable(tools, acts[..n]);
      StepOnPlan(tools, States(tools, acts[..n]), acts[n], r, plan);
    }
  }

  lemma EmptyOnPlan(r: RunId, plan: seq<Call>)
    ensures OnPlan(EMPTY, r, plan)
  {
  }

  lemma ListedUpTo(step: StepId, i: nat, c: nat)
    requires step == Step(i) && i >= 1
    ensures step in StepsTo(c) <==> i <= c
  {
    if i <= c {
      assert StepsTo(c)[i - 1] == step;
    } else if step in StepsTo(c) {
      var j :| 0 <= j < c && StepsTo(c)[j] == step;
      StepInjective(i, j + 1);
    }
  }

  /** No forked run. Whatever the interleaving, the run's tasks are the plan's
      calls S1..Sm for some m, each at most once; exactly the first c of them,
      with m at most c + 1, are completed, and history records those
      completions once each and in order. */
  lemma RunsNeverFork(tools: Tools, acts: seq<Action>, r: RunId, plan: seq<Call>, id: TaskId)
    requires FollowsPlan(acts, r, plan)
    requires id in Last(States(tools, acts)).tasks && Last(States(tools, acts)).tasks[id].run == r
    ensures var s := Last(States(tools, acts));
            var c := |Completions(Hist(s, r))|;
            && c <= |plan| && Completions(Hist(s, r)) == StepsTo(c)
            && exists i ::
                 1 <= i <= c + 1 && IsCall(s.tasks[id], plan, i) && (s.tasks[id].status.TaskCompleted? <==> i <= c)
  {
    hide States, Good, Inv, Evolves, Completions, Hist, Step, IsCall;
    AllReachable(tools, acts);
    GoodAt(States(tools, acts), |acts|, |acts|);
    AlwaysOnPlan(tools, acts, r, plan);
    var s := Last(States(tools, acts));
    InvParts(s);
    TaskHasRun(s, id);
    var c := |Completions(Hist(s, r))|;
    assert IsStep(s.tasks[id], plan, c + 1);
    var i :| 1 <= i <= c + 1 && IsCall(s.tasks[id], plan, i);
    assert s.tasks[id].step == Step(i) by { CallStep(s.tasks[id], plan, i); }
    ListedUpTo(s.tasks[id].step, i, c);
    if s.tasks[id].status.TaskCompleted? { DoneIsListed(s, r, id); } else { OpenIsNotListed(s, r, id); }
  }

  lemma CallStep(t: Task, plan: seq<Call>, i: int)
    requires IsCall(t, plan, i)
    ensures i >= 1 && t.step == Step(i)
  {
    hide Step;
  }

  lemma TaskHasRun(s: State, id: TaskId)
    requires ParentsOk(s) && id in s.tasks
    ensures s.tasks[id].run in s.runs
  {
  }

  lemma {:induction false} FinishedSomewhere(h: seq<Event>) returns (k: nat)
    requires StatusOf(h) == Is(RunCompleted)
    ensures k < |h| && h[k].typ.EvRunCompleted?
  {
    if h[|h| - 1].typ.EvRunCompleted? { k := |h| - 1; } else { k := FinishedSomewhere(h[..|h| - 1]); }
  }

  /** A COMPLETED run has had every step of the plan completed, exactly once
      each and in order, and its recorded output is the last one's result. */
  lemma CompletedRunsDidEverything(tools: Tools, acts: seq<Action>, r: RunId, plan: seq<Call>)
    requires FollowsPlan(acts, r, plan)
    requires r in Last(States(tools, acts)).runs && Last(States(tools, acts)).runs[r].status.RunCompleted?
    ensures var h := Hist(Last(States(tools, acts)), r);
            && Completions(h) == StepsTo(|plan|)
            && LastResult(h).Readable?
            && exists k ::
                 0 <= k < |h| && h[k].typ.EvRunCompleted? && h[k].data == RunCompletedData(LastResult(h).output)
  {
    hide States, Good, Inv, Evolves, Completions, Hist, LastResult, TasksOnPlan, StatusOf, SignalsOk, Sequential,
         Consumed, Pending;
    AllReachable(tools, acts);
    GoodAt(States(tools, acts), |acts|, |acts|);
    AlwaysOnPlan(tools, acts, r, plan);
    var s := Last(States(tools, acts));
    InvRun(s, r);
    var k := FinishedSomewhere(Hist(s, r));
  }
}
