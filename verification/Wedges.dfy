/** A planned run whose current step is dead and that nobody has failed: every
    pass asks for that step again, it exists, and nothing is committed. */
module Wedges {
  import opened Prelude
  import opened Names
  import opened Core
  import opened Tables
  import opened Waits
  import opened Lifecycle
  import opened Invariants
  import opened Transactions
  import opened TaskSteps
  import opened RunSteps
  import opened CreateSteps
  import opened FanOuts
  import opened Advancing
  import opened Behaviours
  import opened Frames
  import opened Marks
  import opened Arrivals
  import opened StaticPlan
  import opened Queries
  import opened DeadLetters

  // ----- a planned run never waits -----

  predicate Plain(e: Event) {
    !e.typ.EvFanOutStarted? && !e.typ.EvTimerSet? && !e.typ.EvSignalWaitStarted?
  }

  predicate AllPlain(h: seq<Event>) {
    forall k :: 0 <= k < |h| ==> Plain(h[k])
  }

  lemma {:induction false} PlainNeverWaits(h: seq<Event>)
    requires AllPlain(h)
    ensures Pending(h).None? && LastFanOut(h) == -1
  {
    if h != [] { PlainNeverWaits(h[..|h| - 1]); }
  }

  lemma PlainLog(h: seq<Event>, f: Fact)
    requires AllPlain(h) && Plain(AsEvent(f))
    ensures AllPlain(Log(h, f))
  {
    StampIs(h, f);
    hide Stamp;
  }

  lemma PlainTail(h: seq<Event>, g: seq<Event>)
    requires AllPlain(h) && QuietTail(h, g, Telling)
    ensures AllPlain(g)
  {
    forall k | 0 <= k < |g|
      ensures Plain(g[k])
    {
      if k < |h| { assert g[k] == h[k]; } else { assert !Marked(g[k], Telling); }
    }
  }

  lemma PlainWrite(s: State, r: RunId, expected: int, next: RunState, fact: Option<Fact>)
    requires AllPlain(Hist(s, r)) && (fact.Some? ==> Plain(AsEvent(fact.value)))
    ensures AllPlain(Hist(AdvanceTx(s, r, expected, next, fact).st, r))
  {
    hide AllPlain, Log, Plain;
    if fact.Some? { PlainLog(Hist(s, r), fact.value); }
  }

  lemma PlainDispatch(s: State, r: RunId, expected: int, output: Json, step: StepId, id: TaskId, call: Call, max: int)
    requires AllPlain(Hist(s, r))
    ensures AllPlain(Hist(DispatchTx(s, r, expected, output, step, id, call, max).st, r))
  {
    hide AllPlain, AddTask;
    if DispatchTx(s, r, expected, output, step, id, call, max).Commit? {
      var b := Bump(s, r, RunState(RunRunning, output, "", None));
      assert Hist(b, r) == Hist(s, r);
      AddedFields(b, r, step, id, call, max);
      PlainLog(Hist(s, r), CreatedFact(step, id, call));
    }
  }

  /** A pass by plan over a history without waits: a dispatch, or the end. */
  predicate PlainCommit(c: Commitment) {
    match c
    case Nothing => true
    case Dispatch(_, _) => true
    case Write(_, fact) => fact.Some? && Plain(AsEvent(fact.value))
    case Fan(_, _, _) => false
  }

  lemma PassIsPlain(cfg: Config, plan: seq<Call>, r: RunId, run: Run, h: seq<Event>, signals: map<SignalKey, Signal>,
                    found: Option<string>, now: Time)
    requires found.Some? ==> SignalKey(r, found.value) in signals
    requires cfg.decide(run, h) == ByPlan(plan, h) && Pending(h).None?
    ensures PlainCommit(Pass(cfg, r, run, h, signals, found, now))
  {
    hide Pending, Joining, Completions, LastResult, Step;
  }

  lemma CommitIsPlain(cfg: Config, s: State, r: RunId, run: Run, c: Commitment, ids: seq<TaskId>)
    requires AllPlain(Hist(s, r)) && PlainCommit(c)
    ensures AllPlain(Hist(CommitTx(cfg, s, r, run, c, ids).st, r))
  {
    hide AllPlain, AdvanceTx, DispatchTx, Hist, Plain;
    match c {
      case Nothing =>
      case Write(next, fact) => PlainWrite(s, r, run.version, next, fact);
      case Dispatch(step, call) =>
        if ids != [] { PlainDispatch(s, r, run.version, run.output, step, ids[0], call, cfg.maxAttempts); }
    }
  }

  lemma PlainPrefix(h: seq<Event>, g: seq<Event>)
    requires h <= g && AllPlain(g)
    ensures AllPlain(h)
  {
    hide Plain;
    assert forall k :: 0 <= k < |h| ==> h[k] == g[k];
  }

  lemma AdvanceIsPlain(tools: Tools, past: seq<State>, a: Action, r: RunId, plan: seq<Call>)
    requires past != [] && Good(past) && AllPlain(Hist(Last(past), r)) && a.Advance?
    requires a.r == r ==> forall run, h :: a.cfg.decide(run, h) == ByPlan(plan, h)
    ensures AllPlain(Hist(Next(tools, past, a), r))
  {
    hide Inv, Evolves, Good, AllPlain, Pass, CommitTx, Chosen, Pending, Consumed, Ids, Hist, PassFrame, ByPlan,
         PlainCommit;
    var s, t := Last(past), Next(tools, past, a);
    if AdvanceEnabled(past, a) {
      var c := PassOf(past, a);
      var run := past[a.i].runs[a.r];
      if a.r == r {
        GoodAt(past, a.j, |past| - 1);
        GoodAt(past, a.i, a.j);
        RunAlive(past[a.i], past[a.j], r);
        HistoryGrew(past[a.j], s, r);
        var h := Hist(past[a.j], r);
        PlainPrefix(h, Hist(s, r));
        PlainNeverWaits(h);
        PassIsPlain(a.cfg, plan, r, run, h, past[a.l].signals, a.found, a.now);
        CommitIsPlain(a.cfg, s, r, run, c, a.ids);
      } else {
        CommitFrame(a.cfg, s, a.r, run, c, a.ids);
        FrameOthers(s, t, a.r, if t == s || !c.Write? || c.fact.None? then [] else TakenBy(AsEvent(c.fact.value)));
      }
    }
  }

  lemma RunAlive(a: State, b: State, r: RunId)
    requires Evolves(a, b) && r in a.runs
    ensures r in b.runs
  {
    hide Evolves, Pending, Consumed, Hist;
    RunEvolvesOf(a, b, r);
  }

  lemma ReportIsPlain(tools: Tools, past: seq<State>, a: Action, r: RunId)
    requires past != [] && AllPlain(Hist(Last(past), r)) && (a.Complete? || a.FailTask?)
    ensures AllPlain(Hist(Next(tools, past, a), r))
  {
    hide AllPlain, Hist, CompleteTx, FailTx, Executed, NotBefore, NothingCreated, Log;
    var s := Last(past);
    match a {
      case Complete(id, token, result, _) =>
        CompletedRow(s, id, token, result, s.clock, r);
        if CompleteTx(s, id, token, result, s.clock).Commit? {
          PlainLog(Hist(s, r), Fact(EvTaskCompleted, s.tasks[id].step, TaskCompletedData(id, result)));
        } else {
          AbortedComplete(s, id, token, result, s.clock);
        }
      case FailTask(id, token, reason, escalated, delay) =>
        FailedRow(s, id, token, reason, escalated, delay, s.clock, r);
        if FailTx(s, id, token, reason, escalated, delay, s.clock).Commit? {
          var task := s.tasks[id];
          var retry := WillRetry(task, escalated);
          var f := Fact(EvTaskFailed, task.step, TaskFailedData(id, reason, task.attempt, !retry));
          PlainLog(Hist(s, r), f);
          PlainLog(Log(Hist(s, r), f), Fact(if retry then EvTaskRetryScheduled else EvTaskDeadLettered, task.step,
                                            TaskRetryData(id, task.attempt, reason,
                                                          NotBefore(task, escalated, delay, s.clock))));
        }
      case _ =>
    }
  }

  lemma StepIsPlain(tools: Tools, past: seq<State>, a: Action, r: RunId, plan: seq<Call>)
    requires past != [] && Good(past) && AllPlain(Hist(Last(past), r))
    requires a.Advance? && a.r == r ==> forall run, h :: a.cfg.decide(run, h) == ByPlan(plan, h)
    ensures AllPlain(Hist(Next(tools, past, a), r))
  {
    hide Good, AllPlain, Hist, Next, ByPlan, Unmarked, QuietTail;
    if a.Advance? {
      AdvanceIsPlain(tools, past, a, r, plan);
    } else if a.Complete? || a.FailTask? {
      ReportIsPlain(tools, past, a, r);
    } else {
      OthersAddNone(tools, past, a, Telling);
      assert QuietTail(Hist(Last(past), r), Hist(Next(tools, past, a), r), Telling) by {
        TailOf(Last(past), Next(tools, past, a), r);
      }
      PlainTail(Hist(Last(past), r), Hist(Next(tools, past, a), r));
    }
  }

  lemma TailOf(s: State, t: State, r: RunId)
    requires Unmarked(s, t, Telling)
    ensures QuietTail(Hist(s, r), Hist(t, r), Telling)
  {
    hide Hist, QuietTail;
  }

  lemma {:induction false} PlannedIsPlain(tools: Tools, acts: seq<Action>, r: RunId, plan: seq<Call>)
    requires FollowsPlan(acts, r, plan)
    ensures AllPlain(Hist(Last(States(tools, acts)), r))
  {
    hide Next, Good, AllPlain, ByPlan;
    if acts == [] {
      NothingIsPlain(r);
    } else {
      var n := |acts| - 1;
      PlannedIsPlain(tools, acts[..n], r, plan);
      AllReachable(tools, acts[..n]);
      StepIsPlain(tools, States(tools, acts[..n]), acts[n], r, plan);
    }
  }

  lemma NothingIsPlain(r: RunId)
    ensures AllPlain(Hist(EMPTY, r))
  {
  }

  // ----- wedged -----

  /** The plan's next step is a task that is dead. */
  predicate Wedged(s: State, r: RunId, plan: seq<Call>) {
    var c := |Completions(Hist(s, r))|;
    && r in s.runs && s.runs[r].status.RunRunning?
    && c < |plan| && StepKey(r, Step(c + 1)) in s.stepIndex
    && s.stepIndex[StepKey(r, Step(c + 1))] in s.tasks
    && s.tasks[s.stepIndex[StepKey(r, Step(c + 1))]].status.TaskDeadLetter?
  }

  /** What every reachable state of a planned run is. */
  ghost predicate Planned(s: State, r: RunId, plan: seq<Call>) {
    Inv(s) && OnPlan(s, r, plan) && AllPlain(Hist(s, r))
  }

  lemma ReachablePlanned(tools: Tools, acts: seq<Action>, r: RunId, plan: seq<Call>)
    requires FollowsPlan(acts, r, plan)
    ensures Planned(Last(States(tools, acts)), r, plan)
  {
    hide States, Good, Inv, Evolves, OnPlan, AllPlain, Hist, ByPlan;
    AllReachable(tools, acts);
    GoodAt(States(tools, acts), |acts|, |acts|);
    AlwaysOnPlan(tools, acts, r, plan);
    PlannedIsPlain(tools, acts, r, plan);
  }

  /** Every step of the plan up to the next is a task, or is the next. */
  lemma StepsExist(s: State, r: RunId, plan: seq<Call>, d: nat)
    requires Planned(s, r, plan) && r in s.runs && d < |Completions(Hist(s, r))|
    ensures StepKey(r, Step(d + 1)) in s.stepIndex
  {
    hide Inv, Hist, Completions, IndexOk, HistoryOk, AllPlain, TasksOnPlan, FinishedRight, Step;
    InvParts(s);
    assert HistoryOk(s, r);
    assert Completions(Hist(s, r))[d] == Step(d + 1);
    var k := CompletionAt(Hist(s, r), d);
    CompletedIndexed(s, r, k);
  }

  lemma CompletedIndexed(s: State, r: RunId, k: nat)
    requires IndexOk(s) && HistoryOk(s, r) && k < |Hist(s, r)| && Hist(s, r)[k].typ.EvTaskCompleted?
    ensures StepKey(r, Hist(s, r)[k].step) in s.stepIndex
  {
    hide Gapless, Hist;
    assert EventOk(s, r, Hist(s, r)[k]);
  }

  /** In flight, in a planned run, is the next step or nothing. */
  lemma FlightOfPlan(s: State, r: RunId, plan: seq<Call>, id: TaskId)
    requires Planned(s, r, plan) && r in s.runs && id in s.tasks && s.tasks[id].run == r &&
             !s.tasks[id].status.TaskCompleted?
    ensures |Completions(Hist(s, r))| < |plan| && s.tasks[id].step == Step(|Completions(Hist(s, r))| + 1)
  {
    OpenIsNotListed(s, r, id);
    hide Inv, Completions, Hist, FinishedRight, Step, StepsTo, AllPlain;
    var c := |Completions(Hist(s, r))|;
    assert IsStep(s.tasks[id], plan, c + 1);
    var i :| 1 <= i <= c + 1 && IsCall(s.tasks[id], plan, i);
    ListedUpTo(s.tasks[id].step, i, c);
  }

  lemma NotParkedByPlan(s: State, r: RunId, plan: seq<Call>)
    requires Planned(s, r, plan) && r in s.runs && s.runs[r].status.RunRunning?
    ensures s.runs[r].availableAt.None? && Pending(Hist(s, r)).None? && Joining(Hist(s, r)).None?
  {
    hide Inv, Hist, OnPlan, AllPlain, Pending, Sequential, SignalsOk, StatusOf, Consumed, LastFanOut;
    InvRun(s, r);
    PlainNeverWaits(Hist(s, r));
  }

  /** A listed run is wedged exactly when its next step exists at all. */
  lemma WedgedIff(s: State, r: RunId, plan: seq<Call>, now: Time)
    requires Planned(s, r, plan) && r in Owed(s, now)
    ensures var c := |Completions(Hist(s, r))|;
            Wedged(s, r, plan) <==> c < |plan| && StepKey(r, Step(c + 1)) in s.stepIndex
  {
    hide Hist, Completions, OnPlan, AllPlain, Step, ParentsOk, EffectsOk, HistoriesOk, RunsOk, TaskOk;
    var c := |Completions(Hist(s, r))|;
    if c < |plan| && StepKey(r, Step(c + 1)) in s.stepIndex {
      var id := s.stepIndex[StepKey(r, Step(c + 1))];
      assert id in s.tasks && s.tasks[id].run == r && s.tasks[id].step == Step(c + 1);
      assert s.tasks[id].status.IsTerminal();
      hide Inv, IndexOk, TasksOk;
      TerminalKinds(s, id);
      if s.tasks[id].status.TaskCompleted? { NextIsNotCompleted(s, r, plan, id); }
    }
  }

  lemma TerminalKinds(s: State, id: TaskId)
    requires Inv(s) && id in s.tasks && s.tasks[id].status.IsTerminal()
    ensures s.tasks[id].status.TaskCompleted? || s.tasks[id].status.TaskDeadLetter?
  {
    hide Inv, ViewOf, Hist, Rows, LeaseOk;
    InvTask(s, id);
  }

  lemma NextIsNotCompleted(s: State, r: RunId, plan: seq<Call>, id: TaskId)
    requires Planned(s, r, plan) && r in s.runs && id in s.tasks && s.tasks[id].run == r
    requires s.tasks[id].step == Step(|Completions(Hist(s, r))| + 1)
    ensures !s.tasks[id].status.TaskCompleted?
  {
    hide Inv, Completions, Hist, FinishedRight, Step, StepsTo, AllPlain, TasksOnPlan;
    var c := |Completions(Hist(s, r))|;
    ListedUpTo(s.tasks[id].step, c + 1, c);
    if s.tasks[id].status.TaskCompleted? { DoneIsListed(s, r, id); }
  }

  /** And a running planned run is wedged exactly when one of its tasks is dead,
      by the reaper or by a failure whose run nobody has failed yet. */
  lemma WedgedIffDead(s: State, r: RunId, plan: seq<Call>)
    requires Planned(s, r, plan) && r in s.runs && s.runs[r].status.RunRunning?
    ensures Wedged(s, r, plan) <==>
            exists id :: id in s.tasks && s.tasks[id].run == r && s.tasks[id].status.TaskDeadLetter?
  {
    hide Inv, Hist, Completions, OnPlan, AllPlain, Step;
    if id :| id in s.tasks && s.tasks[id].run == r && s.tasks[id].status.TaskDeadLetter? {
      FlightOfPlan(s, r, plan, id);
      TaskIndexed(s, id);
    }
    if Wedged(s, r, plan) {
      IndexedRun(s, r, Step(|Completions(Hist(s, r))| + 1));
    }
  }

  lemma TaskIndexed(s: State, id: TaskId)
    requires Inv(s) && id in s.tasks
    ensures var key := StepKey(s.tasks[id].run, s.tasks[id].step); key in s.stepIndex && s.stepIndex[key] == id
  {
    hide ParentsOk, EffectsOk, HistoriesOk, TasksOk, RunsOk;
  }

  // ----- for good -----

  lemma ShortPass(cfg: Config, plan: seq<Call>, r: RunId, run: Run, h: seq<Event>, signals: map<SignalKey, Signal>,
                  found: Option<string>, now: Time)
    requires found.Some? ==> SignalKey(r, found.value) in signals
    requires cfg.decide(run, h) == ByPlan(plan, h) && Pending(h).None? && |Completions(h)| < |plan|
    ensures var c := Pass(cfg, r, run, h, signals, found, now);
            c.Nothing? || (c.Dispatch? && c.step == Step(|Completions(h)| + 1))
  {
    hide Pending, Joining, Completions, LastResult, Step;
  }

  /** A pass by plan, however old what it read, commits nothing on a wedged run. */
  lemma WedgedCommitsNothing(cfg: Config, plan: seq<Call>, s: State, r: RunId, run: Run, h: seq<Event>,
                             signals: map<SignalKey, Signal>, found: Option<string>, now: Time, ids: seq<TaskId>)
    requires Planned(s, r, plan) && Wedged(s, r, plan) && h <= Hist(s, r)
    requires found.Some? ==> SignalKey(r, found.value) in signals
    requires cfg.decide(run, h) == ByPlan(plan, h)
    ensures CommitTx(cfg, s, r, run, Pass(cfg, r, run, h, signals, found, now), ids).st == s
  {
    hide Inv, Completions, Hist, OnPlan, AllPlain, Step, Pass, AddTask, ByPlan, Pending;
    PlainPrefix(h, Hist(s, r));
    PlainNeverWaits(h);
    CompletionsGrow(h, Hist(s, r));
    ShortPass(cfg, plan, r, run, h, signals, found, now);
    var d := |Completions(h)|;
    if d < |Completions(Hist(s, r))| { StepsExist(s, r, plan, d); }
  }

  lemma StillRunningAfter(tools: Tools, past: seq<State>, a: Action, r: RunId)
    requires past != [] && Good(past) && Inv(Next(tools, past, a)) && Evolves(Last(past), Next(tools, past, a))
    requires r in Last(past).runs && Last(past).runs[r].status.RunRunning?
    requires !(a.Advance? && a.r == r) && !(a.FailRun? && a.r == r)
    ensures r in Next(tools, past, a).runs && Next(tools, past, a).runs[r].status.RunRunning?
  {
    hide Inv, Evolves, Good, Hist, CommitTx, Pass, Chosen, Pending, Ids, Consumed, StatusOf, Sequential, SignalsOk,
         PassFrame, VersionsStand, RunEvolves;
    var s, t := Last(past), Next(tools, past, a);
    GoodAt(past, |past| - 1, |past| - 1);
    RunEvolvesOf(s, t, r);
    RunAlive(s, t, r);
    if a.Advance? || a.FailRun? {
      ElsewhereHistory(tools, past, a, r);
      InvRun(s, r);
      InvRun(t, r);
    } else {
      OthersAdvanceNothing(tools, past, a);
      VersionOf(s, t, r);
      SameStatus(s, t, r);
    }
  }

  lemma SameStatus(s: State, t: State, r: RunId)
    requires r in s.runs && RunEvolves(s, t, r) && t.runs[r].version == s.runs[r].version
    ensures t.runs[r].status == s.runs[r].status
  {
    hide Hist, Pending, Consumed;
  }

  lemma ElsewhereHistory(tools: Tools, past: seq<State>, a: Action, r: RunId)
    requires past != [] && (a.Advance? || a.FailRun?) && a.r != r
    ensures Hist(Next(tools, past, a), r) == Hist(Last(past), r)
  {
    hide Hist, CommitTx, Pass, Chosen, Pending, Ids, Consumed, AdvanceTx, PassFrame;
    var s, t := Last(past), Next(tools, past, a);
    if a.Advance? {
      if AdvanceEnabled(past, a) {
        var c := PassOf(past, a);
        CommitFrame(a.cfg, s, a.r, past[a.i].runs[a.r], c, a.ids);
        FrameOthers(s, t, a.r, if t == s || !c.Write? || c.fact.None? then [] else TakenBy(AsEvent(c.fact.value)));
      }
    } else if a.i < |past| && a.r in past[a.i].runs && !past[a.i].runs[a.r].status.IsTerminal() {
      var run := past[a.i].runs[a.r];
      var fact := Some(Fact(EvRunFailed, "", RunFailedData(a.reason)));
      WriteFrame(s, a.r, run.version, RunFailure(run, a.reason), fact);
      FrameOthers(s, t, a.r, if t == s || fact.None? then [] else TakenBy(AsEvent(fact.value)));
    }
  }

  lemma WedgedStep(tools: Tools, past: seq<State>, a: Action, r: RunId, plan: seq<Call>)
    requires past != [] && Good(past) && Planned(Last(past), r, plan) && Wedged(Last(past), r, plan)
    requires Planned(Next(tools, past, a), r, plan) && Evolves(Last(past), Next(tools, past, a))
    requires a.Advance? && a.r == r ==> forall run, h :: a.cfg.decide(run, h) == ByPlan(plan, h)
    requires !(a.FailRun? && a.r == r)
    ensures Wedged(Next(tools, past, a), r, plan)
  {
    hide Inv, Evolves, Good, Hist, CommitTx, Pass, Chosen, Pending, Ids, Consumed, OnPlan, AllPlain, Completions,
         ByPlan, Step;
    var s, t := Last(past), Next(tools, past, a);
    if a.Advance? && a.r == r {
      if AdvanceEnabled(past, a) {
        GoodAt(past, a.j, |past| - 1);
        GoodAt(past, a.i, a.j);
        RunAlive(past[a.i], past[a.j], r);
        HistoryGrew(past[a.j], s, r);
        WedgedCommitsNothing(a.cfg, plan, s, r, past[a.i].runs[r], Hist(past[a.j], r), past[a.l].signals, a.found,
                             a.now, a.ids);
      }
    } else {
      hide Next, Wedged, Planned;
      StillWedged(tools, past, a, r, plan);
    }
  }

  lemma StillWedged(tools: Tools, past: seq<State>, a: Action, r: RunId, plan: seq<Call>)
    requires past != [] && Good(past) && Planned(Last(past), r, plan) && Wedged(Last(past), r, plan)
    requires Planned(Next(tools, past, a), r, plan) && Evolves(Last(past), Next(tools, past, a))
    requires !(a.Advance? && a.r == r) && !(a.FailRun? && a.r == r)
    ensures Wedged(Next(tools, past, a), r, plan)
  {
    hide Inv, Evolves, Good, Hist, OnPlan, AllPlain, Completions, Next, Step;
    var s, t := Last(past), Next(tools, past, a);
    StillRunningAfter(tools, past, a, r);
    WedgedIffDead(s, r, plan);
    var id :| id in s.tasks && s.tasks[id].run == r && s.tasks[id].status.TaskDeadLetter?;
    DeadRow(s, t, id);
    WedgedIffDead(t, r, plan);
  }

  /** A pass by plan may read this. */
  predicate PlannedRead(cfg: Config, s: State, r: RunId, plan: seq<Call>, found: Option<string>) {
    r in s.runs && (found.Some? ==> SignalKey(r, found.value) in s.signals) &&
    cfg.decide(s.runs[r], Hist(s, r)) == ByPlan(plan, Hist(s, r))
  }

  ghost predicate NoPassMoves(s: State, r: RunId, plan: seq<Call>) {
    forall cfg: Config, found: Option<string>, now: Time, ids: seq<TaskId> :: PlannedRead(cfg, s, r, plan, found) ==>
      CommitTx(cfg, s, r, s.runs[r], Pass(cfg, r, s.runs[r], Hist(s, r), s.signals, found, now), ids).st == s
  }

  /** Once wedged, always wedged: whatever else happens, as long as nobody fails
      the run, every later state lists it as owed a decision at any time, and no
      pass over it commits anything. */
  lemma {:induction false} WedgedForever(tools: Tools, acts: seq<Action>, r: RunId, plan: seq<Call>, i: nat, m: nat)
    requires FollowsPlan(acts, r, plan) && i <= m <= |acts|
    requires Wedged(States(tools, acts)[i], r, plan)
    requires forall k :: i <= k < m ==> !(acts[k].FailRun? && acts[k].r == r)
    ensures var s := States(tools, acts)[m];
            && Wedged(s, r, plan)
            && (forall now :: r in Owed(s, now))
            && NoPassMoves(s, r, plan)
    decreases m
  {
    hide States, Next, Good, Inv, Evolves, Wedged, Planned, Owed, ByPlan, Pass, CommitTx, Hist;
    PlannedAt(tools, acts, r, plan, m);
    var s := States(tools, acts)[m];
    if i < m {
      WedgedForever(tools, acts, r, plan, i, m - 1);
      PlannedAt(tools, acts, r, plan, m - 1);
      StepAt(tools, acts, m - 1);
      var past := States(tools, acts)[..m];
      assert Last(past) == States(tools, acts)[m - 1];
      PrefixGood(tools, acts, m);
      WedgedStep(tools, past, acts[m - 1], r, plan);
    }
    WedgedIsListed(s, r, plan);
    forall cfg: Config, found: Option<string>, now: Time, ids: seq<TaskId> | PlannedRead(cfg, s, r, plan, found)
      ensures CommitTx(cfg, s, r, s.runs[r], Pass(cfg, r, s.runs[r], Hist(s, r), s.signals, found, now), ids).st == s
    {
      WedgedCommitsNothing(cfg, plan, s, r, s.runs[r], Hist(s, r), s.signals, found, now, ids);
    }
  }

  lemma PlannedAt(tools: Tools, acts: seq<Action>, r: RunId, plan: seq<Call>, m: nat)
    requires FollowsPlan(acts, r, plan) && m <= |acts|
    ensures Planned(States(tools, acts)[m], r, plan)
  {
    hide States, Planned, ByPlan;
    StatesExtend(tools, acts, m);
    ReachablePlanned(tools, acts[..m], r, plan);
    assert States(tools, acts)[m] == Last(States(tools, acts[..m]));
  }

  lemma PrefixGood(tools: Tools, acts: seq<Action>, m: nat)
    requires 0 < m <= |acts|
    ensures Good(States(tools, acts)[..m])
    ensures Evolves(States(tools, acts)[m - 1], States(tools, acts)[m])
  {
    hide States, Good, Evolves, Inv;
    StatesExtend(tools, acts, m - 1);
    AllReachable(tools, acts[..m - 1]);
    AllReachable(tools, acts);
    GoodAt(States(tools, acts), m - 1, m);
  }

  lemma WedgedIsListed(s: State, r: RunId, plan: seq<Call>)
    requires Planned(s, r, plan) && Wedged(s, r, plan)
    ensures r in s.runs && forall now :: r in Owed(s, now)
  {
    hide Inv, Hist, OnPlan, AllPlain, Completions, Step, IsStep;
    NotParkedByPlan(s, r, plan);
    forall id | id in s.tasks && s.tasks[id].run == r
      ensures s.tasks[id].status.IsTerminal()
    {
      if !s.tasks[id].status.TaskCompleted? {
        FlightOfPlan(s, r, plan, id);
        TaskIndexed(s, id);
      }
    }
    assert !InFlight(s, r);
  }
}
