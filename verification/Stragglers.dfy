/** "A run waits on time, or on tasks, and never on both": a run of six steps
    that does both. Its fan-out joins on ANY, one child succeeds, the body goes
    on to sleep, and the other child is still in flight. */
module Stragglers {
  import opened Prelude
  import opened Names
  import opened Core
  import opened Tables
  import opened Waits
  import opened Invariants
  import opened Transactions
  import opened Joins
  import opened FanOuts
  import opened Advancing
  import opened Behaviours
  import opened FanOutRuns
  import opened Skipping
  import opened Queries
  import opened Recovery

  const R: RunId := "r"
  const READ: Call := Call("read", None)
  const ANY: JoinPolicy := JoinPolicy(JoinAny, 0)
  const TOOLS: Tools := map["read" := ClassNone]

  /** Two reads at once, whichever is first; then a long sleep. */
  function FirstThenSleep(run: Run, h: seq<Event>): Answer {
    if |h| < 2 then Decided(CallToolParallel("S1", [READ, READ], ANY)) else Decided(Sleep("S2", 1000))
  }

  const CFG: Config := Config("agent", "v1", 30, 3, FirstThenSleep)

  function Story(): seq<Action> {
    [Start(R, "agent", "v1", None),
     Register("w"),
     Action.Advance(CFG, R, 2, 2, 2, None, 0, ["t0", "t1"]),
     Claim("t0", "w", 30),
     Action.Complete("t0", 1, None, 0),
     Action.Advance(CFG, R, 5, 5, 5, None, 0, [])]
  }

  // ----- the six states -----

  function Branch(status: TaskStatus, attempt: int, i: nat): Task {
    Task(R, Child("S1", i), "read", None, status, attempt, 3, "")
  }

  function RowAt(version: int): Run {
    Run("agent", "v1", RunRunning, version, None, None, "", None)
  }

  predicate Started(s: State) {
    && R in s.runs && s.runs[R] == RowAt(0) && s.tasks == map[] && s.stepIndex == map[] && s.leases == map[]
    && |Hist(s, R)| == 1 && Hist(s, R)[0].typ.EvRunStarted? && s.clock == 0
  }

  predicate FannedOut(h: seq<Event>) {
    && |h| >= 4 && !h[0].typ.EvFanOutStarted?
    && h[1].typ.EvFanOutStarted? && h[1].step == "S1" && h[1].data == FanOutData(["read", "read"], "ANY")
    && (forall k :: 2 <= k < |h| ==> !h[k].typ.EvFanOutStarted?)
    && (forall k :: 0 <= k < |h| ==> StartOf(h[k]).None?)
  }

  predicate Split(s: State, t0: Task) {
    && R in s.runs && s.runs[R] == RowAt(1)
    && "t0" in s.tasks && s.tasks["t0"] == t0
    && "t1" in s.tasks && s.tasks["t1"] == Branch(TaskPending, 0, 1)
    && FannedOut(Hist(s, R)) && s.clock == 0
  }

  lemma FirstStates()
    ensures var s := Next(TOOLS, [EMPTY], Story()[0]);
            Started(s) && Started(Next(TOOLS, [EMPTY, s], Story()[1])) &&
              "w" in Next(TOOLS, [EMPTY, s], Story()[1]).workers
  {
  }

  lemma NoneOpen(h: seq<Event>)
    requires forall k :: 0 <= k < |h| ==> StartOf(h[k]).None?
    ensures Pending(h).None?
  {
    hide StartOf;
    if h != [] { NoneOpen(h[..|h| - 1]); }
  }

  lemma FanOutState(s: State)
    requires Started(s)
    ensures var res := FanOutTx(s, R, 0, None, "S1", [READ, READ], ANY, ["t0", "t1"], 3);
            Split(res.st, Branch(TaskPending, 0, 0)) && res.st.leases == map[] && res.st.workers == s.workers
  {
    hide Child, Log, Hist;
    if Child("S1", 0) == Child("S1", 1) { ChildInjective("S1", 0, "S1", 1); }
    var res := FanOutTx(s, R, 0, None, "S1", [READ, READ], ANY, ["t0", "t1"], 3);
    TwoChildren(s);
    FanOutHistory(s, R, 0, None, "S1", [READ, READ], ANY, ["t0", "t1"], 3);
    FannedOutHistory(Hist(s, R), Hist(res.st, R));
  }

  lemma TwoChildren(s: State)
    requires Started(s)
    ensures var res := FanOutTx(s, R, 0, None, "S1", [READ, READ], ANY, ["t0", "t1"], 3);
            && res.Commit? && R in res.st.runs && res.st.runs[R] == RowAt(1) && res.st.clock == 0
            && "t0" in res.st.tasks && res.st.tasks["t0"] == Branch(TaskPending, 0, 0)
            && "t1" in res.st.tasks && res.st.tasks["t1"] == Branch(TaskPending, 0, 1)
            && res.st.leases == map[] && res.st.workers == s.workers
  {
    hide Child, Log, ToolNames, PolicyText;
    if Child("S1", 0) == Child("S1", 1) { ChildInjective("S1", 0, "S1", 1); }
    var o := LogOn(Bump(s, R, RunState(RunRunning, None, "", None)), R,
                   Fact(EvFanOutStarted, "S1", FanOutData(ToolNames([READ, READ]), PolicyText(ANY))));
    var m := AddTask(o, R, Child("S1", 0), "t0", READ, 3);
    assert AddChildren(o, R, "S1", [READ, READ], ["t0", "t1"], 3, 0) == Commit(o);
    assert AddChildren(o, R, "S1", [READ, READ], ["t0", "t1"], 3, 1) == Commit(m);
    assert AddChildren(o, R, "S1", [READ, READ], ["t0", "t1"], 3, 2) ==
      Commit(AddTask(m, R, Child("S1", 1), "t1", READ, 3));
  }

  lemma FannedOutHistory(h: seq<Event>, g: seq<Event>)
    requires |h| == 1 && h[0].typ.EvRunStarted? && h < g && |g| == 4
    requires g[1].typ.EvFanOutStarted? && g[1].step == "S1" &&
             g[1].data == FanOutData(ToolNames([READ, READ]), PolicyText(ANY))
    requires forall i :: 0 <= i < 2 ==> CreatedAt(g, 2 + i, Child("S1", i), "read")
    ensures FannedOut(g)
  {
    hide Child;
    assert ToolNames([READ, READ]) == ["read", "read"];
    assert CreatedAt(g, 2, Child("S1", 0), "read") && CreatedAt(g, 3, Child("S1", 1), "read");
    assert g[0] == h[0];
    assert g[2].typ.EvTaskCreated? && g[3].typ.EvTaskCreated?;
  }

  lemma StillFannedOut(h: seq<Event>, f: Fact)
    requires FannedOut(h) && !f.typ.EvFanOutStarted? && StartOf(Event(0, f.typ, f.step, f.data)).None?
    ensures FannedOut(Log(h, f))
  {
    var g := Log(h, f);
    assert g[|h|].typ == f.typ && g[|h|].step == f.step && g[|h|].data == f.data;
    assert forall k :: 0 <= k < |h| ==> g[k] == h[k];
  }

  lemma ClaimedState(s: State)
    requires Split(s, Branch(TaskPending, 0, 0)) && s.leases == map[] && "w" in s.workers
    ensures var t := ClaimTx(s, "t0", "w", 0, 30).st;
            Split(t, Branch(TaskRunning, 1, 0)) && t.leases.Keys == {"t0"} && t.leases["t0"].token == 1 &&
              t.workers == s.workers
  {
    hide Log, FannedOut, Child;
    StillFannedOut(Hist(s, R), Fact(EvTaskClaimed, Child("S1", 0), TaskClaimedData("t0", "w", 1)));
  }

  lemma CompletedState(s: State)
    requires Split(s, Branch(TaskRunning, 1, 0)) && s.leases.Keys == {"t0"} && s.leases["t0"].token == 1
    ensures var t := CompleteTx(s, "t0", 1, None, 0).st;
            Split(t, Branch(TaskCompleted, 1, 0)) && t.leases.Keys == {"t0"} && t.workers == s.workers
  {
    hide Log, FannedOut, Child;
    StillFannedOut(Hist(s, R), Fact(EvTaskCompleted, Child("S1", 0), TaskCompletedData("t0", None)));
  }

  // ----- joined, and still in flight -----

  lemma TheFanOut(h: seq<Event>) returns (f: FanOut)
    requires FannedOut(h)
    ensures FanOutOf(h) == Some(f) && f.step == "S1" && f.join == ANY && |f.children| == 2
  {
    hide LastFanOut, ChildStory;
    assert LastFanOut(h) == 1 by {
      var p := LastFanOut(h);
      assert !(p < 1) && !(p > 1);
    }
    f := FanOutOf(h).value;
  }

  lemma OneSuccess(f: FanOut)
    requires f.join == ANY && |f.children| == 2 && f.children[0].settled && f.children[0].succeeded
    ensures Satisfied(f)
  {
    assert f.children[..1] == [f.children[0]];
    assert f.children[..1][..0] == [];
    assert Successes(f.children[..1]) == 1;
  }

  /** One of the two reads is in, whatever became of the other. */
  predicate Half(s: State) {
    R in s.runs && "t0" in s.tasks && s.tasks["t0"] == Branch(TaskCompleted, 1, 0) && FannedOut(Hist(s, R))
  }

  lemma SplitIsHalf(s: State)
    requires Split(s, Branch(TaskCompleted, 1, 0))
    ensures Half(s)
  {
    hide FannedOut, Hist, Child;
  }

  lemma AnyIsJoined(acts: seq<Action>)
    requires Half(Last(States(TOOLS, acts)))
    ensures Joining(Hist(Last(States(TOOLS, acts)), R)).None?
  {
    hide States, Hist, FannedOut, FanOutOf, Satisfied, Child, Inv, AllWhole, HasFinalFailure;
    var s := Last(States(TOOLS, acts));
    var f := TheFanOut(Hist(s, R));
    ReachableParts(TOOLS, acts);
    TablesAgree(TOOLS, acts, R, f, 0);
    IndexedTask(s, "t0");
    OneSuccess(f);
  }

  lemma IndexedTask(s: State, id: TaskId)
    requires Inv(s) && id in s.tasks
    ensures var key := StepKey(s.tasks[id].run, s.tasks[id].step); key in s.stepIndex && s.stepIndex[key] == id
  {
    hide ParentsOk, EffectsOk, HistoriesOk, TasksOk, RunsOk;
  }

  lemma SleepsNow(s: State)
    requires Split(s, Branch(TaskCompleted, 1, 0)) && Joining(Hist(s, R)).None?
    ensures var t := CommitTx(CFG, s, R, s.runs[R], Pass(CFG, R, s.runs[R], Hist(s, R), s.signals, None, 0), []).st;
            WaitsOnBoth(t, R) && t.runs[R].availableAt == Some(1000) && t.clock == 0
  {
    NoneOpen(Hist(s, R));
    hide Log, Joining, Pending, Child, FannedOut, StartOf;
    var t := CommitTx(CFG, s, R, s.runs[R], Pass(CFG, R, s.runs[R], Hist(s, R), s.signals, None, 0), []).st;
    assert |Hist(s, R)| >= 2 by { LongEnough(Hist(s, R)); }
    assert t.tasks == s.tasks;
    assert InFlight(t, R);
  }

  lemma LongEnough(h: seq<Event>)
    requires FannedOut(h)
    ensures |h| >= 4
  {
  }

  lemma FansNow(s: State)
    requires Started(s)
    ensures CommitTx(CFG, s, R, s.runs[R], Pass(CFG, R, s.runs[R], Hist(s, R), s.signals, None, 0), ["t0", "t1"])
            == FanOutTx(s, R, 0, None, "S1", [READ, READ], ANY, ["t0", "t1"], 3)
  {
    hide FanOutTx;
    var h := Hist(s, R);
    assert h[..0] == [] && h == [h[0]];
    NoneOpen(h);
    assert LastFanOut(h) == -1;
  }

  lemma StepOf(k: nat)
    requires k < 6
    ensures var past := States(TOOLS, Story());
            |past| == 7 && past[0] == EMPTY && past[k + 1] == Next(TOOLS, past[..k + 1], Story()[k]) &&
              Last(past[..k + 1]) == past[k]
  {
    hide Next;
    StepAt(TOOLS, Story(), k);
    StatesExtend(TOOLS, Story(), 0);
    assert Story()[..0] == [];
    assert States(TOOLS, Story())[..1] == [EMPTY];
  }

  lemma FirstTwo(past: seq<State>)
    requires past == States(TOOLS, Story())
    ensures |past| == 7 && Started(past[2]) && "w" in past[2].workers
  {
    hide States, Next, Started;
    StepOf(0);
    StepOf(1);
    FirstStates();
    assert past[..1] == [EMPTY] && past[..2] == [EMPTY, past[1]];
  }

  lemma StartedIsQuiet(s: State)
    requires Started(s)
    ensures R in s.runs && s.clock == 0 && Pending(Hist(s, R)).None?
  {
    NoneOpen(Hist(s, R));
  }

  lemma FirstThree(past: seq<State>)
    requires past == States(TOOLS, Story())
    ensures |past| == 7
    ensures Split(past[3], Branch(TaskPending, 0, 0)) && past[3].leases == map[] && "w" in past[3].workers
  {
    hide States, FanOutTx, Pass, CommitTx, Started, Split, Hist, Pending;
    FirstTwo(past);
    StartedIsQuiet(past[2]);
    FanOutState(past[2]);
    FansNow(past[2]);
    PassOfStory(past, 2, ["t0", "t1"]);
  }

  /** A pass of the story reads nothing but the state it commits to. */
  lemma PassOfStory(past: seq<State>, k: nat, ids: seq<TaskId>)
    requires past == States(TOOLS, Story()) && k < 6 && Story()[k] == Action.Advance(CFG, R, k, k, k, None, 0, ids)
    requires |past| == 7 && R in past[k].runs && past[k].clock == 0 && Pending(Hist(past[k], R)).None?
    ensures past[k + 1] == CommitTx(CFG, past[k], R, past[k].runs[R],
                                    Pass(CFG, R, past[k].runs[R], Hist(past[k], R), past[k].signals, None, 0), ids).st
  {
    hide States, CommitTx, Pass, Hist, Pending, Chosen;
    StepOf(k);
    assert past[..k + 1][k] == past[k];
  }

  /** The documented invariant fails: a reachable run that is parked and has a
      task in flight. */
  lemma TheRunThatWaitsOnBoth()
    ensures var s := Last(States(TOOLS, Story()));
            WaitsOnBoth(s, R) && s.runs[R].availableAt == Some(1000) && s.clock == 0
  {
    hide States, Split, Started, WaitsOnBoth, ClaimTx, CompleteTx, CommitTx, Pass, Joining, Hist;
    var past := States(TOOLS, Story());
    FirstThree(past);
    StepOf(3);
    StepOf(4);
    ThenClaimed(past);
    StatesExtend(TOOLS, Story(), 5);
    assert past[5] == Last(States(TOOLS, Story()[..5]));
    SplitIsHalf(past[5]);
    AnyIsJoined(Story()[..5]);
    SleepsNow(past[5]);
    SplitIsQuiet(past[5]);
    PassOfStory(past, 5, []);
  }

  /** And once the sleep is over the scan does not find it: the run is due, and
      is not listed before the straggler has reported. */
  lemma TheSleeperIsNotListed()
    ensures var s := Last(States(TOOLS, Story() + [Tick(1001)]));
            && R in s.runs && s.runs[R].status.RunRunning? && s.runs[R].availableAt == Some(1000) && s.clock == 1001
            && !s.runs[R].IsWaiting(s.clock) && R !in Owed(s, s.clock)
  {
    hide States;
    TheRunThatWaitsOnBoth();
    var acts := Story() + [Tick(1001)];
    assert acts[..6] == Story();
    StepAt(TOOLS, acts, 6);
    StatesExtend(TOOLS, acts, 6);
    var s, t := Last(States(TOOLS, Story())), Last(States(TOOLS, acts));
    assert t == s.(clock := 1001);
    assert InFlight(t, R) by { assert InFlight(s, R) && t.tasks == s.tasks; }
  }

  lemma ThenClaimed(past: seq<State>)
    requires past == States(TOOLS, Story()) && |past| == 7
    requires Split(past[3], Branch(TaskPending, 0, 0)) && past[3].leases == map[] && "w" in past[3].workers
    ensures Split(past[5], Branch(TaskCompleted, 1, 0)) && past[5].leases.Keys == {"t0"} && "w" in past[5].workers
  {
    hide States, ClaimTx, CompleteTx, FannedOut, Child;
    StepOf(3);
    StepOf(4);
    ClaimedState(past[3]);
    CompletedState(past[4]);
  }

  lemma SplitIsQuiet(s: State)
    requires Split(s, Branch(TaskCompleted, 1, 0))
    ensures R in s.runs && s.clock == 0 && Pending(Hist(s, R)).None?
  {
    hide Hist, StartOf, Pending;
    NoneOpen(Hist(s, R));
  }
}
