/** Two runs that nothing ever moves again: a fan-out of one whose last failure
    came without a message, and one whose last attempt the reaper took back. */
module Strandings {
  import opened Prelude
  import opened Names
  import opened Core
  import opened Tables
  import opened Waits
  import opened Invariants
  import opened Transactions
  import opened Joins
  import opened FanOuts
  import opened Advancing
  import opened Behaviours
  import opened Histories
  import opened Agents
  import opened Replay
  import opened FanOutRuns
  import opened Skipping
  import opened Readability
  import opened Queries
  import opened Following
  import opened BodyRuns
  import opened DeadLetters

  // ----- a body of one fan-out, and an engine that replays it -----

  const R: RunId := "r"
  const READ: Call := Call("read", None)
  const ALL: JoinPolicy := JoinPolicy(JoinAll, 0)
  const ONE: Want := WantAll([READ], ALL)

  function OneRead(gots: seq<Got>): Want {
    if gots == [] then ONE else Returns(None)
  }

  function GotsOf(x: History): seq<Got> {
    match Look(x, Step(1), ONE)
    case Answer(got) => [got]
    case _ => []
  }

  function ReplayOneRead(run: Run, h: seq<Event>): Advancing.Answer {
    match Reading(h)
    case None => Unavailable
    case Some(x) => AnswerOf(TurnAt(OneRead, x, GotsOf(x)))
  }

  /** One attempt, no more. */
  const CFG: Config := Config("agent", "v1", 30, 1, ReplayOneRead)

  lemma ItReplays()
    ensures AlwaysStable(OneRead) && Steady(OneRead) && Replays(CFG, OneRead)
  {
    StableIsSteady(OneRead);
    hide Reading, Look, Step, TurnAt, Steady;
    forall run, h | Reading(h).Some?
      ensures DecidesAs(CFG.decide(run, h), OneRead, Reading(h).value)
    {
      var x := Reading(h).value;
      GotsReplay(x);
      forall gots | Replayed(OneRead, x, gots) && Stops(OneRead, x, gots)
        ensures CFG.decide(run, h) == AnswerOf(TurnAt(OneRead, x, gots))
      {
        OneReplay(OneRead, x, gots, GotsOf(x));
      }
    }
  }

  lemma GotsReplay(x: History)
    ensures Replayed(OneRead, x, GotsOf(x)) && Stops(OneRead, x, GotsOf(x))
  {
    hide Look, Step;
    var gots := GotsOf(x);
    assert gots[..0] == [];
  }

  // ----- the runs -----

  function FirstSteps(): seq<Action> {
    [Start(R, "agent", "v1", None), Register("w"), Register(REAPER),
     Action.Advance(CFG, R, 3, 3, 3, None, 0, ["t0"]), Claim("t0", "w", 30)]
  }

  function FailsSilently(): seq<Action> {
    FirstSteps() + [Action.FailTask("t0", 1, "", false, 0)]
  }

  function IsReaped(): seq<Action> {
    FirstSteps() + [Tick(100), Action.Reclaim("t0", Lease("w", 1, 0, 30, 0), "lapsed", 100)]
  }

  function Lone(status: TaskStatus, attempt: int): Task {
    Task(R, Child(Step(1), 0), "read", None, status, attempt, 1, "")
  }

  function RowAt(version: int): Run {
    Run("agent", "v1", RunRunning, version, None, None, "", None)
  }

  predicate Started(s: State) {
    && R in s.runs && s.runs[R] == RowAt(0) && s.tasks == map[] && s.stepIndex == map[] && s.leases == map[]
    && |Hist(s, R)| == 1 && Hist(s, R)[0].typ.EvRunStarted? && Hist(s, R)[0].data.RunStartedData? && s.clock == 0
  }

  /** One fan-out on record, and no wait. */
  predicate OpenedOne(h: seq<Event>) {
    && |h| >= 3 && !h[0].typ.EvFanOutStarted?
    && h[1].typ.EvFanOutStarted? && h[1].step == Step(1) && h[1].data == FanOutData(["read"], "ALL")
    && (forall k :: 2 <= k < |h| ==> !h[k].typ.EvFanOutStarted?)
    && (forall k :: 0 <= k < |h| ==> StartOf(h[k]).None?)
  }

  /** And no failure with a message. */
  predicate FannedOut(h: seq<Event>) {
    && OpenedOne(h)
    && (forall k :: 0 <= k < |h| && h[k].data.TaskFailedData? ==> h[k].data.error == "")
  }

  predicate OneTask(s: State, t0: Task) {
    && R in s.runs && s.runs[R] == RowAt(1) && s.tasks == map["t0" := t0] && FannedOut(Hist(s, R))
  }

  lemma FirstStates()
    ensures var s1 := Next(map[], [EMPTY], FirstSteps()[0]);
            var s2 := Next(map[], [EMPTY, s1], FirstSteps()[1]);
            var s3 := Next(map[], [EMPTY, s1, s2], FirstSteps()[2]);
            Started(s3) && "w" in s3.workers && REAPER in s3.workers
  {
  }

  lemma FanOutState(s: State)
    requires Started(s)
    ensures var res := FanOutTx(s, R, 0, None, Step(1), [READ], ALL, ["t0"], 1);
            OneTask(res.st, Lone(TaskPending, 0)) && res.st.leases == map[] && res.st.workers == s.workers &&
              res.st.clock == 0
  {
    hide Child, Step, Log, Hist, FannedOut;
    OneChild(s);
    FanOutHistory(s, R, 0, None, Step(1), [READ], ALL, ["t0"], 1);
    FannedOutHistory(Hist(s, R), Hist(FanOutTx(s, R, 0, None, Step(1), [READ], ALL, ["t0"], 1).st, R));
  }

  lemma OneChild(s: State)
    requires Started(s)
    ensures var res := FanOutTx(s, R, 0, None, Step(1), [READ], ALL, ["t0"], 1);
            && res.Commit? && R in res.st.runs && res.st.runs[R] == RowAt(1) && res.st.clock == 0
            && res.st.tasks == map["t0" := Lone(TaskPending, 0)]
            && res.st.leases == map[] && res.st.workers == s.workers
  {
    hide Child, Step, Log, ToolNames, PolicyText;
    var o := LogOn(Bump(s, R, RunState(RunRunning, None, "", None)), R,
                   Fact(EvFanOutStarted, Step(1), FanOutData(ToolNames([READ]), PolicyText(ALL))));
    assert AddChildren(o, R, Step(1), [READ], ["t0"], 1, 0) == Commit(o);
    assert AddChildren(o, R, Step(1), [READ], ["t0"], 1, 1) == Commit(AddTask(o, R, Child(Step(1), 0), "t0", READ, 1));
  }

  lemma FannedOutHistory(h: seq<Event>, g: seq<Event>)
    requires |h| == 1 && h[0].typ.EvRunStarted? && h[0].data.RunStartedData? && h < g && |g| == 3
    requires g[1].typ.EvFanOutStarted? && g[1].step == Step(1) &&
             g[1].data == FanOutData(ToolNames([READ]), PolicyText(ALL))
    requires CreatedAt(g, 2, Child(Step(1), 0), "read")
    ensures FannedOut(g)
  {
    hide Child, Step;
    assert ToolNames([READ]) == ["read"];
    assert g[0] == h[0];
  }

  lemma StillFannedOut(h: seq<Event>, f: Fact)
    requires FannedOut(h) && !f.typ.EvFanOutStarted? && !f.typ.EvTimerSet? && !f.typ.EvSignalWaitStarted?
    requires f.data.TaskFailedData? ==> f.data.error == ""
    ensures FannedOut(Log(h, f))
  {
    hide Step;
    var g := Log(h, f);
    assert g[|h|].typ == f.typ && g[|h|].step == f.step && g[|h|].data == f.data;
    assert forall k :: 0 <= k < |h| ==> g[k] == h[k];
  }

  lemma ClaimedState(s: State)
    requires OneTask(s, Lone(TaskPending, 0)) && s.leases == map[] && "w" in s.workers && s.clock == 0
    ensures var t := ClaimTx(s, "t0", "w", 0, 30).st;
            OneTask(t, Lone(TaskRunning, 1)) && t.leases == map["t0" := Lease("w", 1, 0, 30, 0)] &&
              t.workers == s.workers && t.clock == 0
  {
    hide Log, FannedOut, Child, Step;
    StillFannedOut(Hist(s, R), Fact(EvTaskClaimed, Child(Step(1), 0), TaskClaimedData("t0", "w", 1)));
  }

  function LossFact(reason: string): Fact {
    Fact(EvTaskFailed, Child(Step(1), 0), TaskFailedData("t0", reason, 1, true))
  }

  function GivenUpFact(reason: string): Fact {
    Fact(EvTaskDeadLettered, Child(Step(1), 0), TaskRetryData("t0", 1, reason, ZERO_TIME))
  }

  /** The only attempt reported as failed, for this reason. */
  lemma FailedRows(s: State, reason: string)
    requires OneTask(s, Lone(TaskRunning, 1)) && s.leases == map["t0" := Lease("w", 1, 0, 30, 0)] && s.clock == 0
    ensures var t := FailTx(s, "t0", 1, reason, false, 0, 0).st;
            && t.runs == s.runs &&
              t.tasks == map["t0" := Lone(TaskDeadLetter, 1).(lastError := t.tasks["t0"].lastError)]
            && (reason == "" ==> t.tasks["t0"].lastError == "")
            && Hist(t, R) == Log(Log(Hist(s, R), LossFact(reason)), GivenUpFact(reason))
  {
    hide Log, FannedOut, Child, Step, Released, StartOf;
    assert Hist(LogOn(s, R, LossFact(reason)), R) == Log(Hist(s, R), LossFact(reason));
  }

  lemma FailedState(s: State)
    requires OneTask(s, Lone(TaskRunning, 1)) && s.leases == map["t0" := Lease("w", 1, 0, 30, 0)] && s.clock == 0
    ensures OneTask(FailTx(s, "t0", 1, "", false, 0, 0).st, Lone(TaskDeadLetter, 1))
  {
    hide Log, FannedOut, Child, Step, FailTx, StartOf;
    FailedRows(s, "");
    StillFannedOut(Hist(s, R), LossFact(""));
    StillFannedOut(Log(Hist(s, R), LossFact("")), GivenUpFact(""));
  }

  lemma ReapedRows(s: State)
    requires OneTask(s, Lone(TaskRunning, 1)) && s.leases == map["t0" := Lease("w", 1, 0, 30, 0)] && REAPER in s.workers
    ensures var t := ReclaimTx(s, "t0", Lease("w", 1, 0, 30, 0), "lapsed", 100).st;
            && t.runs == s.runs && t.tasks == map["t0" := Lone(TaskDeadLetter, 1).(lastError := "lapsed")]
            && Hist(t, R) == Log(Log(Hist(s, R), LapseFact()), DeathFact())
  {
    hide Log, FannedOut, Child, Step, LeaseTaken;
  }

  function LapseFact(): Fact {
    Fact(EvLeaseExpired, Child(Step(1), 0), LeaseExpiredData("t0", "w", 1))
  }

  function DeathFact(): Fact {
    Fact(EvTaskDeadLettered, Child(Step(1), 0), TaskRetryData("t0", 1, "lapsed", ZERO_TIME))
  }

  lemma ReapedState(s: State)
    requires OneTask(s, Lone(TaskRunning, 1)) && s.leases == map["t0" := Lease("w", 1, 0, 30, 0)] && REAPER in s.workers
    ensures var t := ReclaimTx(s, "t0", Lease("w", 1, 0, 30, 0), "lapsed", 100).st;
            OneTask(t, Lone(TaskDeadLetter, 1).(lastError := "lapsed"))
  {
    hide Log, FannedOut, Child, Step, ReclaimTx, Hist;
    ReapedRows(s);
    StillFannedOut(Hist(s, R), LapseFact());
    StillFannedOut(Log(Hist(s, R), LapseFact()), DeathFact());
  }

  // ----- walking through them -----

  lemma NoneOpen(h: seq<Event>)
    requires forall k :: 0 <= k < |h| ==> StartOf(h[k]).None?
    ensures Pending(h).None?
  {
    hide StartOf;
    if h != [] { NoneOpen(h[..|h| - 1]); }
  }

  lemma FansNow(s: State)
    requires Started(s)
    ensures CommitTx(CFG, s, R, s.runs[R], Pass(CFG, R, s.runs[R], Hist(s, R), s.signals, None, 0), ["t0"])
            == FanOutTx(s, R, 0, None, Step(1), [READ], ALL, ["t0"], 1)
  {
    var h := Hist(s, R);
    assert h[..0] == [] && h == [h[0]];
    NoneOpen(h);
    assert LastFanOut(h) == -1;
    assert Reading(h) == Some(NOTHING);
    hide FanOutTx, Step, Child, Pending, LastFanOut, Reading, Hist;
    UnrecordedIsAsked(NOTHING, 1, ONE);
    hide Look;
    assert TurnAt(OneRead, NOTHING, []) == Decides(CallToolParallel(Step(1), [READ], ALL));
  }

  lemma StepOf(acts: seq<Action>, k: nat)
    requires k < |acts|
    ensures var past := States(map[], acts);
            past[0] == EMPTY && past[k + 1] == Next(map[], past[..k + 1], acts[k]) && Last(past[..k + 1]) == past[k]
  {
    hide Next;
    StepAt(map[], acts, k);
    EmptyAtFirst(map[], acts);
  }

  /** The first steps again, each after all the states before it. */
  lemma StatesSoFar(acts: seq<Action>)
    requires |acts| >= 3
    ensures var past := States(map[], acts);
            && past[1] == Next(map[], [EMPTY], acts[0])
            && past[2] == Next(map[], [EMPTY, past[1]], acts[1])
            && past[3] == Next(map[], [EMPTY, past[1], past[2]], acts[2])
  {
    hide States, Next;
    var past := States(map[], acts);
    StepOf(acts, 0);
    StepOf(acts, 1);
    StepOf(acts, 2);
    assert past[..1] == [EMPTY] && past[..2] == [EMPTY, past[1]] && past[..3] == [EMPTY, past[1], past[2]];
  }

  lemma FirstThree(acts: seq<Action>)
    requires |acts| > 3 && acts[..3] == FirstSteps()[..3]
    ensures var past := States(map[], acts); Started(past[3]) && "w" in past[3].workers && REAPER in past[3].workers
  {
    hide States, Next, Started;
    assert forall k :: 0 <= k < 3 ==> acts[k] == acts[..3][k];
    assert acts[0] == FirstSteps()[0] && acts[1] == FirstSteps()[1] && acts[2] == FirstSteps()[2];
    StatesSoFar(acts);
    FirstStates();
  }

  /** A pass of the story reads nothing but the state it commits to. */
  lemma PassOfStory(acts: seq<Action>, past: seq<State>, k: nat, ids: seq<TaskId>)
    requires past == States(map[], acts) && k < |acts| && acts[k] == Action.Advance(CFG, R, k, k, k, None, 0, ids)
    requires R in past[k].runs && past[k].clock == 0 && Pending(Hist(past[k], R)).None?
    ensures past[k + 1] == CommitTx(CFG, past[k], R, past[k].runs[R],
                                    Pass(CFG, R, past[k].runs[R], Hist(past[k], R), past[k].signals, None, 0), ids).st
  {
    hide States, CommitTx, Pass, Hist, Pending, Chosen;
    StepOf(acts, k);
    assert past[..k + 1][k] == past[k];
  }

  lemma StartedIsQuiet(s: State)
    requires Started(s)
    ensures R in s.runs && s.clock == 0 && Pending(Hist(s, R)).None?
  {
    NoneOpen(Hist(s, R));
  }

  /** After the five first steps one task runs, on its only attempt. */
  lemma AfterFirstSteps(acts: seq<Action>)
    requires |acts| > 5 && acts[..5] == FirstSteps()
    ensures var s := States(map[], acts)[5];
            OneTask(s, Lone(TaskRunning, 1)) && s.leases == map["t0" := Lease("w", 1, 0, 30, 0)] &&
              REAPER in s.workers && s.clock == 0
  {
    hide States, FanOutTx, Pass, CommitTx, Started, OneTask, Hist, Pending, ClaimTx;
    assert acts[..3] == acts[..5][..3];
    assert acts[3] == acts[..5][3] && acts[4] == acts[..5][4];
    FirstThree(acts);
    var past := States(map[], acts);
    StartedIsQuiet(past[3]);
    FanOutState(past[3]);
    FansNow(past[3]);
    PassOfStory(acts, past, 3, ["t0"]);
    ClaimedState(past[4]);
    StepOf(acts, 4);
  }

  /** The last of them: dead of a failure without a message. */
  lemma AfterFailing()
    ensures var s := Last(States(map[], FailsSilently()));
            OneTask(s, Lone(TaskDeadLetter, 1)) && Kills(map[], FailsSilently(), 5, "t0")
  {
    hide States, OneTask, FailTx;
    var acts := FailsSilently();
    assert acts[..5] == FirstSteps();
    AfterFirstSteps(acts);
    StepOf(acts, 5);
    FailedState(States(map[], acts)[5]);
    TaskOfOne(States(map[], acts)[5], Lone(TaskRunning, 1));
    TaskOfOne(States(map[], acts)[6], Lone(TaskDeadLetter, 1));
  }

  lemma TaskOfOne(s: State, t0: Task)
    requires OneTask(s, t0)
    ensures "t0" in s.tasks && s.tasks["t0"] == t0
  {
  }

  /** Dead by the reaper, which found its only attempt used up. */
  lemma AfterReaping()
    ensures var past := States(map[], IsReaped());
            && OneTask(past[6], Lone(TaskRunning, 1))
            && OneTask(Last(past), Lone(TaskDeadLetter, 1).(lastError := "lapsed"))
  {
    hide States, OneTask, ReclaimTx;
    var acts := IsReaped();
    assert acts[..5] == FirstSteps();
    AfterFirstSteps(acts);
    var past := States(map[], acts);
    StepOf(acts, 5);
    StepOf(acts, 6);
    TickedState(past[5], past[6]);
    ReapedState(past[6]);
  }

  lemma TickedState(s: State, t: State)
    requires OneTask(s, Lone(TaskRunning, 1)) && t == s.(clock := 100)
    ensures OneTask(t, Lone(TaskRunning, 1)) && t.leases == s.leases && t.workers == s.workers
  {
    hide FannedOut;
  }

  // ----- what has become of them -----

  /** A run that the scan lists at any time, and that no pass over it changes. */
  ghost predicate Stuck(cfg: Config, s: State) {
    && R in s.runs && s.runs[R].status.RunRunning?
    && (forall now :: R in Owed(s, now))
    && (forall now, ids ::
          CommitTx(cfg, s, R, s.runs[R], Pass(cfg, R, s.runs[R], Hist(s, R), s.signals, None, now), ids).st == s)
  }

  lemma DeadIsOwed(s: State, t0: Task, now: Time)
    requires R in s.runs && s.runs[R] == RowAt(1) && s.tasks == map["t0" := t0] && t0.status.TaskDeadLetter?
    ensures R in Owed(s, now)
  {
  }

  lemma TheFanOut(h: seq<Event>) returns (f: FanOut)
    requires OpenedOne(h)
    ensures FanOutOf(h) == Some(f) && f.step == Step(1) && f.join == ALL && |f.children| == 1
    ensures f.children[0] == ChildStory(NewChild(Step(1), ["read"], 0), h[2..])
  {
    hide LastFanOut, ChildStory, Step, Child, NewChild;
    assert LastFanOut(h) == 1 by {
      var p := LastFanOut(h);
      assert !(p < 1) && !(p > 1);
    }
    f := FanOutOf(h).value;
  }

  lemma {:induction false} NoMessages(c: ChildOutcome, tail: seq<Event>)
    requires c.error == "" && forall k :: 0 <= k < |tail| && tail[k].data.TaskFailedData? ==> tail[k].data.error == ""
    ensures ChildStory(c, tail).error == ""
  {
    if tail != [] { NoMessages(c, tail[..|tail| - 1]); }
  }

  lemma FanChildIsT0(s: State, t0: Task)
    requires Inv(s) && OneTask(s, t0) && t0.run == R && t0.step == Child(Step(1), 0)
    ensures StepKey(R, Child(Step(1), 0)) in s.stepIndex && s.stepIndex[StepKey(R, Child(Step(1), 0))] == "t0"
  {
    TaskOfOne(s, t0);
    hide Step, Child, OneTask, ParentsOk, EffectsOk, HistoriesOk, TasksOk, RunsOk;
    assert StepKey(s.tasks["t0"].run, s.tasks["t0"].step) in s.stepIndex;
  }

  lemma FollowsOneRead(acts: seq<Action>)
    requires acts == FailsSilently() || acts == IsReaped()
    ensures AlwaysStable(OneRead) && Steady(OneRead) && FollowsBody(acts, R, OneRead)
  {
    hide Replays, AlwaysStable, Steady;
    ItReplays();
  }

  lemma SilentChild(s: State, f: FanOut)
    requires FannedOut(Hist(s, R)) && FanOutOf(Hist(s, R)) == Some(f) && |f.children| == 1 && f.join == ALL
    requires f.children[0] == ChildStory(NewChild(Step(1), ["read"], 0), Hist(s, R)[2..])
    requires f.children[0].settled && !f.children[0].succeeded
    ensures Satisfied(f) && !Satisfied(Muted(f))
  {
    hide ChildStory, Step, Child, FanOutOf, Hist;
    NoMessages(NewChild(Step(1), ["read"], 0), Hist(s, R)[2..]);
    AllSettled(f.children);
    AllSettled(Muted(f).children);
    assert Silent(f.children[0]);
    assert !Muted(f).children[0].settled;
  }

  /** A failure without a message strands a run. The engine finds the fan-out
      joined and asks; the body, replayed, stands where it stood and issues the
      fan-out again; as that exists, nothing is committed; and as nothing is in
      flight, nothing else will ever come. */
  lemma SilentFailureStrands()
    ensures var h := Hist(Last(States(map[], FailsSilently())), R);
            && Joining(h).None? && Reading(h).Some?
            && Stops(OneRead, Reading(h).value, [])
            && TurnAt(OneRead, Reading(h).value, []) == Decides(CallToolParallel(Step(1), [READ], ALL))
    ensures Stuck(CFG, Last(States(map[], FailsSilently())))
  {
    hide States, OneTask, Hist, FanOutOf, Inv, AllWhole, Kills, HasFinalFailure, Recorded, OnBody, At, Legible,
         Reading, Stops, TurnAt, Replays, AlwaysStable, Steady, Sized, Satisfied, Muted, StandsAt, Stuck, Step, Child,
         Pending;
    var acts := FailsSilently();
    var s := Last(States(map[], acts));
    AfterFailing();
    ReachableParts(map[], acts);
    OneTaskParts(s, Lone(TaskDeadLetter, 1));
    var f := TheFanOut(Hist(s, R));
    FanChildIsT0(s, Lone(TaskDeadLetter, 1));
    RecordedIffReported(map[], acts, 5, "t0");
    TablesAgree(map[], acts, R, f, 0);
    SilentChild(s, f);
    FollowsOneRead(acts);
    OneIsSized();
    LastOnBody(map[], acts, R, OneRead);
    var latest, gots := LatestFanOutStands(map[], acts, R, OneRead);
    StandingTurn(OneRead, s, R, f, gots);
    StandsAtOne(s, f, gots);
    assert TurnAt(OneRead, Reading(Hist(s, R)).value, []) == Decides(CallToolParallel(Step(1), [READ], ALL));
    forall now, ids
      ensures CommitTx(CFG, s, R, s.runs[R], Pass(CFG, R, s.runs[R], Hist(s, R), s.signals, None, now), ids).st == s
    {
      RepeatsItself(s, now, ids);
    }
    AllDead(CFG, s, Lone(TaskDeadLetter, 1));
  }

  lemma OneIsSized()
    ensures Sized(OneRead)
  {
  }

  lemma OneTaskParts(s: State, t0: Task)
    requires OneTask(s, t0)
    ensures R in s.runs && s.runs[R] == RowAt(1) && FannedOut(Hist(s, R)) && Pending(Hist(s, R)).None?
    ensures s.tasks == map["t0" := t0]
    ensures "t0" in s.tasks && s.tasks["t0"] == t0
  {
    NoneOpen(Hist(s, R));
  }

  lemma StandsAtOne(s: State, f: FanOut, gots: seq<Got>)
    requires StandsAt(OneRead, s, R, f, gots)
    ensures gots == [] && Reading(Hist(s, R)).Some? && Replayed(OneRead, Reading(Hist(s, R)).value, [])
    ensures OnRecord(Reading(Hist(s, R)).value, 1, ONE)
  {
    hide Reading, Hist, FanOutOf, Step, Child;
  }

  lemma AllDead(cfg: Config, s: State, t0: Task)
    requires R in s.runs && s.runs[R] == RowAt(1) && s.tasks == map["t0" := t0] && t0.status.TaskDeadLetter?
    requires forall now, ids ::
               CommitTx(cfg, s, R, s.runs[R], Pass(cfg, R, s.runs[R], Hist(s, R), s.signals, None, now), ids).st == s
    ensures Stuck(cfg, s)
  {
    hide CommitTx, Pass, Owed, Hist;
    forall now
      ensures R in Owed(s, now)
    {
      DeadIsOwed(s, t0, now);
    }
  }

  lemma RepeatsItself(s: State, now: Time, ids: seq<TaskId>)
    requires Inv(s) && R in s.runs && s.runs[R] == RowAt(1) && Pending(Hist(s, R)).None? && Joining(Hist(s, R)).None?
    requires Reading(Hist(s, R)) == Some(Recorded(s, R))
    requires Replayed(OneRead, Recorded(s, R), []) && Stops(OneRead, Recorded(s, R), []) &&
             OnRecord(Recorded(s, R), 1, ONE)
    requires TurnAt(OneRead, Recorded(s, R), []) == Decides(CallToolParallel(Step(1), [READ], ALL))
    ensures CommitTx(CFG, s, R, s.runs[R], Pass(CFG, R, s.runs[R], Hist(s, R), s.signals, None, now), ids).st == s
  {
    hide Inv, Hist, Pending, Joining, Reading, Skimming, Replayed, Stops, OnRecord, TurnAt, CommitTx, Step, Child,
         Replays, AlwaysStable, Steady;
    ItReplays();
    DecidedBy(OneRead, CFG, s.runs[R], Hist(s, R), []);
    NeverUnavailable(s, []);
    assert Pass(CFG, R, s.runs[R], Hist(s, R), s.signals, None, now) == Enact(s.runs[R], Asking(ONE, Step(1)));
    AskedAgainCommitsNothing(CFG, s, R, s.runs[R], ONE, 1, ids);
  }

  lemma NeverUnavailable(s: State, gots: seq<Got>)
    requires R in s.runs && Reading(Hist(s, R)).Some?
    ensures !CFG.decide(s.runs[R], Hist(s, R)).Unavailable?
  {
    hide Reading, Hist, TurnAt, GotsOf;
  }

  /** And so does a lease that runs out on the last attempt: the join waits for
      a child that will never settle. */
  lemma ReapedChildStrands()
    ensures Joining(Hist(Last(States(map[], IsReaped())), R)).Some?
    ensures Stuck(CFG, Last(States(map[], IsReaped())))
  {
    hide States, OneTask, Hist, FanOutOf, Inv, AllWhole, Satisfied, Stuck, Step, Child, Pending, Pass, CommitTx;
    var acts := IsReaped();
    var s := Last(States(map[], acts));
    AfterReaping();
    ReachableParts(map[], acts);
    var t0 := Lone(TaskDeadLetter, 1).(lastError := "lapsed");
    OneTaskParts(s, t0);
    OneTaskParts(States(map[], acts)[6], Lone(TaskRunning, 1));
    var f := TheFanOut(Hist(s, R));
    FanChildIsT0(s, t0);
    assert States(map[], acts)[7] == s;
    ReapedChildNeverSettles(map[], acts, 6, R, f, 0);
    UnsettledIsJoining(f);
    forall now, ids
      ensures CommitTx(CFG, s, R, s.runs[R], Pass(CFG, R, s.runs[R], Hist(s, R), s.signals, None, now), ids).st == s
    {
      JoiningIsNothing(s, now, ids);
    }
    AllDead(CFG, s, t0);
  }

  lemma UnsettledIsJoining(f: FanOut)
    requires f.join == ALL && |f.children| == 1 && !f.children[0].settled
    ensures !Satisfied(f)
  {
    AllSettled(f.children);
  }

  lemma JoiningIsNothing(s: State, now: Time, ids: seq<TaskId>)
    requires R in s.runs && Pending(Hist(s, R)).None? && Joining(Hist(s, R)).Some?
    ensures CommitTx(CFG, s, R, s.runs[R], Pass(CFG, R, s.runs[R], Hist(s, R), s.signals, None, now), ids).st == s
  {
    hide Hist, Pending, Joining;
  }
}
