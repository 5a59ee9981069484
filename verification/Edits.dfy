/** A run stranded by an edit of its body that the replay check does not report:
    its fan-out of one was made longer after it had been recorded. */
module Edits {
  import opened Prelude
  import opened Names
  import opened Core
  import opened Tables
  import opened Waits
  import opened Invariants
  import opened Transactions
  import opened Joins
  import opened FanOuts
  import opened Advancing
  import opened Behaviours
  import opened Histories
  import opened Agents
  import opened Replay
  import opened FanOutRuns
  import opened Skipping
  import opened Following
  import opened BodyRuns
  import opened DeadLetters
  import opened Strandings

  const TWO: Want := WantAll([READ, READ], ALL)

  /** The edited body reads twice. */
  function TwoReads(gots: seq<Got>): Want {
    if gots == [] then TWO else Returns(None)
  }

  function ReplayTwoReads(run: Run, h: seq<Event>): Advancing.Answer {
    match Reading(h)
    case None => Unavailable
    case Some(x) =>
      match Look(x, Step(1), TWO)
      case Answer(got) => AnswerOf(TurnAt(TwoReads, x, [got]))
      case _ => AnswerOf(TurnAt(TwoReads, x, []))
  }

  const EDITED: Config := Config("agent", "v1", 30, 1, ReplayTwoReads)

  /** The body that read once made this history; its one read failed, and said why. */
  function FailsLoudly(): seq<Action> {
    FirstSteps() + [Action.FailTask("t0", 1, "boom", false, 0)]
  }

  predicate OneDead(s: State) {
    && R in s.runs && s.runs[R] == RowAt(1) && OpenedOne(Hist(s, R))
    && "t0" in s.tasks && s.tasks == map["t0" := s.tasks["t0"]]
    && s.tasks["t0"].run == R && s.tasks["t0"].step == Child(Step(1), 0) && s.tasks["t0"].status.TaskDeadLetter?
  }

  lemma StillOpened(h: seq<Event>, f: Fact)
    requires OpenedOne(h) && !f.typ.EvFanOutStarted? && !f.typ.EvTimerSet? && !f.typ.EvSignalWaitStarted?
    ensures OpenedOne(Log(h, f))
  {
    hide Step;
    var g := Log(h, f);
    assert g[|h|].typ == f.typ && g[|h|].step == f.step && g[|h|].data == f.data;
    assert forall k :: 0 <= k < |h| ==> g[k] == h[k];
  }

  lemma FailedLoudly(s: State)
    requires OneTask(s, Lone(TaskRunning, 1)) && s.leases == map["t0" := Lease("w", 1, 0, 30, 0)] && s.clock == 0
    ensures OneDead(FailTx(s, "t0", 1, "boom", false, 0, 0).st)
  {
    hide Log, OpenedOne, Child, Step, FailTx, StartOf;
    FailedRows(s, "boom");
    StillOpened(Hist(s, R), LossFact("boom"));
    StillOpened(Log(Hist(s, R), LossFact("boom")), GivenUpFact("boom"));
  }

  lemma AfterFailing()
    ensures OneDead(Last(States(map[], FailsLoudly()))) && Kills(map[], FailsLoudly(), 5, "t0")
  {
    hide States, OneTask, OneDead, FailTx;
    var acts := FailsLoudly();
    assert acts[..5] == FirstSteps();
    AfterFirstSteps(acts);
    StepOf(acts, 5);
    FailedLoudly(States(map[], acts)[5]);
    TaskOfOne(States(map[], acts)[5], Lone(TaskRunning, 1));
    DeadTask(States(map[], acts)[6]);
  }

  lemma DeadTask(s: State)
    requires OneDead(s)
    ensures R in s.runs && s.runs[R] == RowAt(1) && "t0" in s.tasks && s.tasks == map["t0" := s.tasks["t0"]]
    ensures s.tasks["t0"].run == R && s.tasks["t0"].step == Child(Step(1), 0) && s.tasks["t0"].status.TaskDeadLetter?
    ensures OpenedOne(Hist(s, R)) && Pending(Hist(s, R)).None?
  {
    hide Step;
    NoneOpen(Hist(s, R));
  }

  /** The unedited body made its history, so that its fan-out is on record. */
  lemma OneIsTraced(s: State, acts: seq<Action>, f: FanOut)
    requires acts == FailsLoudly() && s == Last(States(map[], acts)) && R in s.runs && Inv(s) && AllWhole(s)
    requires FanOutOf(Hist(s, R)) == Some(f) && f.step == Step(1)
    ensures Reading(Hist(s, R)) == Some(Recorded(s, R)) && Traces(Recorded(s, R), 1, ONE)
  {
    hide States, Hist, FanOutOf, Inv, AllWhole, Recorded, OnBody, Reading, Stops, TurnAt, Replays, AlwaysStable,
         Steady, Step, Traces, FansOf, KeysUpTo;
    ItReplays();
    assert FollowsBody(acts, R, OneRead);
    LastOnBody(map[], acts, R, OneRead);
    var gots, begun := NextStand(OneRead, s, R);
    var i := FanOutIsTheBodys(OneRead, s, R, gots, begun, f);
    StepsInOrder(i);
    assert gots[..0] == [];
  }

  lemma StepsInOrder(i: nat)
    requires Step(i + 1) == Step(1)
    ensures i == 0
  {
    StepInjective(i + 1, 1);
  }

  lemma SettledIsJoined(f: FanOut)
    requires |f.children| == 1 && f.join == ALL && f.children[0].settled
    ensures Satisfied(f)
  {
    AllSettled(f.children);
  }

  lemma AsksForTwo(s: State, now: Time, ids: seq<TaskId>)
    requires OneDead(s) && Joining(Hist(s, R)).None?
    requires Reading(Hist(s, R)) == Some(Recorded(s, R)) && Traces(Recorded(s, R), 1, ONE)
    requires StepKey(R, Child(Step(1), 0)) in s.stepIndex
    ensures CommitTx(EDITED, s, R, s.runs[R], Pass(EDITED, R, s.runs[R], Hist(s, R), s.signals, None, now), ids).st == s
    ensures TurnAt(TwoReads, Recorded(s, R), []) == Decides(CallToolParallel(Step(1), [READ, READ], ALL))
  {
    DeadTask(s);
    hide OneDead, Hist, Pending, Joining, Reading, Recorded, Traces, Look, Step, Child, FanOutTx, Short;
    var x := Recorded(s, R);
    LongerFanOutStrands(x, 1, ONE, [READ], ALL);
    assert [READ] + [READ] == [READ, READ];
    assert Look(x, Step(1), TWO) == Unwind(CallToolParallel(Step(1), [READ, READ], ALL));
    assert EDITED.decide(s.runs[R], Hist(s, R)) == Decided(CallToolParallel(Step(1), [READ, READ], ALL));
    if |ids| == 2 { ReissueCommitsNothing(s, R, 1, None, Step(1), [READ, READ], ALL, ids, 1); }
  }

  /** An edit that is not reported strands a run: the engine finds the fan-out
      joined and asks; the edited body, replayed, asks for the longer fan-out;
      as its first child exists, nothing is committed, ever. */
  lemma AnUnreportedEditStrands()
    ensures var h := Hist(Last(States(map[], FailsLoudly())), R);
            && Joining(h).None? && Reading(h).Some?
            && TurnAt(TwoReads, Reading(h).value, []) == Decides(CallToolParallel(Step(1), [READ, READ], ALL))
    ensures Stuck(EDITED, Last(States(map[], FailsLoudly())))
  {
    hide States, OneDead, Hist, FanOutOf, Inv, AllWhole, Kills, HasFinalFailure, Recorded, Reading, TurnAt, Satisfied,
         Stuck, Step, Child, Pending, Traces, CommitTx, Pass;
    var acts := FailsLoudly();
    var s := Last(States(map[], acts));
    AfterFailing();
    ReachableParts(map[], acts);
    DeadTask(s);
    var f := TheFanOut(Hist(s, R));
    RecordedIffReported(map[], acts, 5, "t0");
    TablesAgree(map[], acts, R, f, 0);
    IndexedTask(s, "t0");
    SettledIsJoined(f);
    OneIsTraced(s, acts, f);
    AsksForTwo(s, 0, []);
    forall now, ids
      ensures CommitTx(EDITED, s, R, s.runs[R], Pass(EDITED, R, s.runs[R], Hist(s, R), s.signals, None, now),
                       ids).st == s
    {
      AsksForTwo(s, now, ids);
    }
    AllDead(EDITED, s, s.tasks["t0"]);
  }

  lemma IndexedTask(s: State, id: TaskId)
    requires Inv(s) && id in s.tasks
    ensures var key := StepKey(s.tasks[id].run, s.tasks[id].step); key in s.stepIndex && s.stepIndex[key] == id
  {
    hide ParentsOk, EffectsOk, HistoriesOk, TasksOk, RunsOk;
  }
}
