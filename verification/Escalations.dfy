/** "An escalated task stops the run whatever shape it is in": a run that an
    escalation does not stop. One read of an ANY join is in, the other needs a
    human; between failRun's reading of the run and its swap, the pass that the
    first read's report set off moves the run on. */
module Escalations {
  import opened Prelude
  import opened Names
  import opened Core
  import opened Tables
  import opened Waits
  import opened Transactions
  import opened FanOuts
  import opened Advancing
  import opened Behaviours
  import opened Stragglers

  const ASK_A_HUMAN := "cannot tell what happened"

  function Tail(): seq<Action> {
    [Claim("t1", "w", 30),
     FailTask("t1", 1, ASK_A_HUMAN, true, 0),
     Action.Advance(CFG, R, 7, 7, 7, None, 0, []),
     Action.FailRun(R, 7, ASK_A_HUMAN)]
  }

  function Acts(): seq<Action> {
    Story()[..5] + Tail()
  }

  // ----- the other read -----

  predicate Other(s: State, status: TaskStatus, attempt: int) {
    && Half(s) && s.runs[R] == RowAt(1) && s.clock == 0
    && "t1" in s.tasks && s.tasks["t1"].run == R && s.tasks["t1"].step == Child("S1", 1)
    && s.tasks["t1"].status == status && s.tasks["t1"].attempt == attempt && s.tasks["t1"].maxAttempts == 3
    && (forall k :: 0 <= k < |Hist(s, R)| ==> StartOf(Hist(s, R)[k]).None?)
  }

  lemma SplitIsOther(s: State)
    requires Split(s, Branch(TaskCompleted, 1, 0))
    ensures Other(s, TaskPending, 0)
  {
  }

  lemma Claimed(s: State)
    requires Other(s, TaskPending, 0) && s.leases.Keys == {"t0"} && "w" in s.workers
    ensures var t := ClaimTx(s, "t1", "w", 0, 30).st;
            Other(t, TaskRunning, 1) && "t1" in t.leases && t.leases["t1"].token == 1
  {
    hide Log, FannedOut, Child, StartOf;
    var f := Fact(EvTaskClaimed, Child("S1", 1), TaskClaimedData("t1", "w", 1));
    OneMoreEvent(Hist(s, R), f);
  }

  lemma OneMoreEvent(h: seq<Event>, f: Fact)
    requires FannedOut(h) && !f.typ.EvFanOutStarted? && !f.typ.EvTimerSet? && !f.typ.EvSignalWaitStarted?
    ensures FannedOut(Log(h, f)) && forall k :: 0 <= k < |Log(h, f)| ==> StartOf(Log(h, f)[k]).None?
  {
    StillFannedOut(h, f);
  }

  lemma Escalated(s: State)
    requires Other(s, TaskRunning, 1) && "t1" in s.leases && s.leases["t1"].token == 1
    ensures Other(FailTx(s, "t1", 1, ASK_A_HUMAN, true, 0, 0).st, TaskDeadLetter, 1)
  {
    hide Log, FannedOut, Child, StartOf;
    var f := Fact(EvTaskFailed, Child("S1", 1), TaskFailedData("t1", ASK_A_HUMAN, 1, true));
    var g := Fact(EvTaskDeadLettered, Child("S1", 1), TaskRetryData("t1", 1, ASK_A_HUMAN, ZERO_TIME));
    OneMoreEvent(Hist(s, R), f);
    OneMoreEvent(Log(Hist(s, R), f), g);
  }

  /** The first read's pass: its join is satisfied, and the body goes on. */
  lemma GoesOn(s: State)
    requires Other(s, TaskDeadLetter, 1) && Joining(Hist(s, R)).None?
    ensures Pending(Hist(s, R)).None?
    ensures var t := CommitTx(CFG, s, R, s.runs[R], Pass(CFG, R, s.runs[R], Hist(s, R), s.signals, None, 0), []).st;
            && R in t.runs && t.runs[R].status.RunRunning? && t.runs[R].version == 2 &&
              t.runs[R].availableAt == Some(1000)
            && "t1" in t.tasks && t.tasks["t1"].status.TaskDeadLetter?
  {
    NoneOpen(Hist(s, R));
    LongEnough(Hist(s, R));
    hide Log, Joining, Pending, Child, FannedOut, StartOf;
  }

  lemma TooLate(s: State, run: Run)
    requires R in s.runs && s.runs[R].version == 2 && run.version == 1
    ensures AdvanceTx(s, R, run.version, RunFailure(run, ASK_A_HUMAN),
                      Some(Fact(EvRunFailed, "", RunFailedData(ASK_A_HUMAN)))).st == s
  {
  }

  // ----- in order -----

  lemma StepOf(k: nat)
    requires k < 9
    ensures var past := States(TOOLS, Acts());
            |past| == 10 && past[k + 1] == Next(TOOLS, past[..k + 1], Acts()[k]) && Last(past[..k + 1]) == past[k]
  {
    hide Next;
    StepAt(TOOLS, Acts(), k);
    StatesExtend(TOOLS, Acts(), k + 1);
  }

  lemma SameBeginning()
    ensures |States(TOOLS, Acts())| == 10 && |States(TOOLS, Story())| == 7
    ensures States(TOOLS, Acts())[5] == States(TOOLS, Story())[5]
  {
    hide Next;
    StatesExtend(TOOLS, Acts(), 5);
    StatesExtend(TOOLS, Story(), 5);
    assert Acts()[..5] == Story()[..5];
  }

  lemma HalfWay()
    ensures var s := States(TOOLS, Acts())[5];
            Other(s, TaskPending, 0) && s.leases.Keys == {"t0"} && "w" in s.workers
  {
    hide States, Split, Other;
    SameBeginning();
    var past := States(TOOLS, Story());
    FirstThree(past);
    ThenClaimed(past);
    SplitIsOther(past[5]);
  }

  lemma AtTheStart(s: State, status: TaskStatus, attempt: int)
    requires Other(s, status, attempt)
    ensures R in s.runs && s.runs[R] == RowAt(1) && s.clock == 0 && Half(s)
  {
  }

  lemma Reported()
    ensures |States(TOOLS, Acts())| == 10 && Other(States(TOOLS, Acts())[7], TaskDeadLetter, 1)
  {
    hide States, Other, ClaimTx, FailTx;
    var past := States(TOOLS, Acts());
    HalfWay();
    StepOf(5);
    StepOf(6);
    AtTheStart(past[5], TaskPending, 0);
    Claimed(past[5]);
    AtTheStart(past[6], TaskRunning, 1);
    Escalated(past[6]);
  }

  lemma MovedOn()
    ensures var past := States(TOOLS, Acts());
            && |past| == 10 && R in past[8].runs && past[8].runs[R].status.RunRunning? && past[8].runs[R].version == 2
            && past[8].runs[R].availableAt == Some(1000)
            && "t1" in past[8].tasks && past[8].tasks["t1"].status.TaskDeadLetter?
  {
    hide States, Other, Half, CommitTx, Pass, Hist, Pending, Joining, Chosen;
    var past := States(TOOLS, Acts());
    Reported();
    var s := past[7];
    AtTheStart(s, TaskDeadLetter, 1);
    StatesExtend(TOOLS, Acts(), 7);
    AnyIsJoined(Acts()[..7]);
    GoesOn(s);
    StepOf(7);
    assert past[..8][7] == s;
  }

  /** The run has lost a task to a human and goes on: failRun, having read it at
      the report, finds its version moved, and takes it for finished. */
  lemma AnEscalationIsLost()
    ensures var past := States(TOOLS, Acts());
            && |past| == 10
            && R in past[7].runs && !past[7].runs[R].status.IsTerminal()
            && "t1" in past[7].tasks && past[7].tasks["t1"].status.TaskDeadLetter?
            && Last(past) == past[8]
            && R in past[9].runs && past[9].runs[R].status.RunRunning? && past[9].runs[R].availableAt == Some(1000)
            && "t1" in past[9].tasks && past[9].tasks["t1"].status.TaskDeadLetter?
  {
    hide States, AdvanceTx, Half, Hist;
    var past := States(TOOLS, Acts());
    Reported();
    MovedOn();
    AtTheStart(past[7], TaskDeadLetter, 1);
    TooLate(past[8], past[7].runs[R]);
    StepOf(8);
    assert past[..9][7] == past[7];
  }
}
