/** What the system forgets: runs that wait for a signal that has already come.
    When that is, two runs that get there, and that nothing else is forgotten. */
module Oversleeping {
  import opened Prelude
  import opened Names
  import opened Core
  import opened Tables
  import opened Waits
  import opened Invariants
  import opened Transactions
  import opened RunSteps
  import opened FanOuts
  import opened Advancing
  import opened Behaviours
  import opened Arrivals
  import opened DeadLetters
  import opened Queries
  import opened Recovery
  import opened WakeUps

  // ----- every running run has something that will move it -----

  /** It is owed a decision and listed as such, or parked with nothing stored
      that has ended its wait, or has a task in flight that the scan publishes, a
      live lease covers, or the reaper's query returns. */
  ghost predicate Minded(s: State, r: RunId, now: Time)
    requires r in s.runs
  {
    || r in Owed(s, now)
    || (s.runs[r].IsWaiting(now) && !Slept(s, r))
    || exists id :: Carried(s, id, now) && s.tasks[id].run == r
  }

  /** In every reachable state, a running run is forgotten exactly when it is
      parked over a signal that has come, with nothing of it in flight. */
  lemma ForgottenIff(tools: Tools, acts: seq<Action>, r: RunId, now: Time)
    requires r in Last(States(tools, acts)).runs && Last(States(tools, acts)).runs[r].status.RunRunning?
    ensures var s := Last(States(tools, acts));
            !Minded(s, r, now) <==> s.runs[r].IsWaiting(now) && Slept(s, r) && !InFlight(s, r)
  {
    hide States, Good, Inv, Evolves, Slept;
    AllReachable(tools, acts);
    GoodAt(States(tools, acts), |acts|, |acts|);
    var s := Last(States(tools, acts));
    if id :| id in s.tasks && s.tasks[id].run == r && !s.tasks[id].status.IsTerminal() {
      InFlightIsCarried(s, id, now);
      assert Carried(s, id, now) && s.tasks[id].run == r;
    }
    if id :| Carried(s, id, now) && s.tasks[id].run == r { CarriedIsInFlight(s, id, now); }
  }

  lemma CarriedIsInFlight(s: State, id: TaskId, now: Time)
    requires Carried(s, id, now)
    ensures id in s.tasks && !s.tasks[id].status.IsTerminal()
  {
  }

  /** No run is forgotten, as long as no delivery falls between a pass's reading
      of the signals and its commit, and every park on a signal is followed by
      another look. */
  lemma NoRunIsForgotten(tools: Tools, acts: seq<Action>, r: RunId, now: Time)
    requires r in Last(States(tools, acts)).runs && Last(States(tools, acts)).runs[r].status.RunRunning?
    requires Undisturbed(acts, r) && LooksAgain(tools, acts, r)
    ensures Minded(Last(States(tools, acts)), r, now)
  {
    hide States, Undisturbed, LooksAgain, Minded, Slept;
    NoRunSleepsThrough(tools, acts, r);
    ForgottenIff(tools, acts, r, now);
  }

  // ----- two runs that are -----

  const R: RunId := "r"

  /** Ask for "go", and wait for as long as it takes. */
  function WaitForGo(run: Run, h: seq<Event>): Answer {
    Decided(WaitForSignal("S1", "go", ZERO_TIME))
  }

  const CFG: Config := Config("agent", "v1", 30, 3, WaitForGo)

  /** The signal is early, and the engine stops between its park and its second look. */
  function StopsTooSoon(): seq<Action> {
    [Start(R, "agent", "v1", None),
     Deliver(R, 1, "x", "go", None),
     Action.Advance(CFG, R, 2, 2, 2, None, 0, [])]
  }

  /** Nothing stops here. A delivery under another name releases the run; a pass
      reads the signals and finds none to take; the signal arrives; and that
      pass parks the run again. */
  function ReadsTooSoon(): seq<Action> {
    [Start(R, "agent", "v1", None),
     Action.Advance(CFG, R, 1, 1, 1, None, 0, []),
     Deliver(R, 2, "y", "other", None),
     Deliver(R, 3, "x", "go", None),
     Action.Advance(CFG, R, 3, 3, 3, None, 0, [])]
  }

  const GO := Wait(WaitSignal, "S1", INDEFINITE, "go")

  predicate Stands(s: State, version: int, park: Option<Time>, open: Option<Wait>) {
    && R in s.runs && s.runs[R] == Run("agent", "v1", RunRunning, version, None, None, "", park)
    && Pending(Hist(s, R)) == open && Consumed(Hist(s, R)) == [] && s.tasks == map[] && s.clock == 0
    && forall k :: 0 <= k < |Hist(s, R)| ==> !Hist(s, R)[k].typ.EvFanOutStarted?
  }

  lemma StepOf(acts: seq<Action>, k: nat)
    requires k < |acts|
    ensures var past := States(map[], acts);
            past[0] == EMPTY && past[k + 1] == Next(map[], past[..k + 1], acts[k]) && Last(past[..k + 1]) == past[k]
  {
    hide Next;
    StepAt(map[], acts, k);
    EmptyAtFirst(map[], acts);
  }

  lemma Started()
    ensures var s := Next(map[], [EMPTY], StopsTooSoon()[0]); Stands(s, 0, None, None) && s.signals == map[]
  {
    var s := Next(map[], [EMPTY], StopsTooSoon()[0]);
    assert Hist(s, R)[..0] == [];
  }

  lemma DeliveredTo(s: State, version: int, park: Option<Time>, open: Option<Wait>, id: string, name: string)
    requires Stands(s, version, park, open) && SignalKey(R, id) !in s.signals
    ensures var t := DeliverTx(s, R, id, name, None, 0).st;
            Stands(t, version, None, open) && t.signals == s.signals[SignalKey(R, id) := Signal(name, None, 0)]
  {
    hide Pending, Consumed;
    SameHistory(s, R, id, name, None);
  }

  lemma NoFanOut(h: seq<Event>)
    requires forall k :: 0 <= k < |h| ==> !h[k].typ.EvFanOutStarted?
    ensures Joining(h).None?
  {
    hide LastFanOut, ChildrenSince, SomeUnreadableFanOut;
    assert LastFanOut(h) == -1;
  }

  /** The first pass parks the run. */
  lemma ParksOnGo(s: State)
    requires Stands(s, 0, None, None)
    ensures var t := Alone(CFG, s, R, None, 0, []);
            Stands(t, 1, Some(INDEFINITE), Some(GO)) && t.signals == s.signals && (Unheard(s, R, "go") ==> Slept(t, R))
  {
    hide Pending, Consumed, Log, Joining, Unheard, Slept, Alone, Ids;
    NoFanOut(Hist(s, R));
    ParkCommits(CFG, s, R, "S1", "go", ZERO_TIME, 0, []);
    ParkSleepsIff(s, R, None, "S1", "go", ZERO_TIME);
    ParkOpens(s, R, "S1", "go", ZERO_TIME);
    var f := Fact(EvSignalWaitStarted, "S1", SignalWaitData("go", ZERO_TIME));
    var t := Parked(s, R, "S1", "go", ZERO_TIME);
    assert Hist(t, R) == Log(Hist(s, R), f);
    StampIs(Hist(s, R), f);
    LoggedNoFanOut(Hist(s, R), f);
  }

  lemma LoggedNoFanOut(h: seq<Event>, f: Fact)
    requires !f.typ.EvFanOutStarted? && forall k :: 0 <= k < |h| ==> !h[k].typ.EvFanOutStarted?
    ensures forall k :: 0 <= k < |Log(h, f)| ==> !Log(h, f)[k].typ.EvFanOutStarted?
  {
    StampIs(h, f);
    hide Stamp;
  }

  lemma IsUnheard(s: State, id: string)
    requires R in s.runs && Consumed(Hist(s, R)) == [] && SignalKey(R, id) in s.signals
    requires s.signals[SignalKey(R, id)].name == "go"
    ensures Unheard(s, R, "go")
  {
    hide Consumed, Hist;
    assert Untaken(s.signals, R, "go", Ids(Consumed(Hist(s, R))), id);
  }

  /** Parked for good over the signal it waits for, and listed nowhere. */
  ghost predicate Forgotten(s: State) {
    && R in s.runs && s.runs[R].status.RunRunning? && s.runs[R].availableAt == Some(INDEFINITE) && Slept(s, R)
    && s.tasks == map[] && forall now: Time :: now < INDEFINITE ==> R !in Owed(s, now) && !Minded(s, R, now)
  }

  lemma SleptIsForgotten(acts: seq<Action>)
    requires var s := Last(States(map[], acts));
             && Slept(s, R) && s.runs[R].availableAt == Some(INDEFINITE) && s.tasks == map[]
    ensures Forgotten(Last(States(map[], acts)))
  {
    hide States, Slept, Minded;
    var s := Last(States(map[], acts));
    SleptIsRunning(s, R);
    forall now: Time | now < INDEFINITE
      ensures R !in Owed(s, now) && !Minded(s, R, now)
    {
      ForgottenIff(map[], acts, R, now);
    }
  }

  lemma {:induction false} AloneIs(acts: seq<Action>, k: nat, i: nat)
    requires k < |acts| && i <= k && acts[k] == Action.Advance(CFG, R, i, i, i, None, 0, [])
    requires var past := States(map[], acts);
             && R in past[i].runs && R in past[k].runs && past[k].clock == 0
             && (Pending(Hist(past[i], R)).Some? ==>
                   Chosen(past[i].signals, R, Pending(Hist(past[i], R)).value.signal, Ids(Consumed(Hist(past[i], R))),
                          None))
    ensures var past := States(map[], acts);
            past[k + 1] == CommitTx(CFG, past[k], R, past[i].runs[R],
                                    Pass(CFG, R, past[i].runs[R], Hist(past[i], R), past[i].signals, None, 0), []).st
  {
    hide States, CommitTx, Pass, Hist, Pending, Ids, Consumed, Chosen;
    StepOf(acts, k);
    assert States(map[], acts)[..k + 1][i] == States(map[], acts)[i];
  }

  lemma {:induction false} DeliverIs(acts: seq<Action>, k: nat, id: string, name: string)
    requires k < |acts| && acts[k] == Deliver(R, k, id, name, None)
    requires R in States(map[], acts)[k].runs && States(map[], acts)[k].runs[R].status.RunRunning?
    requires States(map[], acts)[k].clock == 0
    ensures States(map[], acts)[k + 1] == DeliverTx(States(map[], acts)[k], R, id, name, None, 0).st
  {
    hide States, DeliverTx;
    StepOf(acts, k);
    assert States(map[], acts)[..k + 1][k] == States(map[], acts)[k];
  }

  lemma StandsFor(s: State, version: int, park: Option<Time>, open: Option<Wait>)
    requires Stands(s, version, park, open)
    ensures R in s.runs && s.runs[R] == Run("agent", "v1", RunRunning, version, None, None, "", park)
    ensures Pending(Hist(s, R)) == open && Consumed(Hist(s, R)) == [] && s.tasks == map[] && s.clock == 0
  {
  }

  lemma {:induction false} AfterStart(acts: seq<Action>)
    requires |acts| > 0 && acts[0] == StopsTooSoon()[0]
    ensures Stands(States(map[], acts)[1], 0, None, None) && States(map[], acts)[1].signals == map[]
  {
    hide States, Next, Stands;
    StepOf(acts, 0);
    assert States(map[], acts)[..1] == [EMPTY];
    Started();
  }

  /** An early signal, and an engine that stops before its second look. */
  lemma EarlySignalIsSleptThrough()
    ensures Forgotten(Last(States(map[], StopsTooSoon())))
  {
    hide States, Next, Stands, Alone, Slept, Forgotten, Unheard, Hist, Pending, Consumed, Chosen, Ids, CommitTx, Pass,
         DeliverTx;
    var acts := StopsTooSoon();
    var past := States(map[], acts);
    AfterStart(acts);
    StandsFor(past[1], 0, None, None);
    DeliverIs(acts, 1, "x", "go");
    DeliveredTo(past[1], 0, None, None, "x", "go");
    StandsFor(past[2], 0, None, None);
    IsUnheard(past[2], "x");
    AloneIs(acts, 2, 2);
    ParksOnGo(past[2]);
    AloneIsCommit(past[2]);
    StandsFor(past[3], 1, Some(INDEFINITE), Some(GO));
    SleptIsForgotten(acts);
  }

  lemma AloneIsCommit(s: State)
    requires R in s.runs
    ensures Alone(CFG, s, R, None, 0, []) ==
            CommitTx(CFG, s, R, s.runs[R], Pass(CFG, R, s.runs[R], Hist(s, R), s.signals, None, 0), []).st
  {
  }

  lemma NothingToTake(s: State)
    requires R in s.runs && forall id :: SignalKey(R, id) in s.signals ==> s.signals[SignalKey(R, id)].name != "go"
    ensures Chosen(s.signals, R, "go", Ids(Consumed(Hist(s, R))), None)
  {
    hide Hist, Consumed;
  }

  /** What the slow pass commits: the park again, with the version it read. */
  lemma Reparks(b: State, d: State)
    requires Stands(b, 1, None, Some(GO)) && Stands(d, 1, None, Some(GO))
    requires SignalKey(R, "x") in d.signals && d.signals[SignalKey(R, "x")].name == "go"
    ensures var t := CommitTx(CFG, d, R, b.runs[R], Pass(CFG, R, b.runs[R], Hist(b, R), b.signals, None, 0), []).st;
            Slept(t, R) && t.runs[R].availableAt == Some(INDEFINITE) && t.tasks == map[]
  {
    hide Hist, Pending, Consumed, Ids, Joining, Called;
    var next := RunState(RunRunning, None, "", Some(INDEFINITE));
    var t := CommitTx(CFG, d, R, b.runs[R], Pass(CFG, R, b.runs[R], Hist(b, R), b.signals, None, 0), []).st;
    assert t == Bump(d, R, next);
    BumpKeepsHistory(d, R, next);
    IsUnheard(d, "x");
    CalledAgain(d, t);
  }

  lemma CalledAgain(d: State, t: State)
    requires Pending(Hist(d, R)) == Some(GO) && Unheard(d, R, "go") && Hist(t, R) == Hist(d, R) &&
             t.signals == d.signals
    ensures Called(t, R)
  {
    hide Hist, Pending, Consumed, Ids;
  }

  /** A signal that arrives while a pass that found none is on its way. */
  lemma LateSignalIsSleptThrough()
    ensures Forgotten(Last(States(map[], ReadsTooSoon())))
  {
    hide States, Next, Stands, Alone, Slept, Forgotten, Unheard, Hist, Pending, Consumed, Chosen, Ids, CommitTx, Pass,
         DeliverTx;
    var acts := ReadsTooSoon();
    var past := States(map[], acts);
    AfterStart(acts);
    StandsFor(past[1], 0, None, None);
    AloneIs(acts, 1, 1);
    ParksOnGo(past[1]);
    AloneIsCommit(past[1]);
    StandsFor(past[2], 1, Some(INDEFINITE), Some(GO));
    DeliverIs(acts, 2, "y", "other");
    DeliveredTo(past[2], 1, Some(INDEFINITE), Some(GO), "y", "other");
    StandsFor(past[3], 1, None, Some(GO));
    DeliverIs(acts, 3, "x", "go");
    DeliveredTo(past[3], 1, None, Some(GO), "x", "go");
    StandsFor(past[4], 1, None, Some(GO));
    NothingToTake(past[3]);
    AloneIs(acts, 4, 3);
    Reparks(past[3], past[4]);
    SleptIsForgotten(acts);
  }

  // ----- a signal for a finished run -----

  /** The delivery looks at the run while it runs, and stores its signal once the
      run has failed. */
  function LooksTooSoon(): seq<Action> {
    [Start(R, "agent", "v1", None), Action.FailRun(R, 1, "gone"), Deliver(R, 1, "x", "go", None)]
  }

  lemma FailsAtOnce(s: State)
    requires Stands(s, 0, None, None)
    ensures var t := AdvanceTx(s, R, 0, RunFailure(s.runs[R], "gone"),
                               Some(Fact(EvRunFailed, "", RunFailedData("gone")))).st;
            R in t.runs && t.runs[R].status.RunFailed? && t.signals == s.signals && t.clock == 0
  {
    hide Log, Pending, Consumed, Hist;
  }

  lemma StoredAnyway(s: State)
    requires R in s.runs && s.runs[R].status.RunFailed? && SignalKey(R, "x") !in s.signals
    ensures var t := DeliverTx(s, R, "x", "go", None, 0).st;
            R in t.runs && t.runs[R].status.RunFailed? && SignalKey(R, "x") in t.signals
  {
  }

  /** "A signal for a finished run is refused rather than stored": here it is
      stored, and its sender told that it was. */
  lemma AFinishedRunIsSignalled()
    ensures var past := States(map[], LooksTooSoon());
            && |past| == 4 && R in past[1].runs && !past[1].runs[R].status.IsTerminal()
            && R in past[2].runs && past[2].runs[R].status.RunFailed? && SignalKey(R, "x") !in past[2].signals
            && R in past[3].runs && past[3].runs[R].status.RunFailed? && SignalKey(R, "x") in past[3].signals
  {
    hide States, Stands, AdvanceTx, DeliverTx;
    var acts := LooksTooSoon();
    var past := States(map[], acts);
    AfterStart(acts);
    StandsFor(past[1], 0, None, None);
    StepOf(acts, 1);
    assert past[..2][1] == past[1];
    FailsAtOnce(past[1]);
    StepOf(acts, 2);
    assert past[..3][1] == past[1];
    StoredAnyway(past[2]);
  }
}
