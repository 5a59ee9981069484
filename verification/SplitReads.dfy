/** The run that a re-read apart from its commit would break: two engines, two
    sleeps, and between one engine's resume and its re-read the other's pass. */
module SplitReads {
  import opened Prelude
  import opened Names
  import opened Core
  import opened Tables
  import opened Waits
  import opened Invariants
  import opened Transactions
  import opened RunSteps
  import opened FanOuts
  import opened Advancing
  import opened Behaviours
  import opened Recovery
  import opened DeadLetters

  const R: RunId := "r"

  /** Sleep twice: a decider that repeats itself until its sleep is over. */
  function SleepTwice(run: Run, h: seq<Event>): Answer {
    if |h| < 3 then Decided(Sleep("S1", 5)) else Decided(Sleep("S2", 20))
  }

  const CFG: Config := Config("agent", "v1", 30, 3, SleepTwice)

  /** The first engine parks the run and, once its sleep is over, resumes it;
      before that engine reads again, the second makes a pass. */
  function TwoEngines(): seq<Action> {
    [Start(R, "agent", "v1", None),
     Action.Advance(CFG, R, 1, 1, 1, None, 0, []),
     Tick(10),
     Action.Advance(CFG, R, 3, 3, 3, None, 10, []),
     Action.Advance(CFG, R, 4, 4, 4, None, 10, [])]
  }

  predicate Stands(s: State, version: int, park: Option<Time>, n: nat, clock: Time) {
    && R in s.runs && s.runs[R] == Run("agent", "v1", RunRunning, version, None, None, "", park)
    && |Hist(s, R)| == n && (forall k :: 0 <= k < n ==> !Hist(s, R)[k].typ.EvFanOutStarted?) && s.clock == clock
  }

  lemma NoFanOut(h: seq<Event>)
    requires forall k :: 0 <= k < |h| ==> !h[k].typ.EvFanOutStarted?
    ensures Joining(h).None?
  {
    hide LastFanOut, ChildrenSince, SomeUnreadableFanOut;
    assert LastFanOut(h) == -1;
  }

  function FreshPass(s: State, now: Time): State
    requires R in s.runs
  {
    CommitTx(CFG, s, R, s.runs[R], Pass(CFG, R, s.runs[R], Hist(s, R), s.signals, None, now), []).st
  }

  /** A pass that asks, and parks the run on what it is told. */
  lemma PassSleeps(s: State, version: int, n: nat, clock: Time, step: StepId, at: Time, now: Time)
    requires Stands(s, version, None, n, clock) && Pending(Hist(s, R)).None?
    requires SleepTwice(s.runs[R], Hist(s, R)) == Decided(Sleep(step, at))
    ensures var t := FreshPass(s, now);
            && Stands(t, version + 1, Some(at), n + 1, clock) && t.signals == s.signals
            && Pending(Hist(t, R)) == Some(Wait(WaitTimer, step, at, ""))
  {
    PassParks(s, version, n, clock, step, at, now);
    hide FreshPass, Pending, Log, SleepTwice;
    var f := Fact(EvTimerSet, step, TimerSetData(at));
    var t := FreshPass(s, now);
    assert Hist(t, R) == Log(Hist(s, R), f);
    PendingLog(Hist(s, R), f);
    StampIs(Hist(s, R), f);
    LongerByOne(Hist(s, R), f);
  }

  lemma PassParks(s: State, version: int, n: nat, clock: Time, step: StepId, at: Time, now: Time)
    requires Stands(s, version, None, n, clock) && Pending(Hist(s, R)).None?
    requires SleepTwice(s.runs[R], Hist(s, R)) == Decided(Sleep(step, at))
    ensures FreshPass(s, now) == AdvanceTx(s, R, version, RunState(RunRunning, None, "", Some(at)),
                                           Some(Fact(EvTimerSet, step, TimerSetData(at)))).st
  {
    NoFanOut(Hist(s, R));
    hide Joining, Pending, AdvanceTx, Hist;
  }

  lemma LongerByOne(h: seq<Event>, f: Fact)
    requires !f.typ.EvFanOutStarted? && forall k :: 0 <= k < |h| ==> !h[k].typ.EvFanOutStarted?
    ensures |Log(h, f)| == |h| + 1 && forall k :: 0 <= k < |h| + 1 ==> !Log(h, f)[k].typ.EvFanOutStarted?
  {
    StampIs(h, f);
    hide Stamp;
  }

  /** A pass that finds the sleep over, and says so. */
  lemma PassWakes(s: State, version: int, n: nat, clock: Time, step: StepId, at: Time, now: Time)
    requires Stands(s, version, Some(at), n, clock) && Pending(Hist(s, R)) == Some(Wait(WaitTimer, step, at, "")) &&
             at <= now
    ensures var t := FreshPass(s, now);
            Stands(t, version + 1, None, n + 1, clock) && Pending(Hist(t, R)).None?
  {
    hide Joining, Pending, Log;
    var f := Fact(EvTimerFired, step, TimerFiredData(at));
    var t := FreshPass(s, now);
    assert Hist(t, R) == Log(Hist(s, R), f);
    PendingLog(Hist(s, R), f);
    StampIs(Hist(s, R), f);
    LongerByOne(Hist(s, R), f);
  }

  lemma StepOf(k: nat)
    requires k < 5
    ensures var past := States(map[], TwoEngines());
            |past| == 6 && past[0] == EMPTY && past[k + 1] == Next(map[], past[..k + 1], TwoEngines()[k]) &&
              Last(past[..k + 1]) == past[k]
  {
    hide Next;
    StepAt(map[], TwoEngines(), k);
    EmptyAtFirst(map[], TwoEngines());
  }

  lemma PassOfStory(past: seq<State>, k: nat, now: Time)
    requires past == States(map[], TwoEngines()) && k < 5 && |past| == 6
    requires TwoEngines()[k] == Action.Advance(CFG, R, k, k, k, None, now, [])
    requires R in past[k].runs && now <= past[k].clock
    requires Pending(Hist(past[k], R)).Some? ==>
             Pending(Hist(past[k], R)).value.signal == "" && past[k].signals == map[]
    ensures past[k + 1] == FreshPass(past[k], now)
  {
    hide States, CommitTx, Pass, Hist, Pending, Ids, Consumed;
    StepOf(k);
    assert past[..k + 1][k] == past[k];
  }

  lemma Started()
    ensures var s := Next(map[], [EMPTY], TwoEngines()[0]);
            Stands(s, 0, None, 1, 0) && Pending(Hist(s, R)).None? && s.signals == map[]
  {
    var s := Next(map[], [EMPTY], TwoEngines()[0]);
    assert Hist(s, R)[..0] == [];
  }

  /** The five steps end where the second engine has parked the run again. */
  lemma AfterTwoEngines()
    ensures var s := Last(States(map[], TwoEngines()));
            Stands(s, 3, Some(20), 4, 10) && Pending(Hist(s, R)) == Some(Wait(WaitTimer, "S2", 20, ""))
  {
    hide States, Next, Stands, FreshPass, Pending, Hist;
    var past := States(map[], TwoEngines());
    StepOf(0);
    assert past[..1] == [EMPTY];
    Started();
    Step1(past);
    Step2(past);
    Step3(past);
    Step4(past);
  }

  lemma Step1(past: seq<State>)
    requires past == States(map[], TwoEngines()) && |past| == 6
    requires Stands(past[1], 0, None, 1, 0) && Pending(Hist(past[1], R)).None? && past[1].signals == map[]
    ensures Stands(past[2], 1, Some(5), 2, 0) && Pending(Hist(past[2], R)) == Some(Wait(WaitTimer, "S1", 5, "")) &&
            past[2].signals == map[]
  {
    hide States, FreshPass, Pending, Hist;
    PassOfStory(past, 1, 0);
    PassSleeps(past[1], 0, 1, 0, "S1", 5, 0);
  }

  lemma Step2(past: seq<State>)
    requires past == States(map[], TwoEngines()) && |past| == 6
    requires Stands(past[2], 1, Some(5), 2, 0) && Pending(Hist(past[2], R)) == Some(Wait(WaitTimer, "S1", 5, "")) &&
             past[2].signals == map[]
    ensures Stands(past[3], 1, Some(5), 2, 10) && Pending(Hist(past[3], R)) == Some(Wait(WaitTimer, "S1", 5, "")) &&
            past[3].signals == map[]
  {
    hide States, FreshPass, Pending;
    StepOf(2);
  }

  lemma Step3(past: seq<State>)
    requires past == States(map[], TwoEngines()) && |past| == 6
    requires Stands(past[3], 1, Some(5), 2, 10) && Pending(Hist(past[3], R)) == Some(Wait(WaitTimer, "S1", 5, "")) &&
             past[3].signals == map[]
    ensures Stands(past[4], 2, None, 3, 10) && Pending(Hist(past[4], R)).None?
  {
    hide States, FreshPass, Pending, Hist;
    PassOfStory(past, 3, 10);
    PassWakes(past[3], 1, 2, 10, "S1", 5, 10);
  }

  lemma Step4(past: seq<State>)
    requires past == States(map[], TwoEngines()) && |past| == 6
    requires Stands(past[4], 2, None, 3, 10) && Pending(Hist(past[4], R)).None?
    ensures Stands(past[5], 3, Some(20), 4, 10) && Pending(Hist(past[5], R)) == Some(Wait(WaitTimer, "S2", 20, ""))
  {
    hide States, FreshPass, Pending, Hist;
    PassOfStory(past, 4, 10);
    PassSleeps(past[4], 2, 3, 10, "S2", 20, 10);
  }

  /** There the first engine, if its re-read were a step of its own, would find
      the run running and its version current, ask, be told to sleep, and commit
      a second open wait. */
  lemma TheSplitRereadBreaks()
    ensures var s := Last(States(map[], TwoEngines()));
            && Inv(s) && R in s.runs && s.runs[R].status.RunRunning?
            && var t := CommitTx(CFG, s, R, s.runs[R], AskDecider(CFG, s.runs[R], Hist(s, R)), []).st;
               |Unmatched(Hist(t, R))| == 2 && !Inv(t)
  {
    hide States, Good, Inv, Evolves, Pending, Hist, Unmatched, CommitTx, AskDecider, Joining;
    AfterTwoEngines();
    AllReachable(map[], TwoEngines());
    GoodAt(States(map[], TwoEngines()), 5, 5);
    var s := Last(States(map[], TwoEngines()));
    NoFanOut(Hist(s, R));
    SplitRereadOpensTwo(CFG, s, R, "S2", 20);
  }
}
