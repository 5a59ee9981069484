/** Runs that sleep through a signal. A run that waits for one is parked, the
    recovery scan does not list it, and what wakes it is the delivery. Here is
    when that is enough, and when it is not. */
module WakeUps {
  import opened Prelude
  import opened Names
  import opened Core
  import opened Tables
  import opened Waits
  import opened Invariants
  import opened Transactions
  import opened RunSteps
  import opened CreateSteps
  import opened FanOuts
  import opened Advancing
  import opened Behaviours
  import opened Frames
  import opened Arrivals
  import opened DeadLetters
  import opened Following
  import opened Queries

  /** A signal of the name this run waits for is stored, and not taken. */
  ghost predicate Called(s: State, r: RunId) {
    && Pending(Hist(s, r)).Some? && Pending(Hist(s, r)).value.kind.WaitSignal?
    && Unheard(s, r, Pending(Hist(s, r)).value.signal)
  }

  ghost predicate Unheard(s: State, r: RunId, name: string) {
    exists id :: Untaken(s.signals, r, name, Ids(Consumed(Hist(s, r))), id)
  }

  /** The run is parked over it. */
  ghost predicate Slept(s: State, r: RunId) {
    r in s.runs && s.runs[r].status.RunRunning? && s.runs[r].availableAt.Some? && Called(s, r)
  }

  // ----- the two commits that park a run on a signal -----

  /** Parking on a signal: the run sleeps through one exactly when one is stored
      already, in the very tables the commit lands on. */
  lemma ParkSleepsIff(s: State, r: RunId, output: Json, step: StepId, name: string, deadline: Time)
    requires r in s.runs && s.runs[r].status.RunRunning?
    ensures var t := AdvanceTx(s, r, s.runs[r].version, RunState(RunRunning, output, "", Some(WaitDeadline(deadline))),
                               Some(Fact(EvSignalWaitStarted, step, SignalWaitData(name, deadline)))).st;
            Slept(t, r) <==> Unheard(s, r, name)
  {
    hide Log, Untaken;
    var f := Fact(EvSignalWaitStarted, step, SignalWaitData(name, deadline));
    var t := AdvanceTx(s, r, s.runs[r].version, RunState(RunRunning, output, "", Some(WaitDeadline(deadline))),
                       Some(f)).st;
    assert Hist(t, r) == Log(Hist(s, r), f);
    hide Hist;
    PendingLog(Hist(s, r), f);
    StampIs(Hist(s, r), f);
    ConsumedNothing(Hist(s, r), f);
    hide Pending, Consumed, Ids;
    assert t.signals == s.signals;
  }

  /** A signal of this name that c does not have and d has. */
  predicate Arrived(c: State, d: State, r: RunId, name: string, id: string) {
    SignalKey(r, id) in d.signals && SignalKey(r, id) !in c.signals && d.signals[SignalKey(r, id)].name == name
  }

  /** Between reads in order, the signals not taken at the commit are those not
      taken at the reading, and those that have arrived since. */
  lemma UntakenSince(a: State, b: State, c: State, d: State, r: RunId, name: string, id: string)
    requires StaleReads(a, b, c, d, r) && Inv(c) && Evolves(b, c) && r in d.runs &&
             d.runs[r].version == a.runs[r].version
    ensures Untaken(d.signals, r, name, Ids(Consumed(Hist(d, r))), id) <==>
            Untaken(c.signals, r, name, Ids(Consumed(Hist(b, r))), id) || Arrived(c, d, r, name, id)
  {
    hide Inv, Pending, Hist, Consumed, Ids;
    UnmovedRun(a, b, c, d, r);
    SameTaken(b, c, d, r);
    hide Evolves, StaleReads;
    TakenAreThere(c, r, id);
    if SignalKey(r, id) in c.signals { SignalStands(c, d, SignalKey(r, id)); }
  }

  lemma SameTaken(b: State, c: State, d: State, r: RunId)
    requires Evolves(b, c) && Evolves(c, d) && r in b.runs && Consumed(Hist(b, r)) == Consumed(Hist(d, r))
    ensures Consumed(Hist(c, r)) == Consumed(Hist(b, r))
  {
    hide Evolves, Pending, Consumed, Hist;
    RunEvolvesOf(b, c, r);
    RunEvolvesOf(c, d, r);
  }

  lemma TakenAreThere(c: State, r: RunId, id: string)
    requires Inv(c)
    ensures id in Ids(Consumed(Hist(c, r))) ==> SignalKey(r, id) in c.signals
  {
    hide Inv, Consumed, Hist;
    ConsumedAreRecorded(c, r);
  }

  ghost predicate SomeArrived(c: State, d: State, r: RunId, name: string) {
    exists id :: Arrived(c, d, r, name, id)
  }

  /** Parking again on a wait nothing had ended: the run sleeps through a signal
      exactly when one of that name has arrived between the reading of the
      signals, in c, and the commit, on d. */
  lemma ReparkSleepsIff(a: State, b: State, c: State, d: State, r: RunId, w: Wait, output: Json)
    requires StaleReads(a, b, c, d, r) && Inv(c) && Evolves(b, c)
    requires r in d.runs && d.runs[r].version == a.runs[r].version && d.runs[r].status.RunRunning?
    requires Pending(Hist(b, r)) == Some(w) && w.kind.WaitSignal?
    requires Chosen(c.signals, r, w.signal, Ids(Consumed(Hist(b, r))), None)
    ensures var t := AdvanceTx(d, r, d.runs[r].version, RunState(RunRunning, output, "", Some(w.until)), None).st;
            Slept(t, r) <==> SomeArrived(c, d, r, w.signal)
  {
    hide Inv, Evolves, StaleReads, Pending, Hist, Consumed, Ids, Untaken, Arrived;
    UnmovedRun(a, b, c, d, r);
    forall id
      ensures Untaken(d.signals, r, w.signal, Ids(Consumed(Hist(d, r))), id) <==> Arrived(c, d, r, w.signal, id)
    {
      UntakenSince(a, b, c, d, r, w.signal, id);
    }
    var t := AdvanceTx(d, r, d.runs[r].version, RunState(RunRunning, output, "", Some(w.until)), None).st;
    assert t.signals == d.signals;
    BumpKeepsHistory(d, r, RunState(RunRunning, output, "", Some(w.until)));
  }

  lemma BumpKeepsHistory(s: State, r: RunId, next: RunState)
    requires r in s.runs
    ensures Hist(Bump(s, r, next), r) == Hist(s, r)
  {
  }

  // ----- what a step does to a run it is not about -----

  /** Neither a pass over this run, nor failRun of it, nor a delivery to it. */
  predicate Elsewhere(a: Action, r: RunId) {
    !(a.Advance? && a.r == r) && !(a.FailRun? && a.r == r) && !(a.Deliver? && a.r == r)
  }

  predicate RowStands(s: State, t: State, r: RunId) {
    r in s.runs ==> r in t.runs && t.runs[r] == s.runs[r]
  }

  lemma CommitElsewhere(cfg: Config, s: State, q: RunId, run: Run, c: Commitment, ids: seq<TaskId>, r: RunId)
    ensures var t := CommitTx(cfg, s, q, run, c, ids).st;
            (q != r ==> RowStands(s, t, r)) && t.signals == s.signals
  {
    hide AdvanceTx, DispatchTx, FanOutTx, RowStands;
    StandsItself(s, r);
    match c {
      case Nothing =>
      case Write(next, fact) => WriteElsewhere(s, q, run.version, next, fact, r);
      case Dispatch(step, call) =>
        if |ids| > 0 { DispatchElsewhere(s, q, run, step, ids[0], call, cfg.maxAttempts, r); }
      case Fan(step, calls, join) =>
        if |ids| == |calls| { FanOutElsewhere(s, q, run, step, calls, join, ids, cfg.maxAttempts, r); }
    }
  }

  lemma DispatchElsewhere(s: State, q: RunId, run: Run, step: StepId, id: TaskId, call: Call, max: int, r: RunId)
    ensures var t := DispatchTx(s, q, run.version, run.output, step, id, call, max).st;
            (q != r ==> RowStands(s, t, r)) && t.signals == s.signals
  {
    hide AddTask;
    if q in s.runs { AddedFields(Bump(s, q, RunState(RunRunning, run.output, "", None)), q, step, id, call, max); }
  }

  lemma FanOutElsewhere(s: State, q: RunId, run: Run, step: StepId, calls: seq<Call>, join: JoinPolicy,
                        ids: seq<TaskId>, max: int, r: RunId)
    requires |ids| == |calls|
    ensures var t := FanOutTx(s, q, run.version, run.output, step, calls, join, ids, max).st;
            (q != r ==> RowStands(s, t, r)) && t.signals == s.signals
  {
    hide AddChildren, Log;
    if q in s.runs {
      var o := LogOn(Bump(s, q, RunState(RunRunning, run.output, "", None)), q,
                     Fact(EvFanOutStarted, step, FanOutData(ToolNames(calls), PolicyText(join))));
      ChildrenKeepRuns(o, q, step, calls, ids, max, |calls|);
      ChildrenKeepSignals(o, q, step, calls, ids, max, |calls|);
    }
  }

  lemma {:induction false} ChildrenKeepSignals(s: State, r: RunId, step: StepId, calls: seq<Call>, ids: seq<TaskId>,
                                               max: int, n: nat)
    requires |ids| == |calls| && n <= |calls|
    ensures AddChildren(s, r, step, calls, ids, max, n).st.signals == s.signals
  {
    hide Child, AddTask;
    if n > 0 {
      ChildrenKeepSignals(s, r, step, calls, ids, max, n - 1);
      var before := AddChildren(s, r, step, calls, ids, max, n - 1).st;
      AddedFields(before, r, Child(step, n - 1), ids[n - 1], calls[n - 1], max);
    }
  }

  lemma OutsideStands(tools: Tools, past: seq<State>, a: Action, r: RunId)
    requires past != [] && (a.Tick? || a.Start? || a.Deliver? || a.Register? || a.Mark?)
    ensures Elsewhere(a, r) ==> RowStands(Last(past), Next(tools, past, a), r)
    ensures !a.Deliver? ==> Next(tools, past, a).signals == Last(past).signals
  {
    hide Log, CommitTx, AdvanceTx, HeartbeatTx, ClaimTx, CompleteTx, FailTx, ReclaimTx, Executed, AdvanceEnabled,
         ReserveTx, EffectTx, NoteTx;
  }

  lemma WriteElsewhere(s: State, q: RunId, expected: int, next: RunState, fact: Option<Fact>, r: RunId)
    ensures var t := AdvanceTx(s, q, expected, next, fact).st;
            (q != r ==> RowStands(s, t, r)) && t.signals == s.signals
  {
    hide Log;
  }

  /** Only passes, failRun and deliveries change a run's row, and only deliveries
      store signals. */
  lemma OthersStand(tools: Tools, past: seq<State>, a: Action, r: RunId)
    requires past != []
    ensures Elsewhere(a, r) ==> RowStands(Last(past), Next(tools, past, a), r)
    ensures !a.Deliver? ==> Next(tools, past, a).signals == Last(past).signals
  {
    hide RowStands, CommitTx, AdvanceTx, Pass, Chosen, Hist, Pending, Ids, Consumed;
    var s := Last(past);
    if a.Advance? {
      StandsItself(s, r);
      if AdvanceEnabled(past, a) { CommitElsewhere(a.cfg, s, a.r, past[a.i].runs[a.r], PassOf(past, a), a.ids, r); }
    } else if a.FailRun? {
      StandsItself(s, r);
      if a.i < |past| && a.r in past[a.i].runs {
        var run := past[a.i].runs[a.r];
        WriteElsewhere(s, a.r, run.version, RunFailure(run, a.reason),
                       Some(Fact(EvRunFailed, "", RunFailedData(a.reason))), r);
      }
    } else {
      hide Next;
      if a.Tick? || a.Start? || a.Deliver? || a.Register? || a.Mark? {
        OutsideStands(tools, past, a, r);
      } else {
        if MovesTasks(a) || a.Heartbeat? {
          WorkAdvancesNothing(tools, past, a);
        } else {
          LedgerAdvancesNothing(tools, past, a);
        }
        SameRowsStand(s, Next(tools, past, a), r);
      }
    }
  }

  lemma StandsItself(s: State, r: RunId)
    ensures RowStands(s, s, r)
  {
  }

  lemma SameRowsStand(s: State, t: State, r: RunId)
    requires t.runs == s.runs
    ensures RowStands(s, t, r)
  {
  }

  /** Signals are kept, and one that nobody consumed meanwhile is still to take. */
  lemma StillCalled(s: State, t: State, r: RunId)
    requires Evolves(s, t) && r in s.runs && r in t.runs && t.runs[r].version == s.runs[r].version && Called(s, r)
    ensures Called(t, r)
  {
    hide Evolves, Pending, Consumed, Ids, Hist;
    RunEvolvesOf(s, t, r);
    var name := Pending(Hist(s, r)).value.signal;
    var id :| Untaken(s.signals, r, name, Ids(Consumed(Hist(s, r))), id);
    SignalStands(s, t, SignalKey(r, id));
    assert Untaken(t.signals, r, name, Ids(Consumed(Hist(t, r))), id);
  }

  lemma StandingRow(s: State, t: State, r: RunId)
    requires RowStands(s, t, r) && r in s.runs
    ensures r in t.runs && t.runs[r] == s.runs[r]
  {
  }

  /** Once a run sleeps through a signal it goes on sleeping, whatever else
      happens, until something is delivered to it, a pass is made over it, or it
      is failed; and until the end of its park the scan does not list it. */
  lemma {:induction false} SleepsOn(tools: Tools, acts: seq<Action>, i: nat, m: nat, r: RunId, now: Time)
    requires i <= m <= |acts| && Slept(States(tools, acts)[i], r)
    requires forall k :: i <= k < m ==> Elsewhere(acts[k], r)
    ensures var s, t := States(tools, acts)[i], States(tools, acts)[m];
            && Slept(t, r) && t.runs[r] == s.runs[r]
            && (now < s.runs[r].availableAt.value ==> r !in Owed(t, now))
    decreases m
  {
    hide States, Next, Good, Inv, Evolves, Called, RowStands;
    var past := States(tools, acts);
    if i < m {
      SleepsOn(tools, acts, i, m - 1, r, now);
      StepAt(tools, acts, m - 1);
      assert Last(past[..m]) == past[m - 1];
      OthersStand(tools, past[..m], acts[m - 1], r);
      StandingRow(past[m - 1], past[m], r);
      AllReachable(tools, acts);
      GoodAt(past, m - 1, m);
      StillCalled(past[m - 1], past[m], r);
    }
  }

  // ----- deliveries between two moments -----

  /** Step k stored a signal of this name for r. */
  ghost predicate Stores(tools: Tools, acts: seq<Action>, k: nat, r: RunId, name: string)
    requires k < |acts|
  {
    var a := acts[k];
    && a.Deliver? && a.r == r && a.name == name
    && SignalKey(r, a.signal) !in States(tools, acts)[k].signals
    && SignalKey(r, a.signal) in States(tools, acts)[k + 1].signals
  }

  ghost predicate DeliveredIn(tools: Tools, acts: seq<Action>, i: nat, m: nat, r: RunId, name: string)
    requires m <= |acts|
  {
    exists k: nat :: i <= k < m && Stores(tools, acts, k, r, name)
  }

  /** A signal that was not there and now is was stored by a step in between. */
  lemma {:induction false} StoredBySomeStep(tools: Tools, acts: seq<Action>, i: nat, m: nat, r: RunId, name: string,
                                            id: string) returns (k: nat)
    requires i <= m <= |acts| && Arrived(States(tools, acts)[i], States(tools, acts)[m], r, name, id)
    ensures i <= k < m && Stores(tools, acts, k, r, name) && acts[k].signal == id
    decreases m
  {
    hide States, Next, Good, Inv, Evolves;
    var past := States(tools, acts);
    AllReachable(tools, acts);
    GoodAt(past, m - 1, m);
    var key := SignalKey(r, id);
    if key in past[m - 1].signals {
      SignalStands(past[m - 1], past[m], key);
      k := StoredBySomeStep(tools, acts, i, m - 1, r, name, id);
    } else {
      k := m - 1;
      StepAt(tools, acts, k);
      assert Last(past[..m]) == past[k];
      OthersStand(tools, past[..m], acts[k], r);
      DeliveryStores(tools, past[..m], acts[k], key);
    }
  }

  lemma DeliveryStores(tools: Tools, past: seq<State>, a: Action, key: SignalKey)
    requires past != [] && a.Deliver? && key !in Last(past).signals && key in Next(tools, past, a).signals
    ensures key == SignalKey(a.r, a.signal) && Next(tools, past, a).signals[key].name == a.name
    ensures a.r in Next(tools, past, a).runs && Next(tools, past, a).runs[a.r].availableAt.None?
  {
  }

  /** So what has arrived between two moments is what was delivered in between. */
  lemma ArrivedIffDelivered(tools: Tools, acts: seq<Action>, i: nat, m: nat, r: RunId, name: string)
    requires i <= m <= |acts|
    ensures SomeArrived(States(tools, acts)[i], States(tools, acts)[m], r, name) <==>
            DeliveredIn(tools, acts, i, m, r, name)
  {
    hide States, Next, Good, Inv, Evolves, Arrived, Stores;
    var past := States(tools, acts);
    if id :| Arrived(past[i], past[m], r, name, id) {
      var k := StoredBySomeStep(tools, acts, i, m, r, name, id);
    }
    if k: nat :| i <= k < m && Stores(tools, acts, k, r, name) {
      StoredIsThere(tools, acts, i, k, m, r, name);
    }
  }

  lemma StoredIsThere(tools: Tools, acts: seq<Action>, i: nat, k: nat, m: nat, r: RunId, name: string)
    requires i <= k < m <= |acts| && Stores(tools, acts, k, r, name)
    ensures SomeArrived(States(tools, acts)[i], States(tools, acts)[m], r, name)
  {
    hide States, Next, Good, Inv, Evolves;
    var past := States(tools, acts);
    var key := SignalKey(r, acts[k].signal);
    StepAt(tools, acts, k);
    assert Last(past[..k + 1]) == past[k];
    DeliveryStores(tools, past[..k + 1], acts[k], key);
    AllReachable(tools, acts);
    GoodAt(past, i, k);
    GoodAt(past, k + 1, m);
    SignalStands(past[k + 1], past[m], key);
    if key in past[i].signals { SignalStands(past[i], past[k], key); }
    assert Arrived(past[i], past[m], r, name, acts[k].signal);
  }

  // ----- how a run comes to sleep through a signal -----

  /** The step opened a wait for a signal. */
  predicate Opens(s: State, t: State, r: RunId) {
    && |Hist(t, r)| == |Hist(s, r)| + 1 && Hist(s, r) < Hist(t, r)
    && Hist(t, r)[|Hist(s, r)|].typ.EvSignalWaitStarted?
  }

  lemma NotCalledByTimer(h: seq<Event>, step: StepId, wakeAt: Time)
    ensures var w := Pending(Log(h, Fact(EvTimerSet, step, TimerSetData(wakeAt)))); w.Some? && w.value.kind.WaitTimer?
  {
    PendingLog(h, Fact(EvTimerSet, step, TimerSetData(wakeAt)));
    StampIs(h, Fact(EvTimerSet, step, TimerSetData(wakeAt)));
  }

  lemma OpensByLog(s: State, t: State, r: RunId, f: Fact)
    requires Hist(t, r) == Log(Hist(s, r), f) && f.typ.EvSignalWaitStarted?
    ensures Opens(s, t, r)
  {
    StampIs(Hist(s, r), f);
  }

  lemma WrittenRow(d: State, r: RunId, expected: int, next: RunState, fact: Option<Fact>)
    requires r in d.runs && AdvanceError(d, r, expected, next).None?
    ensures var t := AdvanceTx(d, r, expected, next, fact).st;
            && r in t.runs && t.runs[r].availableAt == next.availableAt && t.runs[r].status == next.status
            && Hist(t, r) == if fact.None? then Hist(d, r) else Log(Hist(d, r), fact.value)
  {
    hide Log;
  }

  lemma FailedWrite(d: State, r: RunId, expected: int, next: RunState, fact: Option<Fact>)
    requires AdvanceError(d, r, expected, next).Some?
    ensures AdvanceTx(d, r, expected, next, fact).st == d
  {
  }

  /** A decision that leaves the run asleep over a signal has opened its wait. */
  lemma DecidingSleeps(d: State, r: RunId, run: Run, decision: Decision)
    requires r in d.runs && Enact(run, decision).Write?
    requires var c := Enact(run, decision);
             AdvanceError(d, r, run.version, c.next).None? && Slept(AdvanceTx(d, r, run.version, c.next, c.fact).st, r)
    ensures var c := Enact(run, decision); Opens(d, AdvanceTx(d, r, run.version, c.next, c.fact).st, r)
  {
    hide Log, Hist, AdvanceTx, Pending, Unheard;
    var c := Enact(run, decision);
    var t := AdvanceTx(d, r, run.version, c.next, c.fact).st;
    WrittenRow(d, r, run.version, c.next, c.fact);
    match decision {
      case Sleep(step, wakeAt) => NotCalledByTimer(Hist(d, r), step, wakeAt);
      case WaitForSignal(_, _, _) => OpensByLog(d, t, r, c.fact.value);
      case _ =>
    }
  }

  predicate SameForRun(d: State, t: State, r: RunId) {
    r in d.runs && r in t.runs && t.runs[r] == d.runs[r] && Hist(t, r) == Hist(d, r) && t.signals == d.signals
  }

  /** A commit that dispatches leaves nothing parked. */
  lemma DispatchingWakes(cfg: Config, d: State, r: RunId, run: Run, c: Commitment, ids: seq<TaskId>)
    requires r in d.runs && (c.Dispatch? || c.Fan?)
    ensures var t := CommitTx(cfg, d, r, run, c, ids).st;
            r in t.runs && (t.runs[r].availableAt.None? || SameForRun(d, t, r))
  {
    hide DispatchTx, FanOutTx, SameForRun;
    SameItself(d, r);
    match c {
      case Dispatch(step, call) =>
        if |ids| > 0 { DispatchWakes(d, r, run, step, ids[0], call, cfg.maxAttempts); }
      case Fan(step, calls, join) =>
        if |ids| == |calls| { FanOutWakes(d, r, run, step, calls, join, ids, cfg.maxAttempts); }
    }
  }

  lemma SameItself(d: State, r: RunId)
    requires r in d.runs
    ensures SameForRun(d, d, r)
  {
  }

  lemma DispatchWakes(d: State, r: RunId, run: Run, step: StepId, id: TaskId, call: Call, max: int)
    requires r in d.runs
    ensures var t := DispatchTx(d, r, run.version, run.output, step, id, call, max).st;
            r in t.runs && (t.runs[r].availableAt.None? || SameForRun(d, t, r))
  {
    hide AddTask, Hist;
    AddedFields(Bump(d, r, RunState(RunRunning, run.output, "", None)), r, step, id, call, max);
  }

  lemma FanOutWakes(d: State, r: RunId, run: Run, step: StepId, calls: seq<Call>, join: JoinPolicy, ids: seq<TaskId>,
                    max: int)
    requires r in d.runs && |ids| == |calls|
    ensures var t := FanOutTx(d, r, run.version, run.output, step, calls, join, ids, max).st;
            r in t.runs && (t.runs[r].availableAt.None? || SameForRun(d, t, r))
  {
    hide AddChildren, Log;
    var o := LogOn(Bump(d, r, RunState(RunRunning, run.output, "", None)), r,
                   Fact(EvFanOutStarted, step, FanOutData(ToolNames(calls), PolicyText(join))));
    ChildrenKeepRuns(o, r, step, calls, ids, max, |calls|);
  }

  /** The reads of a pass over r, in order, of signals as of c, for a commit on d. */
  ghost predicate Reads(r: RunId, a: State, b: State, c: State, d: State, found: Option<string>) {
    && StaleReads(a, b, c, d, r) && Inv(c) && Evolves(b, c) && r in d.runs
    && (found.Some? ==> SignalKey(r, found.value) in c.signals)
    && (Pending(Hist(b, r)).Some? ==>
          Chosen(c.signals, r, Pending(Hist(b, r)).value.signal, Ids(Consumed(Hist(b, r))), found))
  }

  ghost function PassFrom(cfg: Config, r: RunId, a: State, b: State, c: State, d: State, found: Option<string>,
                          now: Time): Commitment
    requires Reads(r, a, b, c, d, found)
  {
    Pass(cfg, r, a.runs[r], Hist(b, r), c.signals, found, now)
  }

  ghost function Committed(cfg: Config, r: RunId, a: State, b: State, c: State, d: State, found: Option<string>,
                           now: Time, ids: seq<TaskId>): State
    requires Reads(r, a, b, c, d, found)
  {
    CommitTx(cfg, d, r, a.runs[r], PassFrom(cfg, r, a, b, c, d, found, now), ids).st
  }

  /** A pass that leaves the run asleep over a signal has changed nothing, or has
      opened the wait, if no signal arrived while it was on its way. */
  lemma PassSleeps(cfg: Config, r: RunId, a: State, b: State, c: State, d: State, found: Option<string>, now: Time,
                   ids: seq<TaskId>)
    requires Reads(r, a, b, c, d, found) && forall name :: !SomeArrived(c, d, r, name)
    requires Slept(Committed(cfg, r, a, b, c, d, found, now, ids), r)
    ensures var t := Committed(cfg, r, a, b, c, d, found, now, ids); SameForRun(d, t, r) || Opens(d, t, r)
  {
    hide Inv, Evolves, Hist, Pending, Chosen, Ids, Consumed, Called, Opens, SomeArrived, AdvanceTx, DispatchTx,
         FanOutTx, WaitOver, Joining, Enact;
    var run := a.runs[r];
    var p := PassFrom(cfg, r, a, b, c, d, found, now);
    match p {
      case Nothing =>
      case Write(next, fact) =>
        if AdvanceError(d, r, run.version, next).Some? {
          FailedWrite(d, r, run.version, next, fact);
        } else if Pending(Hist(b, r)).Some? {
          ServingSleeps(cfg, r, a, b, c, d, found, now);
        } else {
          AskingSleeps(cfg, r, d, run, Hist(b, r));
        }
      case _ => DispatchingWakes(cfg, d, r, run, p, ids);
    }
  }

  lemma AskingSleeps(cfg: Config, r: RunId, d: State, run: Run, h: seq<Event>)
    requires r in d.runs && AskDecider(cfg, run, h).Write?
    requires var c := AskDecider(cfg, run, h);
             AdvanceError(d, r, run.version, c.next).None? && Slept(AdvanceTx(d, r, run.version, c.next, c.fact).st, r)
    ensures var c := AskDecider(cfg, run, h); Opens(d, AdvanceTx(d, r, run.version, c.next, c.fact).st, r)
  {
    hide Hist, AdvanceTx, Called, Joining, Enact, Opens;
    match cfg.decide(run, h) {
      case Decided(decision) => DecidingSleeps(d, r, run, decision);
      case Unavailable =>
      case CannotDecide(error) =>
        var c := CannotGoOn(error);
        WrittenRow(d, r, run.version, c.next, c.fact);
    }
  }

  lemma ServingSleeps(cfg: Config, r: RunId, a: State, b: State, c: State, d: State, found: Option<string>, now: Time)
    requires Reads(r, a, b, c, d, found) && Pending(Hist(b, r)).Some? && forall name :: !SomeArrived(c, d, r, name)
    requires PassFrom(cfg, r, a, b, c, d, found, now).Write?
    ensures var p := PassFrom(cfg, r, a, b, c, d, found, now);
            AdvanceError(d, r, a.runs[r].version, p.next).None? ==>
              !Slept(AdvanceTx(d, r, a.runs[r].version, p.next, p.fact).st, r)
  {
    hide Inv, Evolves, Hist, Pending, Chosen, Ids, Consumed, Called, SomeArrived, AdvanceTx;
    var run := a.runs[r];
    var w := Pending(Hist(b, r)).value;
    var p := PassFrom(cfg, r, a, b, c, d, found, now);
    if AdvanceError(d, r, run.version, p.next).None? {
      WrittenRow(d, r, run.version, p.next, p.fact);
      if p.fact.None? {
        UnmovedRun(a, b, c, d, r);
        if w.kind.WaitSignal? {
          ReparkSleepsIff(a, b, c, d, r, w, run.output);
        } else {
          BumpKeepsHistory(d, r, p.next);
          CalledIsForSignal(AdvanceTx(d, r, run.version, p.next, p.fact).st, r);
        }
      }
    }
  }

  lemma CalledIsForSignal(t: State, r: RunId)
    ensures Called(t, r) ==> Pending(Hist(t, r)).Some? && Pending(Hist(t, r)).value.kind.WaitSignal?
  {
  }

  /** No delivery to r falls between the reading of the signals, by a pass over
      r, and that pass's commit. */
  predicate Undisturbed(acts: seq<Action>, r: RunId) {
    forall k, d: nat :: 0 <= k < |acts| && acts[k].Advance? && acts[k].r == r && acts[k].l <= d < k ==>
      !(acts[d].Deliver? && acts[d].r == r)
  }

  lemma NothingArrives(tools: Tools, acts: seq<Action>, k: nat, r: RunId)
    requires Undisturbed(acts, r) && k < |acts| && acts[k].Advance? && acts[k].r == r && acts[k].l <= k
    ensures forall name :: !SomeArrived(States(tools, acts)[acts[k].l], States(tools, acts)[k], r, name)
  {
    hide States, SomeArrived;
    forall name
      ensures !SomeArrived(States(tools, acts)[acts[k].l], States(tools, acts)[k], r, name)
    {
      ArrivedIffDelivered(tools, acts, acts[k].l, k, r, name);
    }
  }

  lemma SameRunCalled(s: State, t: State, r: RunId)
    requires SameForRun(s, t, r) && Slept(t, r)
    ensures Slept(s, r) && t.runs[r].version == s.runs[r].version
  {
    hide Hist, Pending, Consumed, Ids;
  }

  /** One pass over r. */
  lemma PassStep(tools: Tools, past: seq<State>, a: Action, r: RunId)
    requires past != [] && Good(past) && a.Advance? && a.r == r && r in Last(past).runs
    requires a.l < |past| ==> forall name :: !SomeArrived(past[a.l], Last(past), r, name)
    requires Slept(Next(tools, past, a), r)
    ensures SameForRun(Last(past), Next(tools, past, a), r) || Opens(Last(past), Next(tools, past, a), r)
  {
    hide Good, Inv, Evolves, Chosen, Pending, Ids, Consumed, Hist, Pass, CommitTx, SomeArrived, Slept, Opens;
    var n := |past| - 1;
    if AdvanceEnabled(past, a) {
      GoodAt(past, a.i, a.j);
      GoodAt(past, a.j, a.l);
      GoodAt(past, a.l, n);
      GoodAt(past, a.j, n);
      GoodAt(past, a.i, n);
      PassSleeps(a.cfg, r, past[a.i], past[a.j], past[a.l], past[n], a.found, a.now, a.ids);
    }
  }

  lemma FailedOrSame(tools: Tools, past: seq<State>, a: Action, r: RunId)
    requires past != [] && a.FailRun? && a.r == r && r in Last(past).runs
    ensures var t := Next(tools, past, a);
            t == Last(past) || (r in t.runs && !t.runs[r].status.RunRunning?)
  {
    hide Log;
  }

  lemma DeliveredOrSame(tools: Tools, past: seq<State>, a: Action, r: RunId)
    requires past != [] && a.Deliver? && a.r == r && r in Last(past).runs
    ensures var t := Next(tools, past, a);
            t == Last(past) || (r in t.runs && t.runs[r].availableAt.None?)
  {
  }

  /** Nothing but a delivery to it stores a signal for a run. */
  lemma SameSignals(tools: Tools, past: seq<State>, a: Action, r: RunId)
    requires past != [] && Elsewhere(a, r)
    ensures forall id :: SignalKey(r, id) in Next(tools, past, a).signals ==> SignalKey(r, id) in Last(past).signals
  {
    hide Next;
    OthersStand(tools, past, a, r);
    if a.Deliver? { OthersSignal(tools, past, a, r); }
  }

  lemma OthersSignal(tools: Tools, past: seq<State>, a: Action, r: RunId)
    requires past != [] && a.Deliver? && a.r != r
    ensures forall id :: SignalKey(r, id) in Next(tools, past, a).signals ==> SignalKey(r, id) in Last(past).signals
  {
  }

  lemma CalledBefore(s: State, t: State, r: RunId)
    requires Evolves(s, t) && r in s.runs && r in t.runs && t.runs[r] == s.runs[r] && Slept(t, r)
    requires forall id :: SignalKey(r, id) in t.signals ==> SignalKey(r, id) in s.signals
    ensures Slept(s, r)
  {
    hide Evolves, Pending, Consumed, Ids, Hist;
    RunEvolvesOf(s, t, r);
    var name := Pending(Hist(t, r)).value.signal;
    var id :| Untaken(t.signals, r, name, Ids(Consumed(Hist(t, r))), id);
    SignalStands(s, t, SignalKey(r, id));
    assert Untaken(s.signals, r, name, Ids(Consumed(Hist(s, r))), id);
  }

  /** One step: a run asleep over a signal was so before, or has just opened the
      wait it sleeps on. */
  lemma SleepStep(tools: Tools, acts: seq<Action>, k: nat, r: RunId)
    requires Undisturbed(acts, r) && k < |acts| && Slept(States(tools, acts)[k + 1], r)
    ensures var s, t := States(tools, acts)[k], States(tools, acts)[k + 1];
            || (Slept(s, r) && t.runs[r].version == s.runs[r].version)
            || (acts[k].Advance? && acts[k].r == r && Opens(s, t, r))
  {
    hide States, Next, Good, Inv, Evolves, Slept, Opens, SomeArrived, SameForRun, RowStands, Undisturbed;
    var past := States(tools, acts);
    var before, a := past[..k + 1], acts[k];
    StepAt(tools, acts, k);
    assert Last(before) == past[k];
    SleptIsRunning(past[k + 1], r);
    AllReachable(tools, acts);
    GoodAt(past, k, k + 1);
    PrefixIsGood(past, k + 1);
    if !Elsewhere(a, r) {
      if r !in past[k].runs { OnlyStartsAdd(tools, before, a, r); }
      if a.Advance? {
        if a.l <= k { NothingArrives(tools, acts, k, r); }
        PassStep(tools, before, a, r);
        if !Opens(past[k], past[k + 1], r) { SameRunCalled(past[k], past[k + 1], r); }
      } else if a.FailRun? {
        FailedOrSame(tools, before, a, r);
      } else {
        DeliveredOrSame(tools, before, a, r);
      }
    } else {
      OthersStand(tools, before, a, r);
      if r !in past[k].runs {
        NewRunsAreAwake(tools, before, a, r);
      } else {
        StandingRow(past[k], past[k + 1], r);
        SameSignals(tools, before, a, r);
        CalledBefore(past[k], past[k + 1], r);
      }
    }
  }

  lemma SleptIsRunning(s: State, r: RunId)
    requires Slept(s, r)
    ensures r in s.runs && s.runs[r].status.RunRunning? && s.runs[r].availableAt.Some?
  {
  }

  lemma PrefixIsGood(past: seq<State>, n: nat)
    requires Good(past) && n <= |past|
    ensures Good(past[..n])
  {
    hide Inv, Evolves;
  }

  /** Only Start makes a run, and it makes it ready. */
  lemma OnlyStartsAdd(tools: Tools, past: seq<State>, a: Action, r: RunId)
    requires past != [] && r !in Last(past).runs && (a.Advance? || a.FailRun? || a.Deliver?)
    ensures r !in Next(tools, past, a).runs
  {
    hide Log, Pass, CommitTx, Hist, Pending, Chosen, Ids, Consumed;
    if a.Advance? && AdvanceEnabled(past, a) {
      CommitAddsNoRun(a.cfg, Last(past), a.r, past[a.i].runs[a.r], PassOf(past, a), a.ids);
    }
  }

  lemma CommitAddsNoRun(cfg: Config, s: State, q: RunId, run: Run, c: Commitment, ids: seq<TaskId>)
    ensures CommitTx(cfg, s, q, run, c, ids).st.runs.Keys == s.runs.Keys
  {
    hide AddTask, AddChildren, Log;
    if q in s.runs {
      var b := Bump(s, q, RunState(RunRunning, run.output, "", None));
      match c {
        case Dispatch(step, call) =>
          if |ids| > 0 { AddedFields(b, q, step, ids[0], call, cfg.maxAttempts); }
        case Fan(step, calls, join) =>
          if |ids| == |calls| {
            var o := LogOn(b, q, Fact(EvFanOutStarted, step, FanOutData(ToolNames(calls), PolicyText(join))));
            ChildrenKeepRuns(o, q, step, calls, ids, cfg.maxAttempts, |calls|);
          }
        case _ =>
      }
    }
  }

  lemma NewRunsAreAwake(tools: Tools, past: seq<State>, a: Action, r: RunId)
    requires past != [] && r !in Last(past).runs && r in Next(tools, past, a).runs
    ensures Next(tools, past, a).runs[r].availableAt.None?
  {
    hide Next, Hist, VersionsStand;
    if a.Advance? || a.FailRun? {
      OnlyStartsAdd(tools, past, a, r);
    } else {
      OthersAdvanceNothing(tools, past, a);
      StartedAwake(tools, past, a, r);
    }
  }

  lemma StartedAwake(tools: Tools, past: seq<State>, a: Action, r: RunId)
    requires past != [] && a.Start? && r !in Last(past).runs && r in Next(tools, past, a).runs
    ensures Next(tools, past, a).runs[r].availableAt.None?
  {
    hide Log;
  }

  // ----- no run sleeps through a signal -----

  lemma SameVersionFurther(past: seq<State>, i: nat, j: nat, r: RunId)
    requires Good(past) && i <= j < |past| && r in past[i].runs
    ensures r in past[j].runs && past[i].runs[r].version <= past[j].runs[r].version
    ensures past[i].runs[r].agent == past[j].runs[r].agent
  {
    hide Inv, Evolves, Good, Pending, Consumed, Hist;
    GoodAt(past, i, j);
    RunEvolvesOf(past[i], past[j], r);
  }

  /** A run asleep over a signal has been so since it opened its wait. */
  lemma {:induction false} SleepSince(tools: Tools, acts: seq<Action>, m: nat, r: RunId) returns (k: nat)
    requires Undisturbed(acts, r) && m <= |acts| && Slept(States(tools, acts)[m], r)
    ensures k < m && acts[k].Advance? && acts[k].r == r
    ensures var s, t, u := States(tools, acts)[k], States(tools, acts)[k + 1], States(tools, acts)[m];
            Opens(s, t, r) && Slept(t, r) && t.runs[r].version == u.runs[r].version
    decreases m
  {
    hide States, Next, Slept, Opens, Undisturbed;
    var past := States(tools, acts);
    SleptIsRunning(past[m], r);
    if m == 0 {
      EmptyAtFirst(tools, acts);
      assert false;
    } else {
      SleepStep(tools, acts, m - 1, r);
      if acts[m - 1].Advance? && acts[m - 1].r == r && Opens(past[m - 1], past[m], r) {
        k := m - 1;
      } else {
        k := SleepSince(tools, acts, m - 1, r);
      }
    }
  }

  /** A pass over r, by an engine that serves it, all of whose reads are later
      than step k. */
  ghost predicate Looks(tools: Tools, acts: seq<Action>, k: nat, l: nat, r: RunId) {
    && k < l < |acts| && acts[l].Advance? && acts[l].r == r && k < acts[l].i
    && AdvanceEnabled(States(tools, acts)[..l + 1], acts[l])
    && r in States(tools, acts)[l].runs && acts[l].cfg.agent == States(tools, acts)[l].runs[r].agent
  }

  /** Every park on a signal is followed by another pass. */
  ghost predicate LooksAgain(tools: Tools, acts: seq<Action>, r: RunId) {
    forall k: nat :: k < |acts| && OpensAt(tools, acts, k, r) ==> exists l: nat :: Looks(tools, acts, k, l, r)
  }

  ghost predicate OpensAt(tools: Tools, acts: seq<Action>, k: nat, r: RunId)
    requires k < |acts|
  {
    acts[k].Advance? && acts[k].r == r && Opens(States(tools, acts)[k], States(tools, acts)[k + 1], r)
  }

  /** Such a pass finds the signal and ends the wait, whatever else is going on:
      e is where the run fell asleep. */
  lemma LookingWakes(cfg: Config, r: RunId, e: State, a: State, b: State, c: State, d: State, found: Option<string>,
                     now: Time, ids: seq<TaskId>)
    requires Slept(e, r) && Evolves(e, a) && Evolves(e, b) && Evolves(e, c) && Reads(r, a, b, c, d, found)
    requires d.runs[r].version == e.runs[r].version && a.runs[r].version == e.runs[r].version
    requires cfg.agent == d.runs[r].agent
    ensures var t := Committed(cfg, r, a, b, c, d, found, now, ids);
            r in t.runs && t.runs[r].version == d.runs[r].version + 1
  {
    hide Evolves, Inv, Pending, Consumed, Ids, Hist, AdvanceTx, Before;
    UnmovedRun(a, b, c, d, r);
    SandwichedRun(e, a, b, c, d, r);
    var w := Pending(Hist(b, r)).value;
    var id :| Untaken(e.signals, r, w.signal, Ids(Consumed(Hist(e, r))), id);
    SignalStands(e, c, SignalKey(r, id));
    assert Untaken(c.signals, r, w.signal, Ids(Consumed(Hist(b, r))), id);
    WakingWrite(d, r, a.runs[r], WaitOver(w, c.signals, r, found, now));
  }

  lemma WakingWrite(d: State, r: RunId, run: Run, over: Option<Fact>)
    requires r in d.runs && d.runs[r].status.RunRunning? && d.runs[r].version == run.version
    ensures var t := AdvanceTx(d, r, run.version, StillRunning(run), over).st;
            r in t.runs && t.runs[r].version == d.runs[r].version + 1
  {
    hide Log;
  }

  lemma SandwichedRun(e: State, a: State, b: State, c: State, d: State, r: RunId)
    requires StaleReads(a, b, c, d, r) && Evolves(e, a) && Evolves(e, b)
    requires r in e.runs && r in d.runs && d.runs[r].version == e.runs[r].version &&
             a.runs[r].version == e.runs[r].version
    ensures Pending(Hist(b, r)) == Pending(Hist(e, r)) && Consumed(Hist(b, r)) == Consumed(Hist(e, r))
    ensures a.runs[r].status == e.runs[r].status && d.runs[r].status == e.runs[r].status
    ensures a.runs[r].agent == d.runs[r].agent
  {
    hide Inv, Evolves, Pending, Consumed, Hist;
    RunEvolvesOf(e, a, r);
    RunEvolvesOf(e, b, r);
    RunEvolvesOf(b, d, r);
    RunEvolvesOf(a, d, r);
  }

  lemma LooksEnd(tools: Tools, acts: seq<Action>, k: nat, l: nat, r: RunId)
    requires Looks(tools, acts, k, l, r) && Slept(States(tools, acts)[k + 1], r)
    requires States(tools, acts)[k + 1].runs[r].version == States(tools, acts)[l].runs[r].version
    ensures r in States(tools, acts)[l + 1].runs
    ensures States(tools, acts)[l + 1].runs[r].version == States(tools, acts)[l].runs[r].version + 1
  {
    hide States, Good, Inv, Evolves, Chosen, Pending, Ids, Consumed, Hist, Pass, CommitTx, Slept;
    var past, act := States(tools, acts), acts[l];
    var before := past[..l + 1];
    StepAt(tools, acts, l);
    assert Last(before) == past[l];
    AllReachable(tools, acts);
    SleptIsRunning(past[k + 1], r);
    GoodAt(past, k + 1, act.i);
    GoodAt(past, k + 1, act.j);
    GoodAt(past, k + 1, act.l);
    GoodAt(past, act.i, act.j);
    GoodAt(past, act.j, act.l);
    GoodAt(past, act.l, l);
    GoodAt(past, act.j, l);
    GoodAt(past, act.i, l);
    SameVersionFurther(past, k + 1, act.i, r);
    SameVersionFurther(past, act.i, l, r);
    LookingWakes(act.cfg, r, past[k + 1], past[act.i], past[act.j], past[act.l], past[l], act.found, act.now, act.ids);
  }

  /** In every behaviour in which no delivery falls between a pass's reading of
      the signals and its commit, and every park on a signal is followed by
      another look, no run sleeps through a signal. */
  lemma NoRunSleepsThrough(tools: Tools, acts: seq<Action>, r: RunId)
    requires Undisturbed(acts, r) && LooksAgain(tools, acts, r)
    ensures !Slept(Last(States(tools, acts)), r)
  {
    hide States, Slept, Opens, Undisturbed, Next, Looks;
    var past := States(tools, acts);
    if Slept(past[|acts|], r) {
      var k := SleepSince(tools, acts, |acts|, r);
      SleptIsRunning(past[k + 1], r);
      assert OpensAt(tools, acts, k, r);
      var l: nat :| Looks(tools, acts, k, l, r);
      LooksLater(tools, acts, k, l, r);
      AllReachable(tools, acts);
      SameVersionFurther(past, k + 1, l, r);
      SameVersionFurther(past, l, l + 1, r);
      SameVersionFurther(past, l + 1, |acts|, r);
      LooksEnd(tools, acts, k, l, r);
      assert false;
    }
  }

  lemma LooksLater(tools: Tools, acts: seq<Action>, k: nat, l: nat, r: RunId)
    requires Looks(tools, acts, k, l, r)
    ensures k < l < |acts|
  {
  }

  /** The re-park in a behaviour: the run sleeps through a signal exactly when
      one of the name it waits for was delivered between the position where its
      pass read the signals and the one where it committed. */
  lemma ReparkSleepsIffDelivered(tools: Tools, acts: seq<Action>, k: nat, r: RunId, w: Wait)
    requires k < |acts| && acts[k].Advance? && acts[k].r == r && AdvanceEnabled(States(tools, acts)[..k + 1], acts[k])
    requires var past, a := States(tools, acts), acts[k];
             && r in past[k].runs && past[k].runs[r].version == past[a.i].runs[r].version
             && Pending(Hist(past[a.j], r)) == Some(w) && w.kind.WaitSignal?
             && PassOf(past[..k + 1], a) == Write(RunState(RunRunning, past[a.i].runs[r].output, "", Some(w.until)),
                                                  None)
    ensures Slept(States(tools, acts)[k + 1], r) <==> DeliveredIn(tools, acts, acts[k].l, k, r, w.signal)
  {
    hide States, Good, Inv, Evolves, Chosen, Pending, Ids, Consumed, Hist, Pass, AdvanceTx, Slept, SomeArrived,
         DeliveredIn;
    var past, act := States(tools, acts), acts[k];
    StepAt(tools, acts, k);
    assert Last(past[..k + 1]) == past[k];
    AllReachable(tools, acts);
    GoodAt(past, act.i, act.j);
    GoodAt(past, act.j, act.l);
    GoodAt(past, act.l, k);
    GoodAt(past, act.j, k);
    GoodAt(past, act.i, k);
    ReparkFoundNone(act, past[..k + 1], w);
    var run := past[act.i].runs[r];
    UnmovedRun(past[act.i], past[act.j], past[act.l], past[k], r);
    ReparkSleepsIff(past[act.i], past[act.j], past[act.l], past[k], r, w, run.output);
    ArrivedIffDelivered(tools, acts, act.l, k, r, w.signal);
  }

  /** A pass parks again only if it found nothing that ends the wait. */
  lemma ReparkFoundNone(a: Action, past: seq<State>, w: Wait)
    requires past != [] && a.Advance? && AdvanceEnabled(past, a)
    requires Pending(Hist(past[a.j], a.r)) == Some(w) && w.kind.WaitSignal?
    requires PassOf(past, a).Write? && PassOf(past, a).fact.None?
    ensures a.found.None? && past[a.i].runs[a.r].status.RunRunning?
  {
    hide Pending, Hist, Chosen, Ids, Consumed, AskDecider;
    PassNeedsRunning(a.cfg, a.r, past[a.i].runs[a.r], Hist(past[a.j], a.r), past[a.l].signals, a.found, a.now);
  }
}
