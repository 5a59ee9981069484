/** Transactions that advance a run, create its tasks, or write beside it, and
    the conditions under which they keep the invariants. */
module RunSteps {
  import opened Prelude
  import opened Names
  import opened Core
  import opened Tables
  import opened Waits
  import opened Lifecycle
  import opened Invariants
  import opened Transactions

  /** s becomes t by a transaction that leaves tasks, leases and the outbox
      alone and writes at most run r's row and its history. */
  predicate OnRun(s: State, t: State, r: RunId) {
    && t.tasks == s.tasks && t.stepIndex == s.stepIndex && t.leases == s.leases
    && t.workers == s.workers && t.deliveries == s.deliveries && t.deliverySeq == s.deliverySeq
    && t.published == s.published && t.clock == s.clock
    && r in t.runs && t.runs == s.runs[r := t.runs[r]]
    && r in t.events && t.events == s.events[r := t.events[r]]
    && OnlyNotes(Hist(s, r), Hist(t, r))
  }

  predicate OnlyNotes(h: seq<Event>, g: seq<Event>) {
    h <= g && (Gapless(h) ==> Gapless(g)) && forall i :: |h| <= i < |g| ==> !IsTaskEvent(g[i].typ)
  }

  // The part of the ledger and signal tables a run transaction may change.
  predicate BesideOk(s: State, t: State) {
    EffectsOk(t) && LedgerEvolves(s, t) && SignalsEvolve(s, t) &&
    forall k :: k in t.signals ==> k.run in t.runs && t.signals[k].createdAt <= t.clock
  }

  lemma TasksUntouched(s: State, t: State, r: RunId, id: TaskId)
    requires OnRun(s, t, r) && id in s.tasks && TaskOk(s, id)
    ensures TaskOk(t, id) && TaskEvolves(s, t, id)
  {
    var q := s.tasks[id].run;
    var h, g := Hist(s, q), Hist(t, q);
    assert h <= g && forall i :: |h| <= i < |g| ==> !Concerns(g[i], id);
    ViewSkips(h, g, id);
    hide ViewOf, Rows, Hist, OnlyNotes;
  }

  lemma AllTasksUntouched(s: State, t: State, r: RunId)
    requires TasksOk(s) && OnRun(s, t, r)
    ensures TasksOk(t) && TasksEvolve(s, t)
  {
    hide TaskOk, TaskEvolves, OnlyNotes;
    forall id | id in t.tasks
      ensures TaskOk(t, id) && TaskEvolves(s, t, id)
    {
      TasksUntouched(s, t, r, id);
    }
  }

  lemma OtherRun(s: State, t: State, r: RunId, q: RunId)
    requires OnRun(s, t, r) && SignalsEvolve(s, t) && q in s.runs && q != r && RunOk(s, q)
    ensures RunOk(t, q) && RunEvolves(s, t, q)
  {
    hide OnlyNotes, StatusOf, Pending, Consumed, Sequential;
    assert Hist(t, q) == Hist(s, q);
  }

  lemma AllRuns(s: State, t: State, r: RunId)
    requires RunsOk(s) && OnRun(s, t, r) && SignalsEvolve(s, t)
    requires RunOk(t, r) && (r in s.runs ==> RunEvolves(s, t, r))
    ensures RunsOk(t) && RunsEvolve(s, t)
  {
    hide RunOk, RunEvolves, OnlyNotes, SignalsEvolve;
    forall q | q in t.runs
      ensures RunOk(t, q) && (q in s.runs ==> RunEvolves(s, t, q))
    {
      if q != r { OtherRun(s, t, r, q); }
    }
  }

  lemma AllHistories(s: State, t: State, r: RunId)
    requires HistoriesOk(s) && ParentsOk(s) && OnRun(s, t, r)
    ensures HistoriesOk(t)
  {
    forall q | q in t.runs
      ensures HistoryOk(t, q)
    {
      var h, g := Hist(s, q), Hist(t, q);
      if q in s.runs { assert HistoryOk(s, q); } else { assert h == []; }
      hide ParentsOk, HistoriesOk;
      forall i | 0 <= i < |g|
        ensures EventOk(t, q, g[i])
      {
        if i < |h| { assert EventOk(s, q, h[i]); }
      }
    }
  }

  lemma OnRunTables(s: State, t: State, r: RunId)
    requires IndexOk(s) && ParentsOk(s) && OnRun(s, t, r) && BesideOk(s, t)
    ensures IndexOk(t) && ParentsOk(t) && EffectsOk(t) && OutboxEvolves(s, t)
  {
    hide OnlyNotes, EffectsOk, LedgerEvolves, SignalsEvolve, Hist;
  }

  /** The frame: a transaction beside one run that leaves that run in order
      leaves everything in order. */
  lemma OnRunKeepsInv(s: State, t: State, r: RunId)
    requires Inv(s) && OnRun(s, t, r) && BesideOk(s, t)
    requires RunOk(t, r) && (r in s.runs ==> RunEvolves(s, t, r))
    ensures Inv(t) && Evolves(s, t)
  {
    hide IndexOk, ParentsOk, EffectsOk, HistoriesOk, TasksOk, RunsOk, RunOk, RunEvolves, OnlyNotes, LedgerEvolves,
         SignalsEvolve, RunsEvolve, TasksEvolve, OutboxEvolves;
    OnRunTables(s, t, r);
    AllHistories(s, t, r);
    AllTasksUntouched(s, t, r);
    AllRuns(s, t, r);
  }

  lemma InvParts(s: State)
    requires Inv(s)
    ensures IndexOk(s) && ParentsOk(s) && EffectsOk(s) && HistoriesOk(s) && TasksOk(s) && RunsOk(s)
  {
    hide IndexOk, ParentsOk, EffectsOk, HistoriesOk, TasksOk, RunsOk;
  }

  lemma InvRun(s: State, r: RunId)
    requires Inv(s) && r in s.runs
    ensures RunOk(s, r)
  {
    hide IndexOk, ParentsOk, EffectsOk, HistoriesOk, TasksOk, RunOk;
  }

  lemma SameBeside(s: State, t: State)
    requires Inv(s) && t.effects == s.effects && t.signals == s.signals && t.tasks == s.tasks && t.clock == s.clock
    requires s.runs.Keys <= t.runs.Keys
    ensures BesideOk(s, t)
  {
    hide IndexOk, HistoriesOk, TasksOk, RunsOk, NewKey;
  }

  lemma NoteOne(h: seq<Event>, f: Fact)
    requires !IsTaskEvent(f.typ)
    ensures OnlyNotes(h, Log(h, f))
  {
    if Gapless(h) { LogKeepsGapless(h, f); }
  }

  // ----- starting -----

  lemma StartedOnRun(s: State, r: RunId, agent: string, version: string, input: Json)
    requires ParentsOk(s) && r !in s.runs
    ensures OnRun(s, StartRunTx(s, r, agent, version, input).st, r)
  {
    hide OnlyNotes, Log;
    NoteOne(Hist(s, r), Fact(EvRunStarted, "", RunStartedData(agent, version, input)));
  }

  lemma FirstEvent(f: Fact)
    requires f.typ.EvRunStarted?
    ensures StatusOf(Log([], f)) == Is(RunRunning) && Sequential(Log([], f)) && Consumed(Log([], f)) == []
  {
    hide Log, Stamp, Sequential, Pending;
    StatusLog([], f);
    StampIs([], f);
    ConsumedLog([], f);
    SequentialLog([], f);
    EmptyIsSequential();
  }

  lemma EmptyIsSequential()
    ensures Sequential([])
  {
  }

  lemma StartedRun(s: State, r: RunId, agent: string, version: string, input: Json)
    requires ParentsOk(s) && r !in s.runs
    ensures r in StartRunTx(s, r, agent, version, input).st.runs
    ensures RunOk(StartRunTx(s, r, agent, version, input).st, r)
  {
    hide ParentsOk, StartRunTx, Log, StatusOf, Sequential, Consumed, Pending, Hist;
    StartedRow(s, r, agent, version, input);
    FirstEvent(Fact(EvRunStarted, "", RunStartedData(agent, version, input)));
  }

  lemma StartedRow(s: State, r: RunId, agent: string, version: string, input: Json)
    requires ParentsOk(s) && r !in s.runs
    ensures var t := StartRunTx(s, r, agent, version, input).st;
            && r in t.runs && t.runs[r].status.RunRunning? && t.runs[r].availableAt.None?
            && Hist(t, r) == Log([], Fact(EvRunStarted, "", RunStartedData(agent, version, input)))
  {
    hide Log;
    assert s.events.Keys == s.runs.Keys;
    assert r !in s.events.Keys;
    assert Hist(s, r) == [];
  }

  lemma StampIs(h: seq<Event>, f: Fact)
    ensures Stamp(h, f).typ == f.typ && Stamp(h, f).data == f.data && Stamp(h, f).step == f.step
  {
  }

  lemma StartKeepsInv(s: State, r: RunId, agent: string, version: string, input: Json)
    requires Inv(s)
    ensures Inv(StartRunTx(s, r, agent, version, input).st) && Evolves(s, StartRunTx(s, r, agent, version, input).st)
  {
    hide Inv, Evolves, OnRun, RunOk, RunEvolves, BesideOk, Log;
    var res := StartRunTx(s, r, agent, version, input);
    if res.Commit? {
      InvParts(s);
      StartedOnRun(s, r, agent, version, input);
      StartedRun(s, r, agent, version, input);
      SameBeside(s, res.st);
      OnRunKeepsInv(s, res.st, r);
    } else {
      EvolvesReflexive(s);
    }
  }

  // ----- one compare-and-swap: finish, park, resume, repark -----

  function AsEvent(f: Fact): Event {
    Event(0, f.typ, f.step, f.data)
  }

  // Opening a wait, on a history with none pending, parks until that wait's end.
  predicate Parks(h: seq<Event>, next: RunState, f: Fact) {
    StartOf(AsEvent(f)).Some? && Pending(h).None? && next.availableAt == Some(StartOf(AsEvent(f)).value.until)
  }

  // Closing the pending wait, with an unconsumed stored signal if it was one.
  predicate Resumes(signals: map<SignalKey, Signal>, r: RunId, h: seq<Event>, next: RunState, f: Fact) {
    && Resolves(AsEvent(f)) && Pending(h).Some? && f.step == Pending(h).value.step && next.availableAt.None?
    && (f.typ.EvSignalReceived? ==>
          f.data.SignalReceivedData? && Fresh(signals, r, Consumed(h), Taken(f.data.name, f.data.signal)))
  }

  predicate Fresh(signals: map<SignalKey, Signal>, r: RunId, ts: seq<Taken>, t: Taken) {
    SignalKey(r, t.id) in signals && signals[SignalKey(r, t.id)].name == t.name && t.id !in Ids(ts)
  }

  predicate Finishes(next: RunState, f: Fact) {
    match next.status
    case RunCompleted => f.typ == EvRunCompleted
    case RunFailed => f.typ == EvRunFailed
    case RunCancelled => f.typ == EvRunCancelled
    case RunRunning => false
  }

  /** What an advancement may record, given the run it finds. */
  predicate MayRecord(s: State, r: RunId, next: RunState, fact: Option<Fact>)
    requires r in s.runs
  {
    var h := Hist(s, r);
    && s.runs[r].status.RunRunning?
    && match fact
       case None =>
         next.status.RunRunning? &&
         (next.availableAt.Some? ==> Pending(h).Some? && Pending(h).value.until == next.availableAt.value)
       case Some(f) =>
         || Finishes(next, f)
         || (next.status.RunRunning? && (Parks(h, next, f) || Resumes(s.signals, r, h, next, f)))
  }

  lemma ConsumedNothing(h: seq<Event>, f: Fact)
    requires !f.typ.EvSignalReceived?
    ensures Consumed(Log(h, f)) == Consumed(h)
  {
    ConsumedLog(h, f);
  }

  lemma FreshExtends(signals: map<SignalKey, Signal>, r: RunId, ts: seq<Taken>, t: Taken)
    requires SignalsOk(signals, r, ts) && Fresh(signals, r, ts, t)
    ensures SignalsOk(signals, r, ts + [t])
  {
    var us := ts + [t];
    assert forall i :: 0 <= i < |ts| ==> ts[i].id in Ids(ts);
  }

  lemma SignalsAfter(s: State, r: RunId, next: RunState, f: Fact)
    requires r in s.runs && RunOk(s, r) && MayRecord(s, r, next, Some(f))
    ensures SignalsOk(s.signals, r, Consumed(Log(Hist(s, r), f)))
  {
    hide Sequential, Pending, StatusOf, Hist, Log, SignalsOk, Consumed, Stamp, Fresh;
    var h := Hist(s, r);
    if f.typ.EvSignalReceived? {
      var t := Taken(f.data.name, f.data.signal);
      ConsumedLog(h, f);
      StampIs(h, f);
      FreshExtends(s.signals, r, Consumed(h), t);
    } else {
      ConsumedNothing(h, f);
    }
  }

  lemma StoryAfter(s: State, r: RunId, next: RunState, f: Fact)
    requires r in s.runs && RunOk(s, r) && MayRecord(s, r, next, Some(f))
    ensures StatusOf(Log(Hist(s, r), f)) == Is(next.status)
    ensures Sequential(Log(Hist(s, r), f))
    ensures next.status.RunRunning? && next.availableAt.Some? ==>
              Pending(Log(Hist(s, r), f)) == StartOf(AsEvent(f)) && StartOf(AsEvent(f)).Some? &&
              StartOf(AsEvent(f)).value.until == next.availableAt.value
  {
    hide Sequential, Pending, StatusOf, Hist, Log, SignalsOk, Consumed, Fresh;
    var h := Hist(s, r);
    StatusLog(h, f);
    SequentialLog(h, f);
    PendingLog(h, f);
  }

  lemma RunAfter(s: State, r: RunId, expected: int, next: RunState, fact: Option<Fact>)
    requires r in s.runs && RunOk(s, r) && AdvanceError(s, r, expected, next).None? && MayRecord(s, r, next, fact)
    ensures r in AdvanceTx(s, r, expected, next, fact).st.runs
    ensures RunOk(AdvanceTx(s, r, expected, next, fact).st, r)
  {
    var t := AdvanceTx(s, r, expected, next, fact).st;
    if fact.Some? {
      SignalsAfter(s, r, next, fact.value);
      StoryAfter(s, r, next, fact.value);
      assert Hist(t, r) == Log(Hist(s, r), fact.value);
    } else {
      assert Hist(t, r) == Hist(s, r);
    }
    hide Sequential, Pending, StatusOf, Hist, Log, SignalsOk, Consumed, Fresh, StartOf;
  }

  lemma AdvancedOnRun(s: State, r: RunId, expected: int, next: RunState, fact: Option<Fact>)
    requires ParentsOk(s) && r in s.runs && AdvanceError(s, r, expected, next).None?
    requires fact.Some? ==> !IsTaskEvent(fact.value.typ)
    ensures OnRun(s, AdvanceTx(s, r, expected, next, fact).st, r)
  {
    hide OnlyNotes, Log;
    if fact.Some? { NoteOne(Hist(s, r), fact.value); } else { NoteNone(Hist(s, r)); }
  }

  lemma NoteNone(h: seq<Event>)
    ensures OnlyNotes(h, h)
  {
  }

  lemma RunEvolvesAfter(s: State, r: RunId, expected: int, next: RunState, fact: Option<Fact>)
    requires r in s.runs && AdvanceError(s, r, expected, next).None? && s.runs[r].status.RunRunning?
    ensures r in AdvanceTx(s, r, expected, next, fact).st.runs
    ensures RunEvolves(s, AdvanceTx(s, r, expected, next, fact).st, r)
  {
    hide Consumed, Pending, Log;
    if fact.Some? { ConsumedLog(Hist(s, r), fact.value); LogExtends(Hist(s, r), fact.value); }
  }

  lemma LogExtends(h: seq<Event>, f: Fact)
    ensures h <= Log(h, f)
  {
  }

  lemma MayRecordKinds(s: State, r: RunId, next: RunState, fact: Option<Fact>)
    requires r in s.runs && MayRecord(s, r, next, fact)
    ensures s.runs[r].status.RunRunning?
    ensures fact.Some? ==> !IsTaskEvent(fact.value.typ)
  {
    hide Pending, Fresh, Hist;
  }

  lemma AdvanceKeepsInv(s: State, r: RunId, expected: int, next: RunState, fact: Option<Fact>)
    requires Inv(s)
    requires AdvanceError(s, r, expected, next).None? ==> MayRecord(s, r, next, fact)
    ensures Inv(AdvanceTx(s, r, expected, next, fact).st) && Evolves(s, AdvanceTx(s, r, expected, next, fact).st)
  {
    hide Inv, Evolves, OnRun, RunOk, RunEvolves, BesideOk, Log, MayRecord;
    var res := AdvanceTx(s, r, expected, next, fact);
    if res.Commit? {
      MayRecordKinds(s, r, next, fact);
      InvParts(s);
      InvRun(s, r);
      RunAfter(s, r, expected, next, fact);
      AdvancedOnRun(s, r, expected, next, fact);
      RunEvolvesAfter(s, r, expected, next, fact);
      SameBeside(s, res.st);
      OnRunKeepsInv(s, res.st, r);
    } else {
      EvolvesReflexive(s);
    }
  }

  // ----- events beside a run, and the tables beside them -----

  lemma NeutralRun(s: State, t: State, r: RunId)
    requires r in s.runs && RunOk(s, r) && OnRun(s, t, r) && SignalsEvolve(s, t)
    requires t.runs[r] == s.runs[r] || t.runs[r] == s.runs[r].(availableAt := None)
    requires forall i :: |Hist(s, r)| <= i < |Hist(t, r)| ==> RunNeutral(Hist(t, r)[i])
    ensures RunOk(t, r) && RunEvolves(s, t, r)
  {
    hide StatusOf, Pending, Consumed, Sequential, Gapless;
    NeutralEvents(Hist(s, r), Hist(t, r));
  }

  predicate Beside(f: Fact) {
    !IsTaskEvent(f.typ) && RunNeutral(AsEvent(f))
  }

  lemma LoggedBeside(s: State, t: State, r: RunId, f: Fact)
    requires ParentsOk(s) && r in s.runs && Beside(f)
    requires t == LogOn(s, r, f).(effects := t.effects)
    ensures OnRun(s, t, r)
    ensures forall i :: |Hist(s, r)| <= i < |Hist(t, r)| ==> RunNeutral(Hist(t, r)[i])
  {
    hide OnlyNotes;
    NoteOne(Hist(s, r), f);
  }

  lemma NoteKeepsInv(s: State, r: RunId, f: Fact)
    requires Inv(s) && r in s.runs && Beside(f)
    ensures Inv(LogOn(s, r, f)) && Evolves(s, LogOn(s, r, f))
  {
    hide Inv, Evolves, OnRun, RunOk, RunEvolves, BesideOk, Log, Beside, RunNeutral, Hist;
    var t := LogOn(s, r, f);
    InvParts(s);
    InvRun(s, r);
    LoggedBeside(s, t, r, f);
    SameBeside(s, t);
    assert SignalsEvolve(s, t);
    NeutralRun(s, t, r);
    OnRunKeepsInv(s, t, r);
  }

  /** Ledger transactions: a row that is new, or moved along a legal edge. */
  lemma LedgerKeepsInv(s: State, t: State, r: RunId, f: Fact)
    requires Inv(s) && r in s.runs && Beside(f)
    requires t == LogOn(s, r, f).(effects := t.effects) && EffectsOk(t) && LedgerEvolves(s, t)
    ensures Inv(t) && Evolves(s, t)
  {
    hide Inv, Evolves, OnRun, RunOk, RunEvolves, Log, Beside, RunNeutral, Hist, EffectsOk, LedgerEvolves;
    InvParts(s);
    InvRun(s, r);
    LoggedBeside(s, t, r, f);
    assert SignalsEvolve(s, t);
    NeutralRun(s, t, r);
    OnRunKeepsInv(s, t, r);
  }

  predicate Reservable(s: State, key: Key, e: Effect) {
    e.task in s.tasks && e.run == s.tasks[e.task].run && key == NewKey(e.run, s.tasks[e.task].step, FIRST_EFFECT)
  }

  lemma ReservedLedger(s: State, t: State, key: Key, e: Effect)
    requires EffectsOk(s) && Reservable(s, key, e) && key !in s.effects
    requires t.tasks == s.tasks && key in t.effects && t.effects == s.effects[key := t.effects[key]]
    requires t.effects[key].task == e.task && t.effects[key].run == e.run
    ensures EffectsOk(t) && LedgerEvolves(s, t)
  {
    hide NewKey;
  }

  lemma ReserveKeepsInv(s: State, key: Key, e: Effect, step: StepId, now: Time)
    requires Inv(s) && (e.task in s.tasks ==> Reservable(s, key, e))
    ensures Inv(ReserveTx(s, key, e, step, now).st) && Evolves(s, ReserveTx(s, key, e, step, now).st)
  {
    hide Inv, Evolves, LogOn, Reservable, EffectsOk, LedgerEvolves, Beside, EffectFact;
    var res := ReserveTx(s, key, e, step, now);
    if res.Commit? {
      InvParts(s);
      var f := Fact(EvEffectCreated, step, EffectFact(key, e, ""));
      LoggedTasks(s, e.run, f);
      EffectIsBeside(f);
      ReservedLedger(s, res.st, key, e);
      LedgerKeepsInv(s, res.st, e.run, f);
    } else {
      EvolvesReflexive(s);
    }
  }

  lemma LoggedTasks(s: State, r: RunId, f: Fact)
    ensures LogOn(s, r, f).tasks == s.tasks && LogOn(s, r, f).effects == s.effects && LogOn(s, r, f).runs == s.runs
  {
  }

  predicate IsEffectEvent(typ: EventType) {
    typ.EvEffectCreated? || typ.EvEffectCommitted? || typ.EvEffectFailed? || typ.EvEffectUnknown? ||
    typ.EvEffectReconciled? || typ.EvEffectEscalated?
  }

  lemma MovedEvolves(s: State, key: Key, to: EffectStatus, out: EffectOutcome, now: Time)
    requires key in s.effects && s.effects[key].status.CanTransitionTo(to) && EffectsOk(s)
    ensures EffectsOk(s.(effects := s.effects[key := Moved(s.effects[key], to, out, now)]))
    ensures LedgerEvolves(s, s.(effects := s.effects[key := Moved(s.effects[key], to, out, now)]))
  {
    hide NewKey;
  }

  // ----- steps that leave runs, tasks and history alone -----

  predicate SameOwners(a: map<TaskId, Lease>, b: map<TaskId, Lease>) {
    a.Keys == b.Keys && forall id :: id in a ==> a[id].token == b[id].token && a[id].worker == b[id].worker
  }

  predicate SameRows(a: map<int, Delivery>, b: map<int, Delivery>) {
    a.Keys == b.Keys && forall d :: d in a ==> a[d].task == b[d].task && a[d].availableAt == b[d].availableAt
  }

  /** Heartbeats, registrations, the relay's marks, the clock, ledger moves. */
  predicate Quiet(s: State, t: State) {
    && t.runs == s.runs && t.tasks == s.tasks && t.stepIndex == s.stepIndex && t.events == s.events
    && t.signals == s.signals && s.deliverySeq <= t.deliverySeq
    && s.clock <= t.clock && s.workers <= t.workers && s.published <= t.published
    && SameOwners(s.leases, t.leases) && SameRows(s.deliveries, t.deliveries)
  }

  lemma QuietRows(s: State, t: State, id: TaskId)
    requires SameRows(s.deliveries, t.deliveries)
    ensures Rows(t.deliveries, id) == Rows(s.deliveries, id)
  {
    assert forall d :: d in Rows(t.deliveries, id) <==> d in Rows(s.deliveries, id);
  }

  lemma QuietTask(s: State, t: State, id: TaskId)
    requires Quiet(s, t) && id in s.tasks && TaskOk(s, id)
    ensures TaskOk(t, id) && TaskEvolves(s, t, id)
  {
    QuietRows(s, t, id);
    hide ViewOf, Rows, SameRows;
  }

  lemma QuietTasks(s: State, t: State)
    requires Quiet(s, t) && TasksOk(s)
    ensures TasksOk(t) && TasksEvolve(s, t)
  {
    hide TaskOk, TaskEvolves, SameRows, SameOwners;
    forall id | id in t.tasks
      ensures TaskOk(t, id) && TaskEvolves(s, t, id)
    {
      QuietTask(s, t, id);
    }
  }

  lemma QuietRun(s: State, t: State, r: RunId)
    requires Quiet(s, t) && r in s.runs && RunOk(s, r)
    ensures RunOk(t, r) && RunEvolves(s, t, r)
  {
    hide StatusOf, Pending, Consumed, Sequential, SameRows, SameOwners;
    assert Hist(t, r) == Hist(s, r);
  }

  lemma QuietRuns(s: State, t: State)
    requires Quiet(s, t) && RunsOk(s)
    ensures RunsOk(t) && RunsEvolve(s, t)
  {
    hide RunOk, RunEvolves, SameRows, SameOwners;
    forall r | r in t.runs
      ensures RunOk(t, r) && RunEvolves(s, t, r)
    {
      QuietRun(s, t, r);
    }
  }

  lemma QuietHistories(s: State, t: State)
    requires Quiet(s, t) && HistoriesOk(s)
    ensures HistoriesOk(t)
  {
    hide SameRows, SameOwners;
    forall r | r in t.runs
      ensures HistoryOk(t, r)
    {
      assert HistoryOk(s, r);
      assert Hist(t, r) == Hist(s, r);
      forall i | 0 <= i < |Hist(t, r)|
        ensures EventOk(t, r, Hist(t, r)[i])
      {
        assert EventOk(s, r, Hist(s, r)[i]);
      }
    }
  }

  lemma QuietTables(s: State, t: State)
    requires Quiet(s, t) && IndexOk(s) && ParentsOk(s)
    ensures IndexOk(t) && ParentsOk(t) && SignalsEvolve(s, t) && OutboxEvolves(s, t)
  {
  }

  lemma QuietKeepsInv(s: State, t: State)
    requires Inv(s) && Quiet(s, t) && EffectsOk(t) && LedgerEvolves(s, t)
    ensures Inv(t) && Evolves(s, t)
  {
    hide IndexOk, ParentsOk, EffectsOk, HistoriesOk, TasksOk, RunsOk, SameRows, SameOwners, LedgerEvolves,
         SignalsEvolve, RunsEvolve, TasksEvolve, OutboxEvolves;
    QuietTables(s, t);
    QuietHistories(s, t);
    QuietTasks(s, t);
    QuietRuns(s, t);
  }

  lemma SameLedger(s: State, t: State)
    requires EffectsOk(s) && t.effects == s.effects && t.tasks == s.tasks
    ensures EffectsOk(t) && LedgerEvolves(s, t)
  {
    hide NewKey;
  }

  lemma SameOwner(leases: map<TaskId, Lease>, id: TaskId, renewed: Lease)
    requires id in leases && renewed.token == leases[id].token && renewed.worker == leases[id].worker
    ensures SameOwners(leases, leases[id := renewed])
  {
  }

  lemma StillQuiet(s: State)
    ensures Quiet(s, s)
  {
  }

  lemma HeartbeatIsQuiet(s: State, id: TaskId, token: int, now: Time, ttl: int)
    ensures Quiet(s, HeartbeatTx(s, id, token, now, ttl).st)
    ensures HeartbeatTx(s, id, token, now, ttl).st.effects == s.effects
    ensures HeartbeatTx(s, id, token, now, ttl).st.tasks == s.tasks
  {
    StillQuiet(s);
    var t := HeartbeatTx(s, id, token, now, ttl).st;
    if t != s { SameOwner(s.leases, id, t.leases[id]); }
    hide SameOwners, SameRows;
  }

  lemma MarkIsQuiet(s: State, delivered: set<int>, failed: map<int, string>)
    ensures Quiet(s, MarkTx(s, delivered, failed).st)
    ensures MarkTx(s, delivered, failed).st.effects == s.effects && MarkTx(s, delivered, failed).st.tasks == s.tasks
  {
  }

  lemma RegisterIsQuiet(s: State, worker: string)
    ensures Quiet(s, RegisterTx(s, worker).st)
    ensures RegisterTx(s, worker).st.effects == s.effects && RegisterTx(s, worker).st.tasks == s.tasks
  {
  }

  lemma TickIsQuiet(s: State, now: Time)
    requires s.clock <= now
    ensures Quiet(s, s.(clock := now))
  {
  }

  lemma HeartbeatKeepsInv(s: State, id: TaskId, token: int, now: Time, ttl: int)
    requires Inv(s)
    ensures Inv(HeartbeatTx(s, id, token, now, ttl).st) && Evolves(s, HeartbeatTx(s, id, token, now, ttl).st)
  {
    hide Inv, Evolves, EffectsOk, LedgerEvolves, Quiet, HeartbeatTx;
    var t := HeartbeatTx(s, id, token, now, ttl).st;
    HeartbeatIsQuiet(s, id, token, now, ttl);
    InvParts(s);
    SameLedger(s, t);
    QuietKeepsInv(s, t);
  }

  lemma RegisterKeepsInv(s: State, worker: string)
    requires Inv(s)
    ensures Inv(RegisterTx(s, worker).st) && Evolves(s, RegisterTx(s, worker).st)
  {
    hide Inv, Evolves, EffectsOk, LedgerEvolves, Quiet, RegisterTx;
    var t := RegisterTx(s, worker).st;
    RegisterIsQuiet(s, worker);
    InvParts(s);
    SameLedger(s, t);
    QuietKeepsInv(s, t);
  }

  lemma MarkKeepsInv(s: State, delivered: set<int>, failed: map<int, string>)
    requires Inv(s)
    ensures Inv(MarkTx(s, delivered, failed).st) && Evolves(s, MarkTx(s, delivered, failed).st)
  {
    hide Inv, Evolves, EffectsOk, LedgerEvolves, Quiet, MarkTx;
    var t := MarkTx(s, delivered, failed).st;
    MarkIsQuiet(s, delivered, failed);
    InvParts(s);
    SameLedger(s, t);
    QuietKeepsInv(s, t);
  }

  lemma TickKeepsInv(s: State, now: Time)
    requires Inv(s) && s.clock <= now
    ensures Inv(s.(clock := now)) && Evolves(s, s.(clock := now))
  {
    hide Inv, Evolves, EffectsOk, LedgerEvolves, Quiet;
    var t := s.(clock := now);
    TickIsQuiet(s, now);
    InvParts(s);
    SameLedger(s, t);
    QuietKeepsInv(s, t);
  }

  lemma EffectIsBeside(f: Fact)
    requires IsEffectEvent(f.typ)
    ensures Beside(f)
  {
  }

  lemma MovedKeepsInv(s: State, key: Key, from: EffectStatus, to: EffectStatus, out: EffectOutcome, now: Time)
    requires Inv(s) && key in s.effects && s.effects[key].status == from && from.CanTransitionTo(to)
    ensures var m := s.(effects := s.effects[key := Moved(s.effects[key], to, out, now)]); Inv(m) && Evolves(s, m)
  {
    hide Inv, Evolves, EffectsOk, LedgerEvolves, Moved, Quiet;
    var m := s.(effects := s.effects[key := Moved(s.effects[key], to, out, now)]);
    InvParts(s);
    MovedEvolves(s, key, to, out, now);
    EffectsAreQuiet(s, m.effects);
    QuietKeepsInv(s, m);
  }

  lemma EffectsAreQuiet(s: State, effects: map<Key, Effect>)
    ensures Quiet(s, s.(effects := effects))
  {
  }

  lemma EffectKeepsInv(s: State, key: Key, from: EffectStatus, to: EffectStatus, out: EffectOutcome,
                       run: RunId, fact: Option<Fact>, now: Time)
    requires Inv(s) && (fact.Some? ==> IsEffectEvent(fact.value.typ))
    ensures Inv(EffectTx(s, key, from, to, out, run, fact, now).st)
    ensures Evolves(s, EffectTx(s, key, from, to, out, run, fact, now).st)
  {
    hide Inv, Evolves, LogOn, Moved, Beside, IsEffectEvent;
    var res := EffectTx(s, key, from, to, out, run, fact, now);
    if res.Commit? {
      MovedKeepsInv(s, key, from, to, out, now);
      var m := s.(effects := s.effects[key := Moved(s.effects[key], to, out, now)]);
      if fact.Some? {
        EffectIsBeside(fact.value);
        NoteKeepsInv(m, run, fact.value);
        EvolvesTransitive(s, m, res.st);
      }
    } else {
      EvolvesReflexive(s);
    }
  }

  // ----- arrivals -----

  lemma DeliverBeside(s: State, r: RunId, id: string, name: string, payload: Json)
    requires Inv(s) && DeliverTx(s, r, id, name, payload, s.clock).Commit?
    ensures BesideOk(s, DeliverTx(s, r, id, name, payload, s.clock).st)
    ensures OnRun(s, DeliverTx(s, r, id, name, payload, s.clock).st, r)
  {
    hide IndexOk, HistoriesOk, TasksOk, RunsOk, NewKey;
    NoteNone(Hist(s, r));
    hide OnlyNotes;
  }

  lemma DeliverKeepsInv(s: State, r: RunId, id: string, name: string, payload: Json)
    requires Inv(s)
    ensures Inv(DeliverTx(s, r, id, name, payload, s.clock).st) &&
            Evolves(s, DeliverTx(s, r, id, name, payload, s.clock).st)
  {
    hide Inv, Evolves, OnRun, RunOk, RunEvolves, BesideOk;
    var res := DeliverTx(s, r, id, name, payload, s.clock);
    if res.Commit? {
      InvRun(s, r);
      DeliverBeside(s, r, id, name, payload);
      BesideSignals(s, res.st);
      NeutralRun(s, res.st, r);
      OnRunKeepsInv(s, res.st, r);
    } else {
      EvolvesReflexive(s);
    }
  }

  lemma BesideSignals(s: State, t: State)
    requires BesideOk(s, t)
    ensures SignalsEvolve(s, t)
  {
  }
}
