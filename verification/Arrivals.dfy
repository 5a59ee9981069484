/** Signals are taken in the order they arrived, and whether one arrives before
    or after the wait for it makes no difference. */
module Arrivals {
  import opened Prelude
  import opened Names
  import opened Core
  import opened Tables
  import opened Waits
  import opened Lifecycle
  import opened Invariants
  import opened Transactions
  import opened RunSteps
  import opened FanOuts
  import opened Advancing
  import opened Behaviours
  import opened Frames

  /** When the i-th consumed signal was taken, nothing older of that name was
      left behind. Written over ts, the consumed signals of run r. */
  ghost predicate TakenInOrder(signals: map<SignalKey, Signal>, r: RunId, ts: seq<Taken>) {
    forall i, id :: 0 <= i < |ts| && SignalKey(r, ts[i].id) in signals &&
                    SignalKey(r, id) in signals && signals[SignalKey(r, id)].name == ts[i].name &&
                    id !in Ids(ts[..i + 1]) ==>
      signals[SignalKey(r, ts[i].id)].createdAt <= signals[SignalKey(r, id)].createdAt
  }

  ghost predicate OldestFirst(s: State) {
    forall r :: TakenInOrder(s.signals, r, Consumed(Hist(s, r)))
  }

  // ----- what leaves the order alone -----

  lemma StillInOrder(s: State, t: State, r: RunId, ts: seq<Taken>)
    requires ParentsOk(s) && SignalsEvolve(s, t) && TakenInOrder(s.signals, r, ts)
    requires forall i :: 0 <= i < |ts| ==> SignalKey(r, ts[i].id) in s.signals
    ensures TakenInOrder(t.signals, r, ts)
  {
    hide Ids;
    forall i, id | 0 <= i < |ts| && SignalKey(r, ts[i].id) in t.signals &&
                   SignalKey(r, id) in t.signals && t.signals[SignalKey(r, id)].name == ts[i].name &&
                   id !in Ids(ts[..i + 1])
      ensures t.signals[SignalKey(r, ts[i].id)].createdAt <= t.signals[SignalKey(r, id)].createdAt
    {
      assert SignalKey(r, ts[i].id) in s.signals;
      if SignalKey(r, id) in s.signals {
        assert s.signals[SignalKey(r, id)] == t.signals[SignalKey(r, id)];
      }
    }
  }

  /** Taking the oldest keeps the order. */
  lemma TakingTheOldest(signals: map<SignalKey, Signal>, r: RunId, ts: seq<Taken>, t: Taken)
    requires TakenInOrder(signals, r, ts) && SignalKey(r, t.id) in signals
    requires forall id :: Untaken(signals, r, t.name, Ids(ts), id) ==>
               signals[SignalKey(r, t.id)].createdAt <= signals[SignalKey(r, id)].createdAt
    ensures TakenInOrder(signals, r, ts + [t])
  {
    hide Ids;
    var us := ts + [t];
    IdsSnoc(ts, t);
    forall i, id | 0 <= i < |us| && SignalKey(r, us[i].id) in signals &&
                   SignalKey(r, id) in signals && signals[SignalKey(r, id)].name == us[i].name &&
                   id !in Ids(us[..i + 1])
      ensures signals[SignalKey(r, us[i].id)].createdAt <= signals[SignalKey(r, id)].createdAt
    {
      if i < |ts| {
        assert us[..i + 1] == ts[..i + 1] && us[i] == ts[i];
      } else {
        assert us[..i + 1] == us;
        assert Untaken(signals, r, t.name, Ids(ts), id);
      }
    }
  }

  /** What was oldest when the signals were read is still the oldest when the
      commit lands: whatever has arrived in between arrived later. */
  lemma StillOldest(c: State, d: State, r: RunId, name: string, taken: set<string>, id: string)
    requires ParentsOk(c) && SignalsEvolve(c, d) && Oldest(c.signals, r, name, taken, id)
    ensures SignalKey(r, id) in d.signals
    ensures forall other :: Untaken(d.signals, r, name, taken, other) ==>
              d.signals[SignalKey(r, id)].createdAt <= d.signals[SignalKey(r, other)].createdAt
  {
    hide LexLess;
    forall other | Untaken(d.signals, r, name, taken, other)
      ensures d.signals[SignalKey(r, id)].createdAt <= d.signals[SignalKey(r, other)].createdAt
    {
      if SignalKey(r, other) in c.signals && other != id {
        assert Untaken(c.signals, r, name, taken, other);
      }
    }
  }

  // ----- steps that consume nothing -----

  predicate VersionsStand(s: State, t: State) {
    forall q :: q in s.runs ==> q in t.runs && t.runs[q].version == s.runs[q].version
  }

  lemma WorkLeavesRuns(s: State, id: TaskId, worker: string, token: int, result: Json, now: Time, ttl: int)
    ensures var t := ClaimTx(s, id, worker, now, ttl).st; t.runs == s.runs && t.signals == s.signals
    ensures var t := HeartbeatTx(s, id, token, now, ttl).st; t.runs == s.runs && t.signals == s.signals
    ensures var t := CompleteTx(s, id, token, result, now).st; t.runs == s.runs && t.signals == s.signals
  {
    hide Log;
  }

  lemma FailLeavesRuns(s: State, id: TaskId, token: int, reason: string, escalated: bool, delay: int, now: Time)
    ensures var t := FailTx(s, id, token, reason, escalated, delay, now).st; t.runs == s.runs && t.signals == s.signals
  {
    hide Log, NotBefore, Released, Noted;
  }

  lemma ReclaimLeavesRuns(s: State, id: TaskId, stale: Lease, reason: string, now: Time)
    ensures var t := ReclaimTx(s, id, stale, reason, now).st; t.runs == s.runs && t.signals == s.signals
  {
    hide Log, LeaseTaken, Noted;
  }

  lemma WorkAdvancesNothing(tools: Tools, past: seq<State>, a: Action)
    requires past != [] && (MovesTasks(a) || a.Heartbeat?)
    ensures Next(tools, past, a).runs == Last(past).runs && Next(tools, past, a).signals == Last(past).signals
  {
    hide Executed, ClaimTx, HeartbeatTx, CompleteTx, FailTx, ReclaimTx;
    var s := Last(past);
    match a {
      case Claim(id, worker, ttl) => WorkLeavesRuns(s, id, worker, 0, None, s.clock, ttl);
      case Heartbeat(id, token, ttl) => WorkLeavesRuns(s, id, "", token, None, s.clock, ttl);
      case Complete(id, token, result, _) => WorkLeavesRuns(s, id, "", token, result, s.clock, 0);
      case FailTask(id, token, reason, escalated, delay) =>
        FailLeavesRuns(s, id, token, reason, escalated, delay, s.clock);
      case Reclaim(id, stale, reason, now) => ReclaimLeavesRuns(s, id, stale, reason, now);
      case _ =>
    }
  }

  lemma ReserveLeavesRuns(s: State, key: Key, e: Effect, step: StepId, now: Time)
    ensures var t := ReserveTx(s, key, e, step, now).st;
            t.runs == s.runs && t.signals == s.signals && t.tasks == s.tasks
  {
    hide Log, EffectFact;
  }

  lemma MoveLeavesRuns(s: State, key: Key, from: EffectStatus, to: EffectStatus, out: EffectOutcome, run: RunId,
                       fact: Option<Fact>, now: Time)
    ensures var t := EffectTx(s, key, from, to, out, run, fact, now).st;
            t.runs == s.runs && t.signals == s.signals && t.tasks == s.tasks
  {
    hide Log, Moved;
  }

  lemma NoteLeavesRuns(s: State, run: RunId, note: Fact)
    ensures var t := NoteTx(s, run, note).st; t.runs == s.runs && t.signals == s.signals && t.tasks == s.tasks
  {
    hide Log;
  }

  lemma LedgerAdvancesNothing(tools: Tools, past: seq<State>, a: Action)
    requires past != [] && (a.Reserve? || a.MoveEffect? || a.Escalate?)
    ensures var s, t := Last(past), Next(tools, past, a);
            t.runs == s.runs && t.signals == s.signals && t.tasks == s.tasks
  {
    hide KeyOf, FreshEffect, IsEffectEvent, CommitTx, AdvanceTx, HeartbeatTx, ClaimTx, CompleteTx, FailTx, ReclaimTx,
         Executed, AdvanceEnabled, StartRunTx, DeliverTx, RegisterTx, MarkTx, ReserveTx, EffectTx, NoteTx;
    var s := Last(past);
    match a {
      case Reserve(id) =>
        if id in s.tasks && s.tasks[id].tool in tools {
          var t := s.tasks[id];
          ReserveLeavesRuns(s, KeyOf(t), FreshEffect(tools, t, id), t.step, s.clock);
        }
      case MoveEffect(key, from, to, out, run, fact) => MoveLeavesRuns(s, key, from, to, out, run, fact, s.clock);
      case Escalate(run, fact) => NoteLeavesRuns(s, run, fact);
      case _ =>
    }
  }

  lemma StartAdvancesNothing(tools: Tools, past: seq<State>, a: Action)
    requires past != [] && a.Start?
    ensures VersionsStand(Last(past), Next(tools, past, a))
    ensures forall q :: q in Next(tools, past, a).runs && q !in Last(past).runs ==> q == a.r
  {
    hide Log;
  }

  lemma OutsideAdvancesNothing(tools: Tools, past: seq<State>, a: Action)
    requires past != [] && (a.Tick? || a.Deliver? || a.Register? || a.Mark?)
    ensures VersionsStand(Last(past), Next(tools, past, a))
    ensures Next(tools, past, a).runs.Keys == Last(past).runs.Keys
  {
    hide Log, CommitTx, AdvanceTx, HeartbeatTx, ClaimTx, CompleteTx, FailTx, ReclaimTx, Executed, AdvanceEnabled,
         ReserveTx, EffectTx, NoteTx, StartRunTx;
  }

  lemma RestAdvancesNothing(tools: Tools, past: seq<State>, a: Action)
    requires past != [] && !a.Advance? && !a.FailRun? && !a.Heartbeat? && !MovesTasks(a)
    ensures VersionsStand(Last(past), Next(tools, past, a))
    ensures forall q :: q in Next(tools, past, a).runs && q !in Last(past).runs ==> a.Start? && q == a.r
  {
    hide Next;
    if a.Reserve? || a.MoveEffect? || a.Escalate? {
      LedgerAdvancesNothing(tools, past, a);
    } else if a.Start? {
      StartAdvancesNothing(tools, past, a);
    } else {
      OutsideAdvancesNothing(tools, past, a);
    }
  }

  lemma OthersAdvanceNothing(tools: Tools, past: seq<State>, a: Action)
    requires past != [] && !a.Advance? && !a.FailRun?
    ensures VersionsStand(Last(past), Next(tools, past, a))
    ensures forall q :: q in Next(tools, past, a).runs && q !in Last(past).runs ==> a.Start? && q == a.r
  {
    hide Next;
    if MovesTasks(a) || a.Heartbeat? {
      WorkAdvancesNothing(tools, past, a);
    } else {
      RestAdvancesNothing(tools, past, a);
    }
  }

  lemma StartConsumesNothing(s: State, r: RunId, agent: string, version: string, input: Json)
    requires ParentsOk(s) && r !in s.runs
    ensures Consumed(Hist(StartRunTx(s, r, agent, version, input).st, r)) == []
  {
    var f := Fact(EvRunStarted, "", RunStartedData(agent, version, input));
    assert Hist(s, r) == [];
    hide ParentsOk, Log, Consumed, StatusOf, Sequential;
    FirstEvent(f);
  }

  lemma NoRunNoHistory(s: State, q: RunId)
    requires ParentsOk(s) && q !in s.runs
    ensures Hist(s, q) == []
  {
  }

  /** All but an advancing pass leave every run's consumed signals alone. */
  lemma OthersConsumeNothing(tools: Tools, past: seq<State>, a: Action, q: RunId)
    requires past != [] && Inv(Last(past)) && Inv(Next(tools, past, a)) && Evolves(Last(past), Next(tools, past, a))
    requires !a.Advance?
    ensures Consumed(Hist(Next(tools, past, a), q)) == Consumed(Hist(Last(past), q))
  {
    hide Inv, Evolves, Consumed, Hist, Pending, ParentsOk, CommitTx, AdvanceTx, StartRunTx, VersionsStand;
    var s, t := Last(past), Next(tools, past, a);
    InvParts(s);
    InvParts(t);
    if a.FailRun? {
      FailRunConsumesNothing(tools, past, a, q);
    } else {
      OthersAdvanceNothing(tools, past, a);
      assert VersionsStand(s, t);
      hide Next;
      if q in s.runs {
        RunEvolvesOf(s, t, q);
        VersionOf(s, t, q);
      } else {
        NoRunNoHistory(s, q);
        if q in t.runs { StartedHistory(tools, past, a); } else { NoRunNoHistory(t, q); }
      }
    }
  }

  lemma VersionOf(s: State, t: State, q: RunId)
    requires VersionsStand(s, t) && q in s.runs
    ensures q in t.runs && t.runs[q].version == s.runs[q].version
  {
  }

  lemma StartedHistory(tools: Tools, past: seq<State>, a: Action)
    requires past != [] && ParentsOk(Last(past)) && a.Start? && a.r !in Last(past).runs
    ensures Consumed(Hist(Next(tools, past, a), a.r)) == [] == Consumed([])
  {
    hide Hist, ParentsOk, StartRunTx;
    StartConsumesNothing(Last(past), a.r, a.agent, a.version, a.input);
  }

  lemma FailRunConsumesNothing(tools: Tools, past: seq<State>, a: Action, q: RunId)
    requires past != [] && a.FailRun?
    ensures Consumed(Hist(Next(tools, past, a), q)) == Consumed(Hist(Last(past), q))
  {
    hide Consumed, AdvanceTx;
    var s := Last(past);
    if a.i < |past| && a.r in past[a.i].runs && !past[a.i].runs[a.r].status.IsTerminal() {
      WriteFrame(s, a.r, past[a.i].runs[a.r].version, RunFailure(past[a.i].runs[a.r], a.reason),
                 Some(Fact(EvRunFailed, "", RunFailedData(a.reason))));
      assert Consumed(Hist(s, q)) + [] == Consumed(Hist(s, q));
    }
  }

  // ----- a pass takes the oldest -----

  /** What a pass takes, and that it was the oldest left when its signals were read. */
  lemma PassTakes(cfg: Config, r: RunId, run: Run, h: seq<Event>, signals: map<SignalKey, Signal>,
                  found: Option<string>, now: Time) returns (taken: seq<Taken>)
    requires found.Some? ==> SignalKey(r, found.value) in signals
    requires Pending(h).Some? ==> Chosen(signals, r, Pending(h).value.signal, Ids(Consumed(h)), found)
    ensures var c := Pass(cfg, r, run, h, signals, found, now);
            taken == if !c.Write? || c.fact.None? then [] else TakenBy(AsEvent(c.fact.value))
    ensures taken == [] ||
            (|taken| == 1 && Oldest(signals, r, taken[0].name, Ids(Consumed(h)), taken[0].id))
  {
    hide Pending, Consumed, Ids, Joining, LexLess;
    var c := Pass(cfg, r, run, h, signals, found, now);
    taken := if !c.Write? || c.fact.None? then [] else TakenBy(AsEvent(c.fact.value));
  }

  lemma KeptForRun(s: State, t: State, q: RunId)
    requires Inv(s) && Evolves(s, t) && TakenInOrder(s.signals, q, Consumed(Hist(s, q)))
    requires Consumed(Hist(t, q)) == Consumed(Hist(s, q))
    ensures TakenInOrder(t.signals, q, Consumed(Hist(t, q)))
  {
    hide Consumed, Hist, TakenInOrder, RunsEvolve, TasksEvolve, LedgerEvolves, OutboxEvolves;
    InvParts(s);
    ConsumedAreRecorded(s, q);
    hide Inv;
    assert SignalsEvolve(s, t);
    StillInOrder(s, t, q, Consumed(Hist(s, q)));
  }

  lemma ConsumedAreRecorded(s: State, q: RunId)
    requires Inv(s)
    ensures ParentsOk(s)
    ensures forall i :: 0 <= i < |Consumed(Hist(s, q))| ==> SignalKey(q, Consumed(Hist(s, q))[i].id) in s.signals
  {
    hide Inv, Consumed, Hist, ParentsOk, StatusOf, Sequential, Pending;
    InvParts(s);
    if q in s.runs {
      InvRun(s, q);
    } else {
      NoRunNoHistory(s, q);
      assert Consumed([]) == [] by { NothingConsumed(); }
    }
  }

  lemma NothingConsumed()
    ensures Consumed([]) == []
  {
  }

  lemma EvolvesSignals(c: State, d: State)
    requires Evolves(c, d)
    ensures SignalsEvolve(c, d)
  {
    hide SignalsEvolve, RunsEvolve, TasksEvolve, LedgerEvolves, OutboxEvolves;
  }

  /** The run that advances. */
  lemma KeptByTaking(cfg: Config, r: RunId, a: State, b: State, c: State, d: State,
                     found: Option<string>, now: Time, ids: seq<TaskId>)
    requires StaleReads(a, b, c, d, r) && Inv(c) && cfg.maxAttempts >= 1
    requires found.Some? ==> SignalKey(r, found.value) in c.signals
    requires Pending(Hist(b, r)).Some? ==>
               Chosen(c.signals, r, Pending(Hist(b, r)).value.signal, Ids(Consumed(Hist(b, r))), found)
    requires TakenInOrder(d.signals, r, Consumed(Hist(d, r)))
    ensures var t := CommitTx(cfg, d, r, a.runs[r], Pass(cfg, r, a.runs[r], Hist(b, r), c.signals, found, now), ids).st;
            PassFrame(d, t, r, []) ||
            (t.signals == d.signals && OtherHistories(d, t, r) && TakenInOrder(t.signals, r, Consumed(Hist(t, r))))
  {
    hide Inv, Evolves, Chosen, Pending, Consumed, Ids, Hist, AdvanceTx, DispatchTx, FanOutTx, TakenInOrder, Oldest,
         TakenBy, OtherHistories, RowsStand, LeasesStand;
    var run := a.runs[r];
    var p := Pass(cfg, r, run, Hist(b, r), c.signals, found, now);
    var t := CommitTx(cfg, d, r, run, p, ids).st;
    CommitFrame(cfg, d, r, run, p, ids);
    var taken := PassTakes(cfg, r, run, Hist(b, r), c.signals, found, now);
    hide Pass;
    if t != d && taken != [] {
      assert p.Write?;
      CommittedWrite(d, r, run.version, p.next, p.fact);
      UnmovedRun(a, b, c, d, r);
      InvParts(c);
      EvolvesSignals(c, d);
      StillOldest(c, d, r, taken[0].name, Ids(Consumed(Hist(b, r))), taken[0].id);
      TakingTheOldest(d.signals, r, Consumed(Hist(d, r)), taken[0]);
      assert taken == [taken[0]];
    }
  }

  lemma CommittedWrite(d: State, r: RunId, expected: int, next: RunState, fact: Option<Fact>)
    requires AdvanceTx(d, r, expected, next, fact).st != d
    ensures AdvanceTx(d, r, expected, next, fact).st.signals == d.signals
    ensures r in d.runs && d.runs[r].version == expected
  {
    hide Log;
  }

  lemma PassKeepsOrder(tools: Tools, past: seq<State>, a: Action, q: RunId)
    requires past != [] && Good(past) && OldestFirst(Last(past)) && a.Advance?
    requires Inv(Next(tools, past, a)) && Evolves(Last(past), Next(tools, past, a))
    ensures var t := Next(tools, past, a); TakenInOrder(t.signals, q, Consumed(Hist(t, q)))
  {
    hide Inv, Evolves, Good, Pass, CommitTx, Chosen, Pending, Consumed, Ids, Hist, TakenInOrder, PassFrame;
    var k := |past| - 1;
    GoodAt(past, k, k);
    if AdvanceEnabled(past, a) {
      GoodAt(past, a.i, a.j);
      GoodAt(past, a.j, k);
      GoodAt(past, a.i, k);
      GoodAt(past, a.l, k);
      KeptByTaking(a.cfg, a.r, past[a.i], past[a.j], past[a.l], past[k], a.found, a.now, a.ids);
      var t := Next(tools, past, a);
      if PassFrame(past[k], t, a.r, []) {
        FrameConsumes(past[k], t, a.r, q);
      } else if q != a.r {
        assert Hist(t, q) == Hist(past[k], q);
      }
      if q != a.r || PassFrame(past[k], t, a.r, []) {
        KeptForRun(past[k], t, q);
      }
    }
  }

  lemma FrameConsumes(s: State, t: State, r: RunId, q: RunId)
    requires PassFrame(s, t, r, [])
    ensures Consumed(Hist(t, q)) == Consumed(Hist(s, q))
  {
    hide Consumed, Hist;
    assert Consumed(Hist(s, r)) + [] == Consumed(Hist(s, r));
  }

  lemma StepKeepsOrder(tools: Tools, past: seq<State>, a: Action)
    requires past != [] && Good(past) && OldestFirst(Last(past))
    ensures OldestFirst(Next(tools, past, a))
  {
    hide Inv, Evolves, Good, Next, Consumed, Hist, TakenInOrder;
    NextKeeps(tools, past, a);
    GoodAt(past, |past| - 1, |past| - 1);
    var t := Next(tools, past, a);
    forall q
      ensures TakenInOrder(t.signals, q, Consumed(Hist(t, q)))
    {
      if a.Advance? {
        PassKeepsOrder(tools, past, a, q);
      } else {
        OthersConsumeNothing(tools, past, a, q);
        KeptForRun(Last(past), t, q);
      }
    }
  }

  lemma {:induction false} OrderHolds(tools: Tools, acts: seq<Action>)
    ensures OldestFirst(Last(States(tools, acts)))
  {
    hide Next, Good, OldestFirst;
    if acts == [] {
      EmptyInOrder();
    } else {
      var before := acts[..|acts| - 1];
      OrderHolds(tools, before);
      AllReachable(tools, before);
      StepKeepsOrder(tools, States(tools, before), acts[|acts| - 1]);
    }
  }

  lemma EmptyInOrder()
    ensures OldestFirst(EMPTY)
  {
  }

  /** In every behaviour, whatever the staleness of what was read: a signal is
      consumed no later than any younger one of its name. When no two signals of
      a name arrive at the same instant, same-name signals are consumed exactly
      in the order of their arrival. */
  lemma SignalsAreTakenInArrivalOrder(tools: Tools, acts: seq<Action>, k: nat, r: RunId, i: nat, j: nat)
    requires k <= |acts| && i < j < |Consumed(Hist(States(tools, acts)[k], r))|
    requires Consumed(Hist(States(tools, acts)[k], r))[i].name == Consumed(Hist(States(tools, acts)[k], r))[j].name
    ensures var s := States(tools, acts)[k];
            var ts := Consumed(Hist(s, r));
            && SignalKey(r, ts[i].id) in s.signals && SignalKey(r, ts[j].id) in s.signals
            && s.signals[SignalKey(r, ts[i].id)].createdAt <= s.signals[SignalKey(r, ts[j].id)].createdAt
  {
    hide Inv, Evolves, Good, Consumed, Hist, OldestFirst, States;
    StatesExtend(tools, acts, k);
    OrderHolds(tools, acts[..k]);
    var s := States(tools, acts)[k];
    assert s == Last(States(tools, acts[..k]));
    AllReachable(tools, acts);
    GoodAt(States(tools, acts), k, k);
    PairInOrder(s, r, i, j);
  }

  lemma PairInOrder(s: State, r: RunId, i: nat, j: nat)
    requires Inv(s) && OldestFirst(s) && i < j < |Consumed(Hist(s, r))|
    requires Consumed(Hist(s, r))[i].name == Consumed(Hist(s, r))[j].name
    ensures var ts := Consumed(Hist(s, r));
            && SignalKey(r, ts[i].id) in s.signals && SignalKey(r, ts[j].id) in s.signals
            && s.signals[SignalKey(r, ts[i].id)].createdAt <= s.signals[SignalKey(r, ts[j].id)].createdAt
  {
    hide Consumed, Hist, Sequential, StatusOf, Pending;
    assert r in s.runs by { ConsumersAreRuns(s, r); }
    InvRun(s, r);
    var ts := Consumed(Hist(s, r));
    assert SignalsOk(s.signals, r, ts);
    hide Inv;
    assert ts[j].id !in Ids(ts[..i + 1]) by {
      var us := ts[..i + 1];
      forall x | 0 <= x < |us|
        ensures us[x].id != ts[j].id
      {
        assert us[x] == ts[x];
      }
    }
  }

  lemma ConsumersAreRuns(s: State, r: RunId)
    requires Inv(s) && Consumed(Hist(s, r)) != []
    ensures r in s.runs
  {
    hide Inv, Consumed, Hist, ParentsOk;
    InvParts(s);
    if r !in s.runs {
      NoRunNoHistory(s, r);
      NothingConsumed();
    }
  }

  // ----- early and late signals -----

  /** A pass that nothing interleaves with: every read is of the state it
      commits to. */
  function Alone(cfg: Config, s: State, r: RunId, found: Option<string>, now: Time, ids: seq<TaskId>): State
    requires r in s.runs && (found.Some? ==> SignalKey(r, found.value) in s.signals)
  {
    CommitTx(cfg, s, r, s.runs[r], Pass(cfg, r, s.runs[r], Hist(s, r), s.signals, found, now), ids).st
  }

  /** The decider asks to wait for a signal here, and nothing else is under way. */
  predicate WantsSignal(cfg: Config, s: State, r: RunId, step: StepId, name: string, deadline: Time) {
    && r in s.runs && s.runs[r].status.RunRunning? && s.runs[r].agent == cfg.agent
    && Pending(Hist(s, r)).None? && Joining(Hist(s, r)).None?
    && cfg.decide(s.runs[r], Hist(s, r)) == Decided(WaitForSignal(step, name, deadline))
  }

  predicate DeliversTo(s: State, r: RunId, signal: string) {
    r in s.runs && SignalKey(r, signal) !in s.signals
  }

  function Delivered(s: State, r: RunId, signal: string, name: string, payload: Json): State
    requires DeliversTo(s, r, signal)
  {
    DeliverTx(s, r, signal, name, payload, s.clock).st
  }

  function Parked(s: State, r: RunId, step: StepId, name: string, deadline: Time): State
    requires r in s.runs
  {
    LogOn(Bump(s, r, RunState(RunRunning, s.runs[r].output, "", Some(WaitDeadline(deadline)))), r,
          Fact(EvSignalWaitStarted, step, SignalWaitData(name, deadline)))
  }

  lemma ParkCommits(cfg: Config, s: State, r: RunId, step: StepId, name: string, deadline: Time, now: Time,
                    ids: seq<TaskId>)
    requires WantsSignal(cfg, s, r, step, name, deadline)
    ensures Alone(cfg, s, r, None, now, ids) == Parked(s, r, step, name, deadline)
  {
    hide Hist, Pending, Joining, Log;
  }

  lemma NotParked(s: State, r: RunId)
    requires Inv(s) && r in s.runs && s.runs[r].status.RunRunning? && Pending(Hist(s, r)).None?
    ensures s.runs[r].availableAt.None?
  {
    hide Inv, Pending, Hist, SignalsOk, StatusOf, Sequential;
    InvRun(s, r);
  }

  lemma ParkOpens(s: State, r: RunId, step: StepId, name: string, deadline: Time)
    requires r in s.runs
    ensures Pending(Hist(Parked(s, r, step, name, deadline), r)) ==
            Some(Wait(WaitSignal, step, WaitDeadline(deadline), name))
    ensures Consumed(Hist(Parked(s, r, step, name, deadline), r)) == Consumed(Hist(s, r))
  {
    var f := Fact(EvSignalWaitStarted, step, SignalWaitData(name, deadline));
    assert Hist(Parked(s, r, step, name, deadline), r) == Log(Hist(s, r), f);
    hide Log, Hist;
    PendingLog(Hist(s, r), f);
    StampIs(Hist(s, r), f);
    ConsumedNothing(Hist(s, r), f);
  }

  /** Delivering commutes with parking, but for the park that a delivery clears. */
  lemma DeliveryCommutes(s: State, r: RunId, step: StepId, name: string, deadline: Time,
                         signal: string, payload: Json)
    requires DeliversTo(s, r, signal) && s.runs[r].availableAt.None?
    ensures var early := Parked(Delivered(s, r, signal, name, payload), r, step, name, deadline);
            DeliversTo(Parked(s, r, step, name, deadline), r, signal) &&
            Delivered(Parked(s, r, step, name, deadline), r, signal, name, payload)
            == early.(runs := early.runs[r := early.runs[r].(availableAt := None)])
  {
    hide Log;
    var early := Parked(Delivered(s, r, signal, name, payload), r, step, name, deadline);
    var late := Delivered(Parked(s, r, step, name, deadline), r, signal, name, payload);
    assert s.runs[r := s.runs[r].(availableAt := None)] == s.runs;
    assert late.runs == early.runs[r := early.runs[r].(availableAt := None)];
  }

  /** Picked up, with a signal to take: the park that was there or not is overwritten. */
  lemma PickedUp(cfg: Config, s: State, r: RunId, w: Wait, found: string, now: Time, ids: seq<TaskId>,
                 park: Option<Time>)
    requires r in s.runs && s.runs[r].status.RunRunning? && s.runs[r].agent == cfg.agent
    requires Pending(Hist(s, r)) == Some(w) && w.kind.WaitSignal? && SignalKey(r, found) in s.signals
    ensures var t := s.(runs := s.runs[r := s.runs[r].(availableAt := park)]);
            Alone(cfg, t, r, Some(found), now, ids) == Alone(cfg, s, r, Some(found), now, ids)
    ensures var sig := s.signals[SignalKey(r, found)];
            Hist(Alone(cfg, s, r, Some(found), now, ids), r)
            == Log(Hist(s, r), Fact(EvSignalReceived, w.step, SignalReceivedData(sig.name, found, sig.payload)))
  {
    hide Pending, Joining, Log;
    var t := s.(runs := s.runs[r := s.runs[r].(availableAt := park)]);
    var next := StillRunning(s.runs[r]);
    assert Bump(t, r, next).runs == Bump(s, r, next).runs;
  }

  lemma DeliveredIsWaiting(s: State, r: RunId, signal: string, name: string, payload: Json)
    requires Inv(s) && DeliversTo(s, r, signal)
    ensures Untaken(Delivered(s, r, signal, name, payload).signals, r, name, Ids(Consumed(Hist(s, r))), signal)
  {
    hide Inv, Consumed, Hist;
    ConsumedAreRecorded(s, r);
  }

  /** Both ways round, up to the pass that takes the signal. */
  lemma BothWays(cfg: Config, s: State, r: RunId, step: StepId, name: string, deadline: Time,
                 signal: string, payload: Json, now: Time, ids: seq<TaskId>)
    requires Inv(s) && WantsSignal(cfg, s, r, step, name, deadline) && DeliversTo(s, r, signal)
    ensures var d := Delivered(s, r, signal, name, payload);
            var early := Parked(d, r, step, name, deadline);
            && r in d.runs && d.runs[r] == s.runs[r] && Hist(d, r) == Hist(s, r) && d.signals == early.signals
            && Alone(cfg, d, r, None, now, ids) == early
            && DeliversTo(Alone(cfg, s, r, None, now, ids), r, signal)
            && Delivered(Alone(cfg, s, r, None, now, ids), r, signal, name, payload)
               == early.(runs := early.runs[r := early.runs[r].(availableAt := None)])
  {
    NotParked(s, r);
    assert s.runs[r := s.runs[r].(availableAt := None)] == s.runs;
    hide Inv, Pending, Joining, Log, Hist, Alone;
    var d := Delivered(s, r, signal, name, payload);
    SameHistory(s, r, signal, name, payload);
    assert d.runs == s.runs;
    ParkCommits(cfg, s, r, step, name, deadline, now, ids);
    ParkCommits(cfg, d, r, step, name, deadline, now, ids);
    DeliveryCommutes(s, r, step, name, deadline, signal, payload);
  }

  lemma ChosenIsThere(signals: map<SignalKey, Signal>, r: RunId, name: string, taken: set<string>,
                      found: Option<string>, id: string)
    requires Chosen(signals, r, name, taken, found) && Untaken(signals, r, name, taken, id)
    ensures found.Some? && SignalKey(r, found.value) in signals
  {
    hide Before;
  }

  /** A signal that arrives before its wait and one that arrives after it lead
      to the same tables, and so to the same history, when nothing interleaves
      with the passes. The signal taken is in both cases the oldest one left,
      and there is one. */
  lemma EarlyAndLateAreTheSame(cfg: Config, s: State, r: RunId, step: StepId, name: string, deadline: Time,
                               signal: string, payload: Json, found: Option<string>, now: Time, ids: seq<TaskId>)
    requires Inv(s) && WantsSignal(cfg, s, r, step, name, deadline) && DeliversTo(s, r, signal)
    requires Chosen(Delivered(s, r, signal, name, payload).signals, r, name, Ids(Consumed(Hist(s, r))), found)
    ensures found.Some?
    ensures var d := Delivered(s, r, signal, name, payload);
            var parked := Alone(cfg, s, r, None, now, ids);
            && r in d.runs && DeliversTo(parked, r, signal)
            && var early := Alone(cfg, d, r, None, now, ids);
               var late := Delivered(parked, r, signal, name, payload);
               && r in early.runs && r in late.runs
               && SignalKey(r, found.value) in early.signals && SignalKey(r, found.value) in late.signals
               && Alone(cfg, early, r, found, now, ids) == Alone(cfg, late, r, found, now, ids)
               && var sig := early.signals[SignalKey(r, found.value)];
                  Hist(Alone(cfg, early, r, found, now, ids), r)
                  == Log(Log(Hist(s, r), Fact(EvSignalWaitStarted, step, SignalWaitData(name, deadline))),
                         Fact(EvSignalReceived, step, SignalReceivedData(sig.name, found.value, sig.payload)))
  {
    DeliveredIsWaiting(s, r, signal, name, payload);
    var d := Delivered(s, r, signal, name, payload);
    ChosenIsThere(d.signals, r, name, Ids(Consumed(Hist(s, r))), found, signal);
    BothWays(cfg, s, r, step, name, deadline, signal, payload, now, ids);
    ParkOpens(d, r, step, name, deadline);
    ParkedRow(d, r, step, name, deadline);
    var early := Parked(d, r, step, name, deadline);
    hide Inv, Pending, Consumed, Ids, Joining, Log, Chosen, Untaken, Hist, Alone, Parked, Delivered;
    PickedUp(cfg, early, r, Wait(WaitSignal, step, WaitDeadline(deadline), name), found.value, now, ids, None);
  }

  lemma ParkedRow(s: State, r: RunId, step: StepId, name: string, deadline: Time)
    requires r in s.runs
    ensures var t := Parked(s, r, step, name, deadline);
            && r in t.runs && t.runs[r].status.RunRunning? && t.runs[r].agent == s.runs[r].agent
            && Hist(t, r) == Log(Hist(s, r), Fact(EvSignalWaitStarted, step, SignalWaitData(name, deadline)))
  {
    hide Log;
  }

  lemma SameHistory(s: State, r: RunId, signal: string, name: string, payload: Json)
    requires DeliversTo(s, r, signal)
    ensures Hist(Delivered(s, r, signal, name, payload), r) == Hist(s, r)
  {
  }
}
