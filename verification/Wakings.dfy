/** When waits end: over whole behaviours, no sleep is cut short, no wait for a
    signal times out before its deadline, and what wakes a run is what it waits
    for. Said of the events and the clock alone. */
module Wakings {
  import opened Prelude
  import opened Names
  import opened Core
  import opened Tables
  import opened Waits
  import opened Lifecycle
  import opened Invariants
  import opened Transactions
  import opened RunSteps
  import opened FanOuts
  import opened Advancing
  import opened Behaviours
  import opened Frames
  import opened Marks

  /** The instant a sleep was to last until. One that cannot be read has none. */
  function WakesAt(started: Event): Time {
    if started.data.TimerSetData? then started.data.wakeAt else INDEFINITE
  }

  /** The deadline of a wait for a signal. */
  function TimesOutAt(started: Event): Time {
    if started.data.SignalWaitData? && started.data.deadline != ZERO_TIME then started.data.deadline else INDEFINITE
  }

  /** An event that may end, in these tables, the wait that another one started:
      a sleep once its instant has come, a wait for a signal once its deadline
      has, or by a signal that is stored under the name it waits for. */
  predicate MayEnd(s: State, r: RunId, started: Event, e: Event) {
    && started.step == e.step
    && match e.typ
       case EvTimerFired =>
         started.typ.EvTimerSet? && WakesAt(started) <= s.clock && e.data == TimerFiredData(WakesAt(started))
       case EvSignalWaitTimedOut =>
         started.typ.EvSignalWaitStarted? && TimesOutAt(started) <= s.clock
       case EvSignalReceived =>
         && started.typ.EvSignalWaitStarted? && e.data.SignalReceivedData?
         && SignalKey(r, e.data.signal) in s.signals
         && s.signals[SignalKey(r, e.data.signal)].payload == e.data.payload
         && s.signals[SignalKey(r, e.data.signal)].name == e.data.name
         && (started.data.SignalWaitData? ==> started.data.name == e.data.name)
       case _ => false
  }

  /** It ends a wait of this run that is open. */
  ghost predicate EndsOpenWait(s: State, r: RunId, e: Event) {
    exists i :: 0 <= i < |Hist(s, r)| && Open(Hist(s, r), i) && MayEnd(s, r, Hist(s, r)[i], e)
  }

  // ----- one pass -----

  /** What a pass that ends a wait commits. */
  lemma EndingPass(cfg: Config, r: RunId, run: Run, h: seq<Event>, signals: map<SignalKey, Signal>,
                   found: Option<string>, now: Time)
    requires found.Some? ==> SignalKey(r, found.value) in signals
    requires var c := Pass(cfg, r, run, h, signals, found, now);
             c.Write? && c.fact.Some? && Resolves(AsEvent(c.fact.value))
    ensures var c := Pass(cfg, r, run, h, signals, found, now);
            Pending(h).Some? &&
            var w, f := Pending(h).value, c.fact.value;
            && f.step == w.step
            && (f.typ.EvTimerFired? ==> w.kind.WaitTimer? && w.until <= now && f.data == TimerFiredData(w.until))
            && (f.typ.EvSignalWaitTimedOut? ==> w.kind.WaitSignal? && w.until <= now)
            && (f.typ.EvSignalReceived? ==>
                  && w.kind.WaitSignal? && found.Some?
                  && var sig := signals[SignalKey(r, found.value)];
                     f.data == SignalReceivedData(sig.name, found.value, sig.payload))
  {
    hide Pending, Joining;
  }

  /** The pending wait of a run is one that is open in its history. */
  lemma PendingIsOpen(s: State, r: RunId) returns (i: nat)
    requires Inv(s) && r in s.runs && Pending(Hist(s, r)).Some?
    ensures i < |Hist(s, r)| && Open(Hist(s, r), i) && StartOf(Hist(s, r)[i]) == Pending(Hist(s, r))
  {
    hide Inv, Pending, Hist, Sequential, StatusOf, Consumed, SignalsOk, Open;
    InvRun(s, r);
    PendingIsUnmatched(Hist(s, r));
    var j :| Unmatched(Hist(s, r)) == {j} && 0 <= j < |Hist(s, r)| && StartOf(Hist(s, r)[j]) == Pending(Hist(s, r));
    assert j in Unmatched(Hist(s, r));
    i := j;
  }

  /** An event about the wait w, which started opened, may end it. */
  lemma DueMayEnd(s: State, r: RunId, started: Event, w: Wait, e: Event, now: Time)
    requires StartOf(started) == Some(w) && e.step == w.step && now <= s.clock && Resolves(e)
    requires e.typ.EvTimerFired? ==> w.kind.WaitTimer? && w.until <= now && e.data == TimerFiredData(w.until)
    requires e.typ.EvSignalWaitTimedOut? ==> w.kind.WaitSignal? && w.until <= now
    requires e.typ.EvSignalReceived? ==>
               && w.kind.WaitSignal? && e.data.SignalReceivedData? && SignalKey(r, e.data.signal) in s.signals
               && s.signals[SignalKey(r, e.data.signal)].payload == e.data.payload
               && s.signals[SignalKey(r, e.data.signal)].name == e.data.name == w.signal
    ensures MayEnd(s, r, started, e)
  {
  }

  /** What a committed write leaves of the histories. */
  lemma WrittenHistory(s: State, r: RunId, expected: int, next: RunState, f: Fact, q: RunId)
    ensures var t := AdvanceTx(s, r, expected, next, Some(f)).st;
            if r in s.runs && s.runs[r].version == expected && q == r && t != s then Hist(t, q) == Log(Hist(s, q), f)
            else Hist(t, q) == Hist(s, q)
  {
    hide Log;
  }

  /** What a pass sets out to commit, read in a, b and c, is to end a wait. */
  ghost predicate SetsOutToEnd(cfg: Config, r: RunId, a: State, b: State, c: State, found: Option<string>, now: Time,
                               p: Commitment) {
    && r in a.runs && (found.Some? ==> SignalKey(r, found.value) in c.signals)
    && (Pending(Hist(b, r)).Some? ==>
          Chosen(c.signals, r, Pending(Hist(b, r)).value.signal, Ids(Consumed(Hist(b, r))), found))
    && p == Pass(cfg, r, a.runs[r], Hist(b, r), c.signals, found, now)
    && p.Write? && p.fact.Some? && Resolves(AsEvent(p.fact.value))
  }

  /** Committed against d, it adds one event to one history, which ends an open
      wait of that run. */
  lemma EndingCommit(cfg: Config, r: RunId, a: State, b: State, c: State, d: State, found: Option<string>, now: Time,
                     p: Commitment, q: RunId, m: nat)
    requires StaleReads(a, b, c, d, r) && now <= d.clock && SetsOutToEnd(cfg, r, a, b, c, found, now, p)
    requires |Hist(d, q)| <= m < |Hist(AdvanceTx(d, r, a.runs[r].version, p.next, p.fact).st, q)|
    ensures m == |Hist(d, q)|
    ensures EndsOpenWait(d, q, Hist(AdvanceTx(d, r, a.runs[r].version, p.next, p.fact).st, q)[m])
  {
    hide Inv, Evolves, Pass, Pending, Hist, Chosen, Consumed, Ids, AdvanceTx, MayEnd, Open, StaleReads, Log;
    var f := p.fact.value;
    WrittenHistory(d, r, a.runs[r].version, p.next, f, q);
    LoggedLast(Hist(d, q), f);
    StaleRun(a, b, c, d, r);
    UnmovedRun(a, b, c, d, r);
    EndingPass(cfg, r, a.runs[r], Hist(b, r), c.signals, found, now);
    var w := Pending(Hist(b, r)).value;
    FoundStands(a, b, c, d, r, w.signal, found);
    var i := PendingIsOpen(d, r);
    StampIs(Hist(d, r), f);
    DueMayEnd(d, r, Hist(d, r)[i], w, Stamp(Hist(d, r), f), now);
  }

  lemma LoggedLast(h: seq<Event>, f: Fact)
    ensures |Log(h, f)| == |h| + 1 && Log(h, f)[|h|] == Stamp(h, f)
  {
  }

  lemma StaleRun(a: State, b: State, c: State, d: State, r: RunId)
    requires StaleReads(a, b, c, d, r)
    ensures Inv(d) && r in d.runs
  {
    hide Inv, Evolves, Pending, Consumed, Hist;
    RunEvolvesOf(a, d, r);
  }

  // ----- any step -----

  /** In every behaviour: an event that ends a wait ends one that is open, and is
      the only one its step adds. */
  lemma WaitsEndOnTime(tools: Tools, acts: seq<Action>, k: nat, r: RunId, m: nat)
    requires k < |acts|
    requires var past := States(tools, acts);
             |Hist(past[k], r)| <= m < |Hist(past[k + 1], r)| && Resolves(Hist(past[k + 1], r)[m])
    ensures var past := States(tools, acts);
            m == |Hist(past[k], r)| && EndsOpenWait(past[k], r, Hist(past[k + 1], r)[m])
  {
    hide Good, Next, Hist, EndsOpenWait, Resolves;
    var past := States(tools, acts);
    AllReachable(tools, acts);
    StepAt(tools, acts, k);
    PrefixIsGood(past, k + 1);
    StepEndsOnTime(tools, past[..k + 1], acts[k], r, m);
  }

  lemma PrefixIsGood(past: seq<State>, n: nat)
    requires Good(past) && n <= |past|
    ensures Good(past[..n])
  {
    hide Inv, Evolves;
  }

  lemma StepEndsOnTime(tools: Tools, past: seq<State>, a: Action, r: RunId, m: nat)
    requires past != [] && Good(past)
    requires |Hist(Last(past), r)| <= m < |Hist(Next(tools, past, a), r)| && Resolves(Hist(Next(tools, past, a), r)[m])
    ensures m == |Hist(Last(past), r)| && EndsOpenWait(Last(past), r, Hist(Next(tools, past, a), r)[m])
  {
    hide Good, Next, Hist, EndsOpenWait, Resolves, Pass, Unmarked;
    if a.Complete? {
      CompletionEndsNothing(tools, past, a, r, m);
    } else if a.Advance? && AdvanceEnabled(past, a) && !Unremarkable(PassOf(past, a), WakingsToo) {
      AdvanceEndsOnTime(tools, past, a, r, m);
    } else {
      OthersAddNone(tools, past, a, WakingsToo);
      QuietEndsNothing(Last(past), Next(tools, past, a), r, m);
    }
  }

  lemma QuietEndsNothing(s: State, t: State, r: RunId, m: nat)
    requires Unmarked(s, t, WakingsToo) && |Hist(s, r)| <= m < |Hist(t, r)|
    ensures !Resolves(Hist(t, r)[m])
  {
    hide Hist, Resolves;
    assert QuietTail(Hist(s, r), Hist(t, r), WakingsToo);
    assert !Marked(Hist(t, r)[m], WakingsToo);
  }

  lemma CompletionEndsNothing(tools: Tools, past: seq<State>, a: Action, r: RunId, m: nat)
    requires past != [] && a.Complete?
    requires |Hist(Last(past), r)| <= m < |Hist(Next(tools, past, a), r)|
    ensures !Resolves(Hist(Next(tools, past, a), r)[m])
  {
    hide Executed, Log;
    var s := Last(past);
    if a.id in s.tasks {
      LoggedLast(Hist(s, s.tasks[a.id].run),
                 Fact(EvTaskCompleted, s.tasks[a.id].step, TaskCompletedData(a.id, a.result)));
    }
  }

  lemma AdvanceEndsOnTime(tools: Tools, past: seq<State>, a: Action, r: RunId, m: nat)
    requires past != [] && Good(past) && a.Advance? && AdvanceEnabled(past, a)
    requires !Unremarkable(PassOf(past, a), WakingsToo)
    requires |Hist(Last(past), r)| <= m < |Hist(Next(tools, past, a), r)|
    ensures m == |Hist(Last(past), r)| && EndsOpenWait(Last(past), r, Hist(Next(tools, past, a), r)[m])
  {
    hide Inv, Evolves, Good, Pass, AdvanceTx, Chosen, Pending, Consumed, Ids, Hist, EndsOpenWait, Resolves;
    var k := |past| - 1;
    GoodAt(past, a.i, a.j);
    GoodAt(past, a.j, k);
    GoodAt(past, a.i, k);
    GoodAt(past, a.l, k);
    EndingCommit(a.cfg, a.r, past[a.i], past[a.j], past[a.l], past[k], a.found, a.now, PassOf(past, a), r, m);
  }
}
