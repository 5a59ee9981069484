/** One pass of Engine.Advance: what it commits, given what it read. The reads
    are arguments, so that they may be as stale as concurrency makes them. */
module Advancing {
  import opened Prelude
  import opened Names
  import opened Core
  import opened Tables
  import opened Waits
  import opened Invariants
  import opened Transactions
  import opened RunSteps
  import opened CreateSteps
  import opened FanOuts

  datatype Answer =
    | Decided(decision: Decision)
    | Unavailable            // ErrUnavailable: nobody can decide right now
    | CannotDecide(error: string)

  /** One engine: the agent it serves, its decider and its tuning. */
  datatype Config = Config(
    agent: string, agentVersion: string, ttl: int, maxAttempts: int,
    decide: (Run, seq<Event>) -> Answer)

  // ----- signals: the oldest one nobody has taken -----

  function LexLess(a: string, b: string): bool {
    if b == "" then false
    else if a == "" then true
    else if a[0] != b[0] then a[0] < b[0]
    else LexLess(a[1..], b[1..])
  }

  predicate Before(a: Signal, aId: string, b: Signal, bId: string) {
    a.createdAt < b.createdAt || (a.createdAt == b.createdAt && LexLess(aId, bId))
  }

  predicate Untaken(signals: map<SignalKey, Signal>, r: RunId, name: string, taken: set<string>, id: string) {
    SignalKey(r, id) in signals && signals[SignalKey(r, id)].name == name && id !in taken
  }

  ghost predicate Oldest(signals: map<SignalKey, Signal>, r: RunId, name: string, taken: set<string>, id: string) {
    Untaken(signals, r, name, taken, id) &&
    forall other :: Untaken(signals, r, name, taken, other) && other != id ==>
      Before(signals[SignalKey(r, id)], id, signals[SignalKey(r, other)], other)
  }

  /** What unconsumedSignal returns. */
  ghost predicate Chosen(signals: map<SignalKey, Signal>, r: RunId, name: string, taken: set<string>,
                         found: Option<string>) {
    match found
    case Some(id) => Oldest(signals, r, name, taken, id)
    case None => forall id :: !Untaken(signals, r, name, taken, id)
  }

  // ----- waits -----

  /** waitIsOver: the event that ends the wait, if something has ended it. */
  function WaitOver(w: Wait, signals: map<SignalKey, Signal>, r: RunId, found: Option<string>, now: Time): Option<Fact>
    requires w.kind.WaitSignal? && found.Some? ==> SignalKey(r, found.value) in signals
  {
    match w.kind
    case WaitTimer =>
      if w.Elapsed(now) then Some(Fact(EvTimerFired, w.step, TimerFiredData(w.until))) else None
    case WaitSignal =>
      if found.Some? then
        var sig := signals[SignalKey(r, found.value)];
        Some(Fact(EvSignalReceived, w.step, SignalReceivedData(sig.name, found.value, sig.payload)))
      else if w.Elapsed(now) then
        Some(Fact(EvSignalWaitTimedOut, w.step, SignalTimedOutData(w.signal, w.until)))
      else None
  }

  // ----- one pass -----

  datatype Commitment =
    | Nothing
    | Write(next: RunState, fact: Option<Fact>)
    | Dispatch(step: StepId, call: Call)
    | Fan(step: StepId, calls: seq<Call>, join: JoinPolicy)

  function FailWith(error: string): Commitment {
    Write(RunState(RunFailed, None, error, None), Some(Fact(EvRunFailed, "", RunFailedData(error))))
  }

  /** What is left of a decider that cannot decide: the row says where it failed. */
  function CannotGoOn(error: string): Commitment {
    Write(RunState(RunFailed, None, "decide: " + error, None), Some(Fact(EvRunFailed, "", RunFailedData(error))))
  }

  function WaitDeadline(deadline: Time): Time {
    if deadline == ZERO_TIME then INDEFINITE else deadline
  }

  function Enact(run: Run, d: Decision): Commitment {
    match d
    case CallTool(step, tool, payload) => Dispatch(step, Call(tool, payload))
    case CallToolParallel(step, calls, join) =>
      if join.Valid(|calls|) then Fan(step, calls, join)
      else FailWith("fan-out at step " + step)
    case Sleep(step, wakeAt) =>
      Write(RunState(RunRunning, run.output, "", Some(wakeAt)), Some(Fact(EvTimerSet, step, TimerSetData(wakeAt))))
    case WaitForSignal(step, name, deadline) =>
      Write(RunState(RunRunning, run.output, "", Some(WaitDeadline(deadline))),
            Some(Fact(EvSignalWaitStarted, step, SignalWaitData(name, deadline))))
    case Complete(output) =>
      Write(RunState(RunCompleted, output, "", None), Some(Fact(EvRunCompleted, "", RunCompletedData(output))))
    case Fail(error) => FailWith(error)
    case Cancel(reason) =>
      Write(RunState(RunCancelled, None, "", None), Some(Fact(EvRunCancelled, "", RunCancelledData(reason))))
  }

  /** The second half of a pass: skip the decider while a fan-out is joining,
      otherwise ask it. */
  function AskDecider(cfg: Config, run: Run, h: seq<Event>): Commitment {
    if Joining(h).Some? then Nothing
    else
      match cfg.decide(run, h)
      case Unavailable => Nothing
      case CannotDecide(error) => CannotGoOn(error)
      case Decided(d) => Enact(run, d)
  }

  function Serving(run: Run, w: Wait, over: Option<Fact>): Commitment {
    match over
    case Some(f) => Write(StillRunning(run), Some(f))
    case None =>
      if run.availableAt.None? then Write(RunState(RunRunning, run.output, "", Some(w.until)), None) else Nothing
  }

  function Pass(cfg: Config, r: RunId, run: Run, h: seq<Event>, signals: map<SignalKey, Signal>,
                found: Option<string>, now: Time): Commitment
    requires found.Some? ==> SignalKey(r, found.value) in signals
  {
    if run.status.IsTerminal() || run.agent != cfg.agent then Nothing
    else
      match Pending(h)
      case Some(w) => Serving(run, w, WaitOver(w, signals, r, found, now))
      case None => AskDecider(cfg, run, h)
  }

  /** Committing it against the tables as they are by now. */
  function CommitTx(cfg: Config, s: State, r: RunId, run: Run, c: Commitment, ids: seq<TaskId>): TxResult {
    match c
    case Nothing => Commit(s)
    case Write(next, fact) => AdvanceTx(s, r, run.version, next, fact)
    case Dispatch(step, call) =>
      if |ids| == 0 then Commit(s) else DispatchTx(s, r, run.version, run.output, step, ids[0], call, cfg.maxAttempts)
    case Fan(step, calls, join) =>
      if |ids| != |calls| then Commit(s)
      else FanOutTx(s, r, run.version, run.output, step, calls, join, ids, cfg.maxAttempts)
  }

  // ----- a pass keeps the invariants however stale its reads -----

  /** a is where the run was read, b where its history was, c where the signals
      were; d is the state the commit lands on. */
  predicate StaleReads(a: State, b: State, c: State, d: State, r: RunId) {
    Inv(d) && Evolves(a, b) && Evolves(b, d) && Evolves(a, d) && Evolves(c, d) && r in a.runs
  }

  lemma RunEvolvesOf(a: State, b: State, r: RunId)
    requires Evolves(a, b) && r in a.runs
    ensures RunEvolves(a, b, r)
  {
    hide TasksEvolve, LedgerEvolves, SignalsEvolve, OutboxEvolves, RunEvolves;
  }

  lemma UnmovedRun(a: State, b: State, c: State, d: State, r: RunId)
    requires StaleReads(a, b, c, d, r) && r in d.runs && d.runs[r].version == a.runs[r].version
    ensures d.runs[r].status == a.runs[r].status
    ensures Pending(Hist(d, r)) == Pending(Hist(b, r)) && Consumed(Hist(d, r)) == Consumed(Hist(b, r))
  {
    hide Inv, Evolves, Pending, Consumed, Hist;
    RunEvolvesOf(a, b, r);
    RunEvolvesOf(b, d, r);
    RunEvolvesOf(a, d, r);
  }

  lemma SignalStands(c: State, d: State, k: SignalKey)
    requires Evolves(c, d) && k in c.signals
    ensures k in d.signals && d.signals[k] == c.signals[k]
  {
    hide TasksEvolve, LedgerEvolves, RunsEvolve, OutboxEvolves;
  }

  lemma DecisionsMayBeRecorded(cfg: Config, d: State, r: RunId, run: Run, h: seq<Event>)
    requires r in d.runs && d.runs[r].status.RunRunning? && Pending(Hist(d, r)).None?
    requires AskDecider(cfg, run, h).Write?
    ensures MayRecord(d, r, AskDecider(cfg, run, h).next, AskDecider(cfg, run, h).fact)
  {
    hide Pending, Joining, Hist;
  }

  lemma ServingMayBeRecorded(d: State, r: RunId, run: Run, w: Wait, signals: map<SignalKey, Signal>,
                             found: Option<string>, now: Time)
    requires r in d.runs && d.runs[r].status.RunRunning? && Pending(Hist(d, r)) == Some(w)
    requires found.Some? ==> Untaken(signals, r, w.signal, Ids(Consumed(Hist(d, r))), found.value)
    requires found.Some? ==> SignalKey(r, found.value) in d.signals &&
                             d.signals[SignalKey(r, found.value)] == signals[SignalKey(r, found.value)]
    requires Serving(run, w, WaitOver(w, signals, r, found, now)).Write?
    ensures MayRecord(d, r, Serving(run, w, WaitOver(w, signals, r, found, now)).next,
                      Serving(run, w, WaitOver(w, signals, r, found, now)).fact)
  {
    hide Pending, Hist, Consumed, Ids;
  }

  lemma ReadRun(a: State, b: State, c: State, d: State, r: RunId)
    requires StaleReads(a, b, c, d, r)
    ensures r in a.runs
  {
  }

  /** What a pass found is still there to be taken. */
  lemma FoundStands(a: State, b: State, c: State, d: State, r: RunId, name: string, found: Option<string>)
    requires StaleReads(a, b, c, d, r) && r in d.runs && d.runs[r].version == a.runs[r].version
    requires Chosen(c.signals, r, name, Ids(Consumed(Hist(b, r))), found)
    ensures found.Some? ==>
              && Untaken(c.signals, r, name, Ids(Consumed(Hist(d, r))), found.value)
              && SignalKey(r, found.value) in d.signals
              && d.signals[SignalKey(r, found.value)] == c.signals[SignalKey(r, found.value)]
  {
    hide Inv, Evolves, Pending, Consumed, Ids, Hist, Before;
    UnmovedRun(a, b, c, d, r);
    if found.Some? { SignalStands(c, d, SignalKey(r, found.value)); }
  }

  lemma PassMayBeRecorded(cfg: Config, r: RunId, a: State, b: State, c: State, d: State, found: Option<string>,
                          now: Time)
    requires StaleReads(a, b, c, d, r) && r in d.runs && d.runs[r].version == a.runs[r].version
    requires Pending(Hist(b, r)).Some? ==>
               Chosen(c.signals, r, Pending(Hist(b, r)).value.signal, Ids(Consumed(Hist(b, r))), found)
    requires found.Some? ==> SignalKey(r, found.value) in c.signals
    requires Pass(cfg, r, a.runs[r], Hist(b, r), c.signals, found, now).Write?
    ensures MayRecord(d, r, Pass(cfg, r, a.runs[r], Hist(b, r), c.signals, found, now).next,
                      Pass(cfg, r, a.runs[r], Hist(b, r), c.signals, found, now).fact)
  {
    hide StaleReads, Inv, Evolves, Chosen, Pending, Consumed, Ids, Hist, MayRecord, AskDecider, Serving, WaitOver;
    UnmovedRun(a, b, c, d, r);
    ReadRun(a, b, c, d, r);
    PassNeedsRunning(cfg, r, a.runs[r], Hist(b, r), c.signals, found, now);
    if Pending(Hist(b, r)).Some? {
      FoundStands(a, b, c, d, r, Pending(Hist(b, r)).value.signal, found);
      ServingMayBeRecorded(d, r, a.runs[r], Pending(Hist(b, r)).value, c.signals, found, now);
    } else {
      DecisionsMayBeRecorded(cfg, d, r, a.runs[r], Hist(b, r));
    }
  }

  lemma PassNeedsRunning(cfg: Config, r: RunId, run: Run, h: seq<Event>, signals: map<SignalKey, Signal>,
                         found: Option<string>, now: Time)
    requires found.Some? ==> SignalKey(r, found.value) in signals
    requires !Pass(cfg, r, run, h, signals, found, now).Nothing?
    ensures run.status.RunRunning?
  {
    hide Pending, AskDecider, Serving, WaitOver;
  }

  lemma PassKeepsInv(cfg: Config, r: RunId, a: State, b: State, c: State, d: State,
                     found: Option<string>, now: Time, ids: seq<TaskId>)
    requires StaleReads(a, b, c, d, r) && cfg.maxAttempts >= 1
    requires Pending(Hist(b, r)).Some? ==>
               Chosen(c.signals, r, Pending(Hist(b, r)).value.signal, Ids(Consumed(Hist(b, r))), found)
    requires found.Some? ==> SignalKey(r, found.value) in c.signals
    ensures var res := CommitTx(cfg, d, r, a.runs[r], Pass(cfg, r, a.runs[r], Hist(b, r), c.signals, found, now), ids);
            Inv(res.st) && Evolves(d, res.st)
  {
    hide Inv, Evolves, Pass, Pending, Hist, Consumed, Ids, Chosen, MayRecord, AdvanceTx, DispatchTx, FanOutTx;
    var run := a.runs[r];
    var p := Pass(cfg, r, run, Hist(b, r), c.signals, found, now);
    if !p.Nothing? {
      PassNeedsRunning(cfg, r, run, Hist(b, r), c.signals, found, now);
      if r in d.runs && d.runs[r].version == run.version {
        UnmovedRun(a, b, c, d, r);
      }
      match p {
        case Write(next, fact) =>
          if AdvanceError(d, r, run.version, next).None? {
            PassMayBeRecorded(cfg, r, a, b, c, d, found, now);
          }
          AdvanceKeepsInv(d, r, run.version, next, fact);
        case Dispatch(step, call) =>
          if |ids| == 0 { EvolvesReflexive(d); }
          else { DispatchKeepsInv(d, r, run.version, run.output, step, ids[0], call, cfg.maxAttempts); }
        case Fan(step, calls, join) =>
          if |ids| != |calls| { EvolvesReflexive(d); }
          else { FanOutKeepsInv(d, r, run.version, run.output, step, calls, join, ids, cfg.maxAttempts); }
      }
    } else {
      EvolvesReflexive(d);
    }
  }
}
