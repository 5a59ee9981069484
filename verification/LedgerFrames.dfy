/** The ledger holds an answer only for what is committed: in every reachable
    state, and so what a tool returned is what its row holds. */
module LedgerFrames {
  import opened Prelude
  import opened Names
  import opened Core
  import opened Tables
  import opened Waits
  import opened Transactions
  import opened CreateSteps
  import opened Advancing
  import opened Behaviours
  import opened Frames

  /** The ledger holds an answer only for what is committed. */
  predicate NoEarlyAnswers(s: State) {
    forall k :: k in s.effects && !s.effects[k].status.EffectCommitted? ==> s.effects[k].response.None?
  }

  lemma SameAnswers(s: State, t: State)
    requires NoEarlyAnswers(s) && t.effects == s.effects
    ensures NoEarlyAnswers(t)
  {
  }

  lemma {:induction false} ChildrenKeepLedger(s: State, r: RunId, step: StepId, calls: seq<Call>, ids: seq<TaskId>,
                                              max: int, n: nat)
    requires |ids| == |calls| && n <= |calls|
    ensures AddChildren(s, r, step, calls, ids, max, n).st.effects == s.effects
  {
    hide Child, AddTask;
    if n > 0 {
      ChildrenKeepLedger(s, r, step, calls, ids, max, n - 1);
      var before := AddChildren(s, r, step, calls, ids, max, n - 1).st;
      AddedFields(before, r, Child(step, n - 1), ids[n - 1], calls[n - 1], max);
    }
  }

  lemma CommitKeepsLedger(cfg: Config, s: State, r: RunId, run: Run, c: Commitment, ids: seq<TaskId>)
    ensures CommitTx(cfg, s, r, run, c, ids).st.effects == s.effects
  {
    hide AddChildren, Log, ToolNames, PolicyText, AddTask;
    if c.Fan? && |ids| == |c.calls| && r in s.runs {
      var o := LogOn(Bump(s, r, RunState(RunRunning, run.output, "", None)), r,
                     Fact(EvFanOutStarted, c.step, FanOutData(ToolNames(c.calls), PolicyText(c.join))));
      ChildrenKeepLedger(o, r, c.step, c.calls, ids, cfg.maxAttempts, |c.calls|);
    } else if c.Dispatch? && ids != [] && r in s.runs {
      AddedFields(Bump(s, r, RunState(RunRunning, run.output, "", None)), r, c.step, ids[0], c.call, cfg.maxAttempts);
    }
  }

  lemma StartKeepsLedger(s: State, r: RunId, agent: string, version: string, input: Json)
    ensures StartRunTx(s, r, agent, version, input).st.effects == s.effects
  {
    hide Log;
  }

  lemma WriteKeepsLedger(s: State, r: RunId, expected: int, next: RunState, fact: Option<Fact>)
    ensures AdvanceTx(s, r, expected, next, fact).st.effects == s.effects
  {
    hide Log;
  }

  lemma CompleteKeepsLedger(s: State, id: TaskId, token: int, result: Json, now: Time)
    ensures CompleteTx(s, id, token, result, now).st.effects == s.effects
  {
    hide Log;
  }

  lemma FailKeepsLedger(s: State, id: TaskId, token: int, reason: string, escalated: bool, delay: int, now: Time)
    ensures FailTx(s, id, token, reason, escalated, delay, now).st.effects == s.effects
  {
    hide Log;
  }

  lemma DeliverKeepsLedger(s: State, r: RunId, id: string, name: string, payload: Json, now: Time)
    ensures DeliverTx(s, r, id, name, payload, now).st.effects == s.effects
  {
  }

  lemma ClaimKeepsLedger(s: State, id: TaskId, worker: string, now: Time, ttl: int)
    ensures ClaimTx(s, id, worker, now, ttl).st.effects == s.effects
  {
    hide Log;
  }

  lemma ReclaimKeepsLedger(s: State, id: TaskId, stale: Lease, reason: string, now: Time)
    ensures ReclaimTx(s, id, stale, reason, now).st.effects == s.effects
  {
    hide Log;
  }

  lemma MovesKeepAnswers(s: State, key: Key, from: EffectStatus, to: EffectStatus, out: EffectOutcome,
                         run: RunId, fact: Option<Fact>, now: Time)
    requires NoEarlyAnswers(s) && (out.response.Some? ==> to.EffectCommitted?)
    ensures var res := EffectTx(s, key, from, to, out, run, fact, now);
            NoEarlyAnswers(res.st) &&
            (res.Commit? && to.EffectCommitted? ==> CommittedWith(res.st, key, out.response))
  {
    hide Log;
  }

  lemma ReserveKeepsAnswers(s: State, key: Key, e: Effect, step: StepId, now: Time)
    requires NoEarlyAnswers(s) && e.response.None?
    ensures NoEarlyAnswers(ReserveTx(s, key, e, step, now).st)
  {
    hide Log, EffectFact;
  }

  // ----- in every reachable state -----

  lemma WorkKeepsLedger(tools: Tools, past: seq<State>, a: Action)
    requires past != [] && (MovesTasks(a) || a.Heartbeat?)
    ensures Next(tools, past, a).effects == Last(past).effects
  {
    hide ClaimTx, CompleteTx, FailTx, ReclaimTx, Executed;
    var s := Last(past);
    match a {
      case Claim(id, worker, ttl) => ClaimKeepsLedger(s, id, worker, s.clock, ttl);
      case Complete(id, token, result, _) => CompleteKeepsLedger(s, id, token, result, s.clock);
      case FailTask(id, token, reason, escalated, delay) =>
        FailKeepsLedger(s, id, token, reason, escalated, delay, s.clock);
      case Reclaim(id, stale, reason, now) => ReclaimKeepsLedger(s, id, stale, reason, now);
      case _ =>
    }
  }

  lemma AdvanceKeepsLedger(tools: Tools, past: seq<State>, a: Action)
    requires past != [] && (a.Advance? || a.FailRun?)
    ensures Next(tools, past, a).effects == Last(past).effects
  {
    hide AdvanceTx, CommitTx, Pass, Chosen, Pending, Ids, Consumed, Hist;
    var s := Last(past);
    if a.Advance? {
      if AdvanceEnabled(past, a) { CommitKeepsLedger(a.cfg, s, a.r, past[a.i].runs[a.r], PassOf(past, a), a.ids); }
    } else if a.i < |past| && a.r in past[a.i].runs && !past[a.i].runs[a.r].status.IsTerminal() {
      WriteKeepsLedger(s, a.r, past[a.i].runs[a.r].version, RunFailure(past[a.i].runs[a.r], a.reason),
                       Some(Fact(EvRunFailed, "", RunFailedData(a.reason))));
    }
  }

  lemma RestKeepsAnswers(tools: Tools, past: seq<State>, a: Action)
    requires past != [] && NoEarlyAnswers(Last(past))
    requires a.Tick? || a.Start? || a.Deliver? || a.Register? || a.Mark? || a.Reserve? || a.MoveEffect? || a.Escalate?
    ensures NoEarlyAnswers(Next(tools, past, a))
  {
    hide NoEarlyAnswers, StartRunTx, DeliverTx, ReserveTx, EffectTx, Log, KeyOf;
    var s := Last(past);
    match a {
      case Start(r, agent, version, input) => StartKeepsLedger(s, r, agent, version, input);
      case Deliver(r, _, signal, name, payload) => DeliverKeepsLedger(s, r, signal, name, payload, s.clock);
      case Reserve(id) =>
        if id in s.tasks && s.tasks[id].tool in tools {
          ReserveKeepsAnswers(s, KeyOf(s.tasks[id]), FreshEffect(tools, s.tasks[id], id), s.tasks[id].step, s.clock);
        }
      case MoveEffect(key, from, to, out, run, fact) =>
        if Recordable(to, out, fact) { MovesKeepAnswers(s, key, from, to, out, run, fact, s.clock); }
      case _ =>
    }
    if !a.Reserve? && !a.MoveEffect? { SameAnswers(s, Next(tools, past, a)); }
  }

  lemma StepKeepsAnswers(tools: Tools, past: seq<State>, a: Action)
    requires past != [] && NoEarlyAnswers(Last(past))
    ensures NoEarlyAnswers(Next(tools, past, a))
  {
    hide Next, NoEarlyAnswers;
    if a.Advance? || a.FailRun? {
      AdvanceKeepsLedger(tools, past, a);
      SameAnswers(Last(past), Next(tools, past, a));
    } else if MovesTasks(a) || a.Heartbeat? {
      WorkKeepsLedger(tools, past, a);
      SameAnswers(Last(past), Next(tools, past, a));
    } else {
      RestKeepsAnswers(tools, past, a);
    }
  }

  /** No row holds an answer before it is COMMITTED, in any behaviour. */
  lemma {:induction false} AnswersComeWithCommitment(tools: Tools, acts: seq<Action>)
    ensures NoEarlyAnswers(Last(States(tools, acts)))
  {
    hide Next, NoEarlyAnswers;
    if acts == [] {
      EmptyHasNoAnswers();
    } else {
      AnswersComeWithCommitment(tools, acts[..|acts| - 1]);
      StepKeepsAnswers(tools, States(tools, acts[..|acts| - 1]), acts[|acts| - 1]);
    }
  }

  lemma EmptyHasNoAnswers()
    ensures NoEarlyAnswers(EMPTY)
  {
  }
}
