/** Which steps record a completion, and which open a fan-out: every other step
    adds to history neither the one nor the other. */
module Marks {
  import opened Prelude
  import opened Names
  import opened Core
  import opened Tables
  import opened Waits
  import opened Transactions
  import opened RunSteps
  import opened CreateSteps
  import opened FanOuts
  import opened Advancing
  import opened Behaviours
  import opened Frames
  import opened Histories

  datatype Kind = Completed | FanOutsToo | WakingsToo | Telling

  /** Completions; and with them the openings of fan-outs, or whatever ends a
      wait or cannot be read, or all that the replay driver learns from. */
  predicate Marked(e: Event, kind: Kind) {
    || e.typ.EvTaskCompleted?
    || (kind.FanOutsToo? && e.typ.EvFanOutStarted?)
    || (kind.WakingsToo? && (Resolves(e) || (Interpreted(e.typ) && e.data.Unreadable?)))
    || (kind.Telling? && (e.typ.EvFanOutStarted? ||
                          (Interpreted(e.typ) && (!e.typ.EvRunStarted? || e.data.Unreadable?))))
  }

  /** A commitment of a pass that adds none. */
  predicate Unremarkable(c: Commitment, kind: Kind) {
    (kind.FanOutsToo? ==> !c.Fan?) &&
    (kind.WakingsToo? && c.Write? && c.fact.Some? ==> !Resolves(AsEvent(c.fact.value))) &&
    (kind.Telling? ==> !c.Dispatch? && !c.Fan? && (c.Write? && c.fact.Some? ==> !Marked(AsEvent(c.fact.value), kind)))
  }

  predicate QuietTail(h: seq<Event>, g: seq<Event>, kind: Kind) {
    h <= g && forall i :: |h| <= i < |g| ==> !Marked(g[i], kind)
  }

  ghost predicate Unmarked(s: State, t: State, kind: Kind) {
    forall r :: QuietTail(Hist(s, r), Hist(t, r), kind)
  }

  lemma NoneAdded(s: State, kind: Kind)
    ensures Unmarked(s, s, kind)
  {
  }

  lemma UnmarkedTransitive(s: State, t: State, u: State, kind: Kind)
    requires Unmarked(s, t, kind) && Unmarked(t, u, kind)
    ensures Unmarked(s, u, kind)
  {
    hide Hist;
  }

  lemma OneLogged(s: State, t: State, r: RunId, f: Fact, kind: Kind)
    requires t.events == s.events[r := Log(Hist(s, r), f)] && !Marked(AsEvent(f), kind)
    ensures Unmarked(s, t, kind)
  {
    var e := Stamp(Hist(s, r), f);
    assert e.typ == f.typ && e.data == f.data && e.step == f.step;
    hide Stamp;
  }

  lemma TwoLogged(s: State, t: State, r: RunId, f: Fact, f': Fact, kind: Kind)
    requires t.events == s.events[r := Log(Log(Hist(s, r), f), f')] && !Marked(AsEvent(f), kind) &&
             !Marked(AsEvent(f'), kind)
    ensures Unmarked(s, t, kind)
  {
    var m := s.(events := s.events[r := Log(Hist(s, r), f)]);
    OneLogged(s, m, r, f, kind);
    assert Hist(m, r) == Log(Hist(s, r), f);
    assert t.events == m.events[r := Log(Hist(m, r), f')];
    OneLogged(m, t, r, f', kind);
    UnmarkedTransitive(s, m, t, kind);
  }

  lemma SameEvents(s: State, t: State, kind: Kind)
    requires t.events == s.events
    ensures Unmarked(s, t, kind)
  {
  }

  lemma {:induction false} ChildrenAddNone(s: State, r: RunId, step: StepId, calls: seq<Call>, ids: seq<TaskId>,
                                           max: int, n: nat, kind: Kind)
    requires |ids| == |calls| && n <= |calls| && !kind.Telling?
    ensures Unmarked(s, AddChildren(s, r, step, calls, ids, max, n).st, kind)
  {
    hide Child, AddTask, Unmarked;
    if n == 0 {
      NoneAdded(s, kind);
    } else {
      ChildrenAddNone(s, r, step, calls, ids, max, n - 1, kind);
      var before := AddChildren(s, r, step, calls, ids, max, n - 1);
      if before.Commit? && AddTaskError(before.st, r, Child(step, n - 1), ids[n - 1]).None? {
        var t := AddTask(before.st, r, Child(step, n - 1), ids[n - 1], calls[n - 1], max);
        AddedFields(before.st, r, Child(step, n - 1), ids[n - 1], calls[n - 1], max);
        OneLogged(before.st, t, r, CreatedFact(Child(step, n - 1), ids[n - 1], calls[n - 1]), kind);
        UnmarkedTransitive(s, before.st, t, kind);
      }
    }
  }

  lemma AdvanceTxAddsNone(s: State, r: RunId, expected: int, next: RunState, fact: Option<Fact>, kind: Kind)
    requires fact.Some? ==> !Marked(AsEvent(fact.value), kind)
    ensures Unmarked(s, AdvanceTx(s, r, expected, next, fact).st, kind)
  {
    hide Log, Unmarked;
    var t := AdvanceTx(s, r, expected, next, fact).st;
    if t.events != s.events {
      OneLogged(s, t, r, fact.value, kind);
    } else {
      SameEvents(s, t, kind);
    }
  }

  lemma DispatchAddsNone(s: State, r: RunId, expected: int, output: Json, step: StepId, id: TaskId, call: Call,
                         max: int, kind: Kind)
    requires !kind.Telling?
    ensures Unmarked(s, DispatchTx(s, r, expected, output, step, id, call, max).st, kind)
  {
    hide AddTask, Unmarked;
    NoneAdded(s, kind);
    if DispatchTx(s, r, expected, output, step, id, call, max).Commit? {
      var b := Bump(s, r, RunState(RunRunning, output, "", None));
      AddedFields(b, r, step, id, call, max);
      assert Hist(b, r) == Hist(s, r);
      OneLogged(s, AddTask(b, r, step, id, call, max), r, CreatedFact(step, id, call), kind);
    }
  }

  lemma FanOutAddsNone(s: State, r: RunId, expected: int, output: Json, step: StepId,
                       calls: seq<Call>, join: JoinPolicy, ids: seq<TaskId>, max: int, kind: Kind)
    requires |ids| == |calls| && !kind.FanOutsToo? && !kind.Telling?
    ensures Unmarked(s, FanOutTx(s, r, expected, output, step, calls, join, ids, max).st, kind)
  {
    hide AddChildren, Unmarked, ToolNames, PolicyText, Log;
    if AdvanceError(s, r, expected, RunState(RunRunning, output, "", None)).None? {
      var f := Fact(EvFanOutStarted, step, FanOutData(ToolNames(calls), PolicyText(join)));
      var o := LogOn(Bump(s, r, RunState(RunRunning, output, "", None)), r, f);
      OneLogged(s, o, r, f, kind);
      ChildrenAddNone(o, r, step, calls, ids, max, |calls|, kind);
      UnmarkedTransitive(s, o, AddChildren(o, r, step, calls, ids, max, |calls|).st, kind);
      SameEvents(s, s.(deliverySeq := AddChildren(o, r, step, calls, ids, max, |calls|).st.deliverySeq), kind);
    } else {
      NoneAdded(s, kind);
    }
  }

  lemma PassWritesNone(cfg: Config, r: RunId, run: Run, h: seq<Event>, signals: map<SignalKey, Signal>,
                       found: Option<string>, now: Time, kind: Kind)
    requires found.Some? ==> SignalKey(r, found.value) in signals
    ensures var c := Pass(cfg, r, run, h, signals, found, now);
            c.Write? && c.fact.Some? && Unremarkable(c, kind) ==> !Marked(AsEvent(c.fact.value), kind)
  {
    hide Pending, Joining;
  }

  lemma CommitAddsNone(cfg: Config, s: State, r: RunId, run: Run, c: Commitment, ids: seq<TaskId>, kind: Kind)
    requires c.Write? && c.fact.Some? ==> !Marked(AsEvent(c.fact.value), kind)
    requires Unremarkable(c, kind)
    ensures Unmarked(s, CommitTx(cfg, s, r, run, c, ids).st, kind)
  {
    hide Unmarked, AdvanceTx, DispatchTx, FanOutTx;
    NoneAdded(s, kind);
    match c {
      case Nothing =>
      case Write(next, fact) => AdvanceTxAddsNone(s, r, run.version, next, fact, kind);
      case Dispatch(step, call) =>
        if |ids| != 0 { DispatchAddsNone(s, r, run.version, run.output, step, ids[0], call, cfg.maxAttempts, kind); }
      case Fan(step, calls, join) =>
        if |ids| == |calls| {
          FanOutAddsNone(s, r, run.version, run.output, step, calls, join, ids, cfg.maxAttempts, kind);
        }
    }
  }

  lemma AdvanceAddsNone(tools: Tools, past: seq<State>, a: Action, kind: Kind)
    requires past != [] && (a.Advance? || a.FailRun?)
    requires a.Advance? && AdvanceEnabled(past, a) ==> Unremarkable(PassOf(past, a), kind)
    ensures Unmarked(Last(past), Next(tools, past, a), kind)
  {
    hide Unmarked, AdvanceTx, CommitTx, Pass, Chosen, Pending, Ids, Consumed, Hist;
    var s := Last(past);
    NoneAdded(s, kind);
    if a.Advance? {
      if AdvanceEnabled(past, a) {
        PassWritesNone(a.cfg, a.r, past[a.i].runs[a.r], Hist(past[a.j], a.r), past[a.l].signals, a.found, a.now, kind);
        CommitAddsNone(a.cfg, s, a.r, past[a.i].runs[a.r], PassOf(past, a), a.ids, kind);
      }
    } else if a.i < |past| && a.r in past[a.i].runs && !past[a.i].runs[a.r].status.IsTerminal() {
      AdvanceTxAddsNone(s, a.r, past[a.i].runs[a.r].version, RunFailure(past[a.i].runs[a.r], a.reason),
                        Some(Fact(EvRunFailed, "", RunFailedData(a.reason))), kind);
    }
  }

  lemma ClaimAddsNone(s: State, id: TaskId, worker: string, now: Time, ttl: int, kind: Kind)
    ensures Unmarked(s, ClaimTx(s, id, worker, now, ttl).st, kind)
  {
    hide Log, Unmarked, LeaseTaken;
    NoneAdded(s, kind);
    var res := ClaimTx(s, id, worker, now, ttl);
    if res.Commit? {
      var t := s.tasks[id];
      OneLogged(s, res.st, t.run, Fact(EvTaskClaimed, t.step, TaskClaimedData(id, worker, t.attempt + 1)), kind);
    }
  }

  lemma FailAddsNone(s: State, id: TaskId, token: int, reason: string, escalated: bool, delay: int, now: Time,
                     kind: Kind)
    requires !kind.Telling?
    ensures Unmarked(s, FailTx(s, id, token, reason, escalated, delay, now).st, kind)
  {
    hide FailTx, Log, Unmarked, Marked, NotBefore;
    NoneAdded(s, kind);
    var res := FailTx(s, id, token, reason, escalated, delay, now);
    FailLogsTwo(s, id, token, reason, escalated, delay, now);
    if res.Commit? {
      var t := s.tasks[id];
      var retry := WillRetry(t, escalated);
      var f := Fact(EvTaskFailed, t.step, TaskFailedData(id, reason, t.attempt, !retry));
      var g := Fact(if retry then EvTaskRetryScheduled else EvTaskDeadLettered, t.step,
                    TaskRetryData(id, t.attempt, reason, NotBefore(t, escalated, delay, now)));
      FailuresAreUnmarked(f, g, kind);
      TwoLogged(s, res.st, t.run, f, g, kind);
    }
  }

  lemma FailLogsTwo(s: State, id: TaskId, token: int, reason: string, escalated: bool, delay: int, now: Time)
    ensures var res := FailTx(s, id, token, reason, escalated, delay, now);
            if res.Abort? then res.st == s
            else
              && id in s.tasks
              && var t := s.tasks[id];
                 var retry := WillRetry(t, escalated);
                 var f := Fact(EvTaskFailed, t.step, TaskFailedData(id, reason, t.attempt, !retry));
                 var g := Fact(if retry then EvTaskRetryScheduled else EvTaskDeadLettered, t.step,
                               TaskRetryData(id, t.attempt, reason, NotBefore(t, escalated, delay, now)));
                 res.st.events == s.events[t.run := Log(Log(Hist(s, t.run), f), g)]
  {
    hide Log, NotBefore, Released, Noted;
    if FailTx(s, id, token, reason, escalated, delay, now).Commit? {
      var t := s.tasks[id];
      var f := Fact(EvTaskFailed, t.step, TaskFailedData(id, reason, t.attempt, !WillRetry(t, escalated)));
      assert Hist(LogOn(s, t.run, f), t.run) == Log(Hist(s, t.run), f);
    }
  }

  lemma FailuresAreUnmarked(f: Fact, g: Fact, kind: Kind)
    requires f.typ.EvTaskFailed? && (g.typ.EvTaskDeadLettered? || g.typ.EvTaskRetryScheduled?) && !kind.Telling?
    requires f.data.TaskFailedData?
    ensures !Marked(AsEvent(f), kind) && !Marked(AsEvent(g), kind)
  {
  }

  lemma ReclaimAddsNone(s: State, id: TaskId, stale: Lease, reason: string, now: Time, kind: Kind)
    ensures Unmarked(s, ReclaimTx(s, id, stale, reason, now).st, kind)
  {
    hide ReclaimTx, Log, Unmarked, Marked;
    NoneAdded(s, kind);
    var res := ReclaimTx(s, id, stale, reason, now);
    if res.st != s {
      ReclaimLogsTwo(s, id, stale, reason, now);
      var t := s.tasks[id];
      var f := Fact(EvLeaseExpired, t.step, LeaseExpiredData(id, stale.worker, stale.token));
      var g := Fact(if t.Exhausted() then EvTaskDeadLettered else EvTaskRetryScheduled, t.step,
                    TaskRetryData(id, t.attempt, reason, ZERO_TIME));
      LapsesAreUnmarked(f, g, kind);
      TwoLogged(s, res.st, t.run, f, g, kind);
    }
  }

  lemma ReclaimLogsTwo(s: State, id: TaskId, stale: Lease, reason: string, now: Time)
    requires ReclaimTx(s, id, stale, reason, now).st != s
    ensures id in s.tasks
    ensures var t := s.tasks[id];
            var f := Fact(EvLeaseExpired, t.step, LeaseExpiredData(id, stale.worker, stale.token));
            var g := Fact(if t.Exhausted() then EvTaskDeadLettered else EvTaskRetryScheduled, t.step,
                          TaskRetryData(id, t.attempt, reason, ZERO_TIME));
            ReclaimTx(s, id, stale, reason, now).st.events == s.events[t.run := Log(Log(Hist(s, t.run), f), g)]
  {
    hide Log, LeaseTaken, Noted;
  }

  lemma LapsesAreUnmarked(f: Fact, g: Fact, kind: Kind)
    requires f.typ.EvLeaseExpired? && (g.typ.EvTaskDeadLettered? || g.typ.EvTaskRetryScheduled?)
    ensures !Marked(AsEvent(f), kind) && !Marked(AsEvent(g), kind)
  {
  }

  lemma WorkAddsNone(tools: Tools, past: seq<State>, a: Action, kind: Kind)
    requires past != [] && (a.Claim? || a.Heartbeat? || a.FailTask? || a.Reclaim?)
    requires kind.Telling? ==> !a.FailTask?
    ensures Unmarked(Last(past), Next(tools, past, a), kind)
  {
    hide Unmarked, ClaimTx, FailTx, ReclaimTx;
    var s := Last(past);
    NoneAdded(s, kind);
    match a {
      case Claim(id, worker, ttl) => ClaimAddsNone(s, id, worker, s.clock, ttl, kind);
      case Heartbeat(_, _, _) => SameEvents(s, Next(tools, past, a), kind);
      case FailTask(id, token, reason, escalated, delay) =>
        FailAddsNone(s, id, token, reason, escalated, delay, s.clock, kind);
      case Reclaim(id, stale, reason, now) => ReclaimAddsNone(s, id, stale, reason, now, kind);
      case _ =>
    }
  }

  lemma EventsFollow(s: State, t: State, r: RunId, f: Fact, kind: Kind)
    requires t.events == s.events || t.events == s.events[r := Log(Hist(s, r), f)]
    requires !Marked(AsEvent(f), kind)
    ensures Unmarked(s, t, kind)
  {
    hide Log, Unmarked;
    if t.events == s.events { SameEvents(s, t, kind); } else { OneLogged(s, t, r, f, kind); }
  }

  lemma ReserveAddsNone(s: State, key: Key, e: Effect, step: StepId, now: Time, kind: Kind)
    ensures Unmarked(s, ReserveTx(s, key, e, step, now).st, kind)
  {
    hide Unmarked, Log, EffectFact;
    EventsFollow(s, ReserveTx(s, key, e, step, now).st, e.run, Fact(EvEffectCreated, step, EffectFact(key, e, "")),
                 kind);
  }

  lemma MoveAddsNone(s: State, key: Key, from: EffectStatus, to: EffectStatus, out: EffectOutcome, run: RunId,
                     fact: Option<Fact>, now: Time, kind: Kind)
    requires fact.Some? ==> IsEffectEvent(fact.value.typ)
    ensures Unmarked(s, EffectTx(s, key, from, to, out, run, fact, now).st, kind)
  {
    hide Unmarked, Log, Moved;
    var t := EffectTx(s, key, from, to, out, run, fact, now).st;
    if fact.None? { SameEvents(s, t, kind); } else { EventsFollow(s, t, run, fact.value, kind); }
  }

  lemma StartAddsNone(s: State, r: RunId, agent: string, version: string, input: Json, kind: Kind)
    ensures Unmarked(s, StartRunTx(s, r, agent, version, input).st, kind)
  {
    hide Unmarked, Log;
    EventsFollow(s, StartRunTx(s, r, agent, version, input).st, r,
                 Fact(EvRunStarted, "", RunStartedData(agent, version, input)), kind);
  }

  lemma NoteAddsNone(s: State, run: RunId, fact: Fact, kind: Kind)
    requires IsEffectEvent(fact.typ)
    ensures Unmarked(s, NoteTx(s, run, fact).st, kind)
  {
    hide Unmarked, Log;
    EventsFollow(s, NoteTx(s, run, fact).st, run, fact, kind);
  }

  lemma RestAddsNone(tools: Tools, past: seq<State>, a: Action, kind: Kind)
    requires past != []
    requires a.Tick? || a.Start? || a.Deliver? || a.Register? || a.Mark? || a.Reserve? || a.MoveEffect? || a.Escalate?
    ensures Unmarked(Last(past), Next(tools, past, a), kind)
  {
    hide Unmarked, KeyOf, FreshEffect, StartRunTx, ReserveTx, EffectTx, NoteTx;
    var s, t := Last(past), Next(tools, past, a);
    NoneAdded(s, kind);
    match a {
      case Start(r, agent, version, input) => StartAddsNone(s, r, agent, version, input, kind);
      case Reserve(id) =>
        if id in s.tasks && s.tasks[id].tool in tools {
          var task := s.tasks[id];
          ReserveAddsNone(s, KeyOf(task), FreshEffect(tools, task, id), task.step, s.clock, kind);
        }
      case MoveEffect(key, from, to, out, run, fact) =>
        if Recordable(to, out, fact) { MoveAddsNone(s, key, from, to, out, run, fact, s.clock, kind); }
      case Escalate(run, fact) =>
        if IsEffectEvent(fact.typ) { NoteAddsNone(s, run, fact, kind); }
      case Tick(_) => SameEvents(s, t, kind);
      case Deliver(_, _, _, _, _) => SameEvents(s, t, kind);
      case Register(_) => SameEvents(s, t, kind);
      case Mark(_, _) => SameEvents(s, t, kind);
      case _ =>
    }
  }

  lemma OthersAddNone(tools: Tools, past: seq<State>, a: Action, kind: Kind)
    requires past != [] && !a.Complete? && (kind.Telling? ==> !a.FailTask?)
    requires a.Advance? && AdvanceEnabled(past, a) ==> Unremarkable(PassOf(past, a), kind)
    ensures Unmarked(Last(past), Next(tools, past, a), kind)
  {
    hide Next, Unmarked;
    if a.Advance? || a.FailRun? {
      AdvanceAddsNone(tools, past, a, kind);
    } else if a.Claim? || a.Heartbeat? || a.FailTask? || a.Reclaim? {
      WorkAddsNone(tools, past, a, kind);
    } else {
      RestAddsNone(tools, past, a, kind);
    }
  }
}
