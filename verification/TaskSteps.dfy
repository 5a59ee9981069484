/** Claims, reports and reclaims keep the invariants. Each touches one task, so
    what has to be shown per transaction is only that task's own condition. */
module TaskSteps {
  import opened Prelude
  import opened Names
  import opened Core
  import opened Tables
  import opened Waits
  import opened Lifecycle
  import opened Invariants
  import opened Transactions

  predicate SameIdentity(a: Task, b: Task) {
    a.run == b.run && a.step == b.step && a.tool == b.tool && a.payload == b.payload && a.maxAttempts == b.maxAttempts
  }

  /** s becomes t by a transaction about task id alone. */
  predicate OnTask(s: State, t: State, id: TaskId) {
    && id in s.tasks && id in t.tasks && id in t.leases
    && t.tasks == s.tasks[id := t.tasks[id]] && SameIdentity(s.tasks[id], t.tasks[id])
    && t.leases == s.leases[id := t.leases[id]] && t.leases[id].worker in s.workers
    && t.runs == s.runs && t.stepIndex == s.stepIndex && t.effects == s.effects && t.workers == s.workers
    && t.signals == s.signals && t.published == s.published && t.clock == s.clock
    && Announced(s, t, id)
    && s.tasks[id].run in s.runs
    && t.events == s.events[s.tasks[id].run := Hist(t, s.tasks[id].run)]
    && Extended(Hist(s, s.tasks[id].run), Hist(t, s.tasks[id].run), id, s.tasks[id].step)
  }

  predicate Announced(s: State, t: State, id: TaskId) {
    || (t.deliveries == s.deliveries && t.deliverySeq == s.deliverySeq)
    || (t.deliverySeq == s.deliverySeq + 1 &&
        t.deliverySeq in t.deliveries && t.deliveries[t.deliverySeq].task == id &&
        t.deliveries == s.deliveries[t.deliverySeq := t.deliveries[t.deliverySeq]])
  }

  predicate Extended(h: seq<Event>, g: seq<Event>, id: TaskId, step: StepId) {
    && h <= g && (Gapless(h) ==> Gapless(g))
    && forall i :: |h| <= i < |g| ==> Concerns(g[i], id) && g[i].step == step
  }

  lemma OneMore(h: seq<Event>, f: Fact, id: TaskId)
    requires IsTaskEvent(f.typ) && TaskIdOf(f.data) == Some(id)
    ensures Extended(h, Log(h, f), id, f.step)
  {
    if Gapless(h) { LogKeepsGapless(h, f); }
  }

  lemma TwoMore(h: seq<Event>, f: Fact, f': Fact, id: TaskId)
    requires IsTaskEvent(f.typ) && TaskIdOf(f.data) == Some(id)
    requires IsTaskEvent(f'.typ) && TaskIdOf(f'.data) == Some(id) && f'.step == f.step
    ensures Extended(h, Log(Log(h, f), f'), id, f.step)
  {
    OneMore(h, f, id);
    OneMore(Log(h, f), f', id);
  }

  lemma IndexKept(s: State, t: State, id: TaskId)
    requires IndexOk(s) && OnTask(s, t, id)
    ensures IndexOk(t)
  {
    hide Announced, Extended, Hist;
  }

  lemma ParentsKept(s: State, t: State, id: TaskId)
    requires ParentsOk(s) && OnTask(s, t, id)
    ensures ParentsOk(t) && OutboxEvolves(s, t)
  {
    hide Extended, Hist;
  }

  lemma EffectsKept(s: State, t: State, id: TaskId)
    requires EffectsOk(s) && OnTask(s, t, id)
    ensures EffectsOk(t)
  {
    hide Announced, Extended, Hist, NewKey;
  }

  lemma HistoriesKept(s: State, t: State, id: TaskId)
    requires HistoriesOk(s) && OnTask(s, t, id)
    ensures HistoriesOk(t)
  {
    hide Announced;
    forall r | r in t.runs
      ensures HistoryOk(t, r)
    {
      assert HistoryOk(s, r);
      var h, g := Hist(s, r), Hist(t, r);
      forall i | 0 <= i < |g|
        ensures EventOk(t, r, g[i])
      {
        if i < |h| { assert EventOk(s, r, h[i]); }
      }
    }
  }

  lemma RunKept(s: State, t: State, id: TaskId, r: RunId)
    requires OnTask(s, t, id) && r in s.runs && RunOk(s, r)
    ensures RunOk(t, r) && RunEvolves(s, t, r)
  {
    hide Announced, SignalsOk, StatusOf, Pending, Consumed, Sequential, Gapless;
    var h, g := Hist(s, r), Hist(t, r);
    assert h <= g && forall i :: |h| <= i < |g| ==> RunNeutral(g[i]);
    NeutralEvents(h, g);
  }

  lemma RunsKept(s: State, t: State, id: TaskId)
    requires RunsOk(s) && OnTask(s, t, id)
    ensures RunsOk(t) && RunsEvolve(s, t)
  {
    hide RunOk, RunEvolves, Announced, Extended;
    forall r | r in t.runs
      ensures RunOk(t, r) && RunEvolves(s, t, r)
    {
      RunKept(s, t, id, r);
    }
  }

  lemma OtherView(s: State, t: State, id: TaskId, other: TaskId)
    requires OnTask(s, t, id) && other in s.tasks && other != id
    ensures ViewOf(Hist(t, s.tasks[other].run), other) == ViewOf(Hist(s, s.tasks[other].run), other)
  {
    hide Announced, ViewOf, SameIdentity, Gapless;
    var r := s.tasks[other].run;
    var h, g := Hist(s, r), Hist(t, r);
    assert h <= g && forall i :: |h| <= i < |g| ==> !Concerns(g[i], other);
    ViewSkips(h, g, other);
  }

  lemma OtherRows(s: State, t: State, id: TaskId, other: TaskId)
    requires ParentsOk(s) && Announced(s, t, id) && other != id
    ensures |Rows(t.deliveries, other)| == |Rows(s.deliveries, other)|
  {
    if t.deliverySeq != s.deliverySeq {
      RowsAfterEnqueue(s.deliveries, t.deliverySeq, t.deliveries[t.deliverySeq], other);
    }
  }

  lemma OthersKept(s: State, t: State, id: TaskId, other: TaskId)
    requires ParentsOk(s) && OnTask(s, t, id)
    requires other in s.tasks && other != id && TaskOk(s, other)
    ensures TaskOk(t, other) && TaskEvolves(s, t, other)
  {
    hide Announced, Extended, ViewOf, Rows, ParentsOk, PhaseOf, SameIdentity, Hist;
    OtherView(s, t, id, other);
    OtherRows(s, t, id, other);
  }

  lemma TasksKept(s: State, t: State, id: TaskId)
    requires ParentsOk(s) && TasksOk(s) && OnTask(s, t, id) && TaskOk(t, id) && TaskEvolves(s, t, id)
    ensures TasksOk(t) && TasksEvolve(s, t)
  {
    hide TaskOk, TaskEvolves, Announced, Extended, SameIdentity, ParentsOk;
    forall other | other in t.tasks
      ensures TaskOk(t, other) && TaskEvolves(s, t, other)
    {
      if other != id { OthersKept(s, t, id, other); }
    }
  }

  /** The frame: a transaction about one task that leaves that task in order
      leaves everything in order. */
  lemma OnTaskKeepsInv(s: State, t: State, id: TaskId)
    requires Inv(s) && OnTask(s, t, id) && TaskOk(t, id) && TaskEvolves(s, t, id)
    ensures Inv(t) && Evolves(s, t)
  {
    hide TaskOk, TaskEvolves, Announced, Extended, SameIdentity, IndexOk, ParentsOk, EffectsOk, HistoriesOk, RunsOk,
         TasksOk, RunsEvolve, TasksEvolve, OutboxEvolves;
    IndexKept(s, t, id);
    ParentsKept(s, t, id);
    EffectsKept(s, t, id);
    HistoriesKept(s, t, id);
    RunsKept(s, t, id);
    TasksKept(s, t, id);
  }

  lemma InvTask(s: State, id: TaskId)
    requires Inv(s) && id in s.tasks
    ensures TaskOk(s, id) && ParentsOk(s)
  {
    hide TaskOk, ParentsOk, IndexOk, EffectsOk, HistoriesOk, RunsOk;
  }

  // ----- claim -----

  lemma ClaimIsOnTask(s: State, id: TaskId, worker: string, now: Time, ttl: int)
    requires ClaimTx(s, id, worker, now, ttl).Commit?
    ensures OnTask(s, ClaimTx(s, id, worker, now, ttl).st, id)
  {
    hide Extended, LeaseIsHeld, Log;
    var task := s.tasks[id];
    OneMore(Hist(s, task.run), Fact(EvTaskClaimed, task.step, TaskClaimedData(id, worker, task.attempt + 1)), id);
  }

  lemma ClaimedTask(s: State, id: TaskId, worker: string, now: Time, ttl: int)
    requires ClaimTx(s, id, worker, now, ttl).Commit? && TaskOk(s, id)
    ensures id in ClaimTx(s, id, worker, now, ttl).st.tasks
    ensures TaskOk(ClaimTx(s, id, worker, now, ttl).st, id) && TaskEvolves(s, ClaimTx(s, id, worker, now, ttl).st, id)
  {
    hide LeaseIsHeld, Log, ViewOf, Rows, Stamp;
    var task := s.tasks[id];
    var f := Fact(EvTaskClaimed, task.step, TaskClaimedData(id, worker, task.attempt + 1));
    var t := ClaimTx(s, id, worker, now, ttl).st;
    assert Hist(t, task.run) == Log(Hist(s, task.run), f);
    ViewLog(Hist(s, task.run), f, id);
    StampOf(Hist(s, task.run), f);
  }

  lemma StampOf(h: seq<Event>, f: Fact)
    ensures Stamp(h, f).typ == f.typ && Stamp(h, f).data == f.data && Stamp(h, f).step == f.step
  {
  }

  lemma ClaimKeepsInv(s: State, id: TaskId, worker: string, now: Time, ttl: int)
    requires Inv(s)
    ensures Inv(ClaimTx(s, id, worker, now, ttl).st) && Evolves(s, ClaimTx(s, id, worker, now, ttl).st)
  {
    hide Inv, Evolves, TaskOk, OnTask, TaskEvolves, Log, LogOn;
    var res := ClaimTx(s, id, worker, now, ttl);
    if res.Commit? {
      InvTask(s, id);
      ClaimIsOnTask(s, id, worker, now, ttl);
      ClaimedTask(s, id, worker, now, ttl);
      OnTaskKeepsInv(s, res.st, id);
    } else {
      EvolvesReflexive(s);
    }
  }

  // ----- reports -----

  lemma CompleteIsOnTask(s: State, id: TaskId, token: int, result: Json, now: Time)
    requires CompleteTx(s, id, token, result, now).Commit? && ParentsOk(s)
    ensures OnTask(s, CompleteTx(s, id, token, result, now).st, id)
  {
    hide Extended, Log;
    var task := s.tasks[id];
    OneMore(Hist(s, task.run), Fact(EvTaskCompleted, task.step, TaskCompletedData(id, result)), id);
  }

  lemma CompletedTask(s: State, id: TaskId, token: int, result: Json, now: Time)
    requires CompleteTx(s, id, token, result, now).Commit? && TaskOk(s, id) && now <= s.clock
    ensures id in CompleteTx(s, id, token, result, now).st.tasks
    ensures TaskOk(CompleteTx(s, id, token, result, now).st, id)
    ensures TaskEvolves(s, CompleteTx(s, id, token, result, now).st, id)
  {
    hide Log, ViewOf, Rows, Stamp;
    var task := s.tasks[id];
    var f := Fact(EvTaskCompleted, task.step, TaskCompletedData(id, result));
    assert Hist(CompleteTx(s, id, token, result, now).st, task.run) == Log(Hist(s, task.run), f);
    ViewLog(Hist(s, task.run), f, id);
    StampOf(Hist(s, task.run), f);
  }

  lemma CompleteKeepsInv(s: State, id: TaskId, token: int, result: Json, now: Time)
    requires Inv(s) && now <= s.clock
    ensures Inv(CompleteTx(s, id, token, result, now).st) && Evolves(s, CompleteTx(s, id, token, result, now).st)
  {
    hide Inv, Evolves, TaskOk, OnTask, TaskEvolves, Log, LogOn, ParentsOk;
    var res := CompleteTx(s, id, token, result, now);
    if res.Commit? {
      InvTask(s, id);
      CompleteIsOnTask(s, id, token, result, now);
      CompletedTask(s, id, token, result, now);
      OnTaskKeepsInv(s, res.st, id);
    } else {
      EvolvesReflexive(s);
    }
  }

  // A failure and a reclaim both write two events, move the row, free the
  // lease and, when the task goes round again, announce it.
  predicate GoesRound(s: State, t: State, id: TaskId, retry: bool, reason: string, f: Fact, f': Fact) {
    && id in s.tasks && s.tasks[id].status.TaskRunning? && s.tasks[id].run in s.runs
    && id in s.leases && id in t.leases
    && t.tasks == s.tasks[id := Noted(s.tasks[id], if retry then TaskPending else TaskDeadLetter, reason)]
    && t.events == s.events[s.tasks[id].run := Log(Log(Hist(s, s.tasks[id].run), f), f')]
    && f.step == s.tasks[id].step && f'.step == s.tasks[id].step
    && TaskIdOf(f.data) == Some(id) && TaskIdOf(f'.data) == Some(id)
    && t.leases == s.leases[id := t.leases[id]]
    && t.leases[id].expiresAt <= s.clock && t.leases[id].worker in s.workers
    && (t.leases[id].token > s.leases[id].token ||
        (t.leases[id].token == s.leases[id].token && t.leases[id].worker == s.leases[id].worker))
    && t.runs == s.runs && t.stepIndex == s.stepIndex && t.effects == s.effects && t.workers == s.workers
    && t.signals == s.signals && t.published == s.published && t.clock == s.clock
    && Announced(s, t, id) && (retry <==> t.deliverySeq == s.deliverySeq + 1)
    && (retry ==> !s.tasks[id].Exhausted())
    && f'.typ == (if retry then EvTaskRetryScheduled else EvTaskDeadLettered)
    && (|| (f.typ == EvTaskFailed && f.data.TaskFailedData? &&
            f.data.attempt == s.tasks[id].attempt && f.data.final == !retry)
        || f.typ == EvLeaseExpired)
  }

  lemma GoesRoundIsOnTask(s: State, t: State, id: TaskId, retry: bool, reason: string, f: Fact, f': Fact)
    requires GoesRound(s, t, id, retry, reason, f, f')
    ensures OnTask(s, t, id)
  {
    hide Extended, Log, Announced;
    TwoMore(Hist(s, s.tasks[id].run), f, f', id);
  }

  lemma RoundRows(s: State, t: State, id: TaskId)
    requires ParentsOk(s) && Announced(s, t, id)
    ensures |Rows(t.deliveries, id)| == |Rows(s.deliveries, id)| + (if t.deliverySeq == s.deliverySeq then 0 else 1)
  {
    if t.deliverySeq != s.deliverySeq {
      RowsAfterEnqueue(s.deliveries, t.deliverySeq, t.deliveries[t.deliverySeq], id);
    }
  }

  lemma RoundView(h: seq<Event>, f: Fact, f': Fact, id: TaskId)
    requires IsTaskEvent(f.typ) && TaskIdOf(f.data) == Some(id)
    requires IsTaskEvent(f'.typ) && TaskIdOf(f'.data) == Some(id)
    ensures ViewOf(Log(Log(h, f), f'), id) ==
            StepView(StepView(ViewOf(h, id), Stamp(h, f)), Stamp(Log(h, f), f'))
  {
    hide ViewOf, Stamp, StepView;
    ViewLog(h, f, id);
    ViewLog(Log(h, f), f', id);
    StampOf(h, f);
    StampOf(Log(h, f), f');
  }

  lemma RoundedView(s: State, t: State, id: TaskId, retry: bool, reason: string, f: Fact, f': Fact)
    requires GoesRound(s, t, id, retry, reason, f, f') && TaskOk(s, id)
    ensures var v := ViewOf(Hist(s, s.tasks[id].run), id);
            ViewOf(Hist(t, s.tasks[id].run), id) == View(if retry then Queued
                                                         else Dead, v.attempt, v.holder, v.events + 2)
  {
    RoundFacts(s, t, id, retry, reason, f, f');
    var h := Hist(s, s.tasks[id].run);
    hide Log, ViewOf, Stamp, TaskOk, GoesRound, Hist, StepView;
    RoundView(h, f, f', id);
    StampOf(h, f);
    StampOf(Log(h, f), f');
    RoundOf(ViewOf(h, id), Stamp(h, f), Stamp(Log(h, f), f'), retry);
  }

  /** What a round is, to the history. */
  lemma RoundFacts(s: State, t: State, id: TaskId, retry: bool, reason: string, f: Fact, f': Fact)
    requires GoesRound(s, t, id, retry, reason, f, f') && TaskOk(s, id)
    ensures id in s.tasks
    ensures var v := ViewOf(Hist(s, s.tasks[id].run), id);
            && Hist(t, s.tasks[id].run) == Log(Log(Hist(s, s.tasks[id].run), f), f')
            && v.phase.Claimed? && v.attempt == s.tasks[id].attempt
            && IsTaskEvent(f.typ) && TaskIdOf(f.data) == Some(id) && IsTaskEvent(f'.typ) &&
              TaskIdOf(f'.data) == Some(id)
            && f'.typ == (if retry then EvTaskRetryScheduled else EvTaskDeadLettered)
            && (f.typ == EvLeaseExpired ||
                (f.typ == EvTaskFailed && f.data.TaskFailedData? && f.data.attempt == v.attempt &&
                 f.data.final == !retry))
  {
    hide Log, ViewOf, Rows, Announced, LeaseOk, Noted;
  }

  lemma RoundOf(v: View, e: Event, e': Event, retry: bool)
    requires v.phase.Claimed? && e'.typ == (if retry then EvTaskRetryScheduled else EvTaskDeadLettered)
    requires e.typ == EvLeaseExpired ||
             (e.typ == EvTaskFailed && e.data.TaskFailedData? && e.data.attempt == v.attempt && e.data.final == !retry)
    ensures StepView(StepView(v, e), e') == View(if retry then Queued else Dead, v.attempt, v.holder, v.events + 2)
  {
  }

  lemma RoundedEvolves(s: State, t: State, id: TaskId, retry: bool, reason: string, f: Fact, f': Fact)
    requires GoesRound(s, t, id, retry, reason, f, f')
    ensures id in t.tasks && TaskEvolves(s, t, id)
  {
    hide Log, Announced, Hist;
  }

  lemma RoundedLease(s: State, t: State, id: TaskId, retry: bool, reason: string, f: Fact, f': Fact)
    requires GoesRound(s, t, id, retry, reason, f, f') && TaskOk(s, id)
    ensures id in t.tasks && LeaseOk(t, id, ViewOf(Hist(t, s.tasks[id].run), id).holder)
  {
    hide Log, ViewOf, Rows, Announced, Hist;
  }

  lemma RoundedTask(s: State, t: State, id: TaskId, retry: bool, reason: string, f: Fact, f': Fact)
    requires GoesRound(s, t, id, retry, reason, f, f') && ParentsOk(s) && TaskOk(s, id)
    ensures id in t.tasks && TaskOk(t, id)
  {
    assert Announced(s, t, id) by { hide Announced, TaskOk; }
    RoundRows(s, t, id);
    RoundedLease(s, t, id, retry, reason, f, f');
    RoundedView(s, t, id, retry, reason, f, f');
    hide Log, ViewOf, Rows, Stamp, Announced, ParentsOk, Hist, NextPhase, LeaseOk;
  }

  lemma GoesRoundKeepsInv(s: State, t: State, id: TaskId, retry: bool, reason: string, f: Fact, f': Fact)
    requires Inv(s) && GoesRound(s, t, id, retry, reason, f, f')
    ensures Inv(t) && Evolves(s, t)
  {
    assert id in s.tasks by { hide Announced, Inv; }
    hide *;
    InvTask(s, id);
    GoesRoundIsOnTask(s, t, id, retry, reason, f, f');
    RoundedTask(s, t, id, retry, reason, f, f');
    RoundedEvolves(s, t, id, retry, reason, f, f');
    OnTaskKeepsInv(s, t, id);
  }

  lemma FailGoesRound(s: State, id: TaskId, token: int, reason: string, escalated: bool, delay: int, now: Time)
    requires ParentsOk(s) && now <= s.clock && FailTx(s, id, token, reason, escalated, delay, now).Commit?
    ensures var t := FailTx(s, id, token, reason, escalated, delay, now).st;
            var retry := WillRetry(s.tasks[id], escalated);
            var notBefore := NotBefore(s.tasks[id], escalated, delay, now);
            GoesRound(s, t, id, retry, reason,
                      Fact(EvTaskFailed, s.tasks[id].step, TaskFailedData(id, reason, s.tasks[id].attempt, !retry)),
                      Fact(if retry then EvTaskRetryScheduled else EvTaskDeadLettered, s.tasks[id].step,
                           TaskRetryData(id, s.tasks[id].attempt, reason, notBefore)))
  {
    hide Log, NotBefore;
  }

  lemma FailKeepsInv(s: State, id: TaskId, token: int, reason: string, escalated: bool, delay: int, now: Time)
    requires Inv(s) && now <= s.clock
    ensures Inv(FailTx(s, id, token, reason, escalated, delay, now).st)
    ensures Evolves(s, FailTx(s, id, token, reason, escalated, delay, now).st)
  {
    hide Inv, Evolves, ParentsOk, TaskOk, Log, LogOn;
    var res := FailTx(s, id, token, reason, escalated, delay, now);
    if res.Commit? {
      assert id in s.tasks;
      InvTask(s, id);
      var retry := WillRetry(s.tasks[id], escalated);
      var notBefore := NotBefore(s.tasks[id], escalated, delay, now);
      hide *;
      FailGoesRound(s, id, token, reason, escalated, delay, now);
      GoesRoundKeepsInv(s, res.st, id, retry, reason,
                        Fact(EvTaskFailed, s.tasks[id].step, TaskFailedData(id, reason, s.tasks[id].attempt, !retry)),
                        Fact(if retry then EvTaskRetryScheduled else EvTaskDeadLettered, s.tasks[id].step,
                             TaskRetryData(id, s.tasks[id].attempt, reason, notBefore)));
    } else {
      EvolvesReflexive(s);
    }
  }

  // ----- reclaim -----

  predicate Reclaims(s: State, id: TaskId, now: Time) {
    id in s.tasks && s.tasks[id].status.TaskRunning? && REAPER in s.workers && !LeaseIsHeld(s, id, now) &&
    s.tasks[id].run in s.runs
  }

  lemma ReclaimGoesRound(s: State, id: TaskId, stale: Lease, reason: string, now: Time)
    requires ParentsOk(s) && now <= s.clock && Reclaims(s, id, now) && id in s.leases
    ensures var t := ReclaimTx(s, id, stale, reason, now).st;
            var retry := !s.tasks[id].Exhausted();
            GoesRound(s, t, id, retry, reason,
                      Fact(EvLeaseExpired, s.tasks[id].step, LeaseExpiredData(id, stale.worker, stale.token)),
                      Fact(if retry then EvTaskRetryScheduled else EvTaskDeadLettered, s.tasks[id].step,
                           TaskRetryData(id, s.tasks[id].attempt, reason, ZERO_TIME)))
  {
    hide Log;
  }

  lemma LeasedWhileRunning(s: State, id: TaskId)
    requires id in s.tasks && TaskOk(s, id) && s.tasks[id].status.TaskRunning?
    ensures id in s.leases
  {
    hide ViewOf, Rows, Hist;
  }

  lemma ReclaimKeepsInv(s: State, id: TaskId, stale: Lease, reason: string, now: Time)
    requires Inv(s) && now <= s.clock
    ensures Inv(ReclaimTx(s, id, stale, reason, now).st) && Evolves(s, ReclaimTx(s, id, stale, reason, now).st)
  {
    if Reclaims(s, id, now) {
      InvTask(s, id);
      LeasedWhileRunning(s, id);
      var t := ReclaimTx(s, id, stale, reason, now).st;
      var retry := !s.tasks[id].Exhausted();
      hide *;
      ReclaimGoesRound(s, id, stale, reason, now);
      GoesRoundKeepsInv(s, t, id, retry, reason,
                        Fact(EvLeaseExpired, s.tasks[id].step, LeaseExpiredData(id, stale.worker, stale.token)),
                        Fact(if retry then EvTaskRetryScheduled else EvTaskDeadLettered, s.tasks[id].step,
                             TaskRetryData(id, s.tasks[id].attempt, reason, ZERO_TIME)));
    } else {
      hide Inv, Evolves, Log, LogOn;
      assert ReclaimTx(s, id, stale, reason, now).st == s;
      EvolvesReflexive(s);
    }
  }
}
