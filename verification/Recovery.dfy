/** What keeps a run moving, and the one place where the reading and the acting
    must not come apart. */
module Recovery {
  import opened Prelude
  import opened Names
  import opened Core
  import opened Tables
  import opened Waits
  import opened Lifecycle
  import opened Invariants
  import opened Transactions
  import opened TaskSteps
  import opened RunSteps
  import opened FanOuts
  import opened Advancing
  import opened Queries

  // ----- every running run has something that will move it -----

  /** Something is under way for this task: the scan publishes it, however its
      outbox rows have fared, or somebody holds it under a lease, which the
      reaper's query returns once it has run out. */
  predicate Carried(s: State, id: TaskId, now: Time) {
    id in s.tasks &&
    (id in Waiting(s) ||
     (s.tasks[id].status.TaskRunning? && id in s.leases &&
      (id in Queries.Lapsed(s, now) || !s.leases[id].Expired(now))))
  }

  lemma InFlightIsCarried(s: State, id: TaskId, now: Time)
    requires Inv(s) && id in s.tasks && !s.tasks[id].status.IsTerminal()
    ensures Carried(s, id, now)
  {
    hide Inv, ViewOf, Hist, Rows;
    InvTask(s, id);
  }

  /** A run that waits on time and has tasks in flight as well. */
  predicate WaitsOnBoth(s: State, r: RunId) {
    r in s.runs && s.runs[r].status.RunRunning? && s.runs[r].availableAt.Some? && InFlight(s, r)
  }

  // ----- a retry and its backoff -----

  /** The relay may announce the task at this instant: a row of its own is
      unpublished and due. */
  predicate Announced(s: State, id: TaskId, at: Time) {
    exists d :: d in Announceable(s, at) && s.deliveries[d].task == id
  }

  /** That row is one the task had before this retry. */
  predicate AnnouncedBefore(s: State, u: State, id: TaskId, at: Time) {
    exists d :: d in s.deliveries && d in Announceable(u, at) && u.deliveries[d].task == id
  }

  /** A retry is enqueued under a new row that is due when its backoff has passed.
      In every later state in which it still waits for that attempt, the relay
      may announce it exactly from then on, unless a row from before the
      failure is still unpublished and due. */
  lemma RetryRowsWaitOutTheBackoff(s: State, u: State, id: TaskId, token: int, reason: string, delay: int, at: Time)
    requires Inv(s) && FailTx(s, id, token, reason, false, delay, s.clock).Commit? && !s.tasks[id].Exhausted() &&
             delay > 0
    requires Evolves(FailTx(s, id, token, reason, false, delay, s.clock).st, u) && Inv(u)
    requires id in u.tasks && u.tasks[id].status.TaskPending? && u.tasks[id].attempt == s.tasks[id].attempt
    ensures var d := s.deliverySeq + 1;
            && d !in s.deliveries && d in u.deliveries && u.deliveries[d].task == id
            && (Announced(u, id, at) <==> AnnouncedBefore(s, u, id, at) || (at >= s.clock + delay && d !in u.published))
  {
    hide Inv, FailTx, Rows;
    var t := FailTx(s, id, token, reason, false, delay, s.clock).st;
    var row := s.deliverySeq + 1;
    DeliveriesBehind(s);
    RetryRow(s, id, token, reason, delay);
    FailKeepsInv(s, id, token, reason, false, delay, s.clock);
    InvTask(t, id);
    InvTask(u, id);
    RowsOnlyGrow(t, u, id);
    DeliveryStands(t, u, row);
    forall d | d in Announceable(u, at) && u.deliveries[d].task == id
      ensures d == row || d in s.deliveries
    {
      RowIsInRows(u, id, d);
      RowIsInRows(t, id, d);
    }
  }

  lemma RowsOnlyGrow(t: State, u: State, id: TaskId)
    requires Evolves(t, u) && |Rows(t.deliveries, id)| == |Rows(u.deliveries, id)|
    ensures Rows(u.deliveries, id) == Rows(t.deliveries, id)
  {
    hide RunsEvolve, TasksEvolve, LedgerEvolves, SignalsEvolve;
    var a, b := Rows(t.deliveries, id), Rows(u.deliveries, id);
    forall d | d in a
      ensures d in b
    {
    }
    SameSize(a, b);
  }

  lemma SameSize(a: set<int>, b: set<int>)
    requires |a| == |b| && forall d :: d in a ==> d in b
    ensures a == b
  {
    assert forall d :: d in a ==> d in b;
    assert a <= b;
    assert b == a + (b - a);
    assert |b - a| == 0;
    assert b - a == {};
  }

  lemma RowIsInRows(s: State, id: TaskId, d: int)
    ensures d in Rows(s.deliveries, id) <==> d in s.deliveries && s.deliveries[d].task == id
  {
  }

  lemma DeliveryStands(t: State, u: State, d: int)
    requires Evolves(t, u) && d in t.deliveries
    ensures d in u.deliveries && u.deliveries[d].task == t.deliveries[d].task
    ensures u.deliveries[d].availableAt == t.deliveries[d].availableAt
  {
    hide RunsEvolve, TasksEvolve, LedgerEvolves, SignalsEvolve;
  }

  /** But nothing holds back the scan, which publishes every PENDING task, nor a
      claim, which never looks at the backoff: both may come at the very instant
      of the failure. */
  lemma TheScanIgnoresTheBackoff(s: State, id: TaskId, token: int, reason: string, delay: int, worker: string, ttl: int)
    requires FailTx(s, id, token, reason, false, delay, s.clock).Commit? && !s.tasks[id].Exhausted()
    ensures var t := FailTx(s, id, token, reason, false, delay, s.clock).st;
            && id in Waiting(t) && t.clock == s.clock
            && (worker in t.workers ==> ClaimTx(t, id, worker, t.clock, ttl).Commit?)
  {
    hide Log;
  }

  /** Somebody may announce the task: the relay, or the scan if it runs. */
  predicate MayBeAnnounced(s: State, id: TaskId, at: Time, scans: bool) {
    (scans && id in Waiting(s)) || Announced(s, id, at)
  }

  /** So the backoff holds exactly where the relay alone announces, and no row
      from before the failure is left for it: until it has passed, the task is
      announced if and only if the scan runs or such a row is due. */
  lemma BackoffHoldsIff(s: State, u: State, id: TaskId, token: int, reason: string, delay: int, at: Time, scans: bool)
    requires Inv(s) && FailTx(s, id, token, reason, false, delay, s.clock).Commit? && !s.tasks[id].Exhausted() &&
             delay > 0
    requires Evolves(FailTx(s, id, token, reason, false, delay, s.clock).st, u) && Inv(u)
    requires id in u.tasks && u.tasks[id].status.TaskPending? && u.tasks[id].attempt == s.tasks[id].attempt
    requires at < s.clock + delay
    ensures !MayBeAnnounced(u, id, at, scans) <==> !scans && !AnnouncedBefore(s, u, id, at)
  {
    hide Inv, Evolves, FailTx, Announced, AnnouncedBefore;
    RetryRowsWaitOutTheBackoff(s, u, id, token, reason, delay, at);
  }

  lemma RetryRow(s: State, id: TaskId, token: int, reason: string, delay: int)
    requires FailTx(s, id, token, reason, false, delay, s.clock).Commit? && !s.tasks[id].Exhausted()
    ensures var t := FailTx(s, id, token, reason, false, delay, s.clock).st;
            && t.deliverySeq == s.deliverySeq + 1 && t.published == s.published
            && id in t.tasks && t.tasks[id].status.TaskPending? && t.tasks[id].attempt == s.tasks[id].attempt
            && var due := if delay > 0 then s.clock + delay else ZERO_TIME;
               t.deliveries == s.deliveries[t.deliverySeq := Delivery(id, 0, "", due)]
  {
    hide Log;
  }

  lemma DeliveriesBehind(s: State)
    requires Inv(s)
    ensures s.deliverySeq + 1 !in s.deliveries
  {
    hide IndexOk, EffectsOk, HistoriesOk, TasksOk, RunsOk;
  }

  // ----- the re-read after a resume -----

  /** Recording a decision to suspend keeps the invariants exactly when no wait
      is open: a pass that asked its decider on a history with one open would,
      if the decider suspends, leave two. That is why the commit that ends a
      wait and the re-read after it are one step of the model. */
  lemma SuspendingKeepsInvIff(s: State, r: RunId, next: RunState, f: Fact)
    requires Inv(s) && r in s.runs && s.runs[r].status.RunRunning? && next.status.RunRunning?
    requires StartOf(AsEvent(f)).Some? && next.availableAt == Some(StartOf(AsEvent(f)).value.until)
    ensures Inv(AdvanceTx(s, r, s.runs[r].version, next, Some(f)).st) <==> Pending(Hist(s, r)).None?
  {
    hide Inv, Evolves, AdvanceTx;
    if Pending(Hist(s, r)).None? {
      AdvanceKeepsInv(s, r, s.runs[r].version, next, Some(f));
    } else {
      SecondWait(s, r, next, f);
    }
  }

  lemma SecondWait(s: State, r: RunId, next: RunState, f: Fact)
    requires r in s.runs && s.runs[r].status.RunRunning? && next.status.RunRunning?
    requires StartOf(AsEvent(f)).Some? && Pending(Hist(s, r)).Some?
    ensures !Inv(AdvanceTx(s, r, s.runs[r].version, next, Some(f)).st)
  {
    hide Inv, Pending, Log, Hist, Sequential, StatusOf, Consumed, SignalsOk;
    var t := AdvanceTx(s, r, s.runs[r].version, next, Some(f)).st;
    assert Hist(t, r) == Log(Hist(s, r), f) by { Appended(s, r, next, f); }
    SequentialLog(Hist(s, r), f);
    StampIs(Hist(s, r), f);
    SameStart(Stamp(Hist(s, r), f), f);
    if Inv(t) { InvRun(t, r); }
  }

  lemma Appended(s: State, r: RunId, next: RunState, f: Fact)
    requires r in s.runs && s.runs[r].status.RunRunning? && next.status.RunRunning?
    ensures r in AdvanceTx(s, r, s.runs[r].version, next, Some(f)).st.runs
    ensures Hist(AdvanceTx(s, r, s.runs[r].version, next, Some(f)).st, r) == Log(Hist(s, r), f)
  {
    hide Log;
  }

  lemma SameStart(e: Event, f: Fact)
    requires e.typ == f.typ && e.data == f.data && e.step == f.step
    ensures StartOf(e) == StartOf(AsEvent(f))
  {
  }

  /** Two reads with a commit of another engine between them are enough: it has
      parked the run, the first engine reads the run as it now is, and asks. */
  lemma SplitRereadOpensTwo(cfg: Config, s: State, r: RunId, step: StepId, wakeAt: Time)
    requires Inv(s) && r in s.runs && s.runs[r].status.RunRunning?
    requires Pending(Hist(s, r)).Some? && Joining(Hist(s, r)).None?
    requires cfg.decide(s.runs[r], Hist(s, r)) == Decided(Sleep(step, wakeAt))
    ensures var t := CommitTx(cfg, s, r, s.runs[r], AskDecider(cfg, s.runs[r], Hist(s, r)), []).st;
            |Unmatched(Hist(t, r))| == 2 && !Inv(t)
  {
    hide Inv, Pending, Joining, Log, Hist, Unmatched, StillOpen;
    var f := Fact(EvTimerSet, step, TimerSetData(wakeAt));
    var next := RunState(RunRunning, s.runs[r].output, "", Some(wakeAt));
    Appended(s, r, next, f);
    SecondWait(s, r, next, f);
    TwoOpen(s, r, f);
  }

  lemma TwoOpen(s: State, r: RunId, f: Fact)
    requires Inv(s) && r in s.runs && Pending(Hist(s, r)).Some? && f.typ.EvTimerSet?
    ensures |Unmatched(Log(Hist(s, r), f))| == 2
  {
    hide Inv, Pending, Hist, Unmatched, Sequential, StatusOf, Consumed, SignalsOk;
    var h := Hist(s, r);
    InvRun(s, r);
    PendingIsUnmatched(h);
    var i :| Unmatched(h) == {i} && 0 <= i < |h| && StartOf(h[i]) == Pending(h);
    UnmatchedSnoc(h, Stamp(h, f));
    assert StillOpen(h, Stamp(h, f)) == {i, |h|};
  }
}
