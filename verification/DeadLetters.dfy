/** Two ways to a dead letter. A worker's last failure leaves a final TASK_FAILED
    in history, and a join settles; the reaper's leaves none, and it never does. */
module DeadLetters {
  import opened Prelude
  import opened Names
  import opened Core
  import opened Tables
  import opened Waits
  import opened Lifecycle
  import opened Invariants
  import opened Transactions
  import opened RunSteps
  import opened Joins
  import opened FanOuts
  import opened Advancing
  import opened Behaviours
  import opened Frames
  import opened StaticPlan
  import opened FanOutRuns
  import opened Skipping

  // ----- what a phase says of failures on record -----

  lemma {:induction false} PhaseTells(h: seq<Event>, id: TaskId)
    requires !ViewOf(h, id).phase.Malformed?
    ensures var phase := ViewOf(h, id).phase;
            (phase.Failing? && phase.final ==> HasFinalFailure(h, id)) &&
            (!phase.Dead? && !(phase.Failing? && phase.final) ==> !HasFinalFailure(h, id))
  {
    hide HasFinalFailure;
    if h == [] {
      NoFailureInNothing(h, id);
    } else {
      var n := |h| - 1;
      PhaseTells(h[..n], id);
      FinalFailureSnoc(h, id);
    }
  }

  lemma NoFailureInNothing(h: seq<Event>, id: TaskId)
    requires h == []
    ensures !HasFinalFailure(h, id)
  {
  }

  /** Nothing is recorded about a task once it is dead. */
  lemma {:induction false} DeadStands(h: seq<Event>, g: seq<Event>, id: TaskId)
    requires h <= g && ViewOf(h, id).phase.Dead? && !ViewOf(g, id).phase.Malformed?
    ensures ViewOf(g, id).phase.Dead? && (HasFinalFailure(g, id) <==> HasFinalFailure(h, id))
  {
    hide HasFinalFailure;
    if |g| == |h| {
      assert g == h;
    } else {
      DeadStands(h, g[..|g| - 1], id);
      FinalFailureSnoc(g, id);
    }
  }

  lemma LoggedFailure(h: seq<Event>, f: Fact, id: TaskId)
    ensures HasFinalFailure(Log(h, f), id) <==> HasFinalFailure(h, id) || IsFinalFailure(AsEvent(f), id)
  {
    hide HasFinalFailure;
    FinalFailureSnoc(Log(h, f), id);
    assert Log(h, f)[..|h|] == h;
    StampIs(h, f);
  }

  // ----- the two transactions -----

  lemma ReportedDeath(s: State, id: TaskId, token: int, reason: string, escalated: bool, delay: int, now: Time)
    requires FailTx(s, id, token, reason, escalated, delay, now).Commit? && !WillRetry(s.tasks[id], escalated)
    ensures var t := FailTx(s, id, token, reason, escalated, delay, now).st;
            id in t.tasks && t.tasks[id].status.TaskDeadLetter? && HasFinalFailure(Hist(t, t.tasks[id].run), id)
  {
    hide Log, Released, HasFinalFailure;
    var task := s.tasks[id];
    var t := FailTx(s, id, token, reason, escalated, delay, now).st;
    var f := Fact(EvTaskFailed, task.step, TaskFailedData(id, reason, task.attempt, true));
    var g := Fact(EvTaskDeadLettered, task.step,
                  TaskRetryData(id, task.attempt, reason, NotBefore(task, escalated, delay, now)));
    assert Hist(t, task.run) == Log(Log(Hist(s, task.run), f), g);
    LoggedFailure(Hist(s, task.run), f, id);
    LoggedFailure(Log(Hist(s, task.run), f), g, id);
  }

  /** What a reclaim that takes effect writes. */
  lemma ReclaimedHistory(s: State, id: TaskId, stale: Lease, reason: string, now: Time)
    requires id in s.tasks && ReclaimTx(s, id, stale, reason, now).st.tasks != s.tasks
    ensures var task := s.tasks[id];
            var t := ReclaimTx(s, id, stale, reason, now).st;
            && task.status.TaskRunning? && id in t.tasks && t.tasks[id].run == task.run
            && t.tasks[id].status == (if task.Exhausted() then TaskDeadLetter else TaskPending)
            && Hist(t, task.run) ==
               Log(Log(Hist(s, task.run),
                       Fact(EvLeaseExpired, task.step, LeaseExpiredData(id, stale.worker, stale.token))),
                   Fact(if task.Exhausted() then EvTaskDeadLettered else EvTaskRetryScheduled, task.step,
                        TaskRetryData(id, task.attempt, reason, ZERO_TIME)))
  {
    hide Log, LeaseTaken;
  }

  /** The reaper dead-letters exactly the tasks it finds exhausted, and leaves
      no failure on record for them. */
  lemma ReapedDeath(s: State, id: TaskId, stale: Lease, reason: string, now: Time)
    requires Inv(s) && id in s.tasks && ReclaimTx(s, id, stale, reason, now).st.tasks != s.tasks
    ensures var t := ReclaimTx(s, id, stale, reason, now).st;
            && id in t.tasks
            && (t.tasks[id].status.TaskDeadLetter? <==> s.tasks[id].Exhausted())
            && !HasFinalFailure(Hist(t, t.tasks[id].run), id)
  {
    hide Inv, Log, HasFinalFailure, ReclaimTx, ViewOf;
    ReclaimedHistory(s, id, stale, reason, now);
    NotMalformed(s, id);
    var task := s.tasks[id];
    var h := Hist(s, task.run);
    PhaseTells(h, id);
    var f := Fact(EvLeaseExpired, task.step, LeaseExpiredData(id, stale.worker, stale.token));
    var g := Fact(if task.Exhausted() then EvTaskDeadLettered else EvTaskRetryScheduled, task.step,
                  TaskRetryData(id, task.attempt, reason, ZERO_TIME));
    LoggedFailure(h, f, id);
    LoggedFailure(Log(h, f), g, id);
  }

  // ----- along a behaviour -----

  /** Step k of the behaviour dead-letters this task. */
  ghost predicate Kills(tools: Tools, acts: seq<Action>, k: nat, id: TaskId) {
    k < |acts| &&
    id in States(tools, acts)[k].tasks && !States(tools, acts)[k].tasks[id].status.TaskDeadLetter? &&
    id in States(tools, acts)[k + 1].tasks && States(tools, acts)[k + 1].tasks[id].status.TaskDeadLetter?
  }

  lemma NewIsPending(tools: Tools, past: seq<State>, a: Action, id: TaskId)
    requires past != [] && id in Next(tools, past, a).tasks && id !in Last(past).tasks
    ensures Next(tools, past, a).tasks[id].status.TaskPending?
  {
    hide CommitTx, Pass, Chosen, Hist;
    if a.Advance? {
      if AdvanceEnabled(past, a) { CommitCreates(a.cfg, Last(past), a.r, past[a.i].runs[a.r], PassOf(past, a), a.ids); }
    } else {
      hide Next;
      OthersCreateNothing(tools, past, a);
    }
  }

  lemma MovesOne(s: State, id: TaskId, worker: string, token: int, result: Json, reason: string, escalated: bool,
                 delay: int,
                 now: Time, ttl: int, stale: Lease)
    ensures forall other :: other in s.tasks && other != id ==>
              && other in ClaimTx(s, id, worker, now, ttl).st.tasks &&
                ClaimTx(s, id, worker, now, ttl).st.tasks[other] == s.tasks[other]
              && other in CompleteTx(s, id, token, result, now).st.tasks
              && CompleteTx(s, id, token, result, now).st.tasks[other] == s.tasks[other]
    ensures id in s.tasks && !s.tasks[id].status.TaskDeadLetter? ==>
              && id in ClaimTx(s, id, worker, now, ttl).st.tasks &&
                !ClaimTx(s, id, worker, now, ttl).st.tasks[id].status.TaskDeadLetter?
              && id in CompleteTx(s, id, token, result, now).st.tasks
              && !CompleteTx(s, id, token, result, now).st.tasks[id].status.TaskDeadLetter?
  {
    hide Log, LeaseTaken, Released;
  }

  lemma FailMovesOne(s: State, id: TaskId, token: int, reason: string, escalated: bool, delay: int, now: Time)
    ensures var res := FailTx(s, id, token, reason, escalated, delay, now);
            && (forall other :: other in s.tasks && other != id ==>
                other in res.st.tasks && res.st.tasks[other] == s.tasks[other])
            && (id in s.tasks && !s.tasks[id].status.TaskDeadLetter? && id in res.st.tasks &&
                res.st.tasks[id].status.TaskDeadLetter? ==>
                  res.Commit? && !WillRetry(s.tasks[id], escalated))
  {
    hide Log, Released, NotBefore;
  }

  lemma ReclaimMovesOne(s: State, id: TaskId, stale: Lease, reason: string, now: Time)
    ensures forall other :: other in s.tasks && other != id ==>
              other in ReclaimTx(s, id, stale, reason, now).st.tasks &&
                ReclaimTx(s, id, stale, reason, now).st.tasks[other] == s.tasks[other]
  {
    hide Log, LeaseTaken, Noted;
  }

  /** Only the failure report and the reclaim of a task dead-letter it. */
  lemma KilledBy(tools: Tools, acts: seq<Action>, k: nat, id: TaskId)
    requires Kills(tools, acts, k, id)
    ensures (acts[k].FailTask? || acts[k].Reclaim?) && acts[k].id == id
  {
    hide States, ClaimTx, CompleteTx, FailTx, ReclaimTx, Executed;
    StepAt(tools, acts, k);
    var past := States(tools, acts)[..k + 1];
    var s := States(tools, acts)[k];
    assert Last(past) == s;
    var a := acts[k];
    if MovesTasks(a) {
      match a {
        case Claim(i, worker, ttl) =>
          MovesOne(s, i, worker, 0, None, "", false, 0, s.clock, ttl, Lease("", 0, 0, 0, 0));
        case Complete(i, token, result, _) =>
          MovesOne(s, i, "", token, result, "", false, 0, s.clock, 0, Lease("", 0, 0, 0, 0));
        case FailTask(i, token, reason, escalated, delay) =>
          FailMovesOne(s, i, token, reason, escalated, delay, s.clock);
        case Reclaim(i, stale, reason, now) => ReclaimMovesOne(s, i, stale, reason, now);
        case _ =>
      }
    } else {
      hide Next;
      OthersRowsStand(tools, past, a);
    }
  }

  lemma {:induction false} DeathStep(tools: Tools, acts: seq<Action>, m: nat, id: TaskId) returns (k: nat)
    requires m <= |acts| && id in States(tools, acts)[m].tasks &&
             States(tools, acts)[m].tasks[id].status.TaskDeadLetter?
    ensures k < m && Kills(tools, acts, k, id)
  {
    hide States, Next;
    if m == 0 {
      EmptyAtFirst(tools, acts);
      assert false;
    } else {
      StepAt(tools, acts, m - 1);
      var past := States(tools, acts)[..m];
      assert Last(past) == States(tools, acts)[m - 1];
      if id !in States(tools, acts)[m - 1].tasks {
        NewIsPending(tools, past, acts[m - 1], id);
        assert false;
      } else if States(tools, acts)[m - 1].tasks[id].status.TaskDeadLetter? {
        k := DeathStep(tools, acts, m - 1, id);
      } else {
        k := m - 1;
      }
    }
  }

  lemma EmptyAtFirst(tools: Tools, acts: seq<Action>)
    ensures States(tools, acts)[0] == EMPTY
  {
    hide Next;
    StatesExtend(tools, acts, 0);
    assert States(tools, acts)[..1] == [EMPTY];
  }

  /** Dead is dead, and what history has of its failure stays as it is. */
  lemma StaysDead(tools: Tools, acts: seq<Action>, i: nat, m: nat, id: TaskId)
    requires i <= m <= |acts| && id in States(tools, acts)[i].tasks &&
             States(tools, acts)[i].tasks[id].status.TaskDeadLetter?
    ensures var a, b := States(tools, acts)[i], States(tools, acts)[m];
            && id in b.tasks && b.tasks[id] == a.tasks[id]
            && (HasFinalFailure(Hist(b, b.tasks[id].run), id) <==> HasFinalFailure(Hist(a, a.tasks[id].run), id))
  {
    hide States, Good, Inv, Evolves, HasFinalFailure, Hist, ViewOf, TaskEvolves;
    AllReachable(tools, acts);
    GoodAt(States(tools, acts), i, m);
    var a, b := States(tools, acts)[i], States(tools, acts)[m];
    DeadRow(a, b, id);
    NotMalformed(a, id);
    NotMalformed(b, id);
    TaskRunIn(a, id);
    HistoryGrows(a, b, a.tasks[id].run);
    DeadStands(Hist(a, a.tasks[id].run), Hist(b, a.tasks[id].run), id);
  }

  lemma TaskRunIn(s: State, id: TaskId)
    requires Inv(s) && id in s.tasks
    ensures s.tasks[id].run in s.runs
  {
    hide Inv;
    InvParts(s);
    TaskHasRun(s, id);
  }

  lemma HistoryGrows(a: State, b: State, r: RunId)
    requires Evolves(a, b) && r in a.runs
    ensures Hist(a, r) <= Hist(b, r)
  {
    hide Evolves, Pending, Consumed, Hist;
    RunEvolvesOf(a, b, r);
  }

  lemma DeadRow(a: State, b: State, id: TaskId)
    requires Evolves(a, b) && id in a.tasks && a.tasks[id].status.TaskDeadLetter?
    ensures id in b.tasks && b.tasks[id] == a.tasks[id]
  {
    hide RunsEvolve, LedgerEvolves, SignalsEvolve, OutboxEvolves;
    assert TaskEvolves(a, b, id);
  }

  /** A failure is on record for a dead task exactly when its worker reported it. */
  lemma RecordedIffReported(tools: Tools, acts: seq<Action>, k: nat, id: TaskId)
    requires Kills(tools, acts, k, id)
    ensures var s := Last(States(tools, acts));
            id in s.tasks && s.tasks[id].status.TaskDeadLetter? &&
            (HasFinalFailure(Hist(s, s.tasks[id].run), id) <==> acts[k].FailTask?)
  {
    hide States, Good, Inv, Evolves, HasFinalFailure, Hist, FailTx, ReclaimTx;
    KilledBy(tools, acts, k, id);
    StepAt(tools, acts, k);
    var past := States(tools, acts)[..k + 1];
    var s := States(tools, acts)[k];
    assert Last(past) == s;
    AllReachable(tools, acts);
    GoodAt(States(tools, acts), k, k);
    match acts[k] {
      case FailTask(_, token, reason, escalated, delay) =>
        FailMovesOne(s, id, token, reason, escalated, delay, s.clock);
        ReportedDeath(s, id, token, reason, escalated, delay, s.clock);
      case Reclaim(_, stale, reason, now) =>
        ReapedDeath(s, id, stale, reason, now);
      case _ =>
    }
    StaysDead(tools, acts, k + 1, |acts|, id);
  }

  /** Some worker's failure report dead-lettered this task. */
  ghost predicate ReportedDead(tools: Tools, acts: seq<Action>, id: TaskId) {
    exists k: nat :: k < |acts| && Kills(tools, acts, k, id) && acts[k].FailTask?
  }

  lemma DeadAndRecorded(tools: Tools, acts: seq<Action>, id: TaskId)
    requires id in Last(States(tools, acts)).tasks
    ensures var s := Last(States(tools, acts));
            s.tasks[id].status.TaskDeadLetter? && HasFinalFailure(Hist(s, s.tasks[id].run), id) <==>
              ReportedDead(tools, acts, id)
  {
    hide States, Hist, HasFinalFailure, Kills;
    var s := Last(States(tools, acts));
    if s.tasks[id].status.TaskDeadLetter? {
      var k := DeathStep(tools, acts, |acts|, id);
      RecordedIffReported(tools, acts, k, id);
    }
    if k: nat :| k < |acts| && Kills(tools, acts, k, id) && acts[k].FailTask? {
      RecordedIffReported(tools, acts, k, id);
    }
  }

  /** A child settles as failed exactly when its worker's failure report
      dead-lettered it: the step that did is a FailTask. */
  lemma FailedIffReported(tools: Tools, acts: seq<Action>, r: RunId, f: FanOut, i: nat)
    requires r in Last(States(tools, acts)).runs && FanOutOf(Hist(Last(States(tools, acts)), r)) == Some(f) &&
             i < |f.children|
    ensures var s := Last(States(tools, acts));
            var key := StepKey(r, Child(f.step, i));
            && key in s.stepIndex
            && (f.children[i].settled && !f.children[i].succeeded <==> ReportedDead(tools, acts, s.stepIndex[key]))
  {
    hide States, Hist, FanOutOf, Child, HasFinalFailure, ReportedDead, Inv, AllWhole;
    TablesAgree(tools, acts, r, f, i);
    ReachableParts(tools, acts);
    var s := Last(States(tools, acts));
    IndexedRun(s, r, Child(f.step, i));
    DeadAndRecorded(tools, acts, s.stepIndex[StepKey(r, Child(f.step, i))]);
  }

  lemma IndexedRun(s: State, r: RunId, step: StepId)
    requires Inv(s) && StepKey(r, step) in s.stepIndex
    ensures s.stepIndex[StepKey(r, step)] in s.tasks && s.tasks[s.stepIndex[StepKey(r, step)]].run == r
  {
    hide ParentsOk, EffectsOk, HistoriesOk, TasksOk, RunsOk;
  }

  /** A child whose lease runs out on its last attempt is never settled: from
      the reclaim that finds it exhausted on, in every later state, no join
      counts it. */
  lemma ReapedChildNeverSettles(tools: Tools, acts: seq<Action>, k: nat, r: RunId, f: FanOut, i: nat)
    requires k < |acts| && acts[k].Reclaim? && acts[k].id in States(tools, acts)[k].tasks
    requires States(tools, acts)[k + 1].tasks != States(tools, acts)[k].tasks &&
             States(tools, acts)[k].tasks[acts[k].id].Exhausted()
    requires r in Last(States(tools, acts)).runs && FanOutOf(Hist(Last(States(tools, acts)), r)) == Some(f) &&
             i < |f.children|
    requires var key := StepKey(r, Child(f.step, i));
             key in Last(States(tools, acts)).stepIndex && Last(States(tools, acts)).stepIndex[key] == acts[k].id
    ensures !f.children[i].settled
  {
    hide States, Hist, FanOutOf, Child, HasFinalFailure, Good, Inv, Evolves, ReclaimTx, AllWhole;
    var s := States(tools, acts)[k];
    var id := acts[k].id;
    StepAt(tools, acts, k);
    assert Last(States(tools, acts)[..k + 1]) == s;
    AllReachable(tools, acts);
    GoodAt(States(tools, acts), k, k);
    ReapedDeath(s, id, acts[k].stale, acts[k].reason, acts[k].now);
    ReclaimedHistory(s, id, acts[k].stale, acts[k].reason, acts[k].now);
    assert Kills(tools, acts, k, id);
    RecordedIffReported(tools, acts, k, id);
    TablesAgree(tools, acts, r, f, i);
    ReachableParts(tools, acts);
    IndexedRun(Last(States(tools, acts)), r, Child(f.step, i));
  }
}
