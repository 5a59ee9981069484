/** The lease reaper (internal/lease/reaper.go). */
module Reaper {
  import opened Prelude
  import opened Names
  import opened Core
  import opened Tables
  import opened Invariants
  import opened Transactions
  import opened TaskSteps
  import opened RunSteps
  import opened LedgerFrames
  import opened Memory
  import opened TaskEngine
  import opened RunEngine
  import opened Executor
  import opened Advancing
  import opened Queries

  function Lapsed(task: Task, id: TaskId, stale: Lease): Fact {
    Fact(EvLeaseExpired, task.step, LeaseExpiredData(id, stale.worker, stale.token))
  }

  function Consequence(task: Task, id: TaskId, reason: string): Fact {
    Fact(if task.Exhausted() then EvTaskDeadLettered else EvTaskRetryScheduled, task.step,
         TaskRetryData(id, task.attempt, reason, ZERO_TIME))
  }

  /** The tables once the lapse is on record and the task is given back, under
      the lease the reaper has already taken. */
  function GivenBack(s: State, id: TaskId, stale: Lease, reason: string, at: Time): State
    requires id in s.tasks && id in s.leases
  {
    var t := s.tasks[id];
    var noted := LogOn(LogOn(s, t.run, Lapsed(t, id, stale)), t.run, Consequence(t, id, reason))
                   .(tasks := s.tasks[id := Noted(t, if t.Exhausted() then TaskDeadLetter else TaskPending, reason)],
                     leases := s.leases[id := s.leases[id].(expiresAt := at)]);
    if t.Exhausted() then noted else Enqueued(noted, id, ZERO_TIME)
  }

  lemma RecordsCommute(s: State, tasks: map<TaskId, Task>, r: RunId, f: Fact, g: Fact)
    ensures LogOn(LogOn(s, r, f).(tasks := tasks), r, g) == LogOn(LogOn(s, r, f), r, g).(tasks := tasks)
    ensures var t := LogOn(s, r, f); t == s.(events := t.events)
    ensures var u := LogOn(LogOn(s, r, f), r, g); u == s.(events := u.events)
  {
    hide Log;
  }

  method GiveBack(tx: Tx, id: TaskId, task: Task, token: int, stale: Lease, reason: string, at: Time)
    returns (requeued: bool, err: Option<Error>)
    requires id in tx.tasks && tx.tasks[id] == task && task.status.TaskRunning?
    requires id in tx.leases && tx.leases[id].token == token
    modifies tx
    ensures err == if task.run in old(tx.runs) then None else Some(NotFound)
    ensures err.Some? ==> tx.deliverySeq == old(tx.deliverySeq)
    ensures err.None? ==> tx.View() == GivenBack(old(tx.View()), id, stale, reason, at)
    ensures requeued <==> err.None? && !task.Exhausted()
  {
    hide LogOn;
    requeued := false;
    var next := if task.Exhausted() then TaskDeadLetter else TaskPending;
    RecordsCommute(tx.View(), tx.tasks[id := Noted(task, next, reason)], task.run, Lapsed(task, id, stale),
                   Consequence(task, id, reason));
    err := tx.Append(task.run, EvLeaseExpired, task.step, LeaseExpiredData(id, stale.worker, stale.token));
    if err.Some? { return; }
    err := tx.TransitionTask(id, TaskRunning, next, reason);
    if err.Some? { return; }
    err := FollowUp(tx, id, task, next == TaskPending, reason, ZERO_TIME);
    if err.Some? { return; }
    err := tx.ReleaseLease(id, token, at);
    requeued := next == TaskPending;
  }

  lemma ReclaimIsGivingBack(s: State, id: TaskId, stale: Lease, reason: string, at: Time)
    requires id in s.tasks && s.tasks[id].status.TaskRunning? && REAPER in s.workers && !LeaseIsHeld(s, id, at)
    requires s.tasks[id].run in s.runs
    ensures var taken := s.(leases := s.leases[id := LeaseTaken(s, id, REAPER, at, at + 60)]);
            ReclaimTx(s, id, stale, reason, at) == Commit(GivenBack(taken, id, stale, reason, at))
  {
    hide LogOn, Noted;
    var t := s.tasks[id];
    var l := s.leases[id := LeaseTaken(s, id, REAPER, at, at + 60)];
    var f := Lapsed(t, id, stale);
    RecordsCommute(s, s.tasks, t.run, f, Consequence(t, id, reason));
    WritesCommute(s, s.tasks, l, t.run, f);
    WritesCommute(LogOn(s, t.run, f), s.tasks, l, t.run, Consequence(t, id, reason));
    assert s.(tasks := s.tasks, leases := l) == s.(leases := l);
  }

  /** The reaper takes this task back and it may run again. */
  predicate Requeues(s: State, id: TaskId, at: Time) {
    && id in s.tasks && s.tasks[id].status.TaskRunning? && !s.tasks[id].Exhausted() && s.tasks[id].run in s.runs
    && REAPER in s.workers && !LeaseIsHeld(s, id, at)
  }

  /** What requeueing is: the task is PENDING, announced once more, under a token
      that fences off whoever had it. */
  lemma RequeuedMeansPending(s: State, id: TaskId, stale: Lease, reason: string, at: Time)
    requires Requeues(s, id, at)
    ensures var t := ReclaimTx(s, id, stale, reason, at).st;
            && id in t.tasks && t.tasks[id] == s.tasks[id].(status := TaskPending, lastError := t.tasks[id].lastError)
            && t.deliverySeq == s.deliverySeq + 1 &&
              t.deliveries == s.deliveries[t.deliverySeq := Delivery(id, 0, "", ZERO_TIME)]
            && id in t.leases && t.leases[id].token == (if id in s.leases then s.leases[id].token else 0) + 1
            && !LeaseIsHeld(t, id, at)
            && (forall other :: other != id && other in s.tasks ==>
                other in t.tasks && t.tasks[other] == s.tasks[other])
  {
    hide Log;
  }

  /** What is counted is exactly what became PENDING. */
  lemma RequeuesIff(s: State, id: TaskId, stale: Lease, reason: string, at: Time)
    requires Inv(s)
    ensures var t := ReclaimTx(s, id, stale, reason, at).st;
            Requeues(s, id, at) <==>
            id in s.tasks && id in t.tasks && !s.tasks[id].status.TaskPending? && t.tasks[id].status.TaskPending?
  {
    hide Inv, Log;
    if id in s.tasks { RunOfTask(s, id); }
  }

  method ReclaimBody(tx: Tx, id: TaskId, stale: Lease, reason: string, at: Time)
    returns (requeued: bool, err: Option<Error>)
    modifies tx
    ensures Ran(old(tx.View()), ReclaimTx(old(tx.View()), id, stale, reason, at), err, tx.View())
    ensures (requeued <==> Requeues(old(tx.View()), id, at)) && (requeued ==> err.None?)
  {
    hide LogOn, Noted, GivenBack;
    var found := tx.GetTask(id);
    if found.None? { return false, Some(NotFound); }
    var task := found.value;
    if task.status != TaskRunning { return false, None; }
    ghost var s := tx.View();
    var taken, refused := tx.AcquireLease(id, REAPER, at, at + 60);
    if refused == Some(LeaseHeld) { return false, None; }
    if refused.Some? { return false, refused; }
    if task.run in s.runs { ReclaimIsGivingBack(s, id, stale, reason, at); }
    requeued, err := GiveBack(tx, id, task, taken.token, stale, reason, at);
  }

  method Reclaim(store: Store, id: TaskId, stale: Lease, reason: string, at: Time)
    returns (requeued: bool, err: Option<Error>)
    modifies store
    ensures store.deeds == Written(old(store.deeds), old(store.st), store.st)
    ensures var res := ReclaimTx(old(store.st), id, stale, reason, at);
            store.st == res.st && err == ErrorOf(res)
    ensures (requeued <==> Requeues(old(store.st), id, at)) && (requeued ==> err.None?)
  {
    hide ReclaimTx;
    var tx := new Tx(store.st);
    requeued, err := ReclaimBody(tx, id, stale, reason, at);
    store.Finish(tx, err);
  }

  lemma ReclaimKeeps(s: State, id: TaskId, stale: Lease, reason: string, at: Time)
    requires InGoodOrder(s) && at <= s.clock
    ensures var t := ReclaimTx(s, id, stale, reason, at).st; InGoodOrder(t) && Evolves(s, t)
  {
    hide Inv, Evolves, ReclaimTx, NoEarlyAnswers;
    ReclaimKeepsInv(s, id, stale, reason, at);
    ReclaimKeepsLedger(s, id, stale, reason, at);
    SameAnswers(s, ReclaimTx(s, id, stale, reason, at).st);
  }

  lemma RegisterKeeps(s: State, worker: string)
    requires InGoodOrder(s)
    ensures var t := RegisterTx(s, worker).st; InGoodOrder(t) && Evolves(s, t) && (worker != "" ==> worker in t.workers)
  {
    hide Inv, Evolves, NoEarlyAnswers;
    RegisterKeepsInv(s, worker);
    SameAnswers(s, RegisterTx(s, worker).st);
  }

  function LapseReason(stale: Lease): string {
    "owner " + stale.worker + " stopped reporting"
  }

  lemma ClockGoesOn(a: State, b: State)
    requires Evolves(a, b)
    ensures a.clock <= b.clock && a.workers <= b.workers
  {
  }

  /** One listed lease, as a sweep dealt with it. */
  datatype Visit = Visit(id: TaskId, before: State, after: State, requeued: bool)

  /** The lease as the sweep read it in s, looked at again after prev and others
      in between. */
  ghost predicate VisitOf(v: Visit, s: State, id: TaskId, prev: State) {
    && v.id == id && id in s.leases && Evolves(prev, v.before)
    && v.after == ReclaimTx(v.before, id, s.leases[id], LapseReason(s.leases[id]), s.clock).st
    && (v.requeued <==> Requeues(v.before, id, s.clock))
  }

  /** Where the tables stood after the first i visits. */
  function StoodAt(visits: seq<Visit>, s: State, i: nat): State
    requires i <= |visits|
  {
    if i == 0 then s else visits[i - 1].after
  }

  /** The visits of a sweep that read its leases in s, one after the other. */
  ghost predicate Visited(visits: seq<Visit>, s: State, ids: seq<TaskId>) {
    |visits| <= |ids| && forall i :: 0 <= i < |visits| ==> VisitOf(visits[i], s, ids[i], StoodAt(visits, s, i))
  }

  function Requeued(visits: seq<Visit>): nat {
    if visits == [] then 0
    else Requeued(visits[..|visits| - 1]) + if visits[|visits| - 1].requeued then 1 else 0
  }

  /** All a sweep does after it has registered: its reclaims. */
  ghost function ReapDeeds(deeds: seq<Deed>, visits: seq<Visit>): seq<Deed> {
    if visits == [] then deeds
    else
      var v := visits[|visits| - 1];
      Written(ReapDeeds(deeds, visits[..|visits| - 1]), v.before, v.after)
  }

  lemma NoDeeds(deeds: seq<Deed>)
    ensures ReapDeeds(deeds, []) == deeds
  {
  }

  lemma OneMoreDeed(deeds: seq<Deed>, visits: seq<Visit>, v: Visit)
    ensures ReapDeeds(deeds, visits + [v]) == Written(ReapDeeds(deeds, visits), v.before, v.after)
  {
    hide Written;
    assert (visits + [v])[..|visits|] == visits;
  }

  lemma NoVisits(s: State, ids: seq<TaskId>)
    ensures Visited([], s, ids) && Requeued([]) == 0
  {
  }

  lemma OneMore(visits: seq<Visit>, s: State, ids: seq<TaskId>, v: Visit)
    requires Visited(visits, s, ids) && |visits| < |ids| && VisitOf(v, s, ids[|visits|], StoodAt(visits, s, |visits|))
    ensures Visited(visits + [v], s, ids) && Requeued(visits + [v]) == Requeued(visits) + if v.requeued then 1 else 0
  {
    hide VisitOf;
    var more := visits + [v];
    assert more[..|visits|] == visits;
    forall i | 0 <= i < |more|
      ensures VisitOf(more[i], s, ids[i], StoodAt(more, s, i))
    {
      assert more[i] == if i < |visits| then visits[i] else v;
      assert StoodAt(more, s, i) == StoodAt(visits, s, i);
    }
  }

  /** One sweep: every run-out lease the query lists, as read in was, is looked
      at again in its own transaction, so one that has come back to life, or a
      task that has moved on, is left alone. What is counted are the tasks that
      may run again. */
  method ReapOnce(store: Store, batch: int)
    returns (reclaimed: nat, ghost was: State, ghost ids: seq<TaskId>, ghost visits: seq<Visit>)
    requires InGoodOrder(store.st)
    modifies store
    ensures InGoodOrder(store.st) && Evolves(old(store.st), store.st)
    ensures Evolves(RegisterTx(old(store.st), REAPER).st, was) && REAPER in was.workers
    ensures Lists(ids, Queries.Lapsed(was, was.clock), ByTime(LeaseExpiry(was)), batch)
    ensures |visits| == |ids| && Visited(visits, was, ids) && store.st == StoodAt(visits, was, |visits|)
    ensures reclaimed == Requeued(visits)
    ensures store.deeds ==
            ReapDeeds(Written(old(store.deeds), old(store.st), RegisterTx(old(store.st), REAPER).st), visits)
  {
    hide Written, ReapDeeds, InGoodOrder, Inv, Evolves, NoEarlyAnswers, ReclaimTx, Requeues, Visited, Requeued,
         LexLess, Lists, Queries.Lapsed;
    ghost var a := store.st;
    RegisterKeeps(a, REAPER);
    var _ := RegisterWorker(store, REAPER);
    ghost var b, deeds := store.st, store.deeds;
    NoDeeds(deeds);
    Interfere(store);
    was, visits := store.st, [];
    EvolvesTransitive(a, b, was);
    EvolvesReflexive(was);
    ClockGoesOn(b, was);
    var now := store.st.clock;
    var expired := ExpiredLeases(store.st, now, batch);
    ids := expired;
    var leases := store.st.leases;
    ListedAreLeased(was, now, expired, batch);
    NoVisits(was, ids);
    reclaimed := 0;
    for i := 0 to |expired|
      invariant InGoodOrder(store.st) && Evolves(a, store.st) && Evolves(was, store.st)
      invariant |visits| == i && Visited(visits, was, ids) && reclaimed == Requeued(visits)
      invariant store.st == StoodAt(visits, was, |visits|) && store.deeds == ReapDeeds(deeds, visits)
    {
      ghost var d := store.st;
      Interfere(store);
      ghost var e := store.st;
      EvolvesTransitive(a, d, e);
      EvolvesTransitive(was, d, e);
      ClockGoesOn(was, e);
      var stale := leases[expired[i]];
      ReclaimKeeps(e, expired[i], stale, LapseReason(stale), now);
      var requeued, err := Reclaim(store, expired[i], stale, LapseReason(stale), now);
      EvolvesTransitive(a, e, store.st);
      EvolvesTransitive(was, e, store.st);
      OneMoreDeed(deeds, visits, Visit(expired[i], e, store.st, requeued));
      OneMore(visits, was, ids, Visit(expired[i], e, store.st, requeued));
      visits := visits + [Visit(expired[i], e, store.st, requeued)];
      if err.Some? { continue; }
      if requeued {
        reclaimed := reclaimed + 1;
      }
    }
  }

  lemma ListedAreLeased(s: State, now: Time, out: seq<TaskId>, limit: int)
    requires Lists(out, Queries.Lapsed(s, now), ByTime(LeaseExpiry(s)), limit)
    ensures forall i :: 0 <= i < |out| ==> out[i] in s.leases
    ensures |out| <= |Queries.Lapsed(s, now)|
  {
    hide LexLess;
    TimeOrder(LeaseExpiry(s));
    SizeOfIncreasing(out, ByTime(LeaseExpiry(s)));
    SubsetSize(Elements(out), Queries.Lapsed(s, now));
    forall i | 0 <= i < |out|
      ensures out[i] in s.leases
    {
      assert out[i] in Elements(out);
    }
  }
}
