/** What the runtime promises, for every behaviour. */
module Promises {
  import opened Names
  import opened Core
  import opened Tables
  import opened Waits
  import opened Lifecycle
  import opened Invariants
  import opened Transactions
  import opened Behaviours

  lemma InOrder(tools: Tools, acts: seq<Action>, i: nat, j: nat)
    requires i <= j <= |acts|
    ensures Inv(States(tools, acts)[i]) && Inv(States(tools, acts)[j])
    ensures Evolves(States(tools, acts)[i], States(tools, acts)[j])
  {
    hide Inv, Evolves, States;
    AllReachable(tools, acts);
    GoodAt(States(tools, acts), i, j);
  }

  lemma PartsOf(s: State)
    requires Inv(s)
    ensures IndexOk(s) && ParentsOk(s) && EffectsOk(s) && HistoriesOk(s)
    ensures forall id :: id in s.tasks ==> TaskOk(s, id)
    ensures forall r :: r in s.runs ==> RunOk(s, r)
  {
    hide IndexOk, ParentsOk, EffectsOk, HistoriesOk, TaskOk, RunOk;
  }

  // ----- current state is derivable from history -----

  /** Folding a run's events gives exactly its status, each task's status, and
      each task's attempt as its number of claims. */
  lemma CurrentStateIsDerivable(tools: Tools, acts: seq<Action>, k: nat)
    requires k <= |acts|
    ensures var s := States(tools, acts)[k];
            && (forall r :: r in s.runs ==> StatusOf(Hist(s, r)) == Is(s.runs[r].status))
            && (forall id :: id in s.tasks ==>
                  var h := Hist(s, s.tasks[id].run);
                  ViewOf(h, id).phase == PhaseOf(s.tasks[id].status) && !ViewOf(h, id).phase.Malformed? &&
                  Claims(h, id) == s.tasks[id].attempt)
  {
    hide States, Inv, Evolves, ViewOf, StatusOf, Claims, LeaseOk, Rows, Sequential, Pending, Consumed, SignalsOk;
    var s := States(tools, acts)[k];
    InOrder(tools, acts, k, k);
    PartsOf(s);
    forall id | id in s.tasks
      ensures Claims(Hist(s, s.tasks[id].run), id) == s.tasks[id].attempt
    {
      assert TaskOk(s, id);
      AttemptCountsClaims(Hist(s, s.tasks[id].run), id);
    }
  }

  function Ends(h: seq<Event>, id: TaskId): int {
    if h == [] then 0
    else
      var e := h[|h| - 1];
      Ends(h[..|h| - 1], id) +
      (if Concerns(e, id) && (e.typ.EvTaskCompleted? || e.typ.EvTaskFailed? || e.typ.EvLeaseExpired?) then 1 else 0)
  }

  lemma {:induction false} WellFormedPrefix(h: seq<Event>, id: TaskId, k: nat)
    requires k <= |h| && !ViewOf(h, id).phase.Malformed?
    ensures !ViewOf(h[..k], id).phase.Malformed?
  {
    if k < |h| {
      WellFormedPrefix(h[..|h| - 1], id, k);
      assert h[..|h| - 1][..k] == h[..k];
    } else {
      assert h[..k] == h;
    }
  }

  lemma {:induction false} ClaimsBalance(h: seq<Event>, id: TaskId)
    requires !ViewOf(h, id).phase.Malformed?
    ensures Claims(h, id) == Ends(h, id) + (if ViewOf(h, id).phase.Claimed? then 1 else 0)
  {
    if h != [] {
      WellFormedPrefix(h, id, |h| - 1);
      ClaimsBalance(h[..|h| - 1], id);
    }
  }

  /** Along every history, each claim of a task ends in exactly one completion,
      failure or lease expiry before the next claim. */
  lemma ClaimsEndOnce(tools: Tools, acts: seq<Action>, k: nat, id: TaskId, n: nat)
    requires k <= |acts| && id in States(tools, acts)[k].tasks
    requires n <= |Hist(States(tools, acts)[k], States(tools, acts)[k].tasks[id].run)|
    ensures var h := Hist(States(tools, acts)[k], States(tools, acts)[k].tasks[id].run)[..n];
            Claims(h, id) - Ends(h, id) == if ViewOf(h, id).phase.Claimed? then 1 else 0
  {
    hide States, Inv, Evolves, ViewOf, Claims, Ends, LeaseOk, Rows;
    var s := States(tools, acts)[k];
    InOrder(tools, acts, k, k);
    PartsOf(s);
    var h := Hist(s, s.tasks[id].run);
    WellFormedPrefix(h, id, n);
    ClaimsBalance(h[..n], id);
  }

  // ----- delivery conservation -----

  /** The outbox rows of a task number its attempts, plus one while it waits. */
  lemma DeliveriesAreConserved(tools: Tools, acts: seq<Action>, k: nat, id: TaskId)
    requires k <= |acts| && id in States(tools, acts)[k].tasks
    ensures var s := States(tools, acts)[k];
            |Rows(s.deliveries, id)| == s.tasks[id].attempt + (if s.tasks[id].status.TaskPending? then 1 else 0)
  {
    hide States, Inv, Evolves, ViewOf, Rows, LeaseOk;
    InOrder(tools, acts, k, k);
    PartsOf(States(tools, acts)[k]);
  }

  // ----- fencing -----

  lemma TaskEvolvesOf(a: State, b: State, id: TaskId)
    requires Evolves(a, b) && id in a.tasks
    ensures TaskEvolves(a, b, id)
  {
    hide RunsEvolve, LedgerEvolves, SignalsEvolve, OutboxEvolves, TaskEvolves;
  }

  /** Tokens never go back, and whenever a task comes to be RUNNING again its
      token is strictly higher than before. */
  lemma TokensStrictlyIncrease(tools: Tools, acts: seq<Action>, i: nat, j: nat, id: TaskId)
    requires i <= j <= |acts| && id in States(tools, acts)[i].tasks && id in States(tools, acts)[i].leases
    ensures var a, b := States(tools, acts)[i], States(tools, acts)[j];
            id in b.tasks && id in b.leases && a.leases[id].token <= b.leases[id].token &&
            (!a.tasks[id].status.TaskRunning? && b.tasks[id].status.TaskRunning? ==>
             a.leases[id].token < b.leases[id].token) &&
            (a.tasks[id].attempt < b.tasks[id].attempt ==> a.leases[id].token < b.leases[id].token)
  {
    hide States, Inv, Evolves;
    InOrder(tools, acts, i, j);
    TaskEvolvesOf(States(tools, acts)[i], States(tools, acts)[j], id);
  }

  /** The report of a claim that is recorded is the report of the latest claim:
      from the moment the token was granted until then, nobody else held the
      task, and it stayed at the same attempt. */
  lemma NoSupersededReport(tools: Tools, acts: seq<Action>, k: nat, m: nat, x: nat, id: TaskId, token: int)
    requires k <= x <= m <= |acts|
    requires id in States(tools, acts)[k].tasks && id in States(tools, acts)[k].leases
    requires States(tools, acts)[k].leases[id].token == token
    requires ReportError(States(tools, acts)[m], id, token).None?
    ensures var a, s := States(tools, acts)[k], States(tools, acts)[x];
            && id in s.tasks && s.tasks[id].status.TaskRunning? && s.tasks[id].attempt == a.tasks[id].attempt
            && id in s.leases && s.leases[id].token == token && s.leases[id].worker == a.leases[id].worker
  {
    hide States, Inv, Evolves;
    var a, s, b := States(tools, acts)[k], States(tools, acts)[x], States(tools, acts)[m];
    InOrder(tools, acts, k, x);
    InOrder(tools, acts, x, m);
    TaskEvolvesOf(a, s, id);
    TaskEvolvesOf(s, b, id);
  }

  // ----- suspension -----

  /** A history never has more than one open wait; PendingWait is exactly the
      set of unmatched waits; and the park of a RUNNING run is that wait's end. */
  lemma SuspensionAgrees(tools: Tools, acts: seq<Action>, k: nat, r: RunId)
    requires k <= |acts| && r in States(tools, acts)[k].runs
    ensures var s := States(tools, acts)[k];
            var h := Hist(s, r);
            && |Unmatched(h)| <= 1
            && (Pending(h).None? <==> Unmatched(h) == {})
            && (Pending(h).Some? ==> exists i :: Unmatched(h) == {i} && 0 <= i < |h| && StartOf(h[i]) == Pending(h))
            && (s.runs[r].status.RunRunning? && s.runs[r].availableAt.Some? ==>
                  exists i :: Unmatched(h) == {i} && 0 <= i < |h| && StartOf(h[i]).Some? &&
                              StartOf(h[i]).value.until == s.runs[r].availableAt.value)
  {
    hide States, Inv, Evolves, StatusOf, Consumed, SignalsOk, Unmatched, Pending, StartOf;
    var s := States(tools, acts)[k];
    InOrder(tools, acts, k, k);
    PartsOf(s);
    assert RunOk(s, r);
    PendingIsUnmatched(Hist(s, r));
    if Pending(Hist(s, r)).Some? {
      var i :| Unmatched(Hist(s, r)) == {i} && 0 <= i < |Hist(s, r)| && StartOf(Hist(s, r)[i]) == Pending(Hist(s, r));
    }
  }

  // ----- signals -----

  /** No signal is consumed twice, and only recorded ones are consumed. */
  lemma SignalsAreConsumedOnce(tools: Tools, acts: seq<Action>, k: nat, r: RunId)
    requires k <= |acts| && r in States(tools, acts)[k].runs
    ensures var s := States(tools, acts)[k];
            var ts := Consumed(Hist(s, r));
            && (forall i, j :: 0 <= i < j < |ts| ==> ts[i].id != ts[j].id)
            && (forall i :: 0 <= i < |ts| ==> SignalKey(r, ts[i].id) in s.signals)
  {
    hide States, Inv, Evolves, StatusOf, Consumed, Sequential, Pending;
    InOrder(tools, acts, k, k);
    PartsOf(States(tools, acts)[k]);
    assert RunOk(States(tools, acts)[k], r);
  }

  // ----- the store -----

  /** Sequences are exactly 1..n, the unique index and the tasks are mutually
      inverse, every row points at rows that exist, and the ledger's keys are
      those of their own tasks. */
  lemma StoreIsConsistent(tools: Tools, acts: seq<Action>, k: nat)
    requires k <= |acts|
    ensures var s := States(tools, acts)[k];
            && IndexOk(s) && ParentsOk(s) && EffectsOk(s)
            && (forall r :: r in s.runs ==> Gapless(Hist(s, r)))
  {
    hide States, Inv, Evolves, IndexOk, ParentsOk, EffectsOk, Gapless, EventOk;
    var s := States(tools, acts)[k];
    InOrder(tools, acts, k, k);
    PartsOf(s);
    forall r | r in s.runs
      ensures Gapless(Hist(s, r))
    {
      assert HistoryOk(s, r);
    }
  }

  // ----- attempts terminate -----

  /** Nothing waits to be claimed a time too many, and a task's lifecycle
      events are bounded by its attempts, whatever is redelivered. */
  lemma AttemptsAreBounded(tools: Tools, acts: seq<Action>, k: nat, id: TaskId)
    requires k <= |acts| && id in States(tools, acts)[k].tasks
    ensures var s := States(tools, acts)[k];
            var t := s.tasks[id];
            && t.attempt <= t.maxAttempts
            && (t.status.TaskPending? ==> t.attempt < t.maxAttempts)
            && ViewOf(Hist(s, t.run), id).events <= 1 + 3 * t.maxAttempts
  {
    hide States, Inv, Evolves, ViewOf, Rows, LeaseOk;
    InOrder(tools, acts, k, k);
    PartsOf(States(tools, acts)[k]);
  }

  /** History is append-only, and finished is final. */
  lemma HistoryOnlyGrows(tools: Tools, acts: seq<Action>, i: nat, j: nat, r: RunId)
    requires i <= j <= |acts| && r in States(tools, acts)[i].runs
    ensures var a, b := States(tools, acts)[i], States(tools, acts)[j];
            r in b.runs && Hist(a, r) <= Hist(b, r) &&
            (a.runs[r].status.IsTerminal() ==> b.runs[r].status == a.runs[r].status)
  {
    hide States, Inv, Evolves, Pending, Consumed, RunsEvolve, TasksEvolve;
    InOrder(tools, acts, i, j);
    RunEvolvesAt(States(tools, acts)[i], States(tools, acts)[j], r);
  }

  lemma RunEvolvesAt(a: State, b: State, r: RunId)
    requires Evolves(a, b) && r in a.runs
    ensures RunEvolves(a, b, r)
  {
    hide TasksEvolve, LedgerEvolves, SignalsEvolve, OutboxEvolves, RunEvolves;
  }
}
