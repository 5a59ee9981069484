/** The ledger and history agree: what a run's history says a consequential
    call returned is what the ledger holds as committed. */
module Agreement {
  import opened Names
  import opened Core
  import opened Tables
  import opened Invariants
  import opened Transactions
  import opened Behaviours
  import opened Marks

  predicate IsCompletion(e: Event) {
    e.typ.EvTaskCompleted?
  }

  /** The completion of a consequential task is backed by its ledger row. */
  predicate Backed(tools: Tools, s: State, e: Event) {
    && e.data.TaskCompletedData?
    && e.data.task in s.tasks && s.tasks[e.data.task].tool in tools
    && (tools[s.tasks[e.data.task].tool].HasConsequence() ==>
          CommittedWith(s, KeyOf(s.tasks[e.data.task]), e.data.result))
  }

  predicate AllBacked(tools: Tools, s: State, h: seq<Event>) {
    forall i :: 0 <= i < |h| && IsCompletion(h[i]) ==> Backed(tools, s, h[i])
  }

  ghost predicate Agrees(tools: Tools, s: State) {
    forall r :: AllBacked(tools, s, Hist(s, r))
  }

  // ----- what is backed stays backed -----

  lemma CommittedStays(s: State, t: State, key: Key, result: Json)
    requires Evolves(s, t) && CommittedWith(s, key, result)
    ensures CommittedWith(t, key, result)
  {
    hide RunsEvolve, TasksEvolve, SignalsEvolve, OutboxEvolves;
  }

  lemma TaskKeeps(s: State, t: State, id: TaskId)
    requires Evolves(s, t) && id in s.tasks
    ensures id in t.tasks && t.tasks[id].run == s.tasks[id].run && t.tasks[id].step == s.tasks[id].step
    ensures t.tasks[id].tool == s.tasks[id].tool && KeyOf(t.tasks[id]) == KeyOf(s.tasks[id])
  {
    hide RunsEvolve, LedgerEvolves, SignalsEvolve, OutboxEvolves, NewKey;
  }

  lemma StaysBacked(tools: Tools, s: State, t: State, e: Event)
    requires Evolves(s, t) && Backed(tools, s, e)
    ensures Backed(tools, t, e)
  {
    hide Evolves, KeyOf, CommittedWith;
    TaskKeeps(s, t, e.data.task);
    if tools[s.tasks[e.data.task].tool].HasConsequence() {
      CommittedStays(s, t, KeyOf(s.tasks[e.data.task]), e.data.result);
    }
  }

  lemma AgreesAfter(tools: Tools, s: State, t: State)
    requires Agrees(tools, s) && Evolves(s, t)
    requires forall r, i :: |Hist(s, r)| <= i < |Hist(t, r)| && IsCompletion(Hist(t, r)[i]) ==>
             Backed(tools, t, Hist(t, r)[i])
    requires forall r :: Hist(s, r) <= Hist(t, r)
    ensures Agrees(tools, t)
  {
    hide Evolves, Backed, IsCompletion, Hist;
    forall r, i | 0 <= i < |Hist(t, r)| && IsCompletion(Hist(t, r)[i])
      ensures Backed(tools, t, Hist(t, r)[i])
    {
      if i < |Hist(s, r)| {
        assert Hist(t, r)[i] == Hist(s, r)[i];
        assert AllBacked(tools, s, Hist(s, r));
        StaysBacked(tools, s, t, Hist(s, r)[i]);
      }
    }
    forall r
      ensures AllBacked(tools, t, Hist(t, r))
    {
    }
  }

  lemma CompleteIsBacked(tools: Tools, past: seq<State>, a: Action)
    requires past != [] && Good(past) && a.Complete? && Agrees(tools, Last(past))
    requires Evolves(Last(past), Next(tools, past, a))
    ensures Agrees(tools, Next(tools, past, a))
  {
    hide Evolves, Good, Agrees, Log, KeyOf, CommittedWith, Inv;
    var s, t := Last(past), Next(tools, past, a);
    if Executed(tools, past, a.id, a.result, a.seen) && CompleteTx(s, a.id, a.token, a.result, s.clock).Commit? {
      var row := s.tasks[a.id];
      if tools[row.tool].HasConsequence() {
        GoodAt(past, a.seen, |past| - 1);
        CommittedStays(past[a.seen], s, KeyOf(row), a.result);
        CommittedStays(s, t, KeyOf(row), a.result);
      }
      TaskKeeps(s, t, a.id);
      var f := Fact(EvTaskCompleted, row.step, TaskCompletedData(a.id, a.result));
      assert t.events == s.events[row.run := Log(Hist(s, row.run), f)];
      hide Next, Executed, CompleteTx;
      BackedLog(tools, s, t, row.run, f);
    }
  }

  lemma BackedLog(tools: Tools, s: State, t: State, r: RunId, f: Fact)
    requires Agrees(tools, s) && Evolves(s, t) && t.events == s.events[r := Log(Hist(s, r), f)]
    requires Backed(tools, t, Stamp(Hist(s, r), f))
    ensures Agrees(tools, t)
  {
    hide Evolves, Backed, IsCompletion, Agrees, Stamp;
    AgreesAfter(tools, s, t);
  }

  lemma StepAgrees(tools: Tools, past: seq<State>, a: Action)
    requires past != [] && Good(past) && Agrees(tools, Last(past))
    ensures Agrees(tools, Next(tools, past, a))
  {
    hide Evolves, Good, Agrees, Inv, Next, Unmarked;
    NextKeeps(tools, past, a);
    if a.Complete? {
      CompleteIsBacked(tools, past, a);
    } else {
      OthersAddNone(tools, past, a, Completed);
      QuietAgrees(tools, Last(past), Next(tools, past, a));
    }
  }

  lemma QuietAgrees(tools: Tools, s: State, t: State)
    requires Agrees(tools, s) && Evolves(s, t) && Unmarked(s, t, Completed)
    ensures Agrees(tools, t)
  {
    hide Evolves, Backed, Agrees, Hist;
    forall r
      ensures Hist(s, r) <= Hist(t, r)
    {
      assert QuietTail(Hist(s, r), Hist(t, r), Completed);
    }
    AgreesAfter(tools, s, t);
  }

  lemma {:induction false} LedgerAndHistoryAgree(tools: Tools, acts: seq<Action>)
    ensures Agrees(tools, Last(States(tools, acts)))
  {
    hide Next, Good, Agrees;
    if acts == [] {
      EmptyAgrees(tools);
    } else {
      var before := acts[..|acts| - 1];
      LedgerAndHistoryAgree(tools, before);
      AllReachable(tools, before);
      StepAgrees(tools, States(tools, before), acts[|acts| - 1]);
    }
  }

  lemma EmptyAgrees(tools: Tools)
    ensures Agrees(tools, EMPTY)
  {
  }

  /** In every interleaving: a completion recorded for a consequential tool
      means its effect is committed, with that same answer. */
  lemma CompletedMeansCommitted(tools: Tools, acts: seq<Action>, k: nat, r: RunId, i: nat)
    requires k <= |acts| && i < |Hist(States(tools, acts)[k], r)|
    requires Hist(States(tools, acts)[k], r)[i].typ.EvTaskCompleted?
    ensures var s := States(tools, acts)[k];
            var e := Hist(s, r)[i];
            && e.data.TaskCompletedData? && e.data.task in s.tasks && s.tasks[e.data.task].tool in tools
            && (tools[s.tasks[e.data.task].tool].HasConsequence() ==>
                  CommittedWith(s, KeyOf(s.tasks[e.data.task]), e.data.result))
  {
    hide States, KeyOf, CommittedWith, Hist;
    StatesExtend(tools, acts, k);
    LedgerAndHistoryAgree(tools, acts[..k]);
    var s := States(tools, acts)[k];
    assert s == Last(States(tools, acts[..k]));
    assert AllBacked(tools, s, Hist(s, r));
    assert IsCompletion(Hist(s, r)[i]);
  }

  /** Whatever two executions of one action, by any workers at any two times,
      found committed, it is the same answer. */
  lemma OneAnswerPerKey(tools: Tools, acts: seq<Action>, i: nat, j: nat, key: Key, x: Json, y: Json)
    requires i <= |acts| && j <= |acts|
    requires CommittedWith(States(tools, acts)[i], key, x) && CommittedWith(States(tools, acts)[j], key, y)
    ensures x == y
  {
    hide States, Evolves, Good, Inv;
    AllReachable(tools, acts);
    if i <= j {
      GoodAt(States(tools, acts), i, j);
      CommittedStays(States(tools, acts)[i], States(tools, acts)[j], key, x);
    } else {
      GoodAt(States(tools, acts), j, i);
      CommittedStays(States(tools, acts)[j], States(tools, acts)[i], key, y);
    }
  }
}
