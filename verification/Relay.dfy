/** The outbox relay (internal/outbox/relay.go): publish what is committed, then
    mark it. A crash in between publishes again, and never loses a row. */
module Relay {
  import opened Prelude
  import opened Core
  import opened Tables
  import opened Invariants
  import opened Transactions
  import opened RunSteps
  import opened LedgerFrames
  import opened Memory
  import opened Executor
  import opened Queries

  datatype Published = Accepted | Stopped | Refused(cause: string)

  lemma MarkKeeps(s: State, delivered: set<int>, failed: map<int, string>)
    requires InGoodOrder(s)
    ensures var t := MarkTx(s, delivered, failed).st; InGoodOrder(t) && Evolves(s, t)
  {
    hide Inv, Evolves, NoEarlyAnswers;
    MarkKeepsInv(s, delivered, failed);
    SameAnswers(s, MarkTx(s, delivered, failed).st);
  }

  /** The rows as they are once these failures are noted. */
  function WithFailures(deliveries: map<int, Delivery>, failed: map<int, string>): map<int, Delivery> {
    map d | d in deliveries ::
      if d in failed then deliveries[d].(attempts := deliveries[d].attempts + 1, lastError := failed[d])
        else deliveries[d]
  }

  /** Rows that were handed over are published, rows that were refused have one
      more attempt and its cause, and nothing else has changed: no row goes, and
      none that was neither is touched. */
  ghost predicate MarkedOnly(s: State, t: State, delivered: seq<int>, failed: map<int, string>) {
    && t == s.(published := t.published, deliveries := t.deliveries) && t.deliveries.Keys == s.deliveries.Keys
    && (forall d :: d in t.published <==> d in s.published || d in delivered)
    && (forall d :: d in s.deliveries ==>
          var was, now := s.deliveries[d], t.deliveries[d];
          && now.task == was.task && now.availableAt == was.availableAt
          && now.attempts == was.attempts + (if d in failed then 1 else 0)
          && now.lastError == if d in failed then failed[d] else was.lastError)
  }

  lemma MarkNotes(s: State, delivered: seq<int>, failed: map<int, string>)
    requires failed.Keys <= s.deliveries.Keys
    ensures MarkedOnly(s, MarkTx(s, Elements(delivered), failed).st, delivered, failed)
  {
  }

  method FailAll(tx: Tx, failed: map<int, string>) returns (err: Option<Error>)
    modifies tx`deliveries
    ensures err == if failed.Keys <= old(tx.deliveries).Keys then None else Some(NotFound)
    ensures err.None? ==> tx.deliveries == WithFailures(old(tx.deliveries), failed)
  {
    var todo: map<int, string> := failed;
    ghost var was := tx.deliveries;
    ghost var done: map<int, string> := map[];
    assert WithFailures(was, done) == was;
    while todo.Keys != {}
      invariant todo.Keys + done.Keys == failed.Keys && todo.Keys !! done.Keys
      invariant done.Keys <= was.Keys
      invariant forall d :: d in todo ==> todo[d] == failed[d]
      invariant forall d :: d in done ==> done[d] == failed[d]
      invariant tx.deliveries == WithFailures(was, done)
      decreases todo.Keys
    {
      SomeIn(todo.Keys);
      var d :| d in todo.Keys;
      err := tx.FailDelivery(d, todo[d]);
      if err.Some? { return; }
      done := done[d := todo[d]];
      todo := todo - {d};
    }
    assert done.Keys == failed.Keys;
    assert forall d :: d in failed ==> d in done && done[d] == failed[d];
    assert done == failed;
    return None;
  }

  /** mark: both kinds of outcome in one transaction; nothing to say, nothing done. */
  method Mark(store: Store, delivered: seq<int>, failed: map<int, string>) returns (err: Option<Error>)
    requires InGoodOrder(store.st)
    modifies store
    ensures store.deeds == Written(old(store.deeds), old(store.st), store.st)
    ensures InGoodOrder(store.st) && Evolves(old(store.st), store.st)
    ensures store.st == MarkTx(old(store.st), Elements(delivered), failed).st
    ensures err.None? <==> failed.Keys <= old(store.st).deliveries.Keys
    ensures err.None? ==> MarkedOnly(old(store.st), store.st, delivered, failed)
    ensures err.Some? ==> store.st == old(store.st)
  {
    hide InGoodOrder, Inv, Evolves, NoEarlyAnswers, WithFailures, MarkTx, MarkedOnly;
    if failed.Keys <= store.st.deliveries.Keys { MarkNotes(store.st, delivered, failed); }
    MarkKeeps(store.st, Elements(delivered), failed);
    MarkedIs(store.st, Elements(delivered), failed);
    if |delivered| == 0 && |failed| == 0 {
      assert Elements(delivered) == {} && failed == map[];
      NothingToMark(store.st, failed);
      return None;
    }
    var tx := new Tx(store.st);
    tx.MarkDelivered(delivered);
    err := FailAll(tx, failed);
    store.Finish(tx, err);
  }

  lemma MarkedIs(s: State, delivered: set<int>, failed: map<int, string>)
    ensures MarkTx(s, delivered, failed) ==
            if failed.Keys <= s.deliveries.Keys then
              Commit(s.(published := s.published + delivered, deliveries := WithFailures(s.deliveries, failed)))
            else Abort(NotFound, s)
  {
  }

  lemma NothingToMark(s: State, failed: map<int, string>)
    requires failed == map[]
    ensures MarkTx(s, {}, failed).st == s
  {
    assert s.published + {} == s.published;
    assert WithFailures(s.deliveries, failed) == s.deliveries;
  }

  /** What came of the rows the dispatcher was given: exactly those it took, in
      order, and exactly those it refused, with its reasons. */
  predicate Sorted(offered: seq<int>, outcomes: int -> Published, accepted: seq<int>, failed: map<int, string>) {
    && (forall i :: 0 <= i < |offered| ==> !outcomes(offered[i]).Stopped?)
    && (forall i :: 0 <= i < |offered| && outcomes(offered[i]).Accepted? ==> offered[i] in accepted)
    && (forall i :: 0 <= i < |accepted| ==> outcomes(accepted[i]).Accepted? && accepted[i] in offered)
    && (forall i :: 0 <= i < |offered| && outcomes(offered[i]).Refused? ==>
          offered[i] in failed && failed[offered[i]] == outcomes(offered[i]).cause)
    && (forall d :: d in failed ==> d in offered && outcomes(d).Refused?)
    && Increasing(accepted, (x, y) => x < y)
  }

  lemma SortOne(offered: seq<int>, outcomes: int -> Published, accepted: seq<int>, failed: map<int, string>, d: int)
    requires Sorted(offered, outcomes, accepted, failed) && (forall i :: 0 <= i < |offered| ==> offered[i] < d)
    ensures outcomes(d).Accepted? ==> Sorted(offered + [d], outcomes, accepted + [d], failed)
    ensures outcomes(d).Refused? ==> Sorted(offered + [d], outcomes, accepted, failed[d := outcomes(d).cause])
  {
    var more := offered + [d];
    assert forall i :: 0 <= i < |offered| ==> more[i] == offered[i];
    assert forall e :: e in more <==> e in offered || e == d;
    if outcomes(d).Accepted? {
      var taken := accepted + [d];
      assert forall i :: 0 <= i < |accepted| ==> taken[i] == accepted[i] && accepted[i] in offered;
      forall i, j | 0 <= i < j < |taken|
        ensures taken[i] < taken[j]
      {
        if j == |accepted| {
          assert taken[i] in offered;
        } else {
          assert ((x, y) => x < y)(accepted[i], accepted[j]);
        }
      }
    }
  }

  /** RelayOnce: hand every row that is due to the dispatcher, in order, until it
      closes, and mark what came of each, also when it closes half way. outcomes is
      how the dispatcher answers, row by row. due is what the query listed,
      and marking is the tables in which the outcomes were recorded. */
  method RelayOnce(store: Store, batch: int, outcomes: int -> Published)
    returns (count: nat, accepted: seq<int>, failed: map<int, string>, stopped: bool, ghost due: seq<int>,
             ghost offered: nat, ghost marking: State)
    requires InGoodOrder(store.st) && store.st.clock >= ZERO_TIME
    modifies store
    ensures InGoodOrder(store.st) && Evolves(old(store.st), marking) && Evolves(old(store.st), store.st)
    ensures Lists(due, Announceable(old(store.st), old(store.st).clock), (x, y) => x < y, batch)
    ensures offered <= |due| && Sorted(due[..offered], outcomes, accepted, failed)
    ensures if stopped then offered < |due| && outcomes(due[offered]).Stopped? else offered == |due|
    ensures MarkTx(marking, Elements(accepted), failed) == Commit(store.st)
    ensures MarkedOnly(marking, store.st, accepted, failed)
    ensures store.deeds == Written(old(store.deeds), marking, store.st)
    ensures count == |accepted|
    ensures forall i :: 0 <= i < |accepted| ==> accepted[i] in store.st.published
  {
    hide InGoodOrder, Inv, Evolves, NoEarlyAnswers, Sorted, Lists, Announceable, Written, MarkedOnly;
    ghost var a, deeds := store.st, store.deeds;
    var pending := PendingDeliveries(store.st, store.st.clock, batch);
    DueRows(a, a.clock, pending, batch);
    due, offered := pending, 0;
    accepted, failed, stopped := [], map[], false;
    NoneSorted(outcomes);
    assert due[..0] == [];
    for i := 0 to |pending|
      invariant store.st == a && store.deeds == deeds && offered == i && !stopped &&
                Sorted(due[..offered], outcomes, accepted, failed)
    {
      var d := pending[i];
      assert due[..i] + [d] == due[..i + 1];
      match outcomes(d) {
        case Accepted =>
          SortOne(due[..i], outcomes, accepted, failed, d);
          accepted := accepted + [d];
        case Stopped =>
          stopped := true;
          break;
        case Refused(cause) =>
          SortOne(due[..i], outcomes, accepted, failed, d);
          failed := failed[d := cause];
      }
      offered := i + 1;
    }
    assert stopped || due[..offered] == due;
    assert store.st == a && store.deeds == deeds;
    RefusedAreRows(a, due[..offered], outcomes, accepted, failed);
    Interfere(store);
    marking := store.st;
    RowsRemain(a, marking);
    var err := Mark(store, accepted, failed);
    MarkedPublished(marking, accepted, failed);
    EvolvesTransitive(a, marking, store.st);
    count := |accepted|;
  }

  lemma NoneSorted(outcomes: int -> Published)
    ensures Sorted([], outcomes, [], map[])
  {
  }

  lemma RefusedAreRows(s: State, offered: seq<int>, outcomes: int -> Published, accepted: seq<int>,
                       failed: map<int, string>)
    requires Sorted(offered, outcomes, accepted, failed)
    requires forall i :: 0 <= i < |offered| ==> offered[i] in s.deliveries
    ensures failed.Keys <= s.deliveries.Keys
  {
    forall d | d in failed.Keys
      ensures d in s.deliveries.Keys
    {
      assert d in offered;
    }
    assert forall d :: d in failed.Keys ==> d in s.deliveries.Keys;
  }

  lemma DueRows(s: State, now: Time, out: seq<int>, limit: int)
    requires Lists(out, Announceable(s, now), (x, y) => x < y, limit)
    ensures forall i :: 0 <= i < |out| ==> out[i] in s.deliveries
    ensures forall i, j :: 0 <= i < j < |out| ==> out[i] < out[j]
  {
    forall i | 0 <= i < |out|
      ensures out[i] in s.deliveries
    {
      assert out[i] in Elements(out);
    }
    forall i, j | 0 <= i < j < |out|
      ensures out[i] < out[j]
    {
      assert ((x: int, y: int) => x < y)(out[i], out[j]);
    }
  }

  lemma RowsRemain(a: State, b: State)
    requires Evolves(a, b)
    ensures a.deliveries.Keys <= b.deliveries.Keys
  {
    hide RunsEvolve, TasksEvolve, LedgerEvolves, SignalsEvolve;
    assert OutboxEvolves(a, b);
    assert forall d :: d in a.deliveries.Keys ==> d in a.deliveries;
    assert forall d :: d in a.deliveries ==> d in b.deliveries.Keys;
  }

  lemma MarkedPublished(s: State, accepted: seq<int>, failed: map<int, string>)
    requires failed.Keys <= s.deliveries.Keys
    ensures forall i :: 0 <= i < |accepted| ==> accepted[i] in MarkTx(s, Elements(accepted), failed).st.published
  {
  }
}
