/** The store's tables (the `state` struct of internal/store/memory/memory.go)
    as one immutable value, which is what a reader outside a transaction sees. */
module Tables {
  import opened Names
  import opened Core

  datatype StepKey = StepKey(run: RunId, step: StepId)

  datatype State = State(
    runs: map<RunId, Run>,
    tasks: map<TaskId, Task>,
    stepIndex: map<StepKey, TaskId>,     // UNIQUE (run_id, step_id)
    events: map<RunId, seq<Event>>,
    effects: map<Key, Effect>,           // UNIQUE (idempotency_key)
    leases: map<TaskId, Lease>,
    workers: set<string>,
    signals: map<SignalKey, Signal>,     // PRIMARY KEY (run_id, signal_id)
    deliveries: map<int, Delivery>,
    published: set<int>,
    deliverySeq: int,                    // never rolled back
    clock: Time)                         // the latest instant anybody has read

  const EMPTY: State := State(map[], map[], map[], map[], map[], map[], {}, map[], map[], {}, 0, 0)

  function Hist(s: State, r: RunId): seq<Event> {
    if r in s.events then s.events[r] else []
  }

  /** The largest sequence number in a history, or 0. */
  function MaxSeq(h: seq<Event>): (m: int)
    ensures m >= 0
    ensures forall i :: 0 <= i < |h| ==> h[i].seqNo <= m
  {
    if h == [] then 0
    else
      var m := MaxSeq(h[..|h| - 1]);
      if h[|h| - 1].seqNo > m then h[|h| - 1].seqNo else m
  }

  datatype Fact = Fact(typ: EventType, step: StepId, data: Data)

  function Stamp(h: seq<Event>, f: Fact): Event {
    Event(MaxSeq(h) + 1, f.typ, f.step, f.data)
  }

  /** core.Append: one more event, under the next sequence number. */
  function Log(h: seq<Event>, f: Fact): seq<Event> {
    h + [Stamp(h, f)]
  }

  /** History is numbered 1..n. */
  predicate Gapless(h: seq<Event>) {
    forall i :: 0 <= i < |h| ==> h[i].seqNo == i + 1
  }

  lemma {:induction false} MaxSeqOfGapless(h: seq<Event>)
    requires Gapless(h)
    ensures MaxSeq(h) == |h|
  {
    if h != [] { MaxSeqOfGapless(h[..|h| - 1]); }
  }

  lemma LogKeepsGapless(h: seq<Event>, f: Fact)
    requires Gapless(h)
    ensures Gapless(Log(h, f))
  {
    MaxSeqOfGapless(h);
  }

  function LogOn(s: State, r: RunId, f: Fact): State {
    s.(events := s.events[r := Log(Hist(s, r), f)])
  }

  /** Outbox rows that announce one task. */
  function Rows(deliveries: map<int, Delivery>, id: TaskId): set<int> {
    set d | d in deliveries && deliveries[d].task == id
  }

  lemma RowsAfterEnqueue(deliveries: map<int, Delivery>, d: int, v: Delivery, id: TaskId)
    requires d !in deliveries
    ensures Rows(deliveries[d := v], id) == Rows(deliveries, id) + (if v.task == id then {d} else {})
    ensures |Rows(deliveries[d := v], id)| == |Rows(deliveries, id)| + (if v.task == id then 1 else 0)
  {
    assert d !in Rows(deliveries, id);
  }
}
