/** Suspensions and consumed signals, read back out of history
    (internal/core/wait.go). */
module Waits {
  import opened Prelude
  import opened Names
  import opened Core
  import opened Tables

  datatype WaitKind = WaitTimer | WaitSignal

  datatype Wait = Wait(kind: WaitKind, step: StepId, until: Time, signal: string) {
    predicate Elapsed(now: Time) {
      until <= now
    }
  }

  /** The suspension an event opens. An unreadable body still opens one, with
      no end of its own: a run parked for good is at least noticed. */
  function StartOf(e: Event): Option<Wait> {
    if e.typ.EvTimerSet? then
      Some(Wait(WaitTimer, e.step, if e.data.TimerSetData? then e.data.wakeAt else INDEFINITE, ""))
    else if e.typ.EvSignalWaitStarted? then
      Some(if e.data.SignalWaitData?
           then Wait(WaitSignal, e.step, if e.data.deadline != ZERO_TIME then e.data.deadline
                     else INDEFINITE, e.data.name)
           else Wait(WaitSignal, e.step, INDEFINITE, ""))
    else None
  }

  predicate Resolves(e: Event) {
    e.typ.EvTimerFired? || e.typ.EvSignalReceived? || e.typ.EvSignalWaitTimedOut?
  }

  predicate IsWaitEvent(e: Event) {
    StartOf(e).Some? || Resolves(e)
  }

  /** What PendingWait computes, as a fold. */
  function Pending(h: seq<Event>): Option<Wait> {
    if h == [] then None
    else
      var before := Pending(h[..|h| - 1]);
      var e := h[|h| - 1];
      if StartOf(e).Some? then StartOf(e)
      else if Resolves(e) && before.Some? && before.value.step == e.step then None
      else before
  }

  method PendingWait(history: seq<Event>) returns (open: Wait, waiting: bool)
    ensures Pending(history) == if waiting then Some(open) else None
  {
    open, waiting := Wait(WaitTimer, "", ZERO_TIME, ""), false;
    for k := 0 to |history|
      invariant Pending(history[..k]) == if waiting then Some(open) else None
    {
      var e := history[k];
      assert history[..k + 1][..k] == history[..k];
      match e.typ {
        case EvTimerSet =>
          match e.data {
            case TimerSetData(at) => open, waiting := Wait(WaitTimer, e.step, at, ""), true;
            case _ => open, waiting := Wait(WaitTimer, e.step, INDEFINITE, ""), true;
          }
        case EvSignalWaitStarted =>
          var w := Wait(WaitSignal, e.step, INDEFINITE, "");
          match e.data {
            case SignalWaitData(name, deadline) =>
              w := w.(signal := name);
              if deadline != ZERO_TIME {
                w := w.(until := deadline);
              }
            case _ =>
          }
          open, waiting := w, true;
        case EvTimerFired | EvSignalReceived | EvSignalWaitTimedOut =>
          if waiting && e.step == open.step {
            waiting := false;
          }
        case _ =>
      }
    }
    assert history[..|history|] == history;
  }

  /** The declarative reading: wait i is still open if nothing after it
      resolves its step. */
  predicate Open(h: seq<Event>, i: int) {
    0 <= i < |h| && StartOf(h[i]).Some? &&
    forall j :: i < j < |h| ==> !(Resolves(h[j]) && h[j].step == h[i].step)
  }

  function Unmatched(h: seq<Event>): set<int> {
    set i | 0 <= i < |h| && Open(h, i)
  }

  /** No wait is opened while another is pending. */
  predicate Sequential(h: seq<Event>) {
    forall i :: 0 <= i < |h| && StartOf(h[i]).Some? ==> Pending(h[..i]).None?
  }

  lemma SequentialLog(h: seq<Event>, f: Fact)
    ensures Sequential(Log(h, f)) <==> Sequential(h) && (StartOf(Stamp(h, f)).Some? ==> Pending(h).None?)
  {
    var g := Log(h, f);
    assert g[..|h|] == h;
    assert forall i :: 0 <= i < |h| ==> g[i] == h[i] && g[..i] == h[..i];
    assert g[|h|] == Stamp(h, f);
    if Sequential(g) {
      assert forall i :: 0 <= i < |h| && StartOf(h[i]).Some? ==> StartOf(g[i]).Some? && Pending(g[..i]).None?;
    }
  }

  lemma PendingLog(h: seq<Event>, f: Fact)
    ensures Pending(Log(h, f)) ==
            (if StartOf(Stamp(h, f)).Some? then StartOf(Stamp(h, f))
             else if Resolves(Stamp(h, f)) && Pending(h).Some? && Pending(h).value.step == f.step then None
             else Pending(h))
  {
    assert Log(h, f)[..|h|] == h;
  }

  // The waits an event leaves open are those it does not resolve, and its own.
  function StillOpen(g: seq<Event>, e: Event): set<int> {
    (set i | i in Unmatched(g) && !(Resolves(e) && e.step == g[i].step)) + (if StartOf(e).Some? then {|g|} else {})
  }

  lemma UnmatchedSnoc(g: seq<Event>, e: Event)
    ensures Unmatched(g + [e]) == StillOpen(g, e)
  {
    var h := g + [e];
    forall i | 0 <= i < |g|
      ensures Open(h, i) <==> Open(g, i) && !(Resolves(e) && e.step == g[i].step)
    {
      assert h[i] == g[i] && h[|g|] == e;
      if Open(h, i) {
        assert forall j :: i < j < |g| ==> h[j] == g[j];
      }
    }
    assert Open(h, |g|) <==> StartOf(e).Some?;
    forall i
      ensures i in Unmatched(h) <==> i in StillOpen(g, e)
    {
      if 0 <= i < |g| {
        assert i in Unmatched(h) <==> Open(h, i);
        assert i in Unmatched(g) <==> Open(g, i);
      }
    }
  }

  /** On a sequential history the single slot of PendingWait loses nothing: it
      is exactly the set of unmatched waits, which has at most one element. */
  lemma {:induction false} PendingIsUnmatched(h: seq<Event>)
    requires Sequential(h)
    ensures Pending(h).None? ==> Unmatched(h) == {}
    ensures Pending(h).Some? ==> exists i :: Unmatched(h) == {i} && 0 <= i < |h| && StartOf(h[i]) == Pending(h)
  {
    if h != [] {
      var n := |h| - 1;
      var g, e := h[..n], h[n];
      assert h == g + [e];
      assert forall i :: 0 <= i < n ==> g[i] == h[i] && g[..i] == h[..i];
      PendingIsUnmatched(g);
      UnmatchedSnoc(g, e);
      if StartOf(e).Some? {
        assert Unmatched(h) == {n};
      } else if Pending(g).Some? {
        var i :| Unmatched(g) == {i} && 0 <= i < |g| && StartOf(g[i]) == Pending(g);
        assert g[i].step == Pending(g).value.step;
        assert Unmatched(h) == if Resolves(e) && e.step == g[i].step then {} else {i};
      }
    }
  }

  /** And a history on which a wait was opened over a pending one has, at that
      point, two unmatched waits or a mistaken slot: the property holds exactly
      for sequential histories. */
  lemma SequentialIffOneOpen(h: seq<Event>)
    ensures Sequential(h) <==> forall k :: 0 <= k <= |h| ==> |Unmatched(h[..k])| <= 1
  {
    if Sequential(h) {
      forall k | 0 <= k <= |h|
        ensures |Unmatched(h[..k])| <= 1
      {
        assert Sequential(h[..k]) by {
          assert forall i :: 0 <= i < k ==> h[..k][i] == h[i] && h[..k][..i] == h[..i];
        }
        PendingIsUnmatched(h[..k]);
      }
    } else {
      var i := FirstClash(h, |h|);
      var g := h[..i];
      PendingIsUnmatched(g);
      var o :| Unmatched(g) == {o} && 0 <= o < |g| && StartOf(g[o]) == Pending(g);
      assert o in Unmatched(g);
      var g' := h[..i + 1];
      assert g' == g + [h[i]];
      assert Open(g', o) && Open(g', i);
      assert {o, i} <= Unmatched(g');
      SubsetSize({o, i}, Unmatched(g'));
    }
  }

  lemma FirstClash(h: seq<Event>, n: nat) returns (i: nat)
    requires n <= |h|
    requires exists i :: 0 <= i < n && StartOf(h[i]).Some? && Pending(h[..i]).Some?
    ensures i < n && StartOf(h[i]).Some? && Pending(h[..i]).Some?
    ensures Sequential(h[..i])
  {
    i :| 0 <= i < n && StartOf(h[i]).Some? && Pending(h[..i]).Some?;
    if j :| 0 <= j < i && StartOf(h[j]).Some? && Pending(h[..j]).Some? {
      i := FirstClash(h, i);
    } else {
      var g := h[..i];
      assert forall k :: 0 <= k < i ==> g[k] == h[k] && g[..k] == h[..k];
    }
  }

  // ----- consumed signals -----

  datatype Taken = Taken(name: string, id: string)

  function TakenBy(e: Event): seq<Taken> {
    if e.typ.EvSignalReceived? && e.data.SignalReceivedData? then [Taken(e.data.name, e.data.signal)] else []
  }

  /** The signals a history has consumed, in order. */
  function Consumed(h: seq<Event>): seq<Taken> {
    if h == [] then [] else Consumed(h[..|h| - 1]) + TakenBy(h[|h| - 1])
  }

  lemma ConsumedLog(h: seq<Event>, f: Fact)
    ensures Consumed(Log(h, f)) == Consumed(h) + TakenBy(Stamp(h, f))
  {
    assert Log(h, f)[..|h|] == h;
  }

  function Ids(ts: seq<Taken>): set<string> {
    set i | 0 <= i < |ts| :: ts[i].id
  }

  lemma IdsSnoc(ts: seq<Taken>, t: Taken)
    ensures Ids(ts + [t]) == Ids(ts) + {t.id}
  {
    var us := ts + [t];
    assert us[|ts|] == t;
    forall i | 0 <= i < |ts|
      ensures ts[i].id in Ids(us)
    {
      assert us[i] == ts[i];
    }
  }

  method ConsumedSignals(history: seq<Event>) returns (taken: set<string>)
    ensures taken == Ids(Consumed(history))
  {
    taken := {};
    for k := 0 to |history|
      invariant taken == Ids(Consumed(history[..k]))
    {
      var e := history[k];
      assert history[..k + 1][..k] == history[..k];
      assert Consumed(history[..k + 1]) == Consumed(history[..k]) + TakenBy(e);
      if e.typ.EvSignalReceived? {
        match e.data {
          case SignalReceivedData(_, id, _) =>
            IdsSnoc(Consumed(history[..k]), Taken(e.data.name, id));
            taken := taken + {id};
          case _ =>
            assert Consumed(history[..k + 1]) == Consumed(history[..k]);
        }
      } else {
        assert Consumed(history[..k + 1]) == Consumed(history[..k]);
      }
    }
    assert history[..|history|] == history;
  }
}
