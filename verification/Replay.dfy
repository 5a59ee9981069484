/** Replay equals direct execution. A body is run again and again against the
    history its own decisions have produced; what it decides is what it would
    have decided in one uninterrupted run, and an edited body is caught. */
module Replay {
  import opened Prelude
  import opened Names
  import opened Core
  import opened Transactions
  import opened Histories
  import opened Agents

  /** Requests whose answer, once given, is the same for good. ANY and QUORUM
      joins finish with siblings in flight, so theirs may look different later. */
  predicate Stable(w: Want) {
    w.WantAll? ==> w.join.kind.JoinAll?
  }

  ghost predicate AlwaysStable(body: Body) {
    forall gots :: Stable(body(gots))
  }

  /** How the outcomes of a join may look on a later replay: what has settled
      stands, and more may have. */
  predicate OutcomesGrow(os: seq<Outcome>, later: seq<Outcome>) {
    |os| == |later| && forall i :: 0 <= i < |os| && os[i].settled ==> later[i] == os[i]
  }

  predicate GotGrows(w: Want, got: Got, later: Got) {
    later == got ||
    (!Stable(w) && got.GotOutcomes? && later.GotOutcomes? && OutcomesGrow(got.outcomes, later.outcomes))
  }

  predicate GotsGrow(body: Body, gots: seq<Got>, later: seq<Got>) {
    |gots| == |later| && forall i :: 0 <= i < |gots| ==> GotGrows(body(gots[..i]), gots[i], later[i])
  }

  /** The same request, or an end either way. */
  predicate SameAsk(w: Want, later: Want) {
    later == w || (!Durable(w) && !Durable(later))
  }

  /** The body asks for the same whatever else comes in on a join it has passed.
      How it ends may differ. This is something its author can see to, and what a
      replay relies on. */
  ghost predicate Steady(body: Body) {
    forall gots, later :: GotsGrow(body, gots, later) ==> SameAsk(body(gots), body(later))
  }

  /** Bodies that join on ALL have nothing to see to. */
  lemma StableIsSteady(body: Body)
    requires AlwaysStable(body)
    ensures Steady(body)
  {
    forall gots, later | GotsGrow(body, gots, later)
      ensures SameAsk(body(gots), body(later))
    {
      assert forall i :: 0 <= i < |gots| ==> Stable(body(gots[..i]));
      assert later == gots;
    }
  }

  lemma GrowPrefix(body: Body, gots: seq<Got>, later: seq<Got>, n: nat)
    requires GotsGrow(body, gots, later) && n <= |gots|
    ensures GotsGrow(body, gots[..n], later[..n])
  {
    forall i | 0 <= i < n
      ensures GotGrows(body(gots[..n][..i]), gots[..n][i], later[..n][i])
    {
      assert gots[..n][..i] == gots[..i];
    }
  }

  lemma SteadyAt(body: Body, gots: seq<Got>, later: seq<Got>, n: nat)
    requires Steady(body) && GotsGrow(body, gots, later) && n <= |gots|
    ensures SameAsk(body(gots[..n]), body(later[..n]))
  {
    GrowPrefix(body, gots, later, n);
  }

  // ----- answers stand -----

  lemma {:induction false} AllJoined(os: seq<Outcome>)
    ensures Succeeded(os) + Failed(os) == |os| <==> forall i :: 0 <= i < |os| ==> os[i].settled
  {
    if os != [] {
      var n := |os| - 1;
      AllJoined(os[..n]);
      assert forall i :: 0 <= i < n ==> os[..n][i] == os[i];
      if Succeeded(os) + Failed(os) == |os| { assert os[n].settled; }
    }
  }

  lemma {:induction false} GrowthCounts(os: seq<Outcome>, later: seq<Outcome>)
    requires OutcomesGrow(os, later)
    ensures Succeeded(os) <= Succeeded(later) && Failed(os) <= Failed(later)
  {
    if os != [] { GrowthCounts(os[..|os| - 1], later[..|os| - 1]); }
  }

  /** A join that is satisfied stays so. */
  lemma StaysJoined(join: JoinPolicy, os: seq<Outcome>, later: seq<Outcome>)
    requires OutcomesGrow(os, later) && Joined(join, os)
    ensures Joined(join, later)
    ensures join.kind.JoinAll? ==> later == os
  {
    GrowthCounts(os, later);
    AllJoined(os);
  }

  lemma SettledOutcomeStands(x: History, y: History, step: StepId, i: nat, call: Call)
    requires Forward(x, y) && OutcomeOf(x, step, i, call).settled
    ensures OutcomeOf(y, step, i, call) == OutcomeOf(x, step, i, call)
    ensures Child(step, i) in x.steps && y.steps[Child(step, i)] == x.steps[Child(step, i)]
  {
    hide Child;
  }

  lemma OutcomesOnlyGrow(x: History, y: History, step: StepId, calls: seq<Call>)
    requires Forward(x, y)
    ensures OutcomesGrow(Outcomes(x, step, calls), Outcomes(y, step, calls))
  {
    hide Forward, OutcomeOf;
    forall i | 0 <= i < |calls| && Outcomes(x, step, calls)[i].settled
      ensures Outcomes(y, step, calls)[i] == Outcomes(x, step, calls)[i]
    {
      SettledOutcomeStands(x, y, step, i, calls[i]);
    }
  }

  lemma JoinStands(x: History, y: History, step: StepId, calls: seq<Call>)
    requires Forward(x, y) && FirstDiverging(x, step, calls) == |calls|
    requires forall i :: 0 <= i < |calls| ==> OutcomeOf(x, step, i, calls[i]).settled
    ensures FirstDiverging(y, step, calls) == |calls| && Outcomes(y, step, calls) == Outcomes(x, step, calls)
  {
    hide Forward, FirstDiverging, OutcomeOf;
    forall i | 0 <= i < |calls|
      ensures OutcomeOf(y, step, i, calls[i]) == OutcomeOf(x, step, i, calls[i])
      ensures !ChildDiverges(y, step, calls, i)
    {
      SettledOutcomeStands(x, y, step, i, calls[i]);
      assert !ChildDiverges(x, step, calls, i);
    }
    assert !(FirstDiverging(y, step, calls) < |calls|);
  }

  /** An answer to a stable request stands however history goes on. */
  lemma AnswerStands(x: History, y: History, step: StepId, w: Want)
    requires Forward(x, y) && Durable(w) && Stable(w) && Look(x, step, w).Answer?
    ensures Look(y, step, w) == Look(x, step, w)
  {
    if w.WantAll? {
      var os := Outcomes(x, step, w.calls);
      AllJoined(os);
      hide Forward, FirstDiverging, OutcomeOf, Child;
      forall i | 0 <= i < |w.calls|
        ensures OutcomeOf(x, step, i, w.calls[i]).settled
      {
        assert os[i].settled;
      }
      JoinStands(x, y, step, w.calls);
    }
  }

  // ----- what a body's own history looks like -----

  ghost predicate NoTrace(x: History, p: nat) {
    Step(p) !in x.steps && Step(p) !in x.waits &&
    forall i: nat :: Child(Step(p), i) !in x.steps && Child(Step(p), i) !in x.waits
  }

  /** This request is on record under step p, though perhaps not answered. */
  predicate OnRecord(x: History, p: nat, w: Want) {
    match w
    case WantCall(tool, payload) => Step(p) in x.steps && Matches(x.steps[Step(p)], Call(tool, payload))
    case WantAll(calls, _) =>
      forall i :: 0 <= i < |calls| ==> Child(Step(p), i) in x.steps && Matches(x.steps[Child(Step(p), i)], calls[i])
    case WantSleep(until) => Step(p) in x.waits && x.waits[Step(p)].wakeAt == until
    case WantSignal(_, _) => Step(p) in x.waits
    case _ => false
  }

  /** And nothing else is, under step p. */
  ghost predicate OnlyRecord(x: History, p: nat, w: Want) {
    match w
    case WantCall(_, _) => Step(p) !in x.waits && forall i: nat :: Child(Step(p), i) !in x.steps
    case WantAll(calls, _) =>
      Step(p) !in x.steps && Step(p) !in x.waits && forall i: nat :: i >= |calls| ==> Child(Step(p), i) !in x.steps
    case _ => Step(p) !in x.steps && forall i: nat :: Child(Step(p), i) !in x.steps
  }

  ghost predicate Traces(x: History, p: nat, w: Want) {
    OnRecord(x, p, w) && OnlyRecord(x, p, w) && forall i: nat :: Child(Step(p), i) !in x.waits
  }

  ghost predicate KeysUpTo(x: History, n: nat) {
    forall k :: k in x.steps || k in x.waits ==> exists p :: 1 <= p <= n && KeyFor(k, p)
  }

  /** The history of this body's own run: it records exactly the requests the
      body makes on the answers gots, answers them with gots, records the request
      after those if it has begun, and nothing beyond. */
  ghost predicate Follows(body: Body, x: History, gots: seq<Got>, begun: bool) {
    && Replayed(body, x, gots)
    && (forall i :: 0 <= i < |gots| ==> Traces(x, i + 1, body(gots[..i])))
    && (begun ==> Durable(body(gots)) && WellFormed(body(gots)) && Traces(x, |gots| + 1, body(gots)))
    && KeysUpTo(x, |gots| + (if begun then 1 else 0))
  }

  lemma NoTraceBeyond(x: History, n: nat, p: nat)
    requires KeysUpTo(x, n) && p > n
    ensures NoTrace(x, p)
  {
    hide Step, Child, KeyFor;
    KeysOf(p);
    forall k | KeyFor(k, p)
      ensures k !in x.steps && k !in x.waits
    {
      if k in x.steps || k in x.waits {
        var q :| 1 <= q <= n && KeyFor(k, q);
        KeysDiffer(k, p, q);
      }
    }
  }

  predicate SameKeys(x: History, y: History) {
    y.steps.Keys == x.steps.Keys && y.waits.Keys == x.waits.Keys
  }

  lemma TracesStand(x: History, y: History, p: nat, w: Want)
    requires Forward(x, y) && SameKeys(x, y) && Traces(x, p, w)
    ensures Traces(y, p, w)
  {
    hide Step, Child, Forward, SameKeys;
    RecordStands(x, y, p, w);
    SameMembers(x, y);
  }

  lemma SameMembers(x: History, y: History)
    requires SameKeys(x, y)
    ensures forall k :: k in y.steps <==> k in x.steps
    ensures forall k :: k in y.waits <==> k in x.waits
  {
    assert forall k :: k in y.steps <==> k in x.steps.Keys;
    assert forall k :: k in y.waits <==> k in x.waits.Keys;
  }

  lemma TracesBeside(x: History, y: History, p: nat, q: nat, w: Want)
    requires Forward(x, y) && AddsOnly(x, y, p) && p != q && Traces(x, q, w)
    ensures Traces(y, q, w)
  {
    hide Step, Child, KeyFor, Forward;
    RecordStands(x, y, q, w);
    KeysOf(q);
    forall k | KeyFor(k, q)
      ensures !KeyFor(k, p)
    {
      if KeyFor(k, p) { KeysDiffer(k, p, q); }
    }
  }

  lemma RecordStands(x: History, y: History, p: nat, w: Want)
    requires Forward(x, y) && OnRecord(x, p, w)
    ensures OnRecord(y, p, w)
  {
    hide Step, Child;
  }

  /** And any request on record, once answered, stays answered, though on ANY
      and QUORUM more may be in. */
  lemma AnswerGrows(x: History, y: History, p: nat, w: Want) returns (got: Got)
    requires Forward(x, y) && Durable(w) && OnRecord(x, p, w) && Look(x, Step(p), w).Answer?
    ensures Look(y, Step(p), w) == Answer(got) && GotGrows(w, Look(x, Step(p), w).got, got)
  {
    hide Step, Child, Forward, OutcomeOf;
    if Stable(w) {
      AnswerStands(x, y, Step(p), w);
    } else {
      RecordStands(x, y, p, w);
      assert FirstDiverging(y, Step(p), w.calls) == |w.calls|;
      OutcomesOnlyGrow(x, y, Step(p), w.calls);
      StaysJoined(w.join, Outcomes(x, Step(p), w.calls), Outcomes(y, Step(p), w.calls));
    }
    got := Look(y, Step(p), w).got;
  }

  /** The replay of a steady body goes through again, on what is in by then. */
  lemma {:induction false} ReplayGrows(body: Body, x: History, y: History, gots: seq<Got>) returns (later: seq<Got>)
    requires Forward(x, y) && Steady(body) && Replayed(body, x, gots)
    requires forall i :: 0 <= i < |gots| ==> OnRecord(x, i + 1, body(gots[..i]))
    ensures Replayed(body, y, later) && GotsGrow(body, gots, later)
  {
    hide Forward, Look, Step, OnRecord, Steady, GotGrows;
    if gots == [] {
      later := [];
    } else {
      var n := |gots| - 1;
      LessReplayed(body, x, gots);
      forall i | 0 <= i < n
        ensures OnRecord(x, i + 1, body(gots[..n][..i]))
      {
        assert gots[..n][..i] == gots[..i];
      }
      var before := ReplayGrows(body, x, y, gots[..n]);
      SteadyAt(body, gots[..n], before, n);
      assert before[..n] == before && gots[..n][..n] == gots[..n];
      assert Look(x, Step(n + 1), body(gots[..n])) == Answer(gots[n]);
      var got := AnswerGrows(x, y, n + 1, body(gots[..n]));
      later := before + [got];
      MoreReplayed(body, y, before, got);
      GrowSnoc(body, gots, before, got);
    }
  }

  lemma LessReplayed(body: Body, x: History, gots: seq<Got>)
    requires Replayed(body, x, gots) && gots != []
    ensures Replayed(body, x, gots[..|gots| - 1])
  {
    hide Look, Step;
    var less := gots[..|gots| - 1];
    forall i | 0 <= i < |less|
      ensures Durable(body(less[..i])) && Look(x, Step(i + 1), body(less[..i])) == Answer(less[i])
    {
      assert less[..i] == gots[..i];
    }
  }

  lemma GrowSnoc(body: Body, gots: seq<Got>, before: seq<Got>, got: Got)
    requires gots != [] && GotsGrow(body, gots[..|gots| - 1], before)
    requires GotGrows(body(gots[..|gots| - 1]), gots[|gots| - 1], got)
    ensures GotsGrow(body, gots, before + [got])
  {
    hide GotGrows;
    var n := |gots| - 1;
    forall i | 0 <= i < |gots|
      ensures GotGrows(body(gots[..i]), gots[i], (before + [got])[i])
    {
      if i < n { assert gots[..n][..i] == gots[..i]; }
    }
  }

  // ----- what the next turn is -----

  lemma {:induction false} NothingSettled(os: seq<Outcome>)
    requires forall i :: 0 <= i < |os| ==> !os[i].settled
    ensures Succeeded(os) == 0 && Failed(os) == 0
  {
    if os != [] { NothingSettled(os[..|os| - 1]); }
  }

  /** A request history has no trace of is what the body decides. */
  lemma UnrecordedIsAsked(x: History, p: nat, w: Want)
    requires NoTrace(x, p) && Durable(w) && WellFormed(w)
    ensures Look(x, Step(p), w) == Unwind(Asking(w, Step(p)))
  {
    hide Step, Child;
    if w.WantAll? {
      var os := Outcomes(x, Step(p), w.calls);
      forall i | 0 <= i < |os|
        ensures !os[i].settled
      {
        assert os[i] == OutcomeOf(x, Step(p), i, w.calls[i]);
      }
      NothingSettled(os);
    }
  }

  /** A request on record is answered or asked again, and never diverges. */
  lemma RecordedNeverDiverges(x: History, p: nat, w: Want)
    requires OnRecord(x, p, w) && Durable(w) && WellFormed(w)
    ensures var reply := Look(x, Step(p), w);
            reply.Answer? || (reply.Unwind? && (!w.WantSignal? ==> reply.decision == Asking(w, Step(p))) &&
                              (w.WantSignal? ==> reply.decision == WaitForSignal(Step(p), w.name, ZERO_TIME)))
  {
    hide Step, Child;
  }

  /** The replay of a body's own history: it stops at the request after gots,
      unless that has been answered meanwhile. */
  lemma NextTurn(body: Body, x: History, gots: seq<Got>, begun: bool) returns (next: seq<Got>)
    requires Follows(body, x, gots, begun)
    ensures Replayed(body, x, next) && Stops(body, x, next)
    ensures next == gots || (begun && |next| == |gots| + 1 && next[..|gots|] == gots)
    ensures Follows(body, x, next, begun && next == gots)
  {
    hide Look, Step, OnRecord, OnlyRecord, WellFormed, Replayed, Child, KeysUpTo;
    next := gots;
    var p := |gots| + 1;
    if begun {
      RecordedNeverDiverges(x, p, body(gots));
      var reply := Look(x, Step(p), body(gots));
      if reply.Answer? {
        next := gots + [reply.got];
        MoreReplayed(body, x, gots, reply.got);
        TracesMore(body, x, gots, next);
        NoTraceBeyond(x, p, p + 1);
        if Durable(body(next)) { UntracedStops(x, p + 1, body(next)); }
      }
    } else {
      NoTraceBeyond(x, p - 1, p);
      if Durable(body(gots)) { UntracedStops(x, p, body(gots)); }
    }
  }

  lemma TracesMore(body: Body, x: History, gots: seq<Got>, next: seq<Got>)
    requires forall i :: 0 <= i < |gots| ==> Traces(x, i + 1, body(gots[..i]))
    requires Traces(x, |gots| + 1, body(gots)) && |next| == |gots| + 1 && next[..|gots|] == gots
    ensures forall i :: 0 <= i < |next| ==> Traces(x, i + 1, body(next[..i]))
  {
    hide Traces;
    forall i | 0 <= i < |next|
      ensures Traces(x, i + 1, body(next[..i]))
    {
      if i < |gots| { assert next[..i] == gots[..i]; }
    }
  }

  lemma UntracedStops(x: History, p: nat, w: Want)
    requires NoTrace(x, p) && Durable(w)
    ensures !Look(x, Step(p), w).Answer?
  {
    hide Step, NoTrace, WellFormed, Asking;
    if WellFormed(w) { UnrecordedIsAsked(x, p, w); }
  }

  // ----- recording a decision -----

  function CreationEvents(step: StepId, calls: seq<Call>, ids: seq<TaskId>, n: nat): seq<Event>
    requires n <= |calls|
  {
    if n == 0 then []
    else CreationEvents(step, calls, ids, n - 1) +
         [Event(0, EvTaskCreated, Child(step, n - 1),
                TaskCreatedData(if n - 1 < |ids| then ids[n - 1] else "", calls[n - 1].tool, calls[n - 1].payload))]
  }

  /** The events the engine commits for a decision that starts something. Their
      sequence numbers play no part in reading them back. */
  function StartEvents(d: Decision, ids: seq<TaskId>): seq<Event> {
    match d
    case CallTool(step, tool, payload) =>
      [Event(0, EvTaskCreated, step, TaskCreatedData(if ids != [] then ids[0] else "", tool, payload))]
    case CallToolParallel(step, calls, join) =>
      [Event(0, EvFanOutStarted, step, FanOutData(ToolNames(calls), PolicyText(join)))] +
      CreationEvents(step, calls, ids, |calls|)
    case Sleep(step, wakeAt) => [Event(0, EvTimerSet, step, TimerSetData(wakeAt))]
    case WaitForSignal(step, name, deadline) => [Event(0, EvSignalWaitStarted, step, SignalWaitData(name, deadline))]
    case _ => []
  }

  /** x with the children of one fan-out on record. */
  function WithChildren(x: History, step: StepId, calls: seq<Call>, n: nat): History
    requires n <= |calls|
  {
    if n == 0 then x
    else
      var y := WithChildren(x, step, calls, n - 1);
      y.(steps := y.steps[Child(step, n - 1) := RecordedStep(calls[n - 1].tool, calls[n - 1].payload, None, false, "")])
  }

  lemma {:induction false} TailsCompose(x: History, a: seq<Event>, b: seq<Event>)
    requires ProperTail(x, a) && ProperTail(Through(x, a), b)
    ensures ProperTail(x, a + b) && Through(x, a + b) == Through(Through(x, a), b)
    decreases |a|
  {
    hide Proper, Noting;
    if a == [] {
      assert a + b == b;
    } else {
      var y := Noting(x, a[0]).value;
      assert ProperTail(y, a[1..]) && Through(x, a) == Through(y, a[1..]);
      TailsCompose(y, a[1..], b);
      assert (a + b)[0] == a[0] && (a + b)[1..] == a[1..] + b;
    }
  }

  lemma OneProper(x: History, e: Event)
    requires Proper(x, e)
    ensures ProperTail(x, [e]) && Through(x, [e]) == Noting(x, e).value
  {
    ProperIsForward(x, e);
    assert [e][1..] == [];
  }

  lemma {:induction false} ChildrenHave(x: History, step: StepId, calls: seq<Call>, n: nat, k: StepId)
    requires n <= |calls|
    ensures var y := WithChildren(x, step, calls, n);
            && y.waits == x.waits
            && (k in y.steps <==> k in x.steps || exists i :: 0 <= i < n && k == Child(step, i))
            && ((forall i :: 0 <= i < n ==> k != Child(step, i)) && k in x.steps ==> y.steps[k] == x.steps[k])
  {
    hide Child;
    if n > 0 { ChildrenHave(x, step, calls, n - 1, k); }
  }

  lemma {:induction false} ChildrenAre(x: History, step: StepId, calls: seq<Call>, n: nat, i: nat)
    requires i < n <= |calls|
    ensures var y := WithChildren(x, step, calls, n);
            Child(step, i) in y.steps &&
              y.steps[Child(step, i)] == RecordedStep(calls[i].tool, calls[i].payload, None, false, "")
  {
    hide Child;
    if i < n - 1 {
      ChildrenAre(x, step, calls, n - 1, i);
      if Child(step, i) == Child(step, n - 1) { ChildInjective(step, i, step, n - 1); }
    }
  }

  lemma {:induction false} ChildrenStart(x: History, step: StepId, calls: seq<Call>, ids: seq<TaskId>, n: nat)
    requires n <= |calls| && forall i: nat :: Child(step, i) !in x.steps
    ensures ProperTail(x, CreationEvents(step, calls, ids, n))
    ensures Through(x, CreationEvents(step, calls, ids, n)) == WithChildren(x, step, calls, n)
  {
    hide Child;
    if n > 0 {
      ChildrenStart(x, step, calls, ids, n - 1);
      var y := WithChildren(x, step, calls, n - 1);
      var e := CreationEvents(step, calls, ids, n)[|CreationEvents(step, calls, ids, n - 1)|];
      NotYet(x, step, calls, n - 1);
      OneProper(y, e);
      TailsCompose(x, CreationEvents(step, calls, ids, n - 1), [e]);
    }
  }

  lemma NotYet(x: History, step: StepId, calls: seq<Call>, n: nat)
    requires n <= |calls| && forall i: nat :: Child(step, i) !in x.steps
    ensures Child(step, n) !in WithChildren(x, step, calls, n).steps
  {
    hide Child, WithChildren;
    ChildrenHave(x, step, calls, n, Child(step, n));
    if i :| 0 <= i < n && Child(step, n) == Child(step, i) { ChildInjective(step, n, step, i); }
  }

  /** Only keys of position p are new. */
  ghost predicate AddsOnly(x: History, y: History, p: nat) {
    (forall k :: k in y.steps && k !in x.steps ==> KeyFor(k, p)) &&
    (forall k :: k in y.waits && k !in x.waits ==> KeyFor(k, p))
  }

  lemma KeysOf(q: nat)
    ensures KeyFor(Step(q), q) && forall i: nat :: KeyFor(Child(Step(q), i), q)
  {
    hide Step, Child;
  }

  lemma StartIsProper(x: History, p: nat, w: Want, ids: seq<TaskId>)
    requires NoTrace(x, p) && Durable(w) && WellFormed(w)
    ensures ProperTail(x, StartEvents(Asking(w, Step(p)), ids))
    ensures var y := Through(x, StartEvents(Asking(w, Step(p)), ids));
            Traces(y, p, w) && AddsOnly(x, y, p)
  {
    hide Step, Child, ToolNames, PolicyText, ProperTail, Through, WithChildren, CreationEvents;
    var d := Asking(w, Step(p));
    var start := StartEvents(d, ids);
    KeysOf(p);
    if w.WantAll? {
      var f := Event(0, EvFanOutStarted, Step(p), FanOutData(ToolNames(w.calls), PolicyText(w.join)));
      OneProper(x, f);
      ChildrenStart(x, Step(p), w.calls, ids, |w.calls|);
      TailsCompose(x, [f], CreationEvents(Step(p), w.calls, ids, |w.calls|));
      FanStart(x, p, w);
    } else {
      OneProper(x, start[0]);
      forall i: nat
        ensures Child(Step(p), i) != Step(p)
      {
        StepIsNoChild(p, Step(p), i);
      }
    }
  }

  lemma FanStart(x: History, p: nat, w: Want)
    requires w.WantAll?
    ensures var y := WithChildren(x, Step(p), w.calls, |w.calls|);
            OnRecord(y, p, w) && (NoTrace(x, p) ==> OnlyRecord(y, p, w)) && AddsOnly(x, y, p) && y.waits == x.waits
  {
    hide Step, Child, WithChildren;
    var y := WithChildren(x, Step(p), w.calls, |w.calls|);
    KeysOf(p);
    forall i | 0 <= i < |w.calls|
      ensures Child(Step(p), i) in y.steps && Matches(y.steps[Child(Step(p), i)], w.calls[i])
    {
      ChildrenAre(x, Step(p), w.calls, |w.calls|, i);
    }
    forall k
      ensures (k in y.steps && k !in x.steps ==> KeyFor(k, p)) && (k in y.waits && k !in x.waits ==> KeyFor(k, p))
    {
      ChildrenHave(x, Step(p), w.calls, |w.calls|, k);
    }
    ChildrenHave(x, Step(p), w.calls, |w.calls|, Step(p));
    if NoTrace(x, p) { FanOnly(x, p, w); }
  }

  lemma FanOnly(x: History, p: nat, w: Want)
    requires w.WantAll? && NoTrace(x, p)
    ensures OnlyRecord(WithChildren(x, Step(p), w.calls, |w.calls|), p, w)
  {
    hide Step, Child, WithChildren;
    var y := WithChildren(x, Step(p), w.calls, |w.calls|);
    ChildrenHave(x, Step(p), w.calls, |w.calls|, Step(p));
    if k: nat :| k < |w.calls| && Step(p) == Child(Step(p), k) { StepIsNoChild(p, Step(p), k); }
    forall i: nat | i >= |w.calls|
      ensures Child(Step(p), i) !in y.steps
    {
      ChildrenHave(x, Step(p), w.calls, |w.calls|, Child(Step(p), i));
      if k: nat :| k < |w.calls| && Child(Step(p), i) == Child(Step(p), k) { ChildInjective(Step(p), i, Step(p), k); }
    }
  }

  /** The same history, read with what has come in since. */
  lemma FollowsLater(body: Body, y: History, gots: seq<Got>, later: seq<Got>, begun: bool)
    requires Steady(body) && GotsGrow(body, gots, later) && Replayed(body, y, later)
    requires forall i :: 0 <= i < |gots| ==> Traces(y, i + 1, body(gots[..i]))
    requires begun ==> Durable(body(gots)) && WellFormed(body(gots)) && Traces(y, |gots| + 1, body(gots))
    requires KeysUpTo(y, |gots| + (if begun then 1 else 0))
    ensures Follows(body, y, later, begun)
  {
    hide Traces, Replayed, Steady, GotsGrow, WellFormed, KeysUpTo;
    SameLength(body, gots, later);
    forall i | 0 <= i < |later|
      ensures Traces(y, i + 1, body(later[..i]))
    {
      TracedIsDurable(y, i + 1, body(gots[..i]));
      SteadyAt(body, gots, later, i);
    }
    SteadyAt(body, gots, later, |gots|);
    assert later[..|gots|] == later && gots[..|gots|] == gots;
  }

  lemma TracedIsDurable(x: History, p: nat, w: Want)
    requires Traces(x, p, w)
    ensures Durable(w)
  {
  }

  lemma SameLength(body: Body, gots: seq<Got>, later: seq<Got>)
    requires GotsGrow(body, gots, later)
    ensures |later| == |gots|
  {
  }

  lemma FollowedIsReplayed(body: Body, x: History, gots: seq<Got>, begun: bool)
    requires Follows(body, x, gots, begun)
    ensures Replayed(body, x, gots) && forall i :: 0 <= i < |gots| ==> OnRecord(x, i + 1, body(gots[..i]))
  {
    hide Replayed, OnlyRecord, KeysUpTo, OnRecord, WellFormed;
    forall i | 0 <= i < |gots|
      ensures OnRecord(x, i + 1, body(gots[..i]))
    {
      assert Traces(x, i + 1, body(gots[..i]));
    }
  }

  /** Recording what the body decided keeps the history its own. */
  lemma RecordingFollows(body: Body, x: History, gots: seq<Got>, ids: seq<TaskId>) returns (later: seq<Got>)
    requires Steady(body) && Follows(body, x, gots, false)
    requires Durable(body(gots)) && WellFormed(body(gots))
    ensures GotsGrow(body, gots, later)
    ensures var start := StartEvents(Asking(body(gots), Step(|gots| + 1)), ids);
            ProperTail(x, start) && Follows(body, Through(x, start), later, true)
  {
    FollowedIsReplayed(body, x, gots, false);
    hide Step, Replayed, Traces, NoTrace, AddsOnly, WellFormed, Steady, KeysUpTo, GotsGrow, OnRecord;
    var p := |gots| + 1;
    var w := body(gots);
    var start := StartEvents(Asking(w, Step(p)), ids);
    NoTraceBeyond(x, |gots|, p);
    StartIsProper(x, p, w, ids);
    var y := Through(x, start);
    TailIsForward(x, start);
    later := ReplayGrows(body, x, y, gots);
    forall i | 0 <= i < |gots|
      ensures Traces(y, i + 1, body(gots[..i]))
    {
      TracesBeside(x, y, p, i + 1, body(gots[..i]));
    }
    KeysGrow(x, y, |gots|);
    FollowsLater(body, y, gots, later, true);
  }

  lemma KeysGrow(x: History, y: History, n: nat)
    requires KeysUpTo(x, n) && AddsOnly(x, y, n + 1)
    ensures KeysUpTo(y, n + 1)
  {
    hide KeyFor;
    forall k | k in y.steps || k in y.waits
      ensures exists p :: 1 <= p <= n + 1 && KeyFor(k, p)
    {
      if k in x.steps || k in x.waits {
        var p :| 1 <= p <= n && KeyFor(k, p);
      } else {
        assert KeyFor(k, n + 1);
      }
    }
  }

  // ----- the world going on -----

  /** Nothing in it starts a step, a fan-out or a wait: claims, retries, results, wake-ups. */
  predicate Carries(tail: seq<Event>) {
    forall i :: 0 <= i < |tail| ==>
      !tail[i].typ.EvTaskCreated? && !tail[i].typ.EvFanOutStarted? &&
      !tail[i].typ.EvTimerSet? && !tail[i].typ.EvSignalWaitStarted?
  }

  lemma {:induction false} CarryingAddsNoKeys(x: History, tail: seq<Event>)
    requires ProperTail(x, tail) && Carries(tail)
    ensures Through(x, tail).steps.Keys == x.steps.Keys && Through(x, tail).waits.Keys == x.waits.Keys
    decreases |tail|
  {
    if tail != [] { CarryingAddsNoKeys(Noting(x, tail[0]).value, tail[1..]); }
  }

  /** What goes forward without new keys keeps the history the body's own. */
  lemma ForwardFollows(body: Body, x: History, y: History, gots: seq<Got>, begun: bool) returns (later: seq<Got>)
    requires Steady(body) && Follows(body, x, gots, begun) && Forward(x, y) && SameKeys(x, y)
    ensures GotsGrow(body, gots, later) && Follows(body, y, later, begun)
  {
    FollowedIsReplayed(body, x, gots, begun);
    hide Step, Child, Replayed, Traces, WellFormed, Steady, Forward, SameKeys, KeyFor, GotsGrow, OnRecord;
    later := ReplayGrows(body, x, y, gots);
    forall i | 0 <= i < |gots|
      ensures Traces(y, i + 1, body(gots[..i]))
    {
      TracesStand(x, y, i + 1, body(gots[..i]));
    }
    if begun { TracesStand(x, y, |gots| + 1, body(gots)); }
    SameMembers(x, y);
    FollowsLater(body, y, gots, later, begun);
  }

  lemma CarryingFollows(body: Body, x: History, gots: seq<Got>, begun: bool, tail: seq<Event>) returns (later: seq<Got>)
    requires Steady(body) && Follows(body, x, gots, begun) && ProperTail(x, tail) && Carries(tail)
    ensures GotsGrow(body, gots, later) && Follows(body, Through(x, tail), later, begun)
  {
    hide Follows, Steady, ProperTail, Through, Carries, Forward, GotsGrow;
    TailIsForward(x, tail);
    CarryingAddsNoKeys(x, tail);
    later := ForwardFollows(body, x, Through(x, tail), gots, begun);
  }

  // ----- whole runs -----

  /** A run of one body: its history so far, the decisions recorded in it, the
      decision that ended it if one has, and whether a replay ever diverged. */
  datatype Story = Story(h: seq<Event>, issued: seq<Decision>, ended: Option<Decision>, diverged: bool)

  /** One round: decide, record what is decided if it is new, and let the world
      go on for a while. gots is what history answers in that replay. */
  datatype Round = Round(gots: seq<Got>, ids: seq<TaskId>, tail: seq<Event>)

  /** The engine finds that what is decided is already there, and commits nothing. */
  predicate AlreadyThere(x: History, d: Decision) {
    match d
    case CallTool(step, _, _) => step in x.steps
    case CallToolParallel(step, calls, _) => exists i :: 0 <= i < |calls| && Child(step, i) in x.steps
    case Sleep(step, _) => step in x.waits
    case WaitForSignal(step, _, _) => step in x.waits
    case _ => false
  }

  predicate Ends(d: Decision) {
    d.Complete? || d.Fail? || d.Cancel?
  }

  function Goes(h: seq<Event>, tail: seq<Event>): seq<Event> {
    if Reading(h).Some? && ProperTail(Reading(h).value, tail) && Carries(tail) then h + tail else h
  }

  function TellOn(body: Body, s: Story, round: Round): Story {
    if s.ended.Some? || Reading(s.h).None? || !Replayed(body, Reading(s.h).value, round.gots) ||
       !Stops(body, Reading(s.h).value, round.gots)
    then s
    else
      var x := Reading(s.h).value;
      match TurnAt(body, x, round.gots)
      case NonDeterministic(_) => s.(diverged := true)
      case Decides(d) =>
        if Ends(d) then s.(ended := Some(d))
        else if AlreadyThere(x, d) then s.(h := Goes(s.h, round.tail))
        else s.(h := Goes(s.h + StartEvents(d, round.ids), round.tail), issued := s.issued + [d])
  }

  const OPENING: seq<Event> := [Event(1, EvRunStarted, "", RunStartedData("", "", None))]

  function Told(body: Body, rounds: seq<Round>): Story {
    if rounds == [] then Story(OPENING, [], None, false)
    else TellOn(body, Told(body, rounds[..|rounds| - 1]), rounds[|rounds| - 1])
  }

  /** What one uninterrupted run asks for, if its requests are answered by gots. */
  function Direct(body: Body, gots: seq<Got>): seq<Decision> {
    if gots == [] then []
    else
      var before := gots[..|gots| - 1];
      Direct(body, before) + (if Durable(body(before)) then [Asking(body(before), Step(|gots|))] else [])
  }

  /** The next thing it asks for. */
  function NextAsked(body: Body, gots: seq<Got>): seq<Decision> {
    if Durable(body(gots)) then [Asking(body(gots), Step(|gots| + 1))] else []
  }

  ghost predicate OnCourse(body: Body, s: Story, gots: seq<Got>, begun: bool) {
    && Reading(s.h).Some? && !s.diverged
    && Follows(body, Reading(s.h).value, gots, begun)
    && s.issued == Direct(body, gots) + (if begun then NextAsked(body, gots) else [])
    && (s.ended.Some? ==> !begun && s.ended == Some(Ending(body(gots))))
  }

  /** How an uninterrupted run ends. */
  function Ending(w: Want): Decision {
    match w
    case Returns(output) => Complete(output)
    case Fails(error) => Fail(if error != "" then error else "the agent failed the run")
    case Cancels(reason) => Cancel(reason)
    case _ => Fail(CRASHED)   // an ill-formed request raises in the body
  }

  lemma GoesFollows(body: Body, h: seq<Event>, tail: seq<Event>, gots: seq<Got>, begun: bool) returns (later: seq<Got>)
    requires Steady(body) && Reading(h).Some? && Follows(body, Reading(h).value, gots, begun)
    ensures GotsGrow(body, gots, later)
    ensures Reading(Goes(h, tail)).Some? && Follows(body, Reading(Goes(h, tail)).value, later, begun)
  {
    GrowsItself(body, gots);
    hide Follows, Reading, Steady, Carries, ProperTail, GotsGrow;
    later := gots;
    if ProperTail(Reading(h).value, tail) && Carries(tail) {
      ReadingThrough(h, tail);
      later := CarryingFollows(body, Reading(h).value, gots, begun, tail);
    }
  }

  lemma GrowsItself(body: Body, gots: seq<Got>)
    ensures GotsGrow(body, gots, gots)
  {
  }

  lemma GrowsFurther(body: Body, gots: seq<Got>, later: seq<Got>, last: seq<Got>)
    requires Steady(body) && GotsGrow(body, gots, later) && GotsGrow(body, later, last)
    ensures GotsGrow(body, gots, last)
  {
    hide Steady;
    forall i | 0 <= i < |gots|
      ensures GotGrows(body(gots[..i]), gots[i], last[i])
    {
      SteadyAt(body, gots, later, i);
    }
  }

  /** A steady body asks for the same, all along. */
  lemma {:induction false} DirectStands(body: Body, gots: seq<Got>, later: seq<Got>)
    requires Steady(body) && GotsGrow(body, gots, later)
    ensures Direct(body, later) == Direct(body, gots) && NextAsked(body, later) == NextAsked(body, gots)
    ensures SameAsk(body(gots), body(later))
  {
    hide Steady, GotGrows, Step;
    SameLength(body, gots, later);
    SteadyAt(body, gots, later, |gots|);
    assert later[..|gots|] == later && gots[..|gots|] == gots;
    if gots != [] {
      var n := |gots| - 1;
      GrowPrefix(body, gots, later, n);
      DirectStands(body, gots[..n], later[..n]);
    }
  }

  lemma DirectMore(body: Body, gots: seq<Got>, next: seq<Got>)
    requires |next| == |gots| + 1 && next[..|gots|] == gots
    ensures Direct(body, next) == Direct(body, gots) + NextAsked(body, gots)
  {
    hide Step;
    assert Durable(body(gots)) || NextAsked(body, gots) == [];
  }

  /** What the body decides at a history of its own. */
  lemma TurnOnCourse(body: Body, x: History, gots: seq<Got>, begun: bool)
    requires Follows(body, x, gots, begun) && Stops(body, x, gots)
    ensures var w := body(gots);
            var turn := TurnAt(body, x, gots);
            turn.Decides? &&
            if !Durable(w) || !WellFormed(w) then !begun && Ends(turn.decision) && turn.decision == Ending(w)
            else
              !Ends(turn.decision) &&
              if begun then AlreadyThere(x, turn.decision)
              else turn.decision == Asking(w, Step(|gots| + 1)) && !AlreadyThere(x, turn.decision)
  {
    hide Step, Child, Replayed, FirstDiverging, Outcomes, Joined;
    var w := body(gots);
    var p := |gots| + 1;
    if Durable(w) && WellFormed(w) {
      if begun {
        RecordedNeverDiverges(x, p, w);
        hide Look;
        if w.WantAll? { assert 0 < |w.calls| && Child(Step(p), 0) in x.steps; }
      } else {
        NoTraceBeyond(x, |gots|, p);
        UnrecordedIsAsked(x, p, w);
        hide Look;
      }
    }
  }

  lemma RoundKeepsCourse(body: Body, s: Story, round: Round, gots: seq<Got>, begun: bool)
    returns (gots': seq<Got>, begun': bool)
    requires Steady(body) && OnCourse(body, s, gots, begun)
    ensures OnCourse(body, TellOn(body, s, round), gots', begun')
  {
    hide Step, Follows, Reading, Steady, Replayed, Stops, TurnAt, WellFormed, Direct, AlreadyThere, Goes, StartEvents,
         Ending, GotsGrow;
    gots', begun' := gots, begun;
    var x := Reading(s.h).value;
    if s.ended.None? && Replayed(body, x, round.gots) && Stops(body, x, round.gots) {
      var next := NextTurn(body, x, gots, begun);
      OneReplay(body, x, next, round.gots);
      var still := begun && next == gots;
      if next != gots { DirectMore(body, gots, next); }
      TurnOnCourse(body, x, next, still);
      gots', begun' := next, still;
      var w := body(next);
      if Durable(w) && WellFormed(w) {
        if still {
          gots' := GoesFollows(body, s.h, round.tail, next, true);
        } else {
          var start := StartEvents(Asking(w, Step(|next| + 1)), round.ids);
          var later := RecordingFollows(body, x, next, round.ids);
          DirectStands(body, next, later);
          ReadingThrough(s.h, start);
          gots' := GoesFollows(body, s.h + start, round.tail, later, true);
          GrowsFurther(body, next, later, gots');
          begun' := true;
        }
        DirectStands(body, next, gots');
      }
    }
  }

  lemma OpeningOnCourse(body: Body)
    ensures OnCourse(body, Story(OPENING, [], None, false), [], false)
  {
    hide Step, Child;
    assert OPENING[..0] == [];
    assert Reading(OPENING) == Some(NOTHING);
  }

  /** Replay equals direct execution. However the run is cut into rounds, and
      whatever happens between them, no replay ever reports a divergence that
      is not there, and the decisions recorded are, in order, what one
      uninterrupted run answered with the same results asks for; if the run has
      ended, it ended as that one does. */
  lemma {:induction false} ReplayIsDirect(body: Body, rounds: seq<Round>) returns (gots: seq<Got>, begun: bool)
    requires Steady(body)
    ensures var s := Told(body, rounds);
            && !s.diverged && Reading(s.h).Some?
            && s.issued == Direct(body, gots) + (if begun then NextAsked(body, gots) else [])
            && (s.ended.Some? ==> !begun && s.ended.value == Ending(body(gots)))
            && Replayed(body, Reading(s.h).value, gots)
    ensures OnCourse(body, Told(body, rounds), gots, begun)
  {
    hide TellOn, Steady, Direct, NextAsked, Replayed, Reading, Ending;
    if rounds == [] {
      gots, begun := [], false;
      OpeningOnCourse(body);
    } else {
      var n := |rounds| - 1;
      var g, b := ReplayIsDirect(body, rounds[..n]);
      gots, begun := RoundKeepsCourse(body, Told(body, rounds[..n]), rounds[n], g, b);
    }
  }

  // ----- edited bodies -----

  /** Where two lists of calls first differ, or where the shorter ends. */
  function FirstChange(a: seq<Call>, b: seq<Call>): (i: nat)
    ensures i <= |a| && i <= |b| && (forall j :: 0 <= j < i ==> a[j] == b[j])
    ensures i < |a| && i < |b| ==> a[i] != b[i]
  {
    if a == [] || b == [] || a[0] != b[0] then 0 else 1 + FirstChange(a[1..], b[1..])
  }

  /** The edits of a request that replay reports: another tool or payload for a
      call, or for a call of a fan-out that the fan-out on record has too. */
  predicate Differs(w: Want, edited: Want) {
    match (w, edited)
    case (WantCall(_, _), WantCall(_, _)) => edited != w
    case (WantAll(calls, _), WantAll(others, join)) =>
      join.Valid(|others|) && FirstChange(calls, others) < |calls| && FirstChange(calls, others) < |others|
    case _ => false
  }

  /** The step that is reported. */
  function ChangedStep(p: nat, w: Want, edited: Want): StepId {
    if w.WantAll? && edited.WantAll? then Child(Step(p), FirstChange(w.calls, edited.calls)) else Step(p)
  }

  lemma FanOutReported(x: History, p: nat, w: Want, edited: Want)
    requires Traces(x, p, w) && edited.WantAll? && WellFormed(edited)
    ensures var k := FirstDiverging(x, Step(p), edited.calls);
            if Differs(w, edited) then k < |edited.calls| && k == FirstChange(w.calls, edited.calls)
              else k == |edited.calls|
  {
    hide Step, Child, FirstDiverging, FirstChange;
    var k := FirstDiverging(x, Step(p), edited.calls);
    if w.WantAll? {
      var i := FirstChange(w.calls, edited.calls);
      forall j | 0 <= j < |edited.calls|
        ensures ChildDiverges(x, Step(p), edited.calls, j) <==> j < |w.calls| && w.calls[j] != edited.calls[j]
      {
        assert j < |w.calls| ==> Child(Step(p), j) in x.steps && Matches(x.steps[Child(Step(p), j)], w.calls[j]);
      }
      if Differs(w, edited) { FirstDivergingIs(x, Step(p), edited.calls, i); }
    } else {
      assert forall j :: 0 <= j < |edited.calls| ==> !ChildDiverges(x, Step(p), edited.calls, j);
    }
  }

  /** Which edits of a recorded request are reported: exactly these, however
      much of it has been answered. */
  lemma ReportedIff(x: History, p: nat, w: Want, edited: Want)
    requires Traces(x, p, w) && Durable(edited)
    ensures Look(x, Step(p), edited).Diverged? <==> Differs(w, edited)
    ensures Differs(w, edited) ==> Look(x, Step(p), edited) == Diverged(ChangedStep(p, w, edited))
  {
    if edited.WantAll? && WellFormed(edited) { FanOutReported(x, p, w, edited); }
    hide Step, Child, FirstDiverging, FirstChange, Outcomes, Joined;
  }

  /** An edited body is caught, exactly when the edit is one of these. It agrees
      with the body that made the history up to some request, on record there
      and perhaps answered: replaying it reports a divergence at that request if
      and only if the two requests differ in a call they both make, and then
      reports the step of the first such call. */
  lemma EditedBodyIsCaught(body: Body, edited: Body, x: History, gots: seq<Got>, begun: bool, i: nat)
    requires Follows(body, x, gots, begun)
    requires i < |gots| || (i == |gots| && begun)
    requires forall j :: 0 <= j < i ==> edited(gots[..j]) == body(gots[..j])
    ensures Replayed(edited, x, gots[..i])
    ensures var w, w' := body(gots[..i]), edited(gots[..i]);
            && (TurnAt(edited, x, gots[..i]).NonDeterministic? <==> Differs(w, w'))
            && (Differs(w, w') ==> Stops(edited, x, gots[..i]) &&
                                   TurnAt(edited, x, gots[..i]) == NonDeterministic(ChangedStep(i + 1, w, w')))
  {
    hide Step, Child, Look, Traces, Differs, ChangedStep;
    var g := gots[..i];
    forall j | 0 <= j < |g|
      ensures Durable(edited(g[..j])) && Look(x, Step(j + 1), edited(g[..j])) == Answer(g[j])
    {
      assert g[..j] == gots[..j] && g[j] == gots[j];
    }
    if i == |gots| { assert gots[..i] == gots; }
    assert Traces(x, i + 1, body(g));
    if Durable(edited(g)) { ReportedIff(x, i + 1, body(g), edited(g)); } else { EndsDiffer(body(g), edited(g)); }
  }

  lemma EndsDiffer(w: Want, edited: Want)
    requires !Durable(edited)
    ensures !Differs(w, edited)
  {
  }

  /** Outcomes of which these many more are never to come fall short of a join. */
  predicate Short(join: JoinPolicy, os: seq<Outcome>, extra: nat) {
    match join.kind
    case JoinAll => Succeeded(os) + Failed(os) < |os| + extra
    case JoinAny => Succeeded(os) == 0 && Failed(os) < |os| + extra
    case _ => Succeeded(os) < join.quorum <= |os| + extra - Failed(os)
  }

  lemma {:induction false} UnsettledCountNothing(os: seq<Outcome>, longer: seq<Outcome>)
    requires |os| <= |longer| && longer[..|os|] == os && forall i :: |os| <= i < |longer| ==> !longer[i].settled
    ensures Succeeded(longer) == Succeeded(os) && Failed(longer) == Failed(os)
  {
    if |longer| > |os| {
      var n := |longer| - 1;
      assert longer[..n][..|os|] == os;
      UnsettledCountNothing(os, longer[..n]);
    } else {
      assert longer == os;
    }
  }

  /** So the check does miss divergences. A fan-out on record that the edited
      body makes longer is one, whatever it joins on: it is not reported, and if
      what is in falls short of its join, the body asks for the longer one
      again, and as its first child exists the engine commits nothing. Under ALL
      that is always so. */
  lemma LongerFanOutStrands(x: History, p: nat, w: Want, more: seq<Call>, join: JoinPolicy)
    requires Traces(x, p, w) && w.WantAll? && w.calls != [] && more != [] && join.Valid(|w.calls| + |more|)
    ensures var edited := WantAll(w.calls + more, join);
            var os := Outcomes(x, Step(p), w.calls);
            && !Differs(w, edited) && AlreadyThere(x, Asking(edited, Step(p)))
            && (Look(x, Step(p), edited) == Unwind(Asking(edited, Step(p))) <==> Short(join, os, |more|))
            && (join.kind.JoinAll? ==> Short(join, os, |more|))
  {
    var edited := WantAll(w.calls + more, join);
    assert edited.calls[..|w.calls|] == w.calls;
    FanOutReported(x, p, w, edited);
    hide Step, Child, FirstDiverging, FirstChange;
    var os := Outcomes(x, Step(p), w.calls);
    var longer := Outcomes(x, Step(p), edited.calls);
    assert longer[..|os|] == os by {
      forall i | 0 <= i < |os|
        ensures longer[i] == os[i]
      {
        assert edited.calls[i] == w.calls[i];
      }
    }
    UnsettledCountNothing(os, longer);
    assert Child(Step(p), 0) in x.steps;
  }

  /** A call that the edited body turns into a sleep is another: nothing is
      recorded where it looks, and it sleeps under a step that is taken. */
  lemma CallTurnedSleepIsNotReported(x: History, p: nat, w: Want, until: Time)
    requires Traces(x, p, w) && w.WantCall?
    ensures !Differs(w, WantSleep(until)) && Look(x, Step(p), WantSleep(until)) == Unwind(Sleep(Step(p), until))
  {
    hide Step, Child;
  }
}
