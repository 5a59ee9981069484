/** Replay in the running system. A run whose decider replays one body, by any
    number of engines with reads of any age: its history is, at every moment,
    the history of that body's one uninterrupted run. */
module Following {
  import opened Prelude
  import opened Names
  import opened Core
  import opened Tables
  import opened Waits
  import opened Lifecycle
  import opened Invariants
  import opened Transactions
  import opened RunSteps
  import opened CreateSteps
  import opened Joins
  import opened FanOuts
  import opened Advancing
  import opened Behaviours
  import opened Frames
  import opened Marks
  import opened StaticPlan
  import opened Histories
  import opened Agents
  import opened Replay
  import opened Recording
  import opened Skipping
  import opened Readability

  // ----- a decider that replays -----

  function AnswerOf(turn: Turn): Answer {
    match turn
    case Decides(d) => Decided(d)
    case NonDeterministic(step) => CannotDecide("nondeterminism at step " + step)
  }

  /** Nobody is connected to decide, or this is what replaying the body says. */
  ghost predicate DecidesAs(a: Answer, body: Body, x: History) {
    a.Unavailable? ||
    forall gots :: Replayed(body, x, gots) && Stops(body, x, gots) ==> a == AnswerOf(TurnAt(body, x, gots))
  }

  ghost predicate Replays(cfg: Config, body: Body) {
    forall run, h :: Reading(h).Some? ==> DecidesAs(cfg.decide(run, h), body, Reading(h).value)
  }

  /** Every engine that advances run r replays this body. */
  ghost predicate FollowsBody(acts: seq<Action>, r: RunId, body: Body) {
    forall k :: 0 <= k < |acts| && acts[k].Advance? && acts[k].r == r ==> Replays(acts[k].cfg, body)
  }

  // ----- what history has told so far -----

  function Recorded(s: State, r: RunId): History {
    Skimming(Hist(s, r))
  }

  /** The part of a run's history that is new. */
  function Tail(s: State, t: State, r: RunId): seq<Event> {
    if Hist(s, r) <= Hist(t, r) then Hist(t, r)[|Hist(s, r)|..] else []
  }

  /** From s to t history grew properly, and while the run was not advanced it
      only carried on what had begun. */
  ghost predicate Grew(s: State, t: State, r: RunId) {
    && Hist(s, r) <= Hist(t, r)
    && ProperTail(Recorded(s, r), Tail(s, t, r))
    && (r in s.runs && r in t.runs && s.runs[r].version == t.runs[r].version ==> Carries(Tail(s, t, r)))
  }

  lemma {:induction false} SkimmingThrough(h: seq<Event>, tail: seq<Event>)
    requires ProperTail(Skimming(h), tail)
    ensures Skimming(h + tail) == Through(Skimming(h), tail)
    decreases |tail|
  {
    if tail == [] {
      assert h + tail == h;
    } else {
      var g := h + [tail[0]];
      assert g[..|h|] == h;
      assert g + tail[1..] == h + tail;
      SkimmingThrough(g, tail[1..]);
    }
  }

  lemma GrewThrough(s: State, t: State, r: RunId)
    requires Grew(s, t, r)
    ensures Recorded(t, r) == Through(Recorded(s, r), Tail(s, t, r))
    ensures Forward(Recorded(s, r), Recorded(t, r))
  {
    hide ProperTail, Through, Carries, Skimming, Forward, Hist;
    assert Hist(s, r) + Tail(s, t, r) == Hist(t, r);
    SkimmingThrough(Hist(s, r), Tail(s, t, r));
    TailIsForward(Recorded(s, r), Tail(s, t, r));
  }

  lemma GrewReflexive(s: State, r: RunId)
    ensures Grew(s, s, r)
  {
  }

  lemma CarriesBoth(a: seq<Event>, b: seq<Event>)
    requires Carries(a) && Carries(b)
    ensures Carries(a + b)
  {
  }

  lemma GrewTransitive(s: State, t: State, u: State, r: RunId)
    requires Grew(s, t, r) && Grew(t, u, r) && Evolves(s, t) && Evolves(t, u)
    ensures Grew(s, u, r)
  {
    hide ProperTail, Through, Carries, Hist, Evolves, RunEvolves;
    assert Tail(s, u, r) == Tail(s, t, r) + Tail(t, u, r);
    GrewThrough(s, t, r);
    TailsCompose(Recorded(s, r), Tail(s, t, r), Tail(t, u, r));
    if r in s.runs && r in u.runs && s.runs[r].version == u.runs[r].version {
      VersionBetween(s, t, u, r);
      CarriesBoth(Tail(s, t, r), Tail(t, u, r));
    }
  }

  lemma VersionBetween(s: State, t: State, u: State, r: RunId)
    requires Evolves(s, t) && Evolves(t, u) && r in s.runs && r in u.runs && s.runs[r].version == u.runs[r].version
    ensures r in t.runs && t.runs[r].version == s.runs[r].version
  {
    hide Evolves, Pending, Consumed, Hist;
    RunEvolvesOf(s, t, r);
    RunIn(s, t, r);
    RunEvolvesOf(t, u, r);
  }

  lemma RunIn(s: State, t: State, r: RunId)
    requires r in s.runs && RunEvolves(s, t, r)
    ensures r in t.runs
  {
    hide Pending, Consumed, Hist;
  }

  // ----- decisions, read back in order -----

  /** What the opening event of a decision says, without task ids. */
  datatype Opening =
    | OpenCall(step: StepId, tool: string, payload: Json)
    | OpenFan(step: StepId, tools: seq<string>, join: string)
    | OpenSleep(step: StepId, wakeAt: Time)
    | OpenWait(step: StepId, name: string, deadline: Time)

  ghost predicate IsTop(step: StepId) {
    exists n: nat :: step == Step(n)
  }

  /** A child's creation opens nothing of its own: its fan-out does. */
  ghost function OpeningIn(e: Event): seq<Opening> {
    match e.data
    case TaskCreatedData(_, tool, payload) =>
      if e.typ.EvTaskCreated? && IsTop(e.step) then [OpenCall(e.step, tool, payload)] else []
    case FanOutData(tools, join) => if e.typ.EvFanOutStarted? then [OpenFan(e.step, tools, join)] else []
    case TimerSetData(at) => if e.typ.EvTimerSet? then [OpenSleep(e.step, at)] else []
    case SignalWaitData(name, deadline) => if e.typ.EvSignalWaitStarted? then [OpenWait(e.step, name, deadline)] else []
    case _ => []
  }

  ghost function Openings(h: seq<Event>): seq<Opening> {
    if h == [] then [] else Openings(h[..|h| - 1]) + OpeningIn(h[|h| - 1])
  }

  function OpeningOf(d: Decision): seq<Opening> {
    match d
    case CallTool(step, tool, payload) => [OpenCall(step, tool, payload)]
    case CallToolParallel(step, calls, join) => [OpenFan(step, ToolNames(calls), PolicyText(join))]
    case Sleep(step, at) => [OpenSleep(step, at)]
    case WaitForSignal(step, name, deadline) => [OpenWait(step, name, deadline)]
    case _ => []
  }

  function AllOpenings(ds: seq<Decision>): seq<Opening> {
    if ds == [] then [] else AllOpenings(ds[..|ds| - 1]) + OpeningOf(ds[|ds| - 1])
  }

  lemma {:induction false} OpeningsConcat(a: seq<Event>, b: seq<Event>)
    ensures Openings(a + b) == Openings(a) + Openings(b)
  {
    hide OpeningIn;
    if b == [] {
      assert a + b == a;
    } else {
      OpeningsConcat(a, b[..|b| - 1]);
      assert (a + b)[..|a + b| - 1] == a + b[..|b| - 1];
    }
  }

  lemma {:induction false} NothingOpens(tail: seq<Event>)
    requires forall i :: 0 <= i < |tail| ==> OpeningIn(tail[i]) == []
    ensures Openings(tail) == []
  {
    hide OpeningIn;
    if tail != [] { NothingOpens(tail[..|tail| - 1]); }
  }

  lemma SameOpening(e: Event, f: Event)
    requires e.typ == f.typ && e.step == f.step && e.data == f.data
    ensures OpeningIn(e) == OpeningIn(f)
  {
    hide IsTop;
  }

  lemma {:induction false} SameOpenings(a: seq<Event>, b: seq<Event>)
    requires SameFacts(a, b)
    ensures Openings(a) == Openings(b)
  {
    hide OpeningIn;
    if a != [] {
      var n := |a| - 1;
      assert forall i :: 0 <= i < n ==> a[..n][i] == a[i] && b[..n][i] == b[i];
      SameOpenings(a[..n], b[..n]);
      SameOpening(a[n], b[n]);
    }
  }

  lemma ChildIsNotTop(p: nat, i: nat)
    ensures !IsTop(Child(Step(p), i))
  {
    hide Step, Child;
    if n: nat :| Child(Step(p), i) == Step(n) { StepIsNoChild(n, Step(p), i); }
  }

  lemma {:induction false} ChildrenOpenNothing(p: nat, calls: seq<Call>, ids: seq<TaskId>, n: nat)
    requires n <= |calls|
    ensures Openings(CreationEvents(Step(p), calls, ids, n)) == []
  {
    hide Step, Child, IsTop, OpeningIn;
    if n > 0 {
      var events := CreationEvents(Step(p), calls, ids, n);
      ChildrenOpenNothing(p, calls, ids, n - 1);
      ChildIsNotTop(p, n - 1);
      BelowTheTop(events[|events| - 1]);
      assert events[..|events| - 1] == CreationEvents(Step(p), calls, ids, n - 1);
    }
  }

  lemma BelowTheTop(e: Event)
    requires e.typ.EvTaskCreated? && !IsTop(e.step)
    ensures OpeningIn(e) == []
  {
    hide IsTop;
  }

  lemma OneOpens(e: Event)
    ensures Openings([e]) == OpeningIn(e)
  {
    hide OpeningIn;
    assert [e][..0] == [];
  }

  lemma StartOpens(w: Want, p: nat, ids: seq<TaskId>)
    requires Durable(w)
    ensures Openings(StartEvents(Asking(w, Step(p)), ids)) == OpeningOf(Asking(w, Step(p)))
  {
    hide Step, Child, ToolNames, PolicyText, CreationEvents, Openings;
    var start := StartEvents(Asking(w, Step(p)), ids);
    OneOpens(start[0]);
    if w.WantAll? {
      ChildrenOpenNothing(p, w.calls, ids, |w.calls|);
      OpeningsConcat([start[0]], CreationEvents(Step(p), w.calls, ids, |w.calls|));
    } else {
      assert start == [start[0]];
      assert IsTop(Step(p));
    }
  }

  lemma {:induction false} AllOpeningsSnoc(ds: seq<Decision>, more: seq<Decision>)
    requires |more| <= 1
    ensures AllOpenings(ds + more) == AllOpenings(ds) + (if more == [] then [] else OpeningOf(more[0]))
  {
    if more == [] { assert ds + more == ds; } else { assert (ds + more)[..|ds|] == ds; }
  }

  lemma {:induction false} ProperIgnoresNumbers(x: History, a: seq<Event>, b: seq<Event>)
    requires SameFacts(a, b) && ProperTail(x, b)
    ensures ProperTail(x, a) && Through(x, a) == Through(x, b)
    decreases |a|
  {
    if a != [] {
      assert Noting(x, a[0]) == Noting(x, b[0]) && Proper(x, a[0]);
      hide Noting, Proper;
      assert forall i :: 0 <= i < |a| - 1 ==> a[1..][i] == a[i + 1] && b[1..][i] == b[i + 1];
      ProperIgnoresNumbers(Noting(x, a[0]).value, a[1..], b[1..]);
    }
  }

  // ----- the invariant -----

  /** The opening of a fan-out on record is the body's own. */
  predicate IsFan(e: Event, body: Body, gots: seq<Got>, i: nat)
    requires i <= |gots|
  {
    var w := body(gots[..i]);
    e.step == Step(i + 1) && w.WantAll? && e.data == FanOutData(ToolNames(w.calls), PolicyText(w.join))
  }

  ghost predicate FansOf(body: Body, h: seq<Event>, gots: seq<Got>, begun: bool) {
    forall p :: 0 <= p < |h| && h[p].typ.EvFanOutStarted? ==>
      exists i: nat :: i < |gots| + (if begun then 1 else 0) && IsFan(h[p], body, gots, i)
  }

  /** The run stands in s where its body stands once gots have come back. */
  ghost predicate At(body: Body, s: State, r: RunId, gots: seq<Got>, begun: bool) {
    && Follows(body, Recorded(s, r), gots, begun)
    && FansOf(body, Hist(s, r), gots, begun)
    && Openings(Hist(s, r)) == AllOpenings(Direct(body, gots) + (if begun then NextAsked(body, gots) else []))
  }

  ghost predicate OnBody(body: Body, s: State, r: RunId) {
    exists gots, begun :: At(body, s, r, gots, begun)
  }

  /** What carries on leaves the run where its body stands. */
  lemma CarryOn(body: Body, s: State, t: State, r: RunId, tail: seq<Event>)
    requires Steady(body) && OnBody(body, s, r) && Hist(t, r) == Hist(s, r) + tail
    requires ProperTail(Recorded(s, r), tail) && Carries(tail)
    requires forall i :: 0 <= i < |tail| ==> !tail[i].typ.EvFanOutStarted? && OpeningIn(tail[i]) == []
    ensures OnBody(body, t, r) && Grew(s, t, r)
  {
    hide Follows, ProperTail, Through, Carries, OpeningIn, Hist, Openings, Skimming, AllOpenings, Direct, NextAsked,
         Steady, IsFan;
    var gots, begun :| At(body, s, r, gots, begun);
    assert Tail(s, t, r) == tail;
    SkimmingThrough(Hist(s, r), tail);
    var later := CarryingFollows(body, Recorded(s, r), gots, begun, tail);
    OpeningsConcat(Hist(s, r), tail);
    NothingOpens(tail);
    FansStay(body, Hist(s, r), tail, gots, begun);
    assert Openings(Hist(t, r)) == Openings(Hist(s, r)) + [];
    AtLater(body, t, r, gots, later, begun);
  }

  /** What a steady body has asked for does not depend on what has come in since. */
  lemma AtLater(body: Body, t: State, r: RunId, gots: seq<Got>, later: seq<Got>, begun: bool)
    requires Steady(body) && GotsGrow(body, gots, later)
    requires Follows(body, Recorded(t, r), later, begun) && FansOf(body, Hist(t, r), gots, begun)
    requires Openings(Hist(t, r)) == AllOpenings(Direct(body, gots) + (if begun then NextAsked(body, gots) else []))
    ensures At(body, t, r, later, begun)
  {
    hide Steady, GotsGrow, Follows, Hist, Openings, AllOpenings, Direct, NextAsked, Skimming, IsFan;
    DirectStands(body, gots, later);
    SameLength(body, gots, later);
    forall p | 0 <= p < |Hist(t, r)| && Hist(t, r)[p].typ.EvFanOutStarted?
      ensures exists i: nat :: i < |later| + (if begun then 1 else 0) && IsFan(Hist(t, r)[p], body, later, i)
    {
      var i: nat :| i < |gots| + (if begun then 1 else 0) && IsFan(Hist(t, r)[p], body, gots, i);
      SteadyAt(body, gots, later, i);
      SameFan(Hist(t, r)[p], body, gots, later, i);
    }
  }

  lemma SameFan(e: Event, body: Body, gots: seq<Got>, later: seq<Got>, i: nat)
    requires i <= |gots| == |later| && IsFan(e, body, gots, i) && SameAsk(body(gots[..i]), body(later[..i]))
    ensures IsFan(e, body, later, i)
  {
  }

  lemma FansStay(body: Body, h: seq<Event>, tail: seq<Event>, gots: seq<Got>, begun: bool)
    requires FansOf(body, h, gots, begun) && forall i :: 0 <= i < |tail| ==> !tail[i].typ.EvFanOutStarted?
    ensures FansOf(body, h + tail, gots, begun)
  {
    hide IsFan;
    var g := h + tail;
    forall p | |h| <= p < |g|
      ensures !g[p].typ.EvFanOutStarted?
    {
      assert g[p] == tail[p - |h|];
    }
    forall p | 0 <= p < |g| && g[p].typ.EvFanOutStarted?
      ensures exists i: nat :: i < |gots| + (if begun then 1 else 0) && IsFan(g[p], body, gots, i)
    {
      assert p < |h| && g[p] == h[p];
    }
  }

  // ----- steps that tell the driver nothing -----

  lemma UntellingEvent(x: History, e: Event)
    requires !Marked(e, Telling)
    ensures Proper(x, e) && Noting(x, e) == Some(x) && OpeningIn(e) == [] && Carries([e])
  {
  }

  lemma {:induction false} UntellingTail(x: History, tail: seq<Event>)
    requires forall i :: 0 <= i < |tail| ==> !Marked(tail[i], Telling)
    ensures ProperTail(x, tail) && Carries(tail)
    ensures forall i :: 0 <= i < |tail| ==> !tail[i].typ.EvFanOutStarted? && OpeningIn(tail[i]) == []
    decreases |tail|
  {
    hide Marked, Proper, Noting, OpeningIn;
    if tail != [] {
      UntellingEvent(x, tail[0]);
      UntellingOpening(tail[0]);
      assert forall i :: 0 <= i < |tail| - 1 ==> tail[1..][i] == tail[i + 1];
      UntellingTail(x, tail[1..]);
      assert tail == [tail[0]] + tail[1..];
      CarriesBoth([tail[0]], tail[1..]);
    }
  }

  lemma UntellingOpening(e: Event)
    requires !Marked(e, Telling)
    ensures !e.typ.EvFanOutStarted?
  {
  }

  lemma QuietOnBody(body: Body, s: State, t: State, r: RunId)
    requires Steady(body) && OnBody(body, s, r) && QuietTail(Hist(s, r), Hist(t, r), Telling)
    ensures OnBody(body, t, r) && Grew(s, t, r)
  {
    hide Marked, ProperTail, Carries, OpeningIn, Hist, OnBody, Grew, Steady;
    var h, g := Hist(s, r), Hist(t, r);
    var tail := g[|h|..];
    assert g == h + tail;
    assert forall i :: 0 <= i < |tail| ==> tail[i] == g[|h| + i];
    UntellingTail(Recorded(s, r), tail);
    CarryOn(body, s, t, r, tail);
  }

  // ----- reports -----

  /** What history has of a running task is a step still owed. */
  lemma RunningIsOwed(s: State, id: TaskId)
    requires Inv(s) && id in s.tasks && s.tasks[id].status.TaskRunning?
    ensures var x := Recorded(s, s.tasks[id].run);
            s.tasks[id].step in x.steps && !Settled(x.steps[s.tasks[id].step])
  {
    hide Inv, Hist, Reading, Skimming, ViewOf, IndexOk, HistoryOk, OwnStep, ChildStory, HasFinalFailure;
    var r := s.tasks[id].run;
    var h := Hist(s, r);
    InvParts(s);
    TaskHasRun(s, id);
    assert HistoryOk(s, r);
    StepsAreTheirs(s, r, id);
    NotMalformed(s, id);
    NothingYet(h, id);
    ReadsAlong(h, 0, ChildOutcome(s.tasks[id].step, 0, "", false, false, None, ""), id);
  }

  lemma CompletedTail(x: History, e: Event)
    requires e.typ.EvTaskCompleted? && e.data.TaskCompletedData? && e.step in x.steps && !Settled(x.steps[e.step])
    ensures ProperTail(x, [e]) && Carries([e]) && OpeningIn(e) == []
  {
    OneProper(x, e);
  }

  lemma FailedTail(x: History, e: Event, e': Event)
    requires e.typ.EvTaskFailed? && e.data.TaskFailedData? && e.step in x.steps && !Settled(x.steps[e.step])
    requires e'.data.TaskRetryData? && (e'.typ.EvTaskRetryScheduled? || e'.typ.EvTaskDeadLettered?)
    ensures ProperTail(x, [e, e']) && Carries([e, e']) && OpeningIn(e) == [] && OpeningIn(e') == []
  {
    OneProper(x, e);
    var y := Noting(x, e).value;
    UntellingTail(y, [e']);
    TailsCompose(x, [e], [e']);
    assert [e] + [e'] == [e, e'];
  }

  lemma CompleteOnBody(body: Body, s: State, id: TaskId, token: int, result: Json, now: Time, r: RunId)
    requires Steady(body) && Inv(s) && OnBody(body, s, r)
    ensures var t := CompleteTx(s, id, token, result, now).st; OnBody(body, t, r) && Grew(s, t, r)
  {
    hide Inv, OnBody, Grew, Steady, Hist, CompleteTx, NothingCreated, ProperTail, Carries, OpeningIn, Settled;
    var res := CompleteTx(s, id, token, result, now);
    CompletedRow(s, id, token, result, now, r);
    if res.Commit? && s.tasks[id].run == r {
      RunningIsOwed(s, id);
      var f := Fact(EvTaskCompleted, s.tasks[id].step, TaskCompletedData(id, result));
      var e := Stamp(Hist(s, r), f);
      StampIs(Hist(s, r), f);
      CompletedTail(Recorded(s, r), e);
      CarryOn(body, s, res.st, r, [e]);
    } else {
      if res.Abort? { AbortedComplete(s, id, token, result, now); }
      SameHistoryOnBody(body, s, res.st, r);
    }
  }

  lemma SameHistoryOnBody(body: Body, s: State, t: State, r: RunId)
    requires OnBody(body, s, r) && Hist(t, r) == Hist(s, r)
    ensures OnBody(body, t, r) && Grew(s, t, r)
  {
    hide Follows, FansOf, Openings, AllOpenings, Hist, Skimming;
    var gots, begun :| At(body, s, r, gots, begun);
    assert At(body, t, r, gots, begun);
    assert Tail(s, t, r) == [];
  }

  lemma FailOnBody(body: Body, s: State, id: TaskId, token: int, reason: string, escalated: bool, delay: int,
                   now: Time, r: RunId)
    requires Steady(body) && Inv(s) && OnBody(body, s, r)
    ensures var t := FailTx(s, id, token, reason, escalated, delay, now).st; OnBody(body, t, r) && Grew(s, t, r)
  {
    hide Inv, OnBody, Grew, Steady, Hist, FailTx, ProperTail, Carries, OpeningIn, Settled, NotBefore;
    var res := FailTx(s, id, token, reason, escalated, delay, now);
    FailedRow(s, id, token, reason, escalated, delay, now, r);
    if res.Commit? && s.tasks[id].run == r {
      RunningIsOwed(s, id);
      var task := s.tasks[id];
      var retry := WillRetry(task, escalated);
      var f := Fact(EvTaskFailed, task.step, TaskFailedData(id, reason, task.attempt, !retry));
      var g := Fact(if retry then EvTaskRetryScheduled else EvTaskDeadLettered, task.step,
                    TaskRetryData(id, task.attempt, reason, NotBefore(task, escalated, delay, now)));
      var e, e' := Stamp(Hist(s, r), f), Stamp(Log(Hist(s, r), f), g);
      StampIs(Hist(s, r), f);
      StampIs(Log(Hist(s, r), f), g);
      FailedTail(Recorded(s, r), e, e');
      assert Hist(res.st, r) == Hist(s, r) + [e, e'];
      CarryOn(body, s, res.st, r, [e, e']);
    } else {
      SameHistoryOnBody(body, s, res.st, r);
    }
  }

  // ----- wakings -----

  lemma {:induction false} PendingIsUnresolved(h: seq<Event>)
    requires Legible(h) && Pending(h).Some?
    ensures var x := Reading(h).value; Pending(h).value.step in x.waits && !x.waits[Pending(h).value.step].resolved
  {
    var n := |h| - 1;
    if StartOf(h[n]).None? { PendingIsUnresolved(h[..n]); }
  }

  lemma SequentialPrefix(h: seq<Event>)
    requires h != [] && Sequential(h)
    ensures Sequential(h[..|h| - 1]) && (StartOf(h[|h| - 1]).Some? ==> Pending(h[..|h| - 1]).None?)
  {
    var g := h[..|h| - 1];
    assert forall i :: 0 <= i < |g| ==> g[i] == h[i] && g[..i] == h[..i];
  }

  /** And the other way round: a wait on record that nothing has ended is the pending one. */
  lemma {:induction false} UnresolvedIsPending(h: seq<Event>, k: StepId)
    requires Legible(h) && Sequential(h) && k in Reading(h).value.waits && !Reading(h).value.waits[k].resolved
    ensures Pending(h).Some? && Pending(h).value.step == k
  {
    hide Sequential;
    var n := |h| - 1;
    SequentialPrefix(h);
    var x := Reading(h[..n]).value;
    if k in x.waits && !x.waits[k].resolved { UnresolvedIsPending(h[..n], k); }
  }

  lemma WakeTail(x: History, e: Event)
    requires Resolves(e) && !e.data.Unreadable? && e.step in x.waits && !x.waits[e.step].resolved
    ensures ProperTail(x, [e]) && Carries([e]) && OpeningIn(e) == [] && !e.typ.EvFanOutStarted?
  {
    OneProper(x, e);
  }

  lemma WakeOnBody(body: Body, s: State, r: RunId, expected: int, next: RunState, f: Fact)
    requires Steady(body) && OnBody(body, s, r) && Legible(Hist(s, r))
    requires Pending(Hist(s, r)).Some? && f.step == Pending(Hist(s, r)).value.step && Resolves(AsEvent(f)) &&
             !f.data.Unreadable?
    ensures var t := AdvanceTx(s, r, expected, next, Some(f)).st; OnBody(body, t, r) && Grew(s, t, r)
  {
    hide OnBody, Grew, Steady, Hist, AdvanceTx, ProperTail, Carries, OpeningIn, Pending, Legible, Reading, Skimming;
    var t := AdvanceTx(s, r, expected, next, Some(f)).st;
    WrittenHistory(s, r, expected, next, f);
    if Hist(t, r) == Hist(s, r) {
      SameHistoryOnBody(body, s, t, r);
    } else {
      var e := Stamp(Hist(s, r), f);
      StampIs(Hist(s, r), f);
      ReadableIsRecorded(s, r);
      PendingIsUnresolved(Hist(s, r));
      WakeTail(Recorded(s, r), e);
      CarryOn(body, s, t, r, [e]);
    }
  }

  lemma ReadableIsRecorded(s: State, r: RunId)
    requires Legible(Hist(s, r))
    ensures Reading(Hist(s, r)) == Some(Recorded(s, r))
  {
    hide Hist, Skimming, Reading;
    ReadingIsSkimming(Hist(s, r));
  }

  lemma PlainOnBody(body: Body, s: State, r: RunId, expected: int, next: RunState, fact: Option<Fact>)
    requires Steady(body) && OnBody(body, s, r) && (fact.Some? ==> !Marked(AsEvent(fact.value), Telling))
    ensures var t := AdvanceTx(s, r, expected, next, fact).st; OnBody(body, t, r) && Grew(s, t, r)
  {
    hide OnBody, Grew, Steady, Hist, AdvanceTx, Marked;
    AdvanceTxAddsNone(s, r, expected, next, fact, Telling);
    QuietTailAt(s, AdvanceTx(s, r, expected, next, fact).st, r, Telling);
    QuietOnBody(body, s, AdvanceTx(s, r, expected, next, fact).st, r);
  }

  lemma QuietTailAt(s: State, t: State, r: RunId, kind: Kind)
    requires Unmarked(s, t, kind)
    ensures QuietTail(Hist(s, r), Hist(t, r), kind)
  {
    hide Hist, QuietTail;
  }

  // ----- decisions -----

  /** Committing what the body asks for next. */
  lemma StartOnBody(body: Body, cfg: Config, s: State, r: RunId, run: Run, gots: seq<Got>, ids: seq<TaskId>)
    requires Steady(body) && At(body, s, r, gots, false)
    requires Durable(body(gots)) && WellFormed(body(gots)) && |ids| == Needs(body(gots))
    requires CommitTx(cfg, s, r, run, Enact(run, Asking(body(gots), Step(|gots| + 1))), ids).Commit?
    ensures var t := CommitTx(cfg, s, r, run, Enact(run, Asking(body(gots), Step(|gots| + 1))), ids).st;
            && OnBody(body, t, r)
            && Hist(s, r) <= Hist(t, r) && ProperTail(Recorded(s, r), Tail(s, t, r))
  {
    hide Follows, ProperTail, Through, OpeningIn, Hist, Openings, Skimming, AllOpenings, Direct, Steady, Enact,
         CommitTx, Asking, StartEvents, WellFormed, Needs, SameFacts, Step, FansOf, GotsGrow;
    var w := body(gots);
    var step := Step(|gots| + 1);
    var d := Asking(w, step);
    var t := CommitTx(cfg, s, r, run, Enact(run, d), ids).st;
    DecisionsAreRecorded(cfg, s, r, run, w, step, ids);
    var start := StartEvents(d, ids);
    var later := RecordingFollows(body, Recorded(s, r), gots, ids);
    var tail := Tail(s, t, r);
    ProperIgnoresNumbers(Recorded(s, r), tail, start);
    assert Hist(t, r) == Hist(s, r) + tail;
    SkimmingThrough(Hist(s, r), tail);
    SameOpenings(tail, start);
    StartOpens(w, |gots| + 1, ids);
    OpeningsConcat(Hist(s, r), tail);
    AllOpeningsSnoc(Direct(body, gots), NextAsked(body, gots));
    assert Direct(body, gots) + [] == Direct(body, gots);
    FansStart(body, Hist(s, r), tail, gots, ids);
    AtLater(body, t, r, gots, later, true);
  }

  lemma FansStart(body: Body, h: seq<Event>, tail: seq<Event>, gots: seq<Got>, ids: seq<TaskId>)
    requires FansOf(body, h, gots, false) && Durable(body(gots))
    requires SameFacts(tail, StartEvents(Asking(body(gots), Step(|gots| + 1)), ids))
    ensures FansOf(body, h + tail, gots, true)
  {
    hide Step, Child, ToolNames, PolicyText, CreationEvents;
    var g := h + tail;
    var w := body(gots);
    assert body(gots[..|gots|]) == w by { assert gots[..|gots|] == gots; }
    forall p | 0 <= p < |g| && g[p].typ.EvFanOutStarted?
      ensures exists i: nat :: i < |gots| + 1 && IsFan(g[p], body, gots, i)
    {
      if p >= |h| {
        assert g[p] == tail[p - |h|];
        if w.WantAll? { CreationsAreNoFans(Step(|gots| + 1), w.calls, ids, |w.calls|); }
        assert IsFan(g[p], body, gots, |gots|);
      } else {
        assert g[p] == h[p];
        var i: nat :| i < |gots| && IsFan(h[p], body, gots, i);
      }
    }
  }

  lemma {:induction false} CreationsAreNoFans(step: StepId, calls: seq<Call>, ids: seq<TaskId>, n: nat)
    requires n <= |calls|
    ensures forall i :: 0 <= i < |CreationEvents(step, calls, ids, n)| ==>
            CreationEvents(step, calls, ids, n)[i].typ.EvTaskCreated?
  {
    hide Child;
    if n > 0 { CreationsAreNoFans(step, calls, ids, n - 1); }
  }

  lemma {:induction false} RecordedWasCreated(h: seq<Event>, k: StepId) returns (i: nat)
    requires k in Skimming(h).steps
    ensures i < |h| && h[i].typ.EvTaskCreated? && h[i].step == k
  {
    var n := |h| - 1;
    if k in Skimming(h[..n]).steps { i := RecordedWasCreated(h[..n], k); } else { i := n; }
  }

  lemma RecordedStepExists(s: State, r: RunId, k: StepId)
    requires Inv(s) && r in s.runs && k in Recorded(s, r).steps
    ensures StepKey(r, k) in s.stepIndex
  {
    hide Inv, Hist, Skimming, IndexOk, HistoryOk;
    InvParts(s);
    assert HistoryOk(s, r);
    var i := RecordedWasCreated(Hist(s, r), k);
    var id := CreatedTask(s, r, i);
  }

  /** Where the body stood when it was read, it still stands, and history has
      answered what it has answered, as long as the run has not been advanced. */
  lemma StillThere(body: Body, b: State, d: State, r: RunId, gots: seq<Got>, begun: bool) returns (later: seq<Got>)
    requires Steady(body) && At(body, b, r, gots, begun) && Grew(b, d, r)
    requires r in b.runs && r in d.runs && b.runs[r].version == d.runs[r].version
    ensures GotsGrow(body, gots, later) && At(body, d, r, later, begun)
  {
    hide Follows, ProperTail, Through, OpeningIn, Hist, Openings, Skimming, AllOpenings, Direct, NextAsked, Steady,
         IsFan, FansOf;
    var tail := Tail(b, d, r);
    assert Hist(d, r) == Hist(b, r) + tail;
    GrewThrough(b, d, r);
    later := CarryingFollows(body, Recorded(b, r), gots, begun, tail);
    CarriesOpensNothing(tail);
    OpeningsConcat(Hist(b, r), tail);
    NothingOpens(tail);
    FansStay(body, Hist(b, r), tail, gots, begun);
    assert Openings(Hist(d, r)) == Openings(Hist(b, r)) + [];
    AtLater(body, d, r, gots, later, begun);
  }

  lemma CarriesOpensNothing(tail: seq<Event>)
    requires Carries(tail)
    ensures forall i :: 0 <= i < |tail| ==> !tail[i].typ.EvFanOutStarted? && OpeningIn(tail[i]) == []
  {
    hide IsTop;
  }

  /** The next turn, and where the body stands then. */
  lemma NextStand(body: Body, s: State, r: RunId) returns (next: seq<Got>, still: bool)
    requires OnBody(body, s, r)
    ensures Replayed(body, Recorded(s, r), next) && Stops(body, Recorded(s, r), next)
    ensures At(body, s, r, next, still)
  {
    hide Follows, Hist, Openings, Skimming, AllOpenings, Direct, NextAsked, Replayed, Stops, FansOf;
    var gots, begun :| At(body, s, r, gots, begun);
    next := NextTurn(body, Recorded(s, r), gots, begun);
    still := begun && next == gots;
    if next != gots {
      DirectMore(body, gots, next);
      FansMore(body, Hist(s, r), gots, next);
      assert Direct(body, next) + [] == Direct(body, next);
    }
  }

  lemma FansMore(body: Body, h: seq<Event>, gots: seq<Got>, next: seq<Got>)
    requires FansOf(body, h, gots, true) && |next| == |gots| + 1 && next[..|gots|] == gots
    ensures FansOf(body, h, next, false)
  {
    hide Step, ToolNames, PolicyText;
    forall p | 0 <= p < |h| && h[p].typ.EvFanOutStarted?
      ensures exists i: nat :: i < |next| && IsFan(h[p], body, next, i)
    {
      var i: nat :| i < |gots| + 1 && IsFan(h[p], body, gots, i);
      assert next[..i] == gots[..i];
      assert IsFan(h[p], body, next, i);
    }
  }

  /** A request that is asked again while no wait is pending is one of tasks. */
  lemma AskedAgainIsTasks(body: Body, s: State, r: RunId, gots: seq<Got>)
    requires Inv(s) && r in s.runs && Legible(Hist(s, r)) && Pending(Hist(s, r)).None?
    requires At(body, s, r, gots, true) && Stops(body, Recorded(s, r), gots)
    ensures body(gots).WantCall? || body(gots).WantAll?
  {
    hide Inv, Hist, Skimming, Reading, Openings, AllOpenings, Pending, Sequential, FansOf, Replayed, KeysUpTo, Legible,
         StatusOf, SignalsOk, Consumed, Step;
    var x := Recorded(s, r);
    InvRun(s, r);
    ReadableIsRecorded(s, r);
    var step := Step(|gots| + 1);
    assert Traces(x, |gots| + 1, body(gots));
    if step in x.waits && !x.waits[step].resolved { UnresolvedIsPending(Hist(s, r), step); }
  }

  /** Asking again for tasks that exist commits nothing. */
  lemma AskedAgainCommitsNothing(cfg: Config, s: State, r: RunId, run: Run, w: Want, p: nat, ids: seq<TaskId>)
    requires Inv(s) && r in s.runs && (w.WantCall? || w.WantAll?) && WellFormed(w) && OnRecord(Recorded(s, r), p, w)
    ensures CommitTx(cfg, s, r, run, Enact(run, Asking(w, Step(p))), ids).st == s
  {
    hide Inv, Hist, Skimming, Step, Child, FanOutTx, AddTask, Log;
    if w.WantCall? {
      RecordedStepExists(s, r, Step(p));
    } else {
      assert 0 < |w.calls| && Child(Step(p), 0) in Recorded(s, r).steps;
      RecordedStepExists(s, r, Child(Step(p), 0));
      if |ids| == |w.calls| {
        ReissueCommitsNothing(s, r, run.version, run.output, Step(p), w.calls, w.join, ids, cfg.maxAttempts);
      }
    }
  }

  lemma CommitBumps(cfg: Config, s: State, r: RunId, run: Run, w: Want, step: StepId, ids: seq<TaskId>)
    requires Durable(w) && WellFormed(w) && |ids| == Needs(w)
    requires CommitTx(cfg, s, r, run, Enact(run, Asking(w, step)), ids).Commit?
    ensures var t := CommitTx(cfg, s, r, run, Enact(run, Asking(w, step)), ids).st;
            r in s.runs && s.runs[r].version == run.version && r in t.runs && t.runs[r].version == run.version + 1
  {
    hide AddTask, Log, AddChildren, ToolNames, PolicyText;
    if w.WantAll? {
      var o := LogOn(Bump(s, r, RunState(RunRunning, run.output, "", None)), r,
                     Fact(EvFanOutStarted, step, FanOutData(ToolNames(w.calls), PolicyText(w.join))));
      ChildrenKeepRuns(o, r, step, w.calls, ids, cfg.maxAttempts, |w.calls|);
    } else if w.WantCall? {
      AddedFields(Bump(s, r, RunState(RunRunning, run.output, "", None)), r, step, ids[0], Call(w.tool, w.payload),
                  cfg.maxAttempts);
    }
  }

  lemma {:induction false} ChildrenKeepRuns(s: State, r: RunId, step: StepId, calls: seq<Call>, ids: seq<TaskId>,
                                            max: int, n: nat)
    requires |ids| == |calls| && n <= |calls|
    ensures AddChildren(s, r, step, calls, ids, max, n).st.runs == s.runs
  {
    hide Child, AddTask;
    if n > 0 {
      ChildrenKeepRuns(s, r, step, calls, ids, max, n - 1);
      var before := AddChildren(s, r, step, calls, ids, max, n - 1).st;
      AddedFields(before, r, Child(step, n - 1), ids[n - 1], calls[n - 1], max);
    }
  }

  /** The ids a commit makes use of, if it was given any that fit. */
  function Fitting(w: Want, ids: seq<TaskId>): Option<seq<TaskId>> {
    match w
    case WantCall(_, _) => if ids == [] then None else Some([ids[0]])
    case WantAll(calls, _) => if |ids| == |calls| then Some(ids) else None
    case _ => Some([])
  }

  lemma FittingIsEnough(cfg: Config, s: State, r: RunId, run: Run, w: Want, step: StepId, ids: seq<TaskId>)
    requires Durable(w) && WellFormed(w)
    ensures var c := Enact(run, Asking(w, step));
            match Fitting(w, ids)
            case Some(fit) => |fit| == Needs(w) && CommitTx(cfg, s, r, run, c, ids) == CommitTx(cfg, s, r, run, c, fit)
            case None => CommitTx(cfg, s, r, run, c, ids) == Commit(s)
  {
    hide AdvanceTx, DispatchTx, FanOutTx;
  }

  lemma CommitAborts(cfg: Config, s: State, r: RunId, run: Run, c: Commitment, ids: seq<TaskId>)
    requires CommitTx(cfg, s, r, run, c, ids).Abort?
    ensures Hist(CommitTx(cfg, s, r, run, c, ids).st, r) == Hist(s, r)
  {
    hide AddTask, AddChildren, Log, ToolNames, PolicyText;
  }

  /** A new request, committed against whatever the tables are by then. */
  lemma NewOnBody(body: Body, cfg: Config, b: State, d: State, r: RunId, run: Run, gots: seq<Got>, ids: seq<TaskId>)
    requires Steady(body) && At(body, b, r, gots, false) && OnBody(body, d, r) && Grew(b, d, r)
    requires Durable(body(gots)) && WellFormed(body(gots)) && r in b.runs
    requires r in d.runs && d.runs[r].version == run.version ==> b.runs[r].version == run.version
    ensures var t := CommitTx(cfg, d, r, run, Enact(run, Asking(body(gots), Step(|gots| + 1))), ids).st;
            OnBody(body, t, r) && Grew(d, t, r)
  {
    hide At, Hist, Tail, ProperTail, Carries, Steady, Enact, CommitTx, Asking, WellFormed, Needs, Step, Fitting,
         GotsGrow, Direct, NextAsked;
    var w := body(gots);
    var step := Step(|gots| + 1);
    var c := Enact(run, Asking(w, step));
    FittingIsEnough(cfg, d, r, run, w, step, ids);
    var t := CommitTx(cfg, d, r, run, c, ids).st;
    match Fitting(w, ids) {
      case None => SameHistoryOnBody(body, d, t, r);
      case Some(fit) =>
        if CommitTx(cfg, d, r, run, c, fit).Commit? {
          CommitBumps(cfg, d, r, run, w, step, fit);
          var later := StillThere(body, b, d, r, gots, false);
          DirectStands(body, gots, later);
          SameLength(body, gots, later);
          StartOnBody(body, cfg, d, r, run, later, fit);
        } else {
          CommitAborts(cfg, d, r, run, c, fit);
          SameHistoryOnBody(body, d, t, r);
        }
    }
  }

  // ----- a pass -----

  lemma EndingIsPlain(run: Run, d: Decision)
    requires Ends(d)
    ensures var c := Enact(run, d);
            c.Write? && c.fact.Some? && !Marked(AsEvent(c.fact.value), Telling)
  {
  }

  /** What the second half of a pass decides, committed. */
  lemma AskedOnBody(body: Body, cfg: Config, r: RunId, a: State, b: State, d: State, ids: seq<TaskId>)
    requires Steady(body) && Replays(cfg, body) && OnBody(body, b, r) && OnBody(body, d, r) && Grew(b, d, r)
    requires Inv(b) && Inv(d) && Evolves(a, b) && Evolves(b, d) && r in a.runs && Legible(Hist(b, r))
    requires Pending(Hist(b, r)).None?
    ensures var t := CommitTx(cfg, d, r, a.runs[r], AskDecider(cfg, a.runs[r], Hist(b, r)), ids).st;
            OnBody(body, t, r) && Grew(d, t, r)
  {
    hide Inv, Evolves, OnBody, At, Grew, Hist, Skimming, Steady, Enact, CommitTx, Asking, WellFormed, Step, Joining,
         Pending, Replayed, Stops, TurnAt, Legible, Reading, Replays, OnRecord, Ends, Marked, AlreadyThere;
    var run := a.runs[r];
    var h := Hist(b, r);
    var c := AskDecider(cfg, run, h);
    RunThere(a, b, r);
    RunThere(b, d, r);
    Versions(a, b, d, r);
    var next, still := NextStand(body, b, r);
    ReadableIsRecorded(b, r);
    DecidedBy(body, cfg, run, h, next);
    FollowsAt(body, b, r, next, still);
    TurnOnCourse(body, Recorded(b, r), next, still);
    if c.Nothing? {
      NothingOnBody(body, cfg, d, r, run, ids);
    } else {
      var w := body(next);
      var decision := TurnAt(body, Recorded(b, r), next).decision;
      assert c == Enact(run, decision);
      if !Durable(w) || !WellFormed(w) {
        EndingIsPlain(run, decision);
        WritesPlain(body, cfg, d, r, run, c, ids);
      } else if still {
        AskedAgainIsTasks(body, b, r, next);
        AskedAgain(body, b, r, next);
        RecordStays(body, b, d, r, next);
        AskedAgainCommitsNothing(cfg, d, r, run, w, |next| + 1, ids);
        SameHistoryOnBody(body, d, d, r);
      } else {
        NewOnBody(body, cfg, b, d, r, run, next, ids);
      }
    }
  }

  lemma RunThere(a: State, b: State, r: RunId)
    requires Evolves(a, b) && r in a.runs
    ensures r in b.runs
  {
    hide Evolves, RunEvolves;
    RunEvolvesOf(a, b, r);
    RunIn(a, b, r);
  }

  lemma Versions(a: State, b: State, d: State, r: RunId)
    requires Evolves(a, b) && Evolves(b, d) && r in a.runs && r in b.runs && r in d.runs
    ensures a.runs[r].version <= b.runs[r].version <= d.runs[r].version
  {
    hide Evolves, Pending, Consumed, Hist;
    RunEvolvesOf(a, b, r);
    RunEvolvesOf(b, d, r);
  }

  lemma DecidedBy(body: Body, cfg: Config, run: Run, h: seq<Event>, next: seq<Got>)
    requires Replays(cfg, body) && Reading(h).Some? && Replayed(body, Reading(h).value, next) &&
             Stops(body, Reading(h).value, next)
    ensures cfg.decide(run, h).Unavailable? || cfg.decide(run, h) == AnswerOf(TurnAt(body, Reading(h).value, next))
  {
    hide Reading, Replayed, Stops, TurnAt;
    assert DecidesAs(cfg.decide(run, h), body, Reading(h).value);
  }

  lemma FollowsAt(body: Body, s: State, r: RunId, gots: seq<Got>, begun: bool)
    requires At(body, s, r, gots, begun)
    ensures Follows(body, Recorded(s, r), gots, begun)
  {
  }

  lemma NothingOnBody(body: Body, cfg: Config, d: State, r: RunId, run: Run, ids: seq<TaskId>)
    requires OnBody(body, d, r)
    ensures var t := CommitTx(cfg, d, r, run, Nothing, ids).st; OnBody(body, t, r) && Grew(d, t, r)
  {
    hide OnBody, Grew;
    SameHistoryOnBody(body, d, d, r);
  }

  lemma WritesPlain(body: Body, cfg: Config, d: State, r: RunId, run: Run, c: Commitment, ids: seq<TaskId>)
    requires Steady(body) && OnBody(body, d, r) && c.Write? &&
             (c.fact.Some? ==> !Marked(AsEvent(c.fact.value), Telling))
    ensures var t := CommitTx(cfg, d, r, run, c, ids).st; OnBody(body, t, r) && Grew(d, t, r)
  {
    hide OnBody, Grew, Steady, AdvanceTx, Marked;
    PlainOnBody(body, d, r, run.version, c.next, c.fact);
  }

  lemma AskedAgain(body: Body, s: State, r: RunId, gots: seq<Got>)
    requires At(body, s, r, gots, true) && Stops(body, Recorded(s, r), gots)
    requires body(gots).WantCall? || body(gots).WantAll?
    ensures var turn := TurnAt(body, Recorded(s, r), gots);
            turn == Decides(Asking(body(gots), Step(|gots| + 1)))
    ensures WellFormed(body(gots)) && OnRecord(Recorded(s, r), |gots| + 1, body(gots))
  {
    hide Step, Hist, Skimming, Openings, AllOpenings, FansOf, Look, OnRecord, OnlyRecord, KeysUpTo, Replayed;
    RecordedNeverDiverges(Recorded(s, r), |gots| + 1, body(gots));
  }

  lemma RecordStays(body: Body, b: State, d: State, r: RunId, gots: seq<Got>)
    requires Grew(b, d, r) && OnRecord(Recorded(b, r), |gots| + 1, body(gots))
    ensures OnRecord(Recorded(d, r), |gots| + 1, body(gots))
  {
    hide Grew, OnRecord, Forward, Skimming, Hist;
    GrewThrough(b, d, r);
    RecordStands(Recorded(b, r), Recorded(d, r), |gots| + 1, body(gots));
  }

  lemma ServedOnBody(body: Body, cfg: Config, r: RunId, a: State, b: State, c: State, d: State, found: Option<string>,
                     now: Time)
    requires Steady(body) && OnBody(body, d, r) && r in a.runs && StaleReads(a, b, c, d, r) && Legible(Hist(d, r))
    requires found.Some? ==> SignalKey(r, found.value) in c.signals
    requires Pending(Hist(b, r)).Some?
    ensures var w := Pending(Hist(b, r)).value;
            var p := Serving(a.runs[r], w, WaitOver(w, c.signals, r, found, now));
            var t := CommitTx(cfg, d, r, a.runs[r], p, []).st;
            OnBody(body, t, r) && Grew(d, t, r)
  {
    hide StaleReads, OnBody, Grew, Steady, Hist, AdvanceTx, Pending, Legible, WaitOver, Marked;
    var w := Pending(Hist(b, r)).value;
    var over := WaitOver(w, c.signals, r, found, now);
    var run := a.runs[r];
    SameHistoryOnBody(body, d, d, r);
    if over.None? {
      if run.availableAt.None? {
        PlainOnBody(body, d, r, run.version, RunState(RunRunning, run.output, "", Some(w.until)), None);
      }
    } else {
      OverIsLegible(w, c.signals, r, found, now);
      if r in d.runs && d.runs[r].version == run.version {
        UnmovedRun(a, b, c, d, r);
        WakeOnBody(body, d, r, run.version, StillRunning(run), over.value);
      } else {
        RefusedWrite(d, r, run.version, StillRunning(run), over);
      }
    }
  }

  lemma OverIsLegible(w: Wait, signals: map<SignalKey, Signal>, r: RunId, found: Option<string>, now: Time)
    requires found.Some? ==> SignalKey(r, found.value) in signals
    ensures var over := WaitOver(w, signals, r, found, now);
            over.Some? ==> Resolves(AsEvent(over.value)) && over.value.step == w.step && !over.value.data.Unreadable?
  {
  }

  lemma RefusedWrite(d: State, r: RunId, expected: int, next: RunState, fact: Option<Fact>)
    requires r !in d.runs || d.runs[r].version != expected
    ensures AdvanceTx(d, r, expected, next, fact).st == d
  {
  }

  lemma IdsOfWrites(cfg: Config, d: State, r: RunId, run: Run, c: Commitment, ids: seq<TaskId>)
    requires c.Write? || c.Nothing?
    ensures CommitTx(cfg, d, r, run, c, ids) == CommitTx(cfg, d, r, run, c, [])
  {
  }

  /** A whole pass, with reads of three ages. */
  lemma PassOnBody(body: Body, cfg: Config, r: RunId, a: State, b: State, c: State, d: State,
                   found: Option<string>, now: Time, ids: seq<TaskId>)
    requires Steady(body) && Replays(cfg, body) && OnBody(body, b, r) && OnBody(body, d, r) && Grew(b, d, r)
    requires r in a.runs && StaleReads(a, b, c, d, r) && Inv(b) && Legible(Hist(b, r)) && Legible(Hist(d, r))
    requires found.Some? ==> SignalKey(r, found.value) in c.signals
    ensures var t := CommitTx(cfg, d, r, a.runs[r], Pass(cfg, r, a.runs[r], Hist(b, r), c.signals, found, now), ids).st;
            OnBody(body, t, r) && Grew(d, t, r)
  {
    hide OnBody, Grew, Steady, Replays, Hist, CommitTx, Pending, Legible, WaitOver, AskDecider, Serving, Inv, Evolves;
    var run := a.runs[r];
    if run.status.IsTerminal() || run.agent != cfg.agent {
      NothingOnBody(body, cfg, d, r, run, ids);
    } else if Pending(Hist(b, r)).Some? {
      var w := Pending(Hist(b, r)).value;
      var p := Serving(run, w, WaitOver(w, c.signals, r, found, now));
      ServedOnBody(body, cfg, r, a, b, c, d, found, now);
      ServingWrites(run, w, WaitOver(w, c.signals, r, found, now));
      IdsOfWrites(cfg, d, r, run, p, ids);
    } else {
      AskedOnBody(body, cfg, r, a, b, d, ids);
    }
  }

  lemma ServingWrites(run: Run, w: Wait, over: Option<Fact>)
    ensures Serving(run, w, over).Write? || Serving(run, w, over).Nothing?
  {
  }

  // ----- every step -----

  ghost predicate AllOnBody(body: Body, past: seq<State>, r: RunId) {
    (forall k :: 0 <= k < |past| ==> OnBody(body, past[k], r) && Legible(Hist(past[k], r))) &&
    (forall i, j :: 0 <= i <= j < |past| ==> Grew(past[i], past[j], r))
  }

  lemma OnBodyAt(body: Body, past: seq<State>, r: RunId, i: nat, j: nat)
    requires AllOnBody(body, past, r) && i <= j < |past|
    ensures OnBody(body, past[i], r) && OnBody(body, past[j], r) && Grew(past[i], past[j], r)
    ensures Legible(Hist(past[i], r)) && Legible(Hist(past[j], r))
  {
    hide OnBody, Grew, Legible, Hist;
  }

  lemma AdvanceOnBody(tools: Tools, past: seq<State>, a: Action, r: RunId, body: Body)
    requires past != [] && Good(past) && AllOnBody(body, past, r) && Steady(body)
    requires a.Advance? && (a.r == r ==> Replays(a.cfg, body))
    ensures var t := Next(tools, past, a); OnBody(body, t, r) && Grew(Last(past), t, r)
  {
    hide Inv, Evolves, Good, AllOnBody, OnBody, Grew, Pass, CommitTx, Chosen, Pending, Ids, Consumed, Hist, Steady,
         Replays, Legible, PassFrame;
    var k := |past| - 1;
    var s, t := Last(past), Next(tools, past, a);
    GoodAt(past, k, k);
    OnBodyAt(body, past, r, k, k);
    if AdvanceEnabled(past, a) {
      GoodAt(past, a.i, a.j);
      GoodAt(past, a.j, k);
      GoodAt(past, a.i, k);
      GoodAt(past, a.l, k);
      var c := PassOf(past, a);
      if a.r == r {
        OnBodyAt(body, past, r, a.j, k);
        PassOnBody(body, a.cfg, r, past[a.i], past[a.j], past[a.l], past[k], a.found, a.now, a.ids);
      } else {
        CommitFrame(a.cfg, s, a.r, past[a.i].runs[a.r], c, a.ids);
        FrameOthers(s, t, a.r, if t == s || !c.Write? || c.fact.None? then [] else TakenBy(AsEvent(c.fact.value)));
        SameHistoryOnBody(body, s, t, r);
      }
    } else {
      SameHistoryOnBody(body, s, s, r);
    }
  }

  lemma ReportOnBody(tools: Tools, past: seq<State>, a: Action, r: RunId, body: Body)
    requires past != [] && Inv(Last(past)) && OnBody(body, Last(past), r) && Steady(body) &&
             (a.Complete? || a.FailTask?)
    ensures var t := Next(tools, past, a); OnBody(body, t, r) && Grew(Last(past), t, r)
  {
    hide Inv, OnBody, Grew, Steady, CompleteTx, FailTx, Executed;
    var s := Last(past);
    SameHistoryOnBody(body, s, s, r);
    match a {
      case Complete(id, token, result, _) => CompleteOnBody(body, s, id, token, result, s.clock, r);
      case FailTask(id, token, reason, escalated, delay) =>
        FailOnBody(body, s, id, token, reason, escalated, delay, s.clock, r);
      case _ =>
    }
  }

  lemma BodyStep(tools: Tools, past: seq<State>, a: Action, r: RunId, body: Body)
    requires past != [] && Good(past) && AllOnBody(body, past, r) && Steady(body)
    requires a.Advance? && a.r == r ==> Replays(a.cfg, body)
    ensures var t := Next(tools, past, a); OnBody(body, t, r) && Grew(Last(past), t, r)
  {
    hide Inv, Evolves, Good, AllOnBody, OnBody, Grew, Next, Steady, Replays, Legible, Hist, Unmarked, QuietTail,
         AdvanceEnabled, PassOf;
    var k := |past| - 1;
    GoodAt(past, k, k);
    OnBodyAt(body, past, r, k, k);
    if a.Advance? {
      AdvanceOnBody(tools, past, a, r, body);
    } else if a.Complete? || a.FailTask? {
      ReportOnBody(tools, past, a, r, body);
    } else {
      OthersAddNone(tools, past, a, Telling);
      QuietTailAt(Last(past), Next(tools, past, a), r, Telling);
      QuietOnBody(body, Last(past), Next(tools, past, a), r);
    }
  }

  lemma AllOnBodyGrows(body: Body, past: seq<State>, t: State, r: RunId)
    requires past != [] && AllOnBody(body, past, r) && Good(past + [t])
    requires OnBody(body, t, r) && Legible(Hist(t, r)) && Grew(Last(past), t, r)
    ensures AllOnBody(body, past + [t], r)
  {
    hide Inv, Evolves, Good, OnBody, Grew, Legible, Hist;
    var all := past + [t];
    var n := |past|;
    forall i, j | 0 <= i <= j < |all|
      ensures Grew(all[i], all[j], r)
    {
      if j == n {
        if i == n {
          GrewReflexive(t, r);
        } else {
          assert Grew(past[i], past[n - 1], r);
          GoodAt(all, i, n - 1);
          GoodAt(all, n - 1, n);
          GrewTransitive(past[i], past[n - 1], t, r);
        }
      } else {
        assert Grew(past[i], past[j], r);
      }
    }
    forall k | 0 <= k < |all|
      ensures OnBody(body, all[k], r) && Legible(Hist(all[k], r))
    {
      if k < n { assert all[k] == past[k]; }
    }
  }

  lemma EmptyOnBody(body: Body, r: RunId)
    ensures AllOnBody(body, [EMPTY], r)
  {
    assert Hist(EMPTY, r) == [];
    assert Recorded(EMPTY, r) == NOTHING;
    assert At(body, EMPTY, r, [], false);
    GrewReflexive(EMPTY, r);
  }

  lemma {:induction false} AlwaysOnBody(tools: Tools, acts: seq<Action>, r: RunId, body: Body)
    requires Steady(body) && FollowsBody(acts, r, body)
    ensures AllOnBody(body, States(tools, acts), r)
  {
    hide Next, Good, AllOnBody, OnBody, Grew, Legible, Hist, Steady, Replays;
    if acts == [] {
      EmptyOnBody(body, r);
    } else {
      var n := |acts| - 1;
      AlwaysOnBody(tools, acts[..n], r, body);
      AllReachable(tools, acts[..n]);
      AllReachable(tools, acts);
      var past := States(tools, acts[..n]);
      BodyStep(tools, past, acts[n], r, body);
      var t := Next(tools, past, acts[n]);
      EngineHistoriesAreReadable(tools, acts);
      assert AllLegible(t);
      AllOnBodyGrows(body, past, t, r);
    }
  }

  lemma LastOnBody(tools: Tools, acts: seq<Action>, r: RunId, body: Body)
    requires Steady(body) && FollowsBody(acts, r, body)
    ensures var s := Last(States(tools, acts));
            OnBody(body, s, r) && Legible(Hist(s, r)) && Reading(Hist(s, r)) == Some(Recorded(s, r))
  {
    hide States, AllOnBody, OnBody, Legible, Hist, Recorded, Steady, Replays;
    AlwaysOnBody(tools, acts, r, body);
    OnBodyAt(body, States(tools, acts), r, |acts|, |acts|);
    ReadableIsRecorded(Last(States(tools, acts)), r);
  }
}
