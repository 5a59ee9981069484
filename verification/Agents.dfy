/** Declaring an agent and replaying it (sdk/python/veya/agent.py). A body is
    any deterministic function from what its durable calls have returned so far
    to what it asks for next; replaying it runs it from the top against the
    recorded history, up to the first thing history has no answer for. */
module Agents {
  import opened Prelude
  import opened Names
  import opened Core
  import opened Histories

  /** What a body asks for, with a durable call or by ending. */
  datatype Want =
    | WantCall(tool: string, payload: Json)
    | WantAll(calls: seq<Call>, join: JoinPolicy)   // call_parallel, under any join
    | WantSleep(until: Time)
    | WantSignal(name: string, deadline: Time)
    | Returns(output: Json) | Fails(error: string) | Cancels(reason: string)

  datatype Outcome = Outcome(index: nat, tool: string, settled: bool, ok: bool, result: Json, error: string)

  /** What a durable call gives back to the body: a value, or an exception that
      the body may catch. */
  datatype Got =
    | GotResult(result: Json) | GotFailure(error: string) | GotOutcomes(outcomes: seq<Outcome>)
    | Woke | GotSignal(payload: Json) | GotTimeout(signal: string)

  type Body = seq<Got> -> Want

  datatype Reply =
    | Answer(got: Got)
    | Unwind(decision: Decision)         // _Suspend or _Wait
    | Diverged(step: StepId)             // NonDeterminismError
    | Refused                            // an ill-formed request: VeyaError

  /** _check_matches: the tool and the payload, after the trip over the wire. */
  predicate Matches(recorded: RecordedStep, call: Call) {
    recorded.tool == call.tool && recorded.payload == call.payload
  }

  // ----- call_parallel -----

  function OutcomeOf(x: History, step: StepId, i: nat, call: Call): Outcome {
    var child := Child(step, i);
    if child !in x.steps then Outcome(i, call.tool, false, false, None, "")
    else
      var recorded := x.steps[child];
      if recorded.error != "" then Outcome(i, call.tool, true, false, None, recorded.error)
      else if recorded.completed then Outcome(i, call.tool, true, true, recorded.result, "")
      else Outcome(i, call.tool, false, false, None, "")
  }

  function Outcomes(x: History, step: StepId, calls: seq<Call>): seq<Outcome> {
    seq(|calls|, i requires 0 <= i < |calls| => OutcomeOf(x, step, i, calls[i]))
  }

  predicate ChildDiverges(x: History, step: StepId, calls: seq<Call>, i: nat)
    requires i < |calls|
  {
    Child(step, i) in x.steps && !Matches(x.steps[Child(step, i)], calls[i])
  }

  /** The first call that differs from what is recorded for it, or |calls|. */
  function FirstDiverging(x: History, step: StepId, calls: seq<Call>): (i: nat)
    ensures i <= |calls| && (i < |calls| ==> ChildDiverges(x, step, calls, i))
    ensures forall j :: 0 <= j < i ==> !ChildDiverges(x, step, calls, j)
  {
    if calls == [] then 0
    else
      var n := |calls| - 1;
      var i := FirstDiverging(x, step, calls[..n]);
      assert forall j :: 0 <= j < n ==> ChildDiverges(x, step, calls[..n], j) == ChildDiverges(x, step, calls, j);
      if i < n || ChildDiverges(x, step, calls, n) then i else n + 1
  }

  lemma FirstDivergingIs(x: History, step: StepId, calls: seq<Call>, i: nat)
    requires i < |calls| && ChildDiverges(x, step, calls, i)
    requires forall j :: 0 <= j < i ==> !ChildDiverges(x, step, calls, j)
    ensures FirstDiverging(x, step, calls) == i
  {
    var k := FirstDiverging(x, step, calls);
    hide FirstDiverging;
    assert !(i < k) && !(k < i);
  }

  function Succeeded(os: seq<Outcome>): (n: nat)
    ensures n <= |os|
  {
    if os == [] then 0 else Succeeded(os[..|os| - 1]) + (if os[|os| - 1].settled && os[|os| - 1].ok then 1 else 0)
  }

  function Failed(os: seq<Outcome>): (n: nat)
    ensures n + Succeeded(os) <= |os|
  {
    if os == [] then 0 else Failed(os[..|os| - 1]) + (if os[|os| - 1].settled && !os[|os| - 1].ok then 1 else 0)
  }

  function Joined(join: JoinPolicy, os: seq<Outcome>): bool {
    match join.kind
    case JoinAll => Succeeded(os) + Failed(os) == |os|
    case JoinAny => Succeeded(os) > 0 || Failed(os) == |os|
    case _ => Succeeded(os) >= join.quorum || |os| - Failed(os) < join.quorum
  }

  /** _join_satisfied, counting as it goes. */
  method JoinSatisfied(join: JoinPolicy, outcomes: seq<Outcome>) returns (done: bool)
    ensures done == Joined(join, outcomes)
  {
    var total, succeeded, failed := |outcomes|, 0, 0;
    for k := 0 to |outcomes|
      invariant succeeded == Succeeded(outcomes[..k]) && failed == Failed(outcomes[..k])
    {
      assert outcomes[..k + 1][..k] == outcomes[..k];
      if outcomes[k].settled {
        if outcomes[k].ok { succeeded := succeeded + 1; } else { failed := failed + 1; }
      }
    }
    assert outcomes[..|outcomes|] == outcomes;
    match join.kind {
      case JoinAll => return succeeded + failed == total;
      case JoinAny => return succeeded > 0 || failed == total;
      case _ => return succeeded >= join.quorum || total - failed < join.quorum;
    }
  }

  /** The Python Join enum has no fourth member. */
  predicate WellFormed(w: Want) {
    (w.WantAll? ==> w.join.Valid(|w.calls|)) && (w.WantSignal? ==> w.name != "")
  }

  predicate Durable(w: Want) {
    w.WantCall? || w.WantAll? || w.WantSleep? || w.WantSignal?
  }

  // ----- what history answers -----

  /** The decision a request becomes when history knows nothing of it. */
  function Asking(w: Want, step: StepId): Decision
    requires Durable(w)
  {
    match w
    case WantCall(tool, payload) => CallTool(step, tool, payload)
    case WantAll(calls, join) => CallToolParallel(step, calls, join)
    case WantSleep(until) => Sleep(step, until)
    case WantSignal(name, deadline) => WaitForSignal(step, name, deadline)
  }

  function Look(x: History, step: StepId, w: Want): Reply
    requires Durable(w)
  {
    if !WellFormed(w) then Refused
    else
      match w
      case WantCall(tool, payload) =>
        if step !in x.steps then Unwind(Asking(w, step))
        else if !Matches(x.steps[step], Call(tool, payload)) then Diverged(step)
        else if x.steps[step].error != "" then Answer(GotFailure(x.steps[step].error))
        else if !x.steps[step].completed then Unwind(Asking(w, step))
        else Answer(GotResult(x.steps[step].result))
      case WantAll(calls, join) =>
        if FirstDiverging(x, step, calls) < |calls| then Diverged(Child(step, FirstDiverging(x, step, calls)))
        else if Joined(join, Outcomes(x, step, calls)) then Answer(GotOutcomes(Outcomes(x, step, calls)))
        else Unwind(Asking(w, step))
      case WantSleep(until) =>
        if step !in x.waits then Unwind(Asking(w, step))
        else if x.waits[step].resolved then Answer(Woke)
        else Unwind(Sleep(step, x.waits[step].wakeAt))
      case WantSignal(name, deadline) =>
        if step !in x.waits then Unwind(Asking(w, step))
        else if !x.waits[step].resolved then Unwind(WaitForSignal(step, name, ZERO_TIME))
        else if x.waits[step].timedOut then
          Answer(GotTimeout(if x.waits[step].name != "" then x.waits[step].name else name))
        else Answer(GotSignal(x.waits[step].payload))
  }

  /** Context: one per decision, with the history it replays and how many
      durable calls the body has reached. */
  class Context {
    const history: History
    var position: nat

    constructor (history: History)
      ensures this.history == history && position == 0
    {
      this.history := history;
      position := 0;
    }

    method CallTool(tool: string, payload: Json) returns (reply: Reply)
      modifies this`position
      ensures position == old(position) + 1
      ensures reply == Look(history, Step(position), WantCall(tool, payload))
    {
      position := position + 1;
      var step := Step(position);
      if step !in history.steps { return Unwind(Decision.CallTool(step, tool, payload)); }
      var recorded := history.steps[step];
      if recorded.tool != tool || recorded.payload != payload { return Diverged(step); }
      if recorded.error != "" { return Answer(GotFailure(recorded.error)); }
      if !recorded.completed { return Unwind(Decision.CallTool(step, tool, payload)); }
      return Answer(GotResult(recorded.result));
    }

    method CallParallel(calls: seq<Call>, join: JoinPolicy) returns (reply: Reply)
      modifies this`position
      ensures position == old(position) + (if join.Valid(|calls|) then 1 else 0)
      ensures reply == Look(history, Step(old(position) + 1), WantAll(calls, join))
    {
      if !join.Valid(|calls|) { return Refused; }
      position := position + 1;
      var parent := Step(position);
      var outcomes: seq<Outcome> := [];
      for index := 0 to |calls|
        invariant |outcomes| == index
        invariant forall j :: 0 <= j < index ==> outcomes[j] == OutcomeOf(history, parent, j, calls[j])
        invariant forall j :: 0 <= j < index ==> !ChildDiverges(history, parent, calls, j)
      {
        var call := calls[index];
        var child := Child(parent, index);
        if child !in history.steps {
          outcomes := outcomes + [Outcome(index, call.tool, false, false, None, "")];
          continue;
        }
        var recorded := history.steps[child];
        if recorded.tool != call.tool || recorded.payload != call.payload {
          FirstDivergingIs(history, parent, calls, index);
          return Diverged(child);
        }
        if recorded.error != "" {
          outcomes := outcomes + [Outcome(index, call.tool, true, false, None, recorded.error)];
        } else if recorded.completed {
          outcomes := outcomes + [Outcome(index, call.tool, true, true, recorded.result, "")];
        } else {
          outcomes := outcomes + [Outcome(index, call.tool, false, false, None, "")];
        }
      }
      assert outcomes == Outcomes(history, parent, calls);
      var done := JoinSatisfied(join, outcomes);
      if done { return Answer(GotOutcomes(outcomes)); }
      return Unwind(CallToolParallel(parent, calls, join));
    }

    method Sleep(until: Time) returns (reply: Reply)
      modifies this`position
      ensures position == old(position) + 1
      ensures reply == Look(history, Step(position), WantSleep(until))
    {
      position := position + 1;
      var step := Step(position);
      if step !in history.waits { return Unwind(Decision.Sleep(step, until)); }
      if history.waits[step].resolved { return Answer(Woke); }
      // Still parked: the wake-up that is already durable stands.
      return Unwind(Decision.Sleep(step, history.waits[step].wakeAt));
    }

    method WaitFor(name: string, deadline: Time) returns (reply: Reply)
      modifies this`position
      ensures position == old(position) + (if name != "" then 1 else 0)
      ensures reply == Look(history, Step(old(position) + 1), WantSignal(name, deadline))
    {
      if name == "" { return Refused; }
      position := position + 1;
      var step := Step(position);
      if step !in history.waits { return Unwind(WaitForSignal(step, name, deadline)); }
      var recorded := history.waits[step];
      if !recorded.resolved { return Unwind(WaitForSignal(step, name, ZERO_TIME)); }
      if recorded.timedOut {
        return Answer(GotTimeout(if recorded.name != "" then recorded.name else name));
      }
      return Answer(GotSignal(recorded.payload));
    }
  }

  // ----- replaying the body -----

  /** gots is what history answers the body with, as far as it goes. */
  predicate Replayed(body: Body, x: History, gots: seq<Got>) {
    forall i :: 0 <= i < |gots| ==>
      Durable(body(gots[..i])) && Look(x, Step(i + 1), body(gots[..i])) == Answer(gots[i])
  }

  datatype Turn =
    | Decides(decision: Decision)
    | NonDeterministic(step: StepId)     // raised to the session, never a decision

  const CRASHED := "VeyaError"

  /** The body's next request is one that history has no answer for. */
  predicate Stops(body: Body, x: History, gots: seq<Got>) {
    Durable(body(gots)) ==> !Look(x, Step(|gots| + 1), body(gots)).Answer?
  }

  function TurnAt(body: Body, x: History, gots: seq<Got>): Turn {
    match body(gots)
    case Returns(output) => Decides(Decision.Complete(output))
    case Fails(error) => Decides(Decision.Fail(if error != "" then error else "the agent failed the run"))
    case Cancels(reason) => Decides(Decision.Cancel(reason))
    case w =>
      match Look(x, Step(|gots| + 1), w)
      case Unwind(decision) => Decides(decision)
      case Diverged(step) => NonDeterministic(step)
      case Refused => Decides(Decision.Fail(CRASHED))
      case Answer(_) => Decides(Decision.Fail(CRASHED))  // not where the body stops
  }

  // ----- replaying ends -----

  ghost predicate KeyFor(k: StepId, p: nat) {
    k == Step(p) || exists i: nat :: k == Child(Step(p), i)
  }

  lemma KeysDiffer(k: StepId, p: nat, q: nat)
    requires KeyFor(k, p) && KeyFor(k, q)
    ensures p == q
  {
    hide Step, Child;
    if k == Step(p) && k == Step(q) {
      StepInjective(p, q);
    } else if k == Step(p) {
      var i: nat :| k == Child(Step(q), i);
      StepIsNoChild(p, Step(q), i);
    } else if k == Step(q) {
      var i: nat :| k == Child(Step(p), i);
      StepIsNoChild(q, Step(p), i);
    } else {
      var i: nat, j: nat :| k == Child(Step(p), i) && k == Child(Step(q), j);
      ChildInjective(Step(p), i, Step(q), j);
      StepInjective(p, q);
    }
  }

  lemma {:induction false} SomeSettled(os: seq<Outcome>) returns (i: nat)
    requires Succeeded(os) + Failed(os) > 0
    ensures i < |os| && os[i].settled
  {
    var n := |os| - 1;
    if os[n].settled { i := n; } else { i := SomeSettled(os[..n]); }
  }

  /** Only something recorded under the step, or under a child of it, answers. */
  lemma AnswersAreRecorded(x: History, p: nat, w: Want) returns (k: StepId)
    requires Durable(w) && Look(x, Step(p), w).Answer?
    ensures k in x.steps.Keys + x.waits.Keys && KeyFor(k, p)
  {
    k := Step(p);
    if w.WantAll? {
      var os := Outcomes(x, Step(p), w.calls);
      var i := SomeSettled(os);
      k := Child(Step(p), i);
      assert os[i] == OutcomeOf(x, Step(p), i, w.calls[i]);
    }
  }

  /** One recorded key for each of the first n answers. */
  ghost predicate UsesUp(used: set<StepId>, keys: set<StepId>, n: nat) {
    used <= keys && |used| == n && forall k :: k in used ==> exists p :: 1 <= p <= n && KeyFor(k, p)
  }

  lemma UsesUpMore(used: set<StepId>, keys: set<StepId>, n: nat, k: StepId)
    requires UsesUp(used, keys, n) && k in keys && KeyFor(k, n + 1)
    ensures UsesUp(used + {k}, keys, n + 1) && n + 1 <= |keys|
  {
    hide KeyFor;
    assert k !in used by {
      if k in used {
        var p :| 1 <= p <= n && KeyFor(k, p);
        KeysDiffer(k, p, n + 1);
      }
    }
    SubsetSize(used + {k}, keys);
  }

  /** One durable call. */
  method Reach(ctx: Context, w: Want) returns (reply: Reply)
    requires Durable(w)
    modifies ctx`position
    ensures reply == Look(ctx.history, Step(old(ctx.position) + 1), w)
    ensures !reply.Refused? ==> ctx.position == old(ctx.position) + 1
  {
    hide Step;
    match w {
      case WantCall(tool, payload) => reply := ctx.CallTool(tool, payload);
      case WantAll(calls, join) => reply := ctx.CallParallel(calls, join);
      case WantSleep(until) => reply := ctx.Sleep(until);
      case WantSignal(name, deadline) => reply := ctx.WaitFor(name, deadline);
    }
  }

  /** Agent.decide: the body from the top, one durable call after another,
      until history has no answer. It always ends: every answer uses up a
      recorded step or wait of its own. */
  method Decide(body: Body, history: History) returns (turn: Turn, gots: seq<Got>)
    ensures Replayed(body, history, gots) && Stops(body, history, gots)
    ensures turn == TurnAt(body, history, gots)
  {
    hide Step, Child, KeyFor, Look, Replayed, UsesUp;
    var ctx := new Context(history);
    gots := [];
    ghost var used: set<StepId> := {};
    ghost var keys := history.steps.Keys + history.waits.Keys;
    NoneUsed(keys);
    NoneReplayed(body, history);
    while Durable(body(gots))
      invariant ctx.history == history && ctx.position == |gots|
      invariant Replayed(body, history, gots)
      invariant UsesUp(used, keys, |gots|)
      decreases |keys| - |gots|
    {
      var reply := Reach(ctx, body(gots));
      match reply {
        case Unwind(decision) => return Decides(decision), gots;
        case Diverged(step) => return NonDeterministic(step), gots;
        case Refused => return Decides(Decision.Fail(CRASHED)), gots;
        case Answer(got) =>
          var k := AnswersAreRecorded(history, |gots| + 1, body(gots));
          UsesUpMore(used, keys, |gots|, k);
          MoreReplayed(body, history, gots, got);
          gots := gots + [got];
          used := used + {k};
      }
    }
    match body(gots) {
      case Returns(output) => return Decides(Decision.Complete(output)), gots;
      case Fails(error) =>
        return Decides(Decision.Fail(if error != "" then error else "the agent failed the run")), gots;
      case Cancels(reason) => return Decides(Decision.Cancel(reason)), gots;
    }
  }

  lemma NoneUsed(keys: set<StepId>)
    ensures UsesUp({}, keys, 0)
  {
  }

  lemma NoneReplayed(body: Body, x: History)
    ensures Replayed(body, x, [])
  {
  }

  lemma MoreReplayed(body: Body, x: History, gots: seq<Got>, got: Got)
    requires Replayed(body, x, gots) && Durable(body(gots)) && Look(x, Step(|gots| + 1), body(gots)) == Answer(got)
    ensures Replayed(body, x, gots + [got])
  {
    hide Look, Step;
    var more := gots + [got];
    forall i | 0 <= i < |more|
      ensures Durable(body(more[..i])) && Look(x, Step(i + 1), body(more[..i])) == Answer(more[i])
    {
      if i < |gots| { assert more[..i] == gots[..i]; } else { assert more[..i] == gots; }
    }
  }

  lemma {:induction false} SameAnswers(body: Body, x: History, a: seq<Got>, b: seq<Got>, n: nat)
    requires Replayed(body, x, a) && Replayed(body, x, b) && n <= |a| && n <= |b|
    ensures a[..n] == b[..n]
  {
    hide Look, Step;
    if n > 0 {
      SameAnswers(body, x, a, b, n - 1);
      assert Look(x, Step(n - 1 + 1), body(a[..n - 1])) == Answer(a[n - 1]);
      assert Look(x, Step(n - 1 + 1), body(b[..n - 1])) == Answer(b[n - 1]);
    }
  }

  lemma NoFurther(body: Body, x: History, a: seq<Got>, b: seq<Got>)
    requires Replayed(body, x, a) && Replayed(body, x, b) && Stops(body, x, b)
    ensures |a| <= |b|
  {
    hide Look, Step;
    assert b[..|b|] == b;
    if |a| > |b| { SameAnswers(body, x, a, b, |b|); }
  }

  /** A replay is a function of the body and the history. */
  lemma OneReplay(body: Body, x: History, a: seq<Got>, b: seq<Got>)
    requires Replayed(body, x, a) && Stops(body, x, a) && Replayed(body, x, b) && Stops(body, x, b)
    ensures a == b
  {
    NoFurther(body, x, a, b);
    NoFurther(body, x, b, a);
    SameAnswers(body, x, a, b, |a|);
    assert a[..|a|] == a && b[..|b|] == b;
  }
}
