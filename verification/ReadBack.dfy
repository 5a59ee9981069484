/** What a body gets back: a replay answers each durable call with what the
    last event of its step recorded, whatever else the history holds. */
module ReadBack {
  import opened Prelude
  import opened Names
  import opened Core
  import opened Waits
  import opened Histories
  import opened Agents

  /** An event that says something of a step: that it was decided, or how it ended. */
  predicate TellsStep(e: Event) {
    e.typ.EvTaskCreated? || e.typ.EvTaskCompleted? || (e.typ.EvTaskFailed? && e.data.TaskFailedData? && e.data.final)
  }

  /** Nothing after it says anything of its step. */
  predicate LastOfStep(h: seq<Event>, i: nat) {
    i < |h| && TellsStep(h[i]) && forall j :: i < j < |h| ==> !(TellsStep(h[j]) && h[j].step == h[i].step)
  }

  predicate LastOfWait(h: seq<Event>, i: nat) {
    i < |h| && IsWaitEvent(h[i]) && forall j :: i < j < |h| ==> !(IsWaitEvent(h[j]) && h[j].step == h[i].step)
  }

  /** The decision a step began with: nothing after it decides the step anew. */
  predicate Decided(h: seq<Event>, i: nat) {
    && i < |h| && h[i].typ.EvTaskCreated? && h[i].data.TaskCreatedData?
    && forall j :: i < j < |h| ==> !(h[j].typ.EvTaskCreated? && h[j].step == h[i].step)
  }

  lemma ShorterReading(h: seq<Event>)
    requires h != [] && Reading(h).Some?
    ensures Reading(h[..|h| - 1]).Some? &&
            Reading(h) == Noting(Reading(h[..|h| - 1]).value, h[|h| - 1])
  {
  }

  lemma OthersLeaveIt(x: History, e: Event, step: StepId)
    requires Noting(x, e).Some?
    ensures var y := Noting(x, e).value;
            && (!(TellsStep(e) && e.step == step) ==>
                  (step in y.steps <==> step in x.steps) && (step in x.steps ==> y.steps[step] == x.steps[step]))
            && (!(IsWaitEvent(e) && e.step == step) ==>
                  (step in y.waits <==> step in x.waits) && (step in x.waits ==> y.waits[step] == x.waits[step]))
            && (step in x.steps && !(e.typ.EvTaskCreated? && e.step == step) ==>
                  step in y.steps && y.steps[step].tool == x.steps[step].tool &&
                  y.steps[step].payload == x.steps[step].payload)
  {
  }

  /** The record of a step, as its last event left it. */
  lemma {:induction false} StepReadsBack(h: seq<Event>, i: nat)
    requires Reading(h).Some? && LastOfStep(h, i)
    ensures var x, e := Reading(h).value, h[i];
            match e.data
            case TaskCompletedData(_, result) =>
              e.typ.EvTaskCompleted? ==>
                e.step in x.steps && x.steps[e.step].completed && x.steps[e.step].error == "" &&
                x.steps[e.step].result == result
            case TaskFailedData(_, error, _, _) =>
              e.typ.EvTaskFailed? && e.step in x.steps && !x.steps[e.step].completed ==> x.steps[e.step].error == error
            case TaskCreatedData(_, tool, payload) =>
              e.typ.EvTaskCreated? ==>
                e.step in x.steps && x.steps[e.step] == RecordedStep(tool, payload, None, false, "")
            case _ => true
  {
    hide Noting, TellsStep, IsWaitEvent;
    var n := |h| - 1;
    ShorterReading(h);
    if i < n {
      assert forall j :: i < j < n ==> h[..n][j] == h[j];
      StepReadsBack(h[..n], i);
      OthersLeaveIt(Reading(h[..n]).value, h[n], h[i].step);
    } else {
      NotedStep(Reading(h[..n]).value, h[n]);
    }
  }

  lemma NotedStep(x: History, e: Event)
    requires Noting(x, e).Some? && TellsStep(e)
    ensures var y := Noting(x, e).value;
            match e.data
            case TaskCompletedData(_, result) =>
              e.typ.EvTaskCompleted? ==>
                e.step in y.steps && y.steps[e.step].completed && y.steps[e.step].error == "" &&
                y.steps[e.step].result == result
            case TaskFailedData(_, error, _, _) =>
              e.typ.EvTaskFailed? && e.step in y.steps && !y.steps[e.step].completed ==> y.steps[e.step].error == error
            case TaskCreatedData(_, tool, payload) =>
              e.typ.EvTaskCreated? ==>
                e.step in y.steps && y.steps[e.step] == RecordedStep(tool, payload, None, false, "")
            case _ => true
  {
  }

  /** The record of a wait, as its last event left it. */
  lemma {:induction false} WaitReadsBack(h: seq<Event>, i: nat)
    requires Reading(h).Some? && LastOfWait(h, i)
    ensures h[i].step in Reading(h).value.waits && WaitSays(Reading(h).value.waits[h[i].step], h[i])
  {
    hide Noting, IsWaitEvent, WaitSays;
    var n := |h| - 1;
    ShorterReading(h);
    if i < n {
      assert forall j :: i < j < n ==> h[..n][j] == h[j];
      WaitReadsBack(h[..n], i);
      OthersLeaveIt(Reading(h[..n]).value, h[n], h[i].step);
    } else {
      NotedWait(Reading(h[..n]).value, h[n]);
    }
  }

  /** Open from its start on; then over, by the signal that came or without one. */
  predicate WaitSays(w: RecordedWait, e: Event) {
    match e.typ
    case EvTimerSet => !w.resolved && (e.data.TimerSetData? ==> w.wakeAt == e.data.wakeAt)
    case EvSignalWaitStarted => !w.resolved && (e.data.SignalWaitData? ==> w.name == e.data.name)
    case EvSignalReceived =>
      w.resolved && !w.timedOut &&
      (e.data.SignalReceivedData? ==> w.payload == e.data.payload && w.signal == e.data.signal)
    case EvSignalWaitTimedOut => w.resolved && w.timedOut
    case EvTimerFired => w.resolved && !w.timedOut
    case _ => false
  }

  lemma NotedWait(x: History, e: Event)
    requires Noting(x, e).Some? && IsWaitEvent(e)
    ensures e.step in Noting(x, e).value.waits && WaitSays(Noting(x, e).value.waits[e.step], e)
  {
  }

  /** What was decided for a step stays on record until it is decided anew. */
  lemma {:induction false} DecisionReadsBack(h: seq<Event>, i: nat)
    requires Reading(h).Some? && Decided(h, i)
    ensures var x, e := Reading(h).value, h[i];
            e.step in x.steps && x.steps[e.step].tool == e.data.tool && x.steps[e.step].payload == e.data.payload
  {
    hide Noting;
    var n := |h| - 1;
    ShorterReading(h);
    if i < n {
      assert forall j :: i < j < n ==> h[..n][j] == h[j];
      DecisionReadsBack(h[..n], i);
      OthersLeaveIt(Reading(h[..n]).value, h[n], h[i].step);
    } else {
      NotedStep(Reading(h[..n]).value, h[n]);
    }
  }

  /** No completion of its step after the decision. */
  predicate NoneCompleted(h: seq<Event>, c: nat) {
    Decided(h, c) && forall j :: c < j < |h| ==> !(h[j].typ.EvTaskCompleted? && h[j].step == h[c].step)
  }

  lemma {:induction false} NotCompleted(h: seq<Event>, c: nat)
    requires Reading(h).Some? && NoneCompleted(h, c)
    ensures h[c].step in Reading(h).value.steps && !Reading(h).value.steps[h[c].step].completed
  {
    hide Noting;
    var n := |h| - 1;
    ShorterReading(h);
    if c < n {
      assert forall j :: c < j < n ==> h[..n][j] == h[j];
      NotCompleted(h[..n], c);
      CompletionsComplete(Reading(h[..n]).value, h[n], h[c].step);
    } else {
      NotedStep(Reading(h[..n]).value, h[n]);
    }
  }

  lemma CompletionsComplete(x: History, e: Event, step: StepId)
    requires Noting(x, e).Some? && step in x.steps && !x.steps[step].completed
    requires !(e.typ.EvTaskCompleted? && e.step == step)
    ensures step in Noting(x, e).value.steps && !Noting(x, e).value.steps[step].completed
  {
  }

  /** A call whose decision is event c and whose last word is event i gets back
      that result, or that error if there is a text to it. */
  lemma CallGetsBack(h: seq<Event>, c: nat, i: nat)
    requires Reading(h).Some? && Decided(h, c) && LastOfStep(h, i) && h[i].step == h[c].step
    ensures var x, step, w := Reading(h).value, h[c].step, WantCall(h[c].data.tool, h[c].data.payload);
            && (h[i].typ.EvTaskCompleted? && h[i].data.TaskCompletedData? ==>
                  Look(x, step, w) == Answer(GotResult(h[i].data.result)))
            && (h[i].typ.EvTaskFailed? && h[i].data.error != "" && NoneCompleted(h, c) ==>
                  Look(x, step, w) == Answer(GotFailure(h[i].data.error)))
            && (i == c ==> Look(x, step, w) == Unwind(Decision.CallTool(step, h[c].data.tool, h[c].data.payload)))
  {
    hide Reading, LastOfStep, NoneCompleted;
    StepReadsBack(h, i);
    DecisionReadsBack(h, c);
    LastTells(h, i);
    if NoneCompleted(h, c) { NotCompleted(h, c); }
  }

  lemma LastTells(h: seq<Event>, i: nat)
    requires LastOfStep(h, i)
    ensures i < |h| && TellsStep(h[i])
  {
  }

  /** And any other call is reported where this one was decided. */
  lemma OtherCallsDiverge(h: seq<Event>, c: nat, tool: string, payload: Json)
    requires Reading(h).Some? && Decided(h, c)
    ensures Look(Reading(h).value, h[c].step, WantCall(tool, payload)) == Diverged(h[c].step) <==>
            tool != h[c].data.tool || payload != h[c].data.payload
  {
    hide Reading;
    DecisionReadsBack(h, c);
  }

  /** One call of a fan-out, whose child was decided by event c and whose last word
      is event i. */
  lemma OutcomeGetsBack(h: seq<Event>, c: nat, i: nat, step: StepId, index: nat, call: Call)
    requires Reading(h).Some? && Decided(h, c) && LastOfStep(h, i) && h[i].step == h[c].step == Child(step, index)
    ensures var o := OutcomeOf(Reading(h).value, step, index, call);
            && o.index == index && o.tool == call.tool
            && (h[i].typ.EvTaskCompleted? && h[i].data.TaskCompletedData? ==>
                  o.settled && o.ok && o.result == h[i].data.result && o.error == "")
            && (h[i].typ.EvTaskFailed? && h[i].data.error != "" && NoneCompleted(h, c) ==>
                  o.settled && !o.ok && o.error == h[i].data.error && o.result.None?)
            && (h[i].typ.EvTaskCreated? && h[i].data.TaskCreatedData? ==> !o.settled)
  {
    hide Reading, LastOfStep, Child, Decided, NoneCompleted;
    StepReadsBack(h, i);
    DecisionReadsBack(h, c);
    LastTells(h, i);
    if NoneCompleted(h, c) { NotCompleted(h, c); }
  }

  /** A sleep is over exactly once it has fired, and until then it lasts until the
      instant on record, whatever the body asks for now. */
  lemma SleepGetsBack(h: seq<Event>, i: nat, until: Time)
    requires Reading(h).Some? && LastOfWait(h, i)
    ensures var look := Look(Reading(h).value, h[i].step, WantSleep(until));
            && (h[i].typ.EvTimerFired? ==> look == Answer(Woke))
            && (h[i].typ.EvTimerSet? && h[i].data.TimerSetData? ==> look == Unwind(Sleep(h[i].step, h[i].data.wakeAt)))
  {
    hide Reading, LastOfWait;
    WaitReadsBack(h, i);
  }

  /** A wait gives back the payload of the signal that ended it, or says that it
      timed out, and while it is open it is waited for again. */
  lemma SignalGetsBack(h: seq<Event>, i: nat, name: string, deadline: Time)
    requires Reading(h).Some? && LastOfWait(h, i) && name != ""
    ensures var look := Look(Reading(h).value, h[i].step, WantSignal(name, deadline));
            && (h[i].typ.EvSignalReceived? && h[i].data.SignalReceivedData? ==>
                  look == Answer(GotSignal(h[i].data.payload)))
            && (h[i].typ.EvSignalWaitTimedOut? ==> look.Answer? && look.got.GotTimeout?)
            && (h[i].typ.EvSignalWaitStarted? ==> look == Unwind(WaitForSignal(h[i].step, name, ZERO_TIME)))
  {
    hide Reading, LastOfWait;
    WaitReadsBack(h, i);
  }
}
