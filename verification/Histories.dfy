/** A run's history as the replay driver reads it (sdk/python/veya/history.py):
    indexed by step, because a step is the identity that survives a retry. */
module Histories {
  import opened Prelude
  import opened Names
  import opened Core
  import opened Waits

  /** tool and payload are what was decided; the rest is what came of it. */
  datatype RecordedStep = RecordedStep(tool: string, payload: Json, result: Json, completed: bool, error: string)

  datatype RecordedWait = RecordedWait(kind: WaitKind, name: string, wakeAt: Time, resolved: bool,
                                       timedOut: bool, signal: string, payload: Json)

  datatype History = History(steps: map<StepId, RecordedStep>, waits: map<StepId, RecordedWait>)

  const NOTHING: History := History(map[], map[])

  /** Events whose body the reader looks into. */
  predicate Interpreted(typ: EventType) {
    typ.EvRunStarted? || typ.EvTaskCreated? || typ.EvTaskCompleted? || typ.EvTaskFailed? ||
    typ.EvTimerSet? || typ.EvSignalWaitStarted? || typ.EvTimerFired? || typ.EvSignalReceived? ||
      typ.EvSignalWaitTimedOut?
  }

  function Created(d: Data): RecordedStep {
    if d.TaskCreatedData? then RecordedStep(d.tool, d.payload, None, false, "")
    else RecordedStep("", None, None, false, "")
  }

  function Opened(typ: EventType, d: Data): RecordedWait {
    if typ.EvTimerSet? then
      RecordedWait(WaitTimer, "", if d.TimerSetData? then d.wakeAt else ZERO_TIME, false, false, "", None)
    else
      RecordedWait(WaitSignal, if d.SignalWaitData? then d.name else "", ZERO_TIME, false, false, "", None)
  }

  function NameIn(d: Data): string {
    match d
    case SignalReceivedData(name, _, _) => name
    case SignalTimedOutData(name, _) => name
    case _ => ""
  }

  function Closed(w: RecordedWait, typ: EventType, d: Data): RecordedWait {
    RecordedWait(w.kind, if w.name != "" then w.name else NameIn(d), w.wakeAt, true, typ.EvSignalWaitTimedOut?,
                 if d.SignalReceivedData? then d.signal else "", if d.SignalReceivedData? then d.payload else None)
  }

  /** What one event adds. None is a ProtocolError: a body this build cannot
      read, or an outcome with nothing before it that it could be of. */
  function Noting(x: History, e: Event): Option<History> {
    if Interpreted(e.typ) && e.data.Unreadable? then None
    else
      match e.typ
      case EvTaskCreated => Some(x.(steps := x.steps[e.step := Created(e.data)]))
      case EvTaskCompleted =>
        if e.step !in x.steps then None
        else
          var was := x.steps[e.step];
          var result := if e.data.TaskCompletedData? then e.data.result else None;
          Some(x.(steps := x.steps[e.step := RecordedStep(was.tool, was.payload, result, true, "")]))
      case EvTaskFailed =>
        if e.step in x.steps && e.data.TaskFailedData? && e.data.final && !x.steps[e.step].completed then
          var was := x.steps[e.step];
          Some(x.(steps := x.steps[e.step := RecordedStep(was.tool, was.payload, None, false, e.data.error)]))
        else Some(x)
      case EvTimerSet => Some(x.(waits := x.waits[e.step := Opened(e.typ, e.data)]))
      case EvSignalWaitStarted => Some(x.(waits := x.waits[e.step := Opened(e.typ, e.data)]))
      case EvTimerFired => Closing(x, e)
      case EvSignalReceived => Closing(x, e)
      case EvSignalWaitTimedOut => Closing(x, e)
      case _ => Some(x)
  }

  function Closing(x: History, e: Event): Option<History> {
    if e.step !in x.waits then None
    else Some(x.(waits := x.waits[e.step := Closed(x.waits[e.step], e.typ, e.data)]))
  }

  function Reading(h: seq<Event>): Option<History> {
    if h == [] then Some(NOTHING)
    else
      match Reading(h[..|h| - 1])
      case None => None
      case Some(x) => Noting(x, h[|h| - 1])
  }

  lemma {:induction false} UnreadableStays(h: seq<Event>, k: nat)
    requires k <= |h| && Reading(h[..k]).None?
    ensures Reading(h).None?
  {
    if k < |h| {
      assert h[..|h| - 1][..k] == h[..k];
      UnreadableStays(h[..|h| - 1], k);
    } else {
      assert h[..k] == h;
    }
  }

  /** The fold of history.py: entries of two dictionaries, overwritten event by event. */
  method Read(events: seq<Event>) returns (history: Option<History>)
    ensures history == Reading(events)
  {
    var steps: map<StepId, RecordedStep> := map[];
    var waits: map<StepId, RecordedWait> := map[];
    for k := 0 to |events|
      invariant Reading(events[..k]) == Some(History(steps, waits))
    {
      var e := events[k];
      assert events[..k + 1][..k] == events[..k];
      assert Reading(events[..k + 1]) == Noting(History(steps, waits), e);
      if Interpreted(e.typ) && e.data.Unreadable? {
        UnreadableStays(events, k + 1);
        return None;
      }
      match e.typ {
        case EvTaskCreated =>
          steps := steps[e.step := Created(e.data)];
        case EvTaskCompleted =>
          if e.step !in steps {
            UnreadableStays(events, k + 1);
            return None;
          }
          var existing := steps[e.step];
          var result: Json := None;
          match e.data {
            case TaskCompletedData(_, r) => result := r;
            case _ =>
          }
          steps := steps[e.step := RecordedStep(existing.tool, existing.payload, result, true, "")];
        case EvTaskFailed =>
          match e.data {
            case TaskFailedData(_, error, _, final) =>
              if e.step in steps && final && !steps[e.step].completed {
                var existing := steps[e.step];
                steps := steps[e.step := RecordedStep(existing.tool, existing.payload, None, false, error)];
              }
            case _ =>
          }
        case EvTimerSet | EvSignalWaitStarted =>
          waits := waits[e.step := Opened(e.typ, e.data)];
        case EvTimerFired | EvSignalReceived | EvSignalWaitTimedOut =>
          if e.step !in waits {
            UnreadableStays(events, k + 1);
            return None;
          }
          waits := waits[e.step := Closed(waits[e.step], e.typ, e.data)];
        case _ =>
      }
    }
    assert events[..|events|] == events;
    return Some(History(steps, waits));
  }

  // ----- histories that only move forward -----

  predicate Settled(s: RecordedStep) {
    s.completed || s.error != ""
  }

  /** An event that starts something new, or carries something open further. */
  predicate Proper(x: History, e: Event) {
    && (Interpreted(e.typ) ==> !e.data.Unreadable?)
    && match e.typ
       case EvTaskCreated => e.data.TaskCreatedData? && e.step !in x.steps
       case EvTaskCompleted => e.step in x.steps && !Settled(x.steps[e.step])
       case EvTaskFailed => e.step in x.steps && !Settled(x.steps[e.step])
       case EvTimerSet => e.step !in x.waits
       case EvSignalWaitStarted => e.step !in x.waits
       case EvTimerFired => e.step in x.waits && !x.waits[e.step].resolved
       case EvSignalReceived => e.step in x.waits && !x.waits[e.step].resolved
       case EvSignalWaitTimedOut => e.step in x.waits && !x.waits[e.step].resolved
       case _ => true
  }

  predicate ProperTail(x: History, tail: seq<Event>)
    decreases |tail|
  {
    tail == [] ||
    (Proper(x, tail[0]) && Noting(x, tail[0]).Some? && ProperTail(Noting(x, tail[0]).value, tail[1..]))
  }

  /** Where a proper tail leads. */
  function Through(x: History, tail: seq<Event>): History
    requires ProperTail(x, tail)
    decreases |tail|
  {
    if tail == [] then x else Through(Noting(x, tail[0]).value, tail[1..])
  }

  /** What is decided stays decided, and what is settled stays settled. */
  predicate Forward(x: History, y: History) {
    && (forall s :: s in x.steps ==>
          s in y.steps && y.steps[s].tool == x.steps[s].tool && y.steps[s].payload == x.steps[s].payload &&
          (Settled(x.steps[s]) ==> y.steps[s] == x.steps[s]))
    && (forall s :: s in x.waits ==>
          s in y.waits && y.waits[s].kind == x.waits[s].kind && y.waits[s].wakeAt == x.waits[s].wakeAt &&
          (x.waits[s].resolved ==> y.waits[s] == x.waits[s]))
  }

  lemma ProperIsForward(x: History, e: Event)
    requires Proper(x, e)
    ensures Noting(x, e).Some? && Forward(x, Noting(x, e).value)
  {
  }

  lemma {:induction false} TailIsForward(x: History, tail: seq<Event>)
    requires ProperTail(x, tail)
    ensures Forward(x, Through(x, tail))
    decreases |tail|
  {
    if tail != [] {
      ProperIsForward(x, tail[0]);
      TailIsForward(Noting(x, tail[0]).value, tail[1..]);
    }
  }

  lemma {:induction false} ReadingThrough(h: seq<Event>, tail: seq<Event>)
    requires Reading(h).Some? && ProperTail(Reading(h).value, tail)
    ensures Reading(h + tail) == Some(Through(Reading(h).value, tail))
    decreases |tail|
  {
    if tail == [] {
      assert h + tail == h;
    } else {
      var g := h + [tail[0]];
      assert g[..|h|] == h;
      assert g + tail[1..] == h + tail;
      ReadingThrough(g, tail[1..]);
    }
  }
}
