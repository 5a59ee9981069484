/** The effect executor (internal/effects/executor.go and reconcile.go): reserve
    and commit, mark RUNNING and commit, call, record. Between any two of its
    transactions anybody else may commit anything that keeps the invariants; a
    crash is a call that never gets further. What the provider answers is given
    as a parameter. */
module Executor {
  import opened Prelude
  import opened Names
  import opened Core
  import opened Tables
  import opened Waits
  import opened Invariants
  import opened Transactions
  import opened RunSteps
  import opened Behaviours
  import opened Agreement
  import opened LedgerFrames
  import opened Memory
  import opened TaskEngine
  import Ledger

  datatype Descriptor = Descriptor(class_: EffectClass, canAsk: bool, keyTTL: int) {
    /** Past the provider's key retention, an answer proves nothing. */
    predicate KeyExpired(e: Effect, now: Time) {
      keyTTL > 0 && now - e.createdAt > keyTTL
    }
  }

  /** Past the retention declared for a key of that age; 0 declares none. */
  predicate Outlived(keyTTL: int, createdAt: Time, now: Time) {
    0 < keyTTL && createdAt + keyTTL < now
  }

  type Registry = map<string, Descriptor>

  /** How the tool's handler returns; notExecuted is the claim that nothing was sent. */
  datatype ToolResult = ToolOk(result: Json, ref: string) | ToolFailed(error: string, notExecuted: bool)

  datatype Resolution =
    | LookupFailed(error: string)
    | ResolvedCommitted(response: Json, ref: string)
    | ResolvedNotExecuted
    | ResolvedUnknown

  datatype Execution = Done(result: Json) | NotDone(error: Error)

  const NO_OUTCOME := EffectOutcome(None, "", "")
  const OWNER_STOPPED := EffectOutcome(None, "", "owner stopped without reporting an outcome")

  // ----- what holds between transactions -----

  ghost predicate InGoodOrder(s: State) {
    Inv(s) && NoEarlyAnswers(s)
  }

  /** Everybody else, for a while: any number of transactions by any others.
      Every step of every actor is within this contract (Behaviours.NextKeeps
      and LedgerFrames.StepKeepsAnswers). The body is the case of none at all; a
      caller knows only the contract. */
  method Interfere(store: Store)
    requires InGoodOrder(store.st)
    modifies store
    ensures InGoodOrder(store.st) && Evolves(old(store.st), store.st)
    ensures store.deeds == old(store.deeds)
  {
    EvolvesReflexive(store.st);
  }

  /** call: the tool's handler runs, and a request goes out under the key. */
  method Call(store: Store, key: Key, payload: Json)
    modifies store`deeds
    ensures store.deeds == old(store.deeds) + [Sent(key, payload)]
  {
    store.deeds := store.deeds + [Sent(key, payload)];
  }

  // ----- what a transaction leaves behind -----

  /** One more event about the effect, at the end of the run's history. */
  ghost predicate Appends(s: State, t: State, run: RunId, typ: EventType, key: Key, status: EffectStatus,
                          response: Json) {
    && |Hist(t, run)| == |Hist(s, run)| + 1 && Hist(s, run) < Hist(t, run)
    && Hist(t, run)[|Hist(s, run)|].typ == typ
    && (var data := Hist(t, run)[|Hist(s, run)|].data;
        data.EffectData? && data.key == key && data.status == status && data.response == response)
    && (forall r :: r != run ==> Hist(t, r) == Hist(s, r))
  }

  /** A transition that goes through leaves the row with what the outcome
      carries, the event, and everything else as it was. */
  ghost predicate Recorded(s: State, t: State, key: Key, run: RunId, to: EffectStatus, out: EffectOutcome,
                           typ: EventType) {
    && key in s.effects && t == s.(effects := t.effects, events := t.events)
    && (var was := s.effects[key];
        t.effects == s.effects[key := was.(
          status := to, updatedAt := s.clock,
          response := if out.response.Some? then out.response else was.response,
          externalRef := if out.externalRef != "" then out.externalRef else was.externalRef,
          lastError := if out.error != "" then out.error else was.lastError)])
    && Appends(s, t, run, typ, key, to, out.response)
  }

  /** Left to a human: the event that says so, and nothing else. */
  ghost predicate HandedOver(s: State, t: State, key: Key, run: RunId, status: EffectStatus) {
    && t == s.(events := t.events)
    && exists response :: Appends(s, t, run, EvEffectEscalated, key, status, response)
  }

  /** Left to a human, without anything being sent. */
  ghost predicate GaveUp(task: Task, key: Key, status: EffectStatus, s: State, t: State, sent: bool, r: Execution) {
    !sent && r == NotDone(Escalated) && (task.run in s.runs ==> HandedOver(s, t, key, task.run, status))
  }

  /** RUNNING is committed, and nothing else has changed. */
  ghost predicate MarkedRunning(s: State, t: State, key: Key) {
    key in s.effects &&
    t == s.(effects := s.effects[key := s.effects[key].(status := EffectRunning, updatedAt := s.clock)])
  }

  lemma TransitionRecords(s: State, key: Key, from: EffectStatus, to: EffectStatus, out: EffectOutcome, run: RunId,
                          f: Fact)
    requires key in s.effects && s.effects[key].status == from && from.CanTransitionTo(to) && run in s.runs
    requires f.data.EffectData? && f.data.key == key && f.data.status == to && f.data.response == out.response
    ensures var res := EffectTx(s, key, from, to, out, run, Some(f), s.clock);
            res.Commit? && Recorded(s, res.st, key, run, to, out, f.typ)
  {
    StampIs(Hist(s, run), f);
  }

  /** The event by which a transition is told of, in the caller's own copy. */
  function Telling(task: Task, key: Key, effect: Effect, to: EffectStatus, out: EffectOutcome, typ: EventType): Fact {
    Fact(typ, task.step, EffectFact(key, Updated(effect, to, out), ""))
  }

  lemma TransitionTells(s: State, task: Task, key: Key, effect: Effect, from: EffectStatus, to: EffectStatus,
                        out: EffectOutcome, typ: EventType)
    requires key in s.effects && task.run in s.runs && from.CanTransitionTo(to)
    ensures var res := EffectTx(s, key, from, to, out, task.run, Some(Telling(task, key, effect, to, out, typ)),
                                s.clock);
            if s.effects[key].status == from then res.Commit? && Recorded(s, res.st, key, task.run, to, out, typ)
            else res == Abort(Conflict, s)
  {
    hide Recorded, Log;
    if s.effects[key].status == from {
      TransitionRecords(s, key, from, to, out, task.run, Telling(task, key, effect, to, out, typ));
    }
  }

  // ----- single transactions -----

  /** transition: the row moves, and the event renders the caller's own copy. */
  method Transition(store: Store, task: Task, key: Key, effect: Effect, from: EffectStatus, to: EffectStatus,
                    out: EffectOutcome, typ: Option<EventType>) returns (err: Option<Error>)
    requires InGoodOrder(store.st) && (typ.Some? ==> IsEffectEvent(typ.value))
    requires out.response.Some? ==> to.EffectCommitted?
    modifies store
    ensures var fact := if typ.None? then None else Some(Telling(task, key, effect, to, out, typ.value));
            var res := EffectTx(old(store.st), key, from, to, out, task.run, fact, old(store.st).clock);
            store.st == res.st && err == ErrorOf(res)
    ensures store.deeds == Written(old(store.deeds), old(store.st), store.st)
    ensures InGoodOrder(store.st) && Evolves(old(store.st), store.st)
    ensures err.None? && to.EffectCommitted? ==> CommittedWith(store.st, key, out.response)
    ensures err.None? ==> key in store.st.effects && store.st.effects[key].status == to
  {
    hide Log, Inv, Evolves, NoEarlyAnswers, Moved;
    ghost var fact := if typ.None? then None else Some(Telling(task, key, effect, to, out, typ.value));
    EffectKeepsInv(store.st, key, from, to, out, task.run, fact, store.st.clock);
    MovesKeepAnswers(store.st, key, from, to, out, task.run, fact, store.st.clock);
    MovedStatus(store.st, key, from, to, out, task.run, fact, store.st.clock);
    var tx := new Tx(store.st);
    err := tx.TransitionEffect(key, from, to, out);
    if err.None? && typ.Some? {
      err := tx.Append(task.run, typ.value, task.step, EffectFact(key, Updated(effect, to, out), ""));
    }
    store.Finish(tx, err);
  }

  lemma MovedStatus(s: State, key: Key, from: EffectStatus, to: EffectStatus, out: EffectOutcome,
                    run: RunId, fact: Option<Fact>, now: Time)
    ensures var res := EffectTx(s, key, from, to, out, run, fact, now);
            res.Commit? ==> key in res.st.effects && res.st.effects[key].status == to
  {
    hide Log;
  }

  /** The caller's copy, as the event renders it. */
  function Updated(e: Effect, to: EffectStatus, out: EffectOutcome): Effect {
    e.(status := to, response := out.response, externalRef := out.externalRef, lastError := out.error)
  }

  /** escalate: only a human can settle this. */
  method Escalate(store: Store, task: Task, key: Key, effect: Effect, reason: string) returns (r: Execution)
    requires InGoodOrder(store.st)
    modifies store
    ensures InGoodOrder(store.st) && Evolves(old(store.st), store.st)
    ensures r == NotDone(Escalated)
    ensures store.st == NoteTx(old(store.st), task.run,
                               Fact(EvEffectEscalated, task.step, EffectFact(key, effect, reason))).st
    ensures GaveUp(task, key, effect.status, old(store.st), store.st, false, r)
    ensures task.run !in old(store.st).runs ==> store.st == old(store.st)
    ensures store.deeds == Written(old(store.deeds), old(store.st), store.st)
  {
    hide Inv, Evolves, Log, HandedOver;
    ghost var f := Fact(EvEffectEscalated, task.step, EffectFact(key, effect, reason));
    EvolvesReflexive(store.st);
    if task.run in store.st.runs {
      EscalationKeeps(store.st, task.run, f);
      EscalationHandsOver(store.st, task.run, f);
    }
    var tx := new Tx(store.st);
    var err := tx.Append(task.run, EvEffectEscalated, task.step, EffectFact(key, effect, reason));
    store.Finish(tx, err);
    return NotDone(Escalated);
  }

  lemma EscalationKeeps(s: State, r: RunId, f: Fact)
    requires Inv(s) && r in s.runs && IsEffectEvent(f.typ)
    ensures Inv(LogOn(s, r, f)) && Evolves(s, LogOn(s, r, f)) && LogOn(s, r, f).effects == s.effects
  {
    hide Inv, Evolves, Log;
    EffectIsBeside(f);
    NoteKeepsInv(s, r, f);
  }

  lemma EscalationHandsOver(s: State, run: RunId, f: Fact)
    requires f.typ.EvEffectEscalated? && f.data.EffectData?
    ensures HandedOver(s, LogOn(s, run, f), f.data.key, run, f.data.status)
  {
    StampIs(Hist(s, run), f);
    assert Appends(s, LogOn(s, run, f), run, EvEffectEscalated, f.data.key, f.data.status, f.data.response);
  }

  // ----- acting -----

  /** How the ledger machine hears of what a handler returned. */
  function OutcomeOf(tool: ToolResult): Ledger.Outcome {
    match tool
    case ToolOk(_, _) => Ledger.Succeeded
    case ToolFailed(_, notExecuted) => if notExecuted then Ledger.NotExecuted else Ledger.Ambiguous
  }

  /** The row once a conditional move has been tried on it. */
  function Tried(row: Option<EffectStatus>, from: EffectStatus, to: EffectStatus): Option<EffectStatus> {
    if Ledger.Moves(row, from, to) then Some(to) else row
  }

  lemma RunStays(a: State, b: State, run: RunId)
    requires Evolves(a, b) && run in a.runs
    ensures run in b.runs
  {
    hide TasksEvolve, LedgerEvolves, SignalsEvolve, OutboxEvolves, Pending, Consumed, Hist;
    assert RunEvolves(a, b, run);
  }

  /** The tables where an attempt passed: once it had reserved, where it read the
      row and where it went to work on it; where a row that said RUNNING is
      UNKNOWN, where it looked at the key's age, where it had the provider's
      answer; where RUNNING is committed, and where it recorded what came of it. */
  datatype Attempt = Attempt(reserved: State, read: State, begun: State, marked: State, chosen: State, asked: State,
                             running: State, at: State)

  ghost function Nowhere(s: State): Attempt {
    Attempt(s, s, s, s, s, s, s, s)
  }

  /** What a handler's return becomes, if the row says RUNNING still: only an
      error that claims nothing was sent is a failure. */
  ghost predicate Returned(task: Task, key: Key, tool: ToolResult, s: State, t: State, r: Execution) {
    if key !in s.effects || !s.effects[key].status.EffectRunning? then t == s && r == NotDone(Conflict)
    else
      match tool
      case ToolOk(result, ref) =>
        r == Done(result) &&
        Recorded(s, t, key, task.run, EffectCommitted, EffectOutcome(result, ref, ""), EvEffectCommitted)
      case ToolFailed(error, notExecuted) =>
        if notExecuted then
          r == NotDone(ToolError) &&
          Recorded(s, t, key, task.run, EffectFailed, EffectOutcome(None, "", error), EvEffectFailed)
        else
          r == NotDone(NeedsReconciliation) &&
          Recorded(s, t, key, task.run, EffectUnknown, EffectOutcome(None, "", error), EvEffectUnknown)
  }

  /** Performing an action whose row was last seen as from, from s to t: nothing
      is sent unless that is still so, and RUNNING is committed first. */
  ghost predicate Performed(task: Task, key: Key, from: EffectStatus, tool: ToolResult, s: State, running: State,
                            at: State, t: State, sent: bool, r: Execution) {
    && (sent <==> key in s.effects && s.effects[key].status == from &&
                  (from.EffectPending? || from.EffectFailed? || from.EffectUnknown?))
    && (!sent ==> t == s && r.NotDone?)
    && (sent ==> MarkedRunning(s, running, key) && Evolves(running, at) &&
                 (task.run in s.runs ==> Returned(task, key, tool, at, t, r)))
  }

  ghost function PerformDeeds(deeds: seq<Deed>, key: Key, payload: Json, s: State, running: State, at: State, t: State,
                              sent: bool): seq<Deed> {
    if sent then Written(Written(deeds, s, running) + [Sent(key, payload)], at, t) else deeds
  }

  lemma BeginsIff(s: State, key: Key, from: EffectStatus, out: EffectOutcome, run: RunId)
    requires out == NO_OUTCOME
    ensures var res := EffectTx(s, key, from, EffectRunning, out, run, None, s.clock);
            && (if key in s.effects && s.effects[key].status == from &&
                  (from.EffectPending? || from.EffectFailed? || from.EffectUnknown?) then res.Commit? else res.Abort?)
            && if res.Commit? then MarkedRunning(s, res.st, key) else res.st == s
  {
  }

  lemma RunningIsThere(a: State, b: State, key: Key)
    requires MarkedRunning(a, b, key)
    ensures key in b.effects && b.effects[key].status.EffectRunning? && b.runs == a.runs
  {
  }

  /** perform: RUNNING is committed before the provider is called, and what the
      handler returns is recorded in the tables as they are by then. The rows it
      leaves are those of the ledger machine's Begin and Record. */
  method Perform(store: Store, task: Task, key: Key, effect: Effect, tool: ToolResult)
    returns (r: Execution, sent: bool, ghost running: State, ghost at: State)
    requires InGoodOrder(store.st)
    modifies store
    ensures InGoodOrder(store.st) && Evolves(old(store.st), store.st)
    ensures r.Done? ==> CommittedWith(store.st, key, r.result) && sent && tool.ToolOk? && r.result == tool.result
    ensures Performed(task, key, effect.status, tool, old(store.st), running, at, store.st, sent, r)
    ensures store.deeds == PerformDeeds(old(store.deeds), key, task.payload, old(store.st), running, at, store.st, sent)
    ensures sent ==>
              && Evolves(old(store.st), running) && Evolves(running, at)
              && Evolves(at, store.st) && Evolves(running, store.st)
              && key in running.effects && running.effects[key].status.EffectRunning?
    ensures sent <==> Ledger.Moves(Ledger.RowOf(old(store.st), key), effect.status, EffectRunning)
    ensures !sent ==> store.st == old(store.st)
    ensures sent && task.run in old(store.st).runs ==>
              var to := Ledger.Classified(OutcomeOf(tool));
              && Ledger.RowOf(store.st, key) == Tried(Ledger.RowOf(at, key), EffectRunning, to)
              && (r.Done? <==> tool.ToolOk? && Ledger.Moves(Ledger.RowOf(at, key), EffectRunning, to))
  {
    hide InGoodOrder, Evolves, EffectTx, CommittedWith, Updated, Telling, Ledger.Moves, MarkedRunning, Recorded,
         Written;
    ghost var s := store.st;
    running, at := s, s;
    Ledger.MovesIsTheTransaction(s, key, effect.status, EffectRunning, NO_OUTCOME, task.run, None, s.clock);
    BeginsIff(s, key, effect.status, NO_OUTCOME, task.run);
    NothingWritten(store.deeds, s);
    var err := Transition(store, task, key, effect, effect.status, EffectRunning, NO_OUTCOME, None);
    if err.Some? { return NotDone(err.value), false, running, at; }
    ghost var b := store.st;
    RunningIsThere(s, b, key);
    Call(store, key, task.payload);
    Interfere(store);
    ghost var c := store.st;
    running, at := b, c;
    RowStands(b, c, key);
    if task.run in s.runs { RunStays(b, c, task.run); }
    match tool {
      case ToolOk(result, ref) =>
        MovesAt(c, task, key, effect, EffectRunning, EffectCommitted, EffectOutcome(result, ref, ""),
                EvEffectCommitted);
        err := Transition(store, task, key, effect, EffectRunning, EffectCommitted, EffectOutcome(result, ref, ""),
                          Some(EvEffectCommitted));
        Chained3(s, b, c, store.st);
        // The provider acted but that could not be recorded: ambiguous, and left so.
        if err.Some? { return NotDone(err.value), true, running, at; }
        return Done(result), true, running, at;
      case ToolFailed(error, notExecuted) =>
        var outcome, typ := EffectUnknown, EvEffectUnknown;
        if notExecuted { outcome, typ := EffectFailed, EvEffectFailed; }
        MovesAt(c, task, key, effect, EffectRunning, outcome, EffectOutcome(None, "", error), typ);
        err := Transition(store, task, key, effect, EffectRunning, outcome, EffectOutcome(None, "", error), Some(typ));
        Chained3(s, b, c, store.st);
        if err.Some? { return NotDone(err.value), true, running, at; }
        return NotDone(if outcome.EffectUnknown? then NeedsReconciliation else ToolError), true, running, at;
    }
  }

  lemma Chained3(a: State, b: State, c: State, d: State)
    requires Evolves(a, b) && Evolves(b, c) && Evolves(c, d)
    ensures Evolves(b, d) && Evolves(a, d)
  {
    hide Evolves;
    EvolvesTransitive(b, c, d);
    EvolvesTransitive(a, b, d);
  }

  lemma NothingWritten(deeds: seq<Deed>, s: State)
    ensures Written(deeds, s, s) == deeds
  {
  }

  /** What a transition with its event does to the row, and to the tables. */
  lemma MovesAt(s: State, task: Task, key: Key, effect: Effect, from: EffectStatus, to: EffectStatus,
                out: EffectOutcome, typ: EventType)
    requires from.CanTransitionTo(to) && key in s.effects
    ensures var res := EffectTx(s, key, from, to, out, task.run, Some(Telling(task, key, effect, to, out, typ)),
                                s.clock);
            task.run in s.runs ==>
              && Ledger.RowOf(res.st, key) == Tried(Ledger.RowOf(s, key), from, to)
              && (res.Commit? <==> Ledger.Moves(Ledger.RowOf(s, key), from, to))
              && if s.effects[key].status == from then res.Commit? && Recorded(s, res.st, key, task.run, to, out, typ)
                 else res == Abort(Conflict, s)
  {
    hide EffectTx, Updated, EffectFact, Ledger.Moves, Telling, Recorded;
    if task.run in s.runs {
      TransitionTells(s, task, key, effect, from, to, out, typ);
      Ledger.MovesIsTheTransaction(s, key, from, to, out, task.run, Some(Telling(task, key, effect, to, out, typ)),
                                   s.clock);
    }
  }

  /** What the provider's answer makes of a row last seen as from: the answer is
      recorded if the row is UNKNOWN still, an answer that decides nothing changes
      nothing, and only one that nothing happened lets the action be performed. */
  ghost predicate Answered(task: Task, key: Key, from: EffectStatus, answer: Resolution, tool: ToolResult, s: State,
                           running: State, at: State, t: State, sent: bool, r: Execution) {
    match answer
    case LookupFailed(_) => !sent && t == s && r == NotDone(NeedsReconciliation)
    case ResolvedUnknown => !sent && t == s && r == NotDone(NeedsReconciliation)
    case ResolvedCommitted(response, ref) =>
      !sent &&
      (key in s.effects && task.run in s.runs ==>
         if s.effects[key].status.EffectUnknown? then
           r == Done(response) &&
           Recorded(s, t, key, task.run, EffectCommitted, EffectOutcome(response, ref, ""), EvEffectReconciled)
         else t == s && r == NotDone(Conflict))
    case ResolvedNotExecuted => Performed(task, key, from, tool, s, running, at, t, sent, r)
  }

  ghost function AnswerDeeds(deeds: seq<Deed>, key: Key, payload: Json, answer: Resolution, s: State,
                             running: State, at: State, t: State, sent: bool): seq<Deed> {
    match answer
    case ResolvedCommitted(_, _) => Written(deeds, s, t)
    case ResolvedNotExecuted => PerformDeeds(deeds, key, payload, s, running, at, t, sent)
    case _ => deeds
  }

  /** query: the provider's answer decides, and a failed lookup is not one. */
  method Query(store: Store, task: Task, d: Descriptor, key: Key, effect: Effect, answer: Resolution, tool: ToolResult)
    returns (r: Execution, sent: bool, ghost asked: State, ghost running: State, ghost at: State)
    requires InGoodOrder(store.st)
    modifies store
    ensures InGoodOrder(store.st) && Evolves(old(store.st), store.st)
    ensures r.Done? ==> CommittedWith(store.st, key, r.result)
    ensures !d.canAsk || answer.LookupFailed? || answer.ResolvedUnknown? ==> r.NotDone? && !sent
    ensures r.Done? && answer.ResolvedCommitted? ==> r.result == answer.response
    ensures !d.canAsk ==>
              GaveUp(task, key, effect.status, old(store.st), store.st, sent, r) &&
              store.deeds == Written(old(store.deeds), old(store.st), store.st)
    ensures d.canAsk ==>
              && Evolves(old(store.st), asked)
              && Answered(task, key, effect.status, answer, tool, asked, running, at, store.st, sent, r)
              && store.deeds == AnswerDeeds(old(store.deeds), key, task.payload, answer, asked, running, at, store.st,
                                            sent)
  {
    hide InGoodOrder, Evolves, EffectTx, CommittedWith, Updated, NoteTx, HandedOver, Performed, PerformDeeds, Recorded,
         Written, Telling;
    sent := false;
    asked, running, at := store.st, store.st, store.st;
    if !d.canAsk {
      r := Escalate(store, task, key, effect, "declared QUERYABLE but has no reconciler");
      return;
    }
    ghost var s := store.st;
    Interfere(store);
    ghost var c := store.st;
    asked := c;
    match answer {
      case LookupFailed(_) => r := NotDone(NeedsReconciliation);
      case ResolvedUnknown => r := NotDone(NeedsReconciliation);
      case ResolvedCommitted(response, ref) =>
        if key in c.effects {
          MovesAt(c, task, key, effect, EffectUnknown, EffectCommitted, EffectOutcome(response, ref, ""),
                  EvEffectReconciled);
        }
        var err := Transition(store, task, key, effect, EffectUnknown, EffectCommitted,
                              EffectOutcome(response, ref, ""), Some(EvEffectReconciled));
        EvolvesTransitive(s, c, store.st);
        r := if err.Some? then NotDone(err.value) else Done(response);
      case ResolvedNotExecuted =>
        r, sent, running, at := Perform(store, task, key, effect, tool);
        EvolvesTransitive(s, c, store.st);
    }
  }

  /** Somebody else has moved a row that said RUNNING. */
  predicate Overtaken(s: State, key: Key, found: Effect) {
    found.status.EffectRunning? && (key !in s.effects || !s.effects[key].status.EffectRunning?)
  }

  function InDoubt(found: EffectStatus): EffectStatus {
    if found.EffectRunning? then EffectUnknown else found
  }

  /** Otherwise it says UNKNOWN by the time anything is chosen. */
  ghost predicate Doubted(task: Task, key: Key, found: Effect, s: State, marked: State) {
    && !Overtaken(s, key, found)
    && if found.status.EffectRunning? then
         Recorded(s, marked, key, task.run, EffectUnknown, OWNER_STOPPED, EvEffectUnknown)
       else marked == s
  }

  /** What resolving makes of the row as it was found, from s to t. A row that
      said RUNNING is UNKNOWN first, unless somebody else was quicker. Past the
      key's retention, and for classes nobody can settle, it is left to a human. */
  ghost predicate Resolved(task: Task, d: Descriptor, key: Key, found: Effect, answer: Resolution, tool: ToolResult,
                           s: State, a: Attempt, t: State, sent: bool, r: Execution) {
    if Overtaken(s, key, found) then t == s && !sent && r.NotDone?
    else
      && Doubted(task, key, found, s, a.marked) && Evolves(a.marked, a.chosen)
      && if Outlived(d.keyTTL, found.createdAt, a.chosen.clock) then
           GaveUp(task, key, InDoubt(found.status), a.chosen, t, sent, r)
         else if d.class_.ClassIdempotentByKey? then
           Performed(task, key, InDoubt(found.status), tool, a.chosen, a.running, a.at, t, sent, r)
         else if d.class_.ClassQueryable? && d.canAsk then
           Evolves(a.chosen, a.asked) &&
           Answered(task, key, InDoubt(found.status), answer, tool, a.asked, a.running, a.at, t, sent, r)
         else GaveUp(task, key, InDoubt(found.status), a.chosen, t, sent, r)
  }

  ghost function ResolveDeeds(deeds: seq<Deed>, payload: Json, d: Descriptor, key: Key, found: Effect,
                              answer: Resolution, s: State, a: Attempt, t: State, sent: bool): seq<Deed> {
    if Overtaken(s, key, found) then deeds
    else
      var marked := Written(deeds, s, a.marked);
      if Outlived(d.keyTTL, found.createdAt, a.chosen.clock) then Written(marked, a.chosen, t)
      else if d.class_.ClassIdempotentByKey? then PerformDeeds(marked, key, payload, a.chosen, a.running, a.at, t, sent)
      else if d.class_.ClassQueryable? &&
        d.canAsk then AnswerDeeds(marked, key, payload, answer, a.asked, a.running, a.at, t, sent)
      else Written(marked, a.chosen, t)
  }

  /** Expiry is strict, and a tool that declares no retention has none. */
  lemma ExpiresIff(d: Descriptor, e: Effect, now: Time)
    ensures d.KeyExpired(e, now) <==> Outlived(d.keyTTL, e.createdAt, now)
  {
  }

  lemma MarkedInDoubt(s: State, task: Task, key: Key, found: Effect)
    requires task.run in s.runs
    ensures var res := EffectTx(s, key, EffectRunning, EffectUnknown, OWNER_STOPPED, task.run,
                                Some(Telling(task, key, found, EffectUnknown, OWNER_STOPPED, EvEffectUnknown)),
                                  s.clock);
            if key in s.effects && s.effects[key].status.EffectRunning? then
              res.Commit? && Recorded(s, res.st, key, task.run, EffectUnknown, OWNER_STOPPED, EvEffectUnknown)
            else res.Abort? && res.st == s
  {
    hide Recorded, Log, Telling;
    if key in s.effects {
      TransitionTells(s, task, key, found, EffectRunning, EffectUnknown, OWNER_STOPPED, EvEffectUnknown);
    }
  }

  /** The first half of resolve: a RUNNING effect that got here has no live owner. */
  method CastDoubt(store: Store, task: Task, key: Key, found: Effect)
    returns (effect: Effect, err: Option<Error>)
    requires InGoodOrder(store.st)
    modifies store
    ensures InGoodOrder(store.st) && Evolves(old(store.st), store.st)
    ensures store.deeds == Written(old(store.deeds), old(store.st), store.st)
    ensures err.None? ==> effect.status == InDoubt(found.status) && effect.createdAt == found.createdAt
    ensures task.run in old(store.st).runs ==>
              if Overtaken(old(store.st), key, found) then err.Some? && store.st == old(store.st)
              else err.None? && Doubted(task, key, found, old(store.st), store.st)
  {
    hide InGoodOrder, Evolves, EffectTx, CommittedWith, Updated, Recorded, Written, Telling;
    effect, err := found, None;
    EvolvesReflexive(store.st);
    NothingWritten(store.deeds, store.st);
    if effect.status == EffectRunning {
      if task.run in store.st.runs { MarkedInDoubt(store.st, task, key, found); }
      err := Transition(store, task, key, effect, EffectRunning, EffectUnknown, OWNER_STOPPED, Some(EvEffectUnknown));
      if err.Some? { return; }
      effect := effect.(status := EffectUnknown, lastError := OWNER_STOPPED.error);
      EvolvesReflexive(store.st);
    }
  }

  lemma ResolvedByHuman(deeds: seq<Deed>, task: Task, d: Descriptor, key: Key, found: Effect, answer: Resolution,
                        tool: ToolResult, s: State, a: Attempt, t: State, r: Execution)
    requires Doubted(task, key, found, s, a.marked) && Evolves(a.marked, a.chosen)
    requires GaveUp(task, key, InDoubt(found.status), a.chosen, t, false, r)
    requires Outlived(d.keyTTL, found.createdAt, a.chosen.clock) ||
             !(d.class_.ClassIdempotentByKey? || (d.class_.ClassQueryable? && d.canAsk))
    ensures Resolved(task, d, key, found, answer, tool, s, a, t, false, r)
    ensures ResolveDeeds(deeds, task.payload, d, key, found, answer, s, a, t, false) ==
            Written(Written(deeds, s, a.marked), a.chosen, t)
  {
    hide Recorded, Evolves, HandedOver, Outlived, Written, Performed, Answered, PerformDeeds, AnswerDeeds;
  }

  lemma ResolvedByKey(deeds: seq<Deed>, task: Task, d: Descriptor, key: Key, found: Effect, answer: Resolution,
                      tool: ToolResult, s: State, a: Attempt, t: State, sent: bool, r: Execution)
    requires Doubted(task, key, found, s, a.marked) && Evolves(a.marked, a.chosen) &&
             !Outlived(d.keyTTL, found.createdAt, a.chosen.clock)
    requires d.class_.ClassIdempotentByKey?
    requires Performed(task, key, InDoubt(found.status), tool, a.chosen, a.running, a.at, t, sent, r)
    ensures Resolved(task, d, key, found, answer, tool, s, a, t, sent, r)
    ensures ResolveDeeds(deeds, task.payload, d, key, found, answer, s, a, t, sent) ==
            PerformDeeds(Written(deeds, s, a.marked), key, task.payload, a.chosen, a.running, a.at, t, sent)
  {
    hide Recorded, Evolves, HandedOver, Outlived, Written, Performed, Answered, PerformDeeds, AnswerDeeds, GaveUp;
  }

  lemma ResolvedByAsking(deeds: seq<Deed>, task: Task, d: Descriptor, key: Key, found: Effect, answer: Resolution,
                         tool: ToolResult, s: State, a: Attempt, t: State, sent: bool, r: Execution)
    requires Doubted(task, key, found, s, a.marked) && Evolves(a.marked, a.chosen) &&
             !Outlived(d.keyTTL, found.createdAt, a.chosen.clock)
    requires d.class_.ClassQueryable? && d.canAsk && Evolves(a.chosen, a.asked)
    requires Answered(task, key, InDoubt(found.status), answer, tool, a.asked, a.running, a.at, t, sent, r)
    ensures Resolved(task, d, key, found, answer, tool, s, a, t, sent, r)
    ensures ResolveDeeds(deeds, task.payload, d, key, found, answer, s, a, t, sent) ==
            AnswerDeeds(Written(deeds, s, a.marked), key, task.payload, answer, a.asked, a.running, a.at, t, sent)
  {
    hide Recorded, Evolves, HandedOver, Outlived, Written, Performed, Answered, PerformDeeds, AnswerDeeds, GaveUp;
  }

  /** resolve: each class gets the only treatment that is sound for it. */
  method Resolve(store: Store, task: Task, d: Descriptor, key: Key, found: Effect, answer: Resolution, tool: ToolResult)
    returns (r: Execution, sent: bool, ghost a: Attempt)
    requires InGoodOrder(store.st)
    modifies store
    ensures InGoodOrder(store.st) && Evolves(old(store.st), store.st)
    ensures r.Done? ==> CommittedWith(store.st, key, r.result)
    ensures task.run in old(store.st).runs ==>
              Resolved(task, d, key, found, answer, tool, old(store.st), a, store.st, sent, r)
    ensures task.run in old(store.st).runs ==>
              store.deeds ==
              ResolveDeeds(old(store.deeds), task.payload, d, key, found, answer, old(store.st), a, store.st, sent)
    ensures Outlived(d.keyTTL, found.createdAt, old(store.st).clock) || !d.class_.CanAutoResolve() ==>
            r.NotDone? && !sent
  {
    hide InGoodOrder, Evolves, CommittedWith, NoteTx, HandedOver, Performed, PerformDeeds, Recorded, Written, Answered,
         AnswerDeeds, Doubted, Resolved, ResolveDeeds, GaveUp;
    ghost var s, deeds := store.st, store.deeds;
    sent, a := false, Nowhere(s);
    ghost var known := task.run in s.runs;
    var effect, err := CastDoubt(store, task, key, found);
    if err.Some? {
      NotResolved(deeds, task, d, key, found, answer, tool, s, NotDone(err.value));
      return NotDone(err.value), sent, a;
    }
    ghost var b := store.st;
    Interfere(store);
    ghost var c := store.st;
    EvolvesTransitive(s, b, c);
    TimeGoesOn(s, c);
    a := Nowhere(c).(marked := b);
    ExpiresIff(d, effect, c.clock);
    if d.KeyExpired(effect, store.st.clock) {
      r := Escalate(store, task, key, effect, "key retention has elapsed");
      if known { ResolvedByHuman(deeds, task, d, key, found, answer, tool, s, a, store.st, r); }
    } else {
      ghost var asked, running, at;
      match d.class_ {
        case ClassIdempotentByKey =>
          r, sent, running, at := Perform(store, task, key, effect, tool);
          a := a.(running := running, at := at);
          if known { ResolvedByKey(deeds, task, d, key, found, answer, tool, s, a, store.st, sent, r); }
        case ClassQueryable =>
          r, sent, asked, running, at := Query(store, task, d, key, effect, answer, tool);
          a := a.(asked := asked, running := running, at := at);
          if known && d.canAsk { ResolvedByAsking(deeds, task, d, key, found, answer, tool, s, a, store.st, sent, r); }
          if known && !d.canAsk { ResolvedByHuman(deeds, task, d, key, found, answer, tool, s, a, store.st, r); }
        case _ =>
          r := Escalate(store, task, key, effect, "outcomes cannot be resolved automatically");
          if known { ResolvedByHuman(deeds, task, d, key, found, answer, tool, s, a, store.st, r); }
      }
    }
    EvolvesTransitive(s, c, store.st);
  }

  lemma NotResolved(deeds: seq<Deed>, task: Task, d: Descriptor, key: Key, found: Effect, answer: Resolution,
                    tool: ToolResult, s: State, r: Execution)
    requires r.NotDone?
    ensures Overtaken(s, key, found) ==>
              && Resolved(task, d, key, found, answer, tool, s, Nowhere(s), s, false, r)
              && ResolveDeeds(deeds, task.payload, d, key, found, answer, s, Nowhere(s), s, false) == deeds
    ensures Written(deeds, s, s) == deeds
  {
    hide Doubted, Performed, Answered, GaveUp;
  }

  lemma TimeGoesOn(a: State, b: State)
    requires Evolves(a, b)
    ensures a.clock <= b.clock
  {
    hide RunsEvolve, TasksEvolve, LedgerEvolves, SignalsEvolve, OutboxEvolves;
  }

  /** What a reservation of a free key adds: a PENDING row of this task. */
  ghost predicate Reserved(s: State, t: State, id: TaskId, task: Task, class_: EffectClass, key: Key) {
    && t == s.(effects := t.effects, events := t.events)
    && t.effects == s.effects[key := Effect(id, task.run, task.tool, class_, EffectPending, task.payload, None, "", "",
                                            s.clock, s.clock)]
    && Appends(s, t, task.run, EvEffectCreated, key, EffectPending, None)
  }

  lemma ReservationReserves(s: State, id: TaskId, task: Task, class_: EffectClass, key: Key, wanted: Effect)
    requires task.run in s.runs && id in s.tasks
    requires wanted == Effect(id, task.run, task.tool, class_, EffectPending, task.payload, None, "", "", 0, 0)
    ensures var res := ReserveTx(s, key, wanted, task.step, s.clock);
            if key in s.effects then res == Abort(EffectExists, s)
            else res.Commit? && Reserved(s, res.st, id, task, class_, key)
  {
    StampIs(Hist(s, task.run), Fact(EvEffectCreated, task.step, EffectFact(key, wanted, "")));
  }

  /** reserve: one conditional insert; a taken key is answered from the ledger.
      The task and its run are there, so nothing but the store itself could fail
      it, and the key, once taken, is never free again. */
  method Reserve(store: Store, id: TaskId, task: Task, class_: EffectClass, key: Key)
    returns (found: Effect, ghost reserved: State)
    requires InGoodOrder(store.st) && key == KeyOf(task)
    requires id in store.st.tasks && store.st.tasks[id].run == task.run && store.st.tasks[id].step == task.step
    modifies store
    ensures InGoodOrder(store.st) && Evolves(old(store.st), store.st)
    ensures key in store.st.effects && store.st.effects[key].status == found.status
    ensures found.status.EffectCommitted? ==> CommittedWith(store.st, key, found.response)
    ensures key in old(store.st).effects && old(store.st).effects[key].status.EffectCommitted? ==>
              found == old(store.st).effects[key]
    ensures if key in old(store.st).effects then reserved == old(store.st) && found == store.st.effects[key]
            else found.status.EffectPending? && reserved == store.st &&
                 Reserved(old(store.st), reserved, id, task, class_, key)
    ensures store.deeds == Written(old(store.deeds), old(store.st), reserved)
  {
    hide InGoodOrder, Inv, Evolves, NoEarlyAnswers, Log, KeyOf, Written, Appends;
    ghost var a := store.st;
    var wanted := Effect(id, task.run, task.tool, class_, EffectPending, task.payload, None, "", "", 0, 0);
    GoodParts(a);
    RunOfTask(a, id);
    ReservationKeeps(a, id, task, key, wanted, task.step);
    ReservationReserves(a, id, task, class_, key, wanted);
    var tx := new Tx(store.st);
    var err := tx.ReserveEffect(key, wanted);
    if err.None? {
      err := tx.Append(task.run, EvEffectCreated, task.step, EffectFact(key, wanted, ""));
    }
    store.Finish(tx, err);
    assert store.st == ReserveTx(a, key, wanted, task.step, a.clock).st;
    GoodWhole(store.st);
    reserved := store.st;
    if err.None? { return wanted, reserved; }
    ghost var b := store.st;
    Interfere(store);
    EvolvesTransitive(a, b, store.st);
    RowStands(a, store.st, key);
    return store.st.effects[key], reserved;
  }

  lemma RowStands(a: State, b: State, key: Key)
    requires Evolves(a, b) && key in a.effects
    ensures key in b.effects && (a.effects[key].status.EffectCommitted? ==> b.effects[key] == a.effects[key])
  {
    hide RunsEvolve, TasksEvolve, SignalsEvolve, OutboxEvolves;
  }

  lemma RunOfTask(s: State, id: TaskId)
    requires Inv(s) && id in s.tasks
    ensures s.tasks[id].run in s.runs
  {
    hide Inv;
    InvParts(s);
  }

  lemma GoodParts(s: State)
    requires InGoodOrder(s)
    ensures Inv(s) && NoEarlyAnswers(s)
  {
  }

  lemma GoodWhole(s: State)
    requires Inv(s) && NoEarlyAnswers(s)
    ensures InGoodOrder(s)
  {
  }

  lemma ReservationKeeps(s: State, id: TaskId, task: Task, key: Key, e: Effect, step: StepId)
    requires Inv(s) && NoEarlyAnswers(s) && key == KeyOf(task) && e.task == id && e.run == task.run && e.response.None?
    requires id in s.tasks && s.tasks[id].run == task.run && s.tasks[id].step == task.step
    ensures var t := ReserveTx(s, key, e, step, s.clock).st; Inv(t) && Evolves(s, t) && NoEarlyAnswers(t)
  {
    hide Inv, Evolves, NoEarlyAnswers, ReserveTx;
    assert Reservable(s, key, e);
    ReserveKeepsInv(s, key, e, step, s.clock);
    ReserveKeepsAnswers(s, key, e, step, s.clock);
  }

  /** When an attempt may send: the action was never begun or definitely did not
      happen, or its outcome is open, the key still good at that moment, and
      either the provider deduplicates or it says that nothing happened. */
  predicate MaySend(d: Descriptor, row: Effect, answer: Resolution, now: Time) {
    match row.status
    case EffectPending | EffectFailed => true
    case EffectCommitted => false
    case EffectRunning | EffectUnknown =>
      !Outlived(d.keyTTL, row.createdAt, now) &&
      (d.class_.ClassIdempotentByKey? || (d.class_.ClassQueryable? && d.canAsk && answer.ResolvedNotExecuted?))
  }

  /** What the ledger machine's provider has said. */
  function SaidBy(answer: Resolution): Ledger.Answer {
    match answer
    case ResolvedCommitted(_, _) => Ledger.SaysDone
    case ResolvedNotExecuted => Ledger.SaysNotExecuted
    case _ => Ledger.SaysUnknown
  }

  /** Deciding, marking and asking one after the other. */
  function CameTo(m: Ledger.Ledger, i: nat, said: Ledger.Answer): Ledger.Ledger {
    Ledger.Take(Ledger.Take(Ledger.Take(m, Ledger.Decide(i)), Ledger.Mark(i)), Ledger.Ask(i, said))
  }

  /** These are the Begins of the ledger machine: as long as the key is good, an
      actor that holds the row comes to begin, after deciding, marking and
      asking, exactly if the executor may send. */
  lemma SendsAreBegins(m: Ledger.Ledger, i: nat, d: Descriptor, row: Effect, answer: Resolution, now: Time)
    requires i < |m.actors| && m.actors[i] == Ledger.Holding(row.status) && m.row == Some(row.status)
    requires m.class_ == d.class_ && m.asks == d.canAsk && d.class_.HasConsequence()
    requires Ledger.Truthful(m.requests, SaidBy(answer)) && !Outlived(d.keyTTL, row.createdAt, now)
    ensures MaySend(d, row, answer, now) <==> CameTo(m, i, SaidBy(answer)).actors[i].Beginning?
  {
  }

  /** How often something was sent. */
  ghost function Sends(deeds: seq<Deed>): nat {
    if deeds == [] then 0 else Sends(deeds[..|deeds| - 1]) + if deeds[|deeds| - 1].Sent? then 1 else 0
  }

  lemma SendsOfOne(deeds: seq<Deed>, deed: Deed)
    ensures Sends(deeds + [deed]) == Sends(deeds) + if deed.Sent? then 1 else 0
  {
    assert (deeds + [deed])[..|deeds|] == deeds;
  }

  lemma WritingSendsNothing(deeds: seq<Deed>, s: State, t: State)
    ensures Sends(Written(deeds, s, t)) == Sends(deeds)
  {
    SendsOfOne(deeds, Wrote(s, t));
  }

  lemma PerformingSends(deeds: seq<Deed>, key: Key, payload: Json, s: State, a: Attempt, t: State, sent: bool)
    ensures Sends(PerformDeeds(deeds, key, payload, s, a.running, a.at, t, sent)) == Sends(deeds) + if sent then 1
            else 0
  {
    hide Sends, Written;
    var w := Written(deeds, s, a.running);
    WritingSendsNothing(deeds, s, a.running);
    SendsOfOne(w, Sent(key, payload));
    WritingSendsNothing(w + [Sent(key, payload)], a.at, t);
  }

  lemma AnsweringSends(deeds: seq<Deed>, task: Task, key: Key, from: EffectStatus, answer: Resolution, tool: ToolResult,
                       s: State, a: Attempt, t: State, sent: bool, r: Execution)
    requires Answered(task, key, from, answer, tool, s, a.running, a.at, t, sent, r)
    ensures Sends(AnswerDeeds(deeds, key, task.payload, answer, s, a.running, a.at, t, sent)) ==
            Sends(deeds) + if sent then 1 else 0
    ensures sent ==> answer.ResolvedNotExecuted?
  {
    hide Sends, Written, Performed, PerformDeeds, Recorded;
    WritingSendsNothing(deeds, s, t);
    PerformingSends(deeds, key, task.payload, s, a, t, sent);
  }

  /** Resolving sends at most once, and only what may be sent. */
  lemma ResolvingSends(deeds: seq<Deed>, task: Task, d: Descriptor, key: Key, found: Effect, answer: Resolution,
                       tool: ToolResult, s: State, a: Attempt, t: State, sent: bool, r: Execution)
    requires Resolved(task, d, key, found, answer, tool, s, a, t, sent, r)
    requires found.status.EffectRunning? || found.status.EffectUnknown?
    ensures Sends(ResolveDeeds(deeds, task.payload, d, key, found, answer, s, a, t, sent)) ==
            Sends(deeds) + if sent then 1 else 0
    ensures sent ==> MaySend(d, found, answer, a.chosen.clock)
  {
    hide Sends, Written, Performed, PerformDeeds, Recorded, Answered, AnswerDeeds, HandedOver, Evolves, Outlived,
         Overtaken, Doubted;
    var marked := Written(deeds, s, a.marked);
    WritingSendsNothing(deeds, s, a.marked);
    WritingSendsNothing(marked, a.chosen, t);
    PerformingSends(marked, key, task.payload, a.chosen, a, t, sent);
    if d.class_.ClassQueryable? && d.canAsk && !Outlived(d.keyTTL, found.createdAt, a.chosen.clock) &&
       !Overtaken(s, key, found) {
      AnsweringSends(marked, task, key, InDoubt(found.status), answer, tool, a.asked, a, t, sent, r);
    }
  }

  /** What one attempt makes of the row it has read: a committed one is answered
      from the ledger, one that never began or definitely did not happen is
      performed, and an open one is resolved, or left to a human. */
  ghost predicate ActedOn(task: Task, d: Descriptor, key: Key, row: Effect, answer: Resolution, tool: ToolResult,
                          a: Attempt, t: State, sent: bool, r: Execution) {
    match row.status
    case EffectCommitted => !sent && r == Done(row.response)
    case EffectPending | EffectFailed => Performed(task, key, row.status, tool, a.begun, a.running, a.at, t, sent, r)
    case EffectRunning | EffectUnknown =>
      if d.class_.ClassIdempotentByKey? || d.class_.ClassQueryable? then
        Resolved(task, d, key, row, answer, tool, a.begun, a, t, sent, r)
      else GaveUp(task, key, row.status, a.begun, t, sent, r)
  }

  ghost function ActDeeds(deeds: seq<Deed>, payload: Json, d: Descriptor, key: Key, row: Effect, answer: Resolution,
                          a: Attempt, t: State, sent: bool): seq<Deed> {
    match row.status
    case EffectCommitted => deeds
    case EffectPending | EffectFailed => PerformDeeds(deeds, key, payload, a.begun, a.running, a.at, t, sent)
    case EffectRunning | EffectUnknown =>
      if d.class_.ClassIdempotentByKey? || d.class_.ClassQueryable? then
        ResolveDeeds(deeds, payload, d, key, row, answer, a.begun, a, t, sent)
      else Written(deeds, a.begun, t)
  }

  lemma ActingSends(deeds: seq<Deed>, task: Task, d: Descriptor, key: Key, row: Effect, answer: Resolution,
                    tool: ToolResult, a: Attempt, t: State, sent: bool, r: Execution)
    requires ActedOn(task, d, key, row, answer, tool, a, t, sent, r)
    ensures Sends(ActDeeds(deeds, task.payload, d, key, row, answer, a, t, sent)) ==
            Sends(deeds) + if sent then 1 else 0
    ensures sent ==> MaySend(d, row, answer, a.chosen.clock)
  {
    hide Sends, Written, Performed, PerformDeeds, Resolved, ResolveDeeds, HandedOver, Outlived;
    match row.status {
      case EffectCommitted =>
      case EffectPending | EffectFailed => PerformingSends(deeds, key, task.payload, a.begun, a, t, sent);
      case EffectRunning | EffectUnknown =>
        if d.class_.ClassIdempotentByKey? || d.class_.ClassQueryable? {
          ResolvingSends(deeds, task, d, key, row, answer, tool, a.begun, a, t, sent, r);
        } else {
          WritingSendsNothing(deeds, a.begun, t);
        }
    }
  }

  /** The row as the attempt read it: a row of its own reservation, or what it
      found under the key. */
  ghost predicate ReadFrom(s: State, a: Attempt, id: TaskId, task: Task, class_: EffectClass) {
    && KeyOf(task) in a.read.effects && Evolves(s, a.read) && Evolves(a.read, a.begun)
    && if KeyOf(task) in s.effects then a.reserved == s
       else a.reserved == a.read && Reserved(s, a.reserved, id, task, class_, KeyOf(task))
  }

  /** What Execute does with the row it holds. */
  method ActOn(store: Store, task: Task, d: Descriptor, key: Key, effect: Effect, answer: Resolution, tool: ToolResult)
    returns (r: Execution, sent: bool, ghost a: Attempt)
    requires InGoodOrder(store.st) && d.class_.HasConsequence()
    requires effect.status.EffectCommitted? ==> CommittedWith(store.st, key, effect.response)
    modifies store
    ensures InGoodOrder(store.st) && Evolves(old(store.st), store.st)
    ensures r.Done? ==> CommittedWith(store.st, key, r.result)
    ensures a.begun == old(store.st)
    ensures effect.status.EffectCommitted? ==> r == Done(effect.response)
    ensures task.run in old(store.st).runs ==> ActedOn(task, d, key, effect, answer, tool, a, store.st, sent, r)
    ensures task.run in old(store.st).runs ==>
              store.deeds == ActDeeds(old(store.deeds), task.payload, d, key, effect, answer, a, store.st, sent)
  {
    hide InGoodOrder, Evolves, CommittedWith, NoteTx, GaveUp, Performed, PerformDeeds, Resolved, ResolveDeeds, Written,
         Tried, Outlived, Ledger.Moves, Ledger.RowOf, Ledger.Classified, OutcomeOf, NoteTx, CommittedWith;
    ghost var s := store.st;
    EvolvesReflexive(s);
    sent, a := false, Nowhere(s);
    match RecoveryFor(true, effect.status, d.class_) {
      case RecoverComplete => r := Done(effect.response);
      case RecoverExecute =>
        ghost var running, at;
        r, sent, running, at := Perform(store, task, key, effect, tool);
        a := a.(running := running, at := at);
      case RecoverReconcile =>
        ghost var p;
        r, sent, p := Resolve(store, task, d, key, effect, answer, tool);
        a := p.(begun := s);
        if task.run in s.runs { ResolvedMeans(task, d, key, effect, answer, tool, s, p, store.st, sent, r, a); }
      case RecoverEscalate => r := Escalate(store, task, key, effect, "outcomes cannot be resolved automatically");
    }
  }

  lemma ResolvedMeans(task: Task, d: Descriptor, key: Key, found: Effect, answer: Resolution, tool: ToolResult,
                      s: State,
                      a: Attempt, t: State, sent: bool, r: Execution, b: Attempt)
    requires Resolved(task, d, key, found, answer, tool, s, a, t, sent, r)
    requires b == a.(reserved := b.reserved, read := b.read, begun := b.begun)
    ensures Resolved(task, d, key, found, answer, tool, s, b, t, sent, r)
    ensures forall deeds, payload ::
              ResolveDeeds(deeds, payload, d, key, found, answer, s, a, t, sent) ==
              ResolveDeeds(deeds, payload, d, key, found, answer, s, b, t, sent)
  {
    hide Performed, PerformDeeds, Recorded, Written, Answered, AnswerDeeds, HandedOver, Evolves, Outlived, Overtaken,
         GaveUp, Doubted;
  }

  /** The attempt's own copy is the row, except that a fresh one has no dates. */
  lemma ActedMeans(deeds: seq<Deed>, task: Task, d: Descriptor, key: Key, copy: Effect, row: Effect, answer: Resolution,
                   tool: ToolResult, a: Attempt, t: State, sent: bool, r: Execution, b: Attempt)
    requires ActedOn(task, d, key, copy, answer, tool, a, t, sent, r) && b == a.(reserved := b.reserved, read := b.read)
    requires row == copy || (row.status.EffectPending? && copy.status.EffectPending?)
    ensures ActedOn(task, d, key, row, answer, tool, b, t, sent, r)
    ensures ActDeeds(deeds, task.payload, d, key, copy, answer, a, t, sent) ==
            ActDeeds(deeds, task.payload, d, key, row, answer, b, t, sent)
  {
    hide Performed, PerformDeeds, Resolved, ResolveDeeds, Written, GaveUp;
    if Resolved(task, d, key, row, answer, tool, a.begun, a, t, sent, r) {
      ResolvedMeans(task, d, key, row, answer, tool, a.begun, a, t, sent, r, b);
    }
  }

  /** One attempt at a task, from s to t: without consequences the handler simply
      runs, and otherwise the row that was read says what is done. */
  ghost predicate Attempted(tools: Registry, id: TaskId, task: Task, answer: Resolution, tool: ToolResult, s: State,
                            a: Attempt, t: State, sent: bool, r: Execution) {
    if task.tool !in tools then r == NotDone(ToolNotFound) && !sent && t == s
    else
      var d := tools[task.tool];
      if d.class_.ClassNone? then
        t == s && sent && r == if tool.ToolOk? then Done(tool.result) else NotDone(ToolError)
      else
        ReadFrom(s, a, id, task, d.class_) &&
        ActedOn(task, d, KeyOf(task), a.read.effects[KeyOf(task)], answer, tool, a, t, sent, r)
  }

  ghost function AttemptDeeds(deeds: seq<Deed>, tools: Registry, task: Task, answer: Resolution, s: State, a: Attempt,
                              t: State, sent: bool): seq<Deed>
    requires task.tool in tools && tools[task.tool].class_.HasConsequence() ==> KeyOf(task) in a.read.effects
  {
    if task.tool !in tools then deeds
    else
      var d := tools[task.tool];
      if d.class_.ClassNone? then deeds + [Sent("", task.payload)]
      else
        ActDeeds(Written(deeds, s, a.reserved), task.payload, d, KeyOf(task), a.read.effects[KeyOf(task)], answer, a, t,
                 sent)
  }

  lemma UnledgeredAttempt(deeds: seq<Deed>, tools: Registry, id: TaskId, task: Task, answer: Resolution,
                          tool: ToolResult,
                          s: State, a: Attempt)
    ensures task.tool !in tools ==>
              && Attempted(tools, id, task, answer, tool, s, a, s, false, NotDone(ToolNotFound))
              && AttemptDeeds(deeds, tools, task, answer, s, a, s, false) == deeds
    ensures task.tool in tools && !tools[task.tool].class_.HasConsequence() ==>
              && Attempted(tools, id, task, answer, tool, s, a, s, true,
                           if tool.ToolOk? then Done(tool.result) else NotDone(ToolError))
              && AttemptDeeds(deeds, tools, task, answer, s, a, s, true) == deeds + [Sent("", task.payload)]
  {
  }

  lemma LedgeredAttempt(deeds: seq<Deed>, tools: Registry, id: TaskId, task: Task, answer: Resolution, tool: ToolResult,
                        s: State, a: Attempt, t: State, sent: bool, r: Execution)
    requires task.tool in tools && tools[task.tool].class_.HasConsequence()
    requires ReadFrom(s, a, id, task, tools[task.tool].class_)
    requires ActedOn(task, tools[task.tool], KeyOf(task), a.read.effects[KeyOf(task)], answer, tool, a, t, sent, r)
    ensures Attempted(tools, id, task, answer, tool, s, a, t, sent, r)
    ensures AttemptDeeds(deeds, tools, task, answer, s, a, t, sent) ==
            ActDeeds(Written(deeds, s, a.reserved), task.payload, tools[task.tool], KeyOf(task),
                     a.read.effects[KeyOf(task)], answer, a, t, sent)
  {
    hide KeyOf, Evolves, Reserved, ActedOn, ActDeeds, Written;
  }

  /** Execute: for a tool with consequences, what the row says decides what is
      done, and a result is always what the ledger holds, committed, whoever got
      it there. At most one request is sent, and only if it may be; of a tool that
      nobody can settle an open outcome is left to a human, and that is all. */
  method Execute(store: Store, tools: Registry, id: TaskId, task: Task, answer: Resolution, tool: ToolResult)
    returns (r: Execution, sent: bool, ghost a: Attempt)
    requires InGoodOrder(store.st)
    requires id in store.st.tasks && store.st.tasks[id].run == task.run && store.st.tasks[id].step == task.step
    modifies store
    ensures InGoodOrder(store.st) && Evolves(old(store.st), store.st)
    ensures task.tool in tools && tools[task.tool].class_.HasConsequence() ==> KeyOf(task) in a.read.effects
    ensures Attempted(tools, id, task, answer, tool, old(store.st), a, store.st, sent, r)
    ensures store.deeds == AttemptDeeds(old(store.deeds), tools, task, answer, old(store.st), a, store.st, sent)
    ensures r.Done? ==>
              task.tool in tools &&
              (tools[task.tool].class_.HasConsequence() ==> CommittedWith(store.st, KeyOf(task), r.result))
    ensures task.tool in tools && tools[task.tool].class_.HasConsequence() &&
            KeyOf(task) in old(store.st).effects && old(store.st).effects[KeyOf(task)].status.EffectCommitted? ==>
              r == Done(old(store.st).effects[KeyOf(task)].response)
    ensures Sends(store.deeds) == Sends(old(store.deeds)) + if sent then 1 else 0
    ensures sent && task.tool in tools && tools[task.tool].class_.HasConsequence() ==>
              MaySend(tools[task.tool], a.read.effects[KeyOf(task)], answer, a.chosen.clock)
    ensures task.tool in tools && tools[task.tool].class_.ClassUnreconcilable? ==>
              var status := a.read.effects[KeyOf(task)].status;
              status.EffectRunning? || status.EffectUnknown? ==>
                && !sent && r == NotDone(Escalated)
                && HandedOver(a.begun, store.st, KeyOf(task), task.run, status)
                && store.deeds == Written(old(store.deeds), a.begun, store.st)
  {
    hide InGoodOrder, Evolves, CommittedWith, KeyOf, ActedOn, ActDeeds, Written, Reserved, Sends, MaySend, HandedOver,
         Attempted, AttemptDeeds;
    ghost var s, deeds := store.st, store.deeds;
    EvolvesReflexive(s);
    sent, a := false, Nowhere(s);
    UnledgeredAttempt(deeds, tools, id, task, answer, tool, s, a);
    if task.tool !in tools { return NotDone(ToolNotFound), sent, a; }
    var d := tools[task.tool];
    if !d.class_.HasConsequence() {
      Call(store, "", task.payload);
      SendsOfOne(deeds, Sent("", task.payload));
      match tool {
        case ToolOk(result, _) => return Done(result), true, a;
        case ToolFailed(_, _) => return NotDone(ToolError), true, a;
      }
    }
    var key := NewKey(task.run, task.step, FIRST_EFFECT);
    assert key == KeyOf(task) by { KeyIs(task); }
    var effect, reserved := Reserve(store, id, task, d.class_, key);
    ghost var b, written := store.st, store.deeds;
    Interfere(store);
    ghost var c := store.st;
    EvolvesTransitive(s, b, c);
    RunRemains(s, c, id);
    if effect.status.EffectCommitted? { CommittedStays(b, c, key, effect.response); }
    ghost var p;
    r, sent, p := ActOn(store, task, d, key, effect, answer, tool);
    a := p.(reserved := reserved, read := b);
    EvolvesTransitive(s, c, store.st);
    ActedMeans(written, task, d, key, effect, b.effects[key], answer, tool, p, store.st, sent, r, a);
    LedgeredAttempt(deeds, tools, id, task, answer, tool, s, a, store.st, sent, r);
    WritingSendsNothing(deeds, s, reserved);
    ActingSends(written, task, d, key, b.effects[key], answer, tool, a, store.st, sent, r);
    OpenIsHandedOver(deeds, s, id, task, d, answer, tool, a, store.st, sent, r);
  }

  lemma OpenIsHandedOver(deeds: seq<Deed>, s: State, id: TaskId, task: Task, d: Descriptor, answer: Resolution,
                         tool: ToolResult, a: Attempt, t: State, sent: bool, r: Execution)
    requires ReadFrom(s, a, id, task, d.class_) && task.run in a.begun.runs
    requires ActedOn(task, d, KeyOf(task), a.read.effects[KeyOf(task)], answer, tool, a, t, sent, r)
    ensures var key := KeyOf(task);
            var row := a.read.effects[key];
            d.class_.ClassUnreconcilable? && (row.status.EffectRunning? || row.status.EffectUnknown?) ==>
              && !sent && r == NotDone(Escalated) && HandedOver(a.begun, t, key, task.run, row.status)
              && ActDeeds(Written(deeds, s, a.reserved), task.payload, d, key, row, answer, a, t, sent) ==
                 Written(deeds, a.begun, t)
  {
    hide Evolves, KeyOf, HandedOver, Performed, PerformDeeds, Resolved, ResolveDeeds, Appends;
  }

  lemma RunRemains(s: State, t: State, id: TaskId)
    requires InGoodOrder(s) && Evolves(s, t) && id in s.tasks
    ensures s.tasks[id].run in t.runs
  {
    hide Inv, Evolves, NoEarlyAnswers;
    RunOfTask(s, id);
    RunStays(s, t, s.tasks[id].run);
  }

  lemma KeyIs(task: Task)
    ensures NewKey(task.run, task.step, FIRST_EFFECT) == KeyOf(task)
  {
  }
}
