/** Whole runs of the system: any number of engines, workers, reapers, senders
    and relays, interleaved one transaction at a time. A step is a committed or
    aborted transaction; what an actor read before it is given by positions in
    the past, so reads may be stale, deliveries may be duplicated, dropped or
    reordered, and an actor that has crashed is one that never steps again. */
module Behaviours {
  import opened Prelude
  import opened Names
  import opened Core
  import opened Tables
  import opened Waits
  import opened Invariants
  import opened Transactions
  import opened TaskSteps
  import opened RunSteps
  import opened Advancing

  type Tools = map<string, EffectClass>

  datatype Action =
    | Tick(now: Time)
    | Start(r: RunId, agent: string, version: string, input: Json)
    | Advance(cfg: Config, r: RunId, i: nat, j: nat, l: nat, found: Option<string>, now: Time, ids: seq<TaskId>)
    | FailRun(r: RunId, i: nat, reason: string)
    | Claim(id: TaskId, worker: string, ttl: int)
    | Heartbeat(id: TaskId, token: int, ttl: int)
    | Complete(id: TaskId, token: int, result: Json, seen: nat)
    | FailTask(id: TaskId, token: int, reason: string, escalated: bool, delay: int)
    | Reclaim(id: TaskId, stale: Lease, reason: string, now: Time)
    | Deliver(r: RunId, i: nat, signal: string, name: string, payload: Json)
    | Register(worker: string)
    | Mark(delivered: set<int>, failed: map<int, string>)
    | Reserve(id: TaskId)
    | MoveEffect(key: Key, from: EffectStatus, to: EffectStatus, out: EffectOutcome, run: RunId, fact: Option<Fact>)
    | Escalate(run: RunId, note: Fact)

  function Last(past: seq<State>): State
    requires past != []
  {
    past[|past| - 1]
  }

  function KeyOf(t: Task): Key {
    NewKey(t.run, t.step, FIRST_EFFECT)
  }

  /** The ledger row that stands for an external action done, with this answer. */
  predicate CommittedWith(s: State, key: Key, result: Json) {
    key in s.effects && s.effects[key].status.EffectCommitted? && s.effects[key].response == result
  }

  /** A worker reports success with what Execute returned to it: anything for a
      tool without consequence; otherwise what the ledger held, committed, at
      some moment. */
  predicate Executed(tools: Tools, past: seq<State>, id: TaskId, result: Json, seen: nat)
    requires past != []
  {
    var s := Last(past);
    id in s.tasks && s.tasks[id].tool in tools &&
    (tools[s.tasks[id].tool].HasConsequence() ==>
     seen < |past| && CommittedWith(past[seen], KeyOf(s.tasks[id]), result))
  }

  ghost predicate AdvanceEnabled(past: seq<State>, a: Action)
    requires past != [] && a.Advance?
  {
    && a.i <= a.j <= a.l < |past| && a.r in past[a.i].runs && a.cfg.maxAttempts >= 1 && a.now <= Last(past).clock
    && (a.found.Some? ==> SignalKey(a.r, a.found.value) in past[a.l].signals)
    && (Pending(Hist(past[a.j], a.r)).Some? ==>
          Chosen(past[a.l].signals, a.r, Pending(Hist(past[a.j], a.r)).value.signal,
                 Ids(Consumed(Hist(past[a.j], a.r))), a.found))
  }

  function FreshEffect(tools: Tools, t: Task, id: TaskId): Effect
    requires t.tool in tools
  {
    Effect(id, t.run, t.tool, tools[t.tool], EffectPending, t.payload, None, "", "", 0, 0)
  }

  /** What the executor and the background reconciler ask of the ledger: an
      answer only ever comes with COMMITTED, and the event is about an effect. */
  predicate Recordable(to: EffectStatus, out: EffectOutcome, fact: Option<Fact>) {
    (out.response.Some? ==> to.EffectCommitted?) && (fact.Some? ==> IsEffectEvent(fact.value.typ))
  }

  function RunFailure(run: Run, reason: string): RunState {
    RunState(RunFailed, None, reason, None)
  }

  /** The state after one step. A step that is not enabled changes nothing. */
  ghost function Next(tools: Tools, past: seq<State>, a: Action): State
    requires past != []
  {
    var s := Last(past);
    match a
    case Tick(now) => if now >= s.clock then s.(clock := now) else s
    case Start(r, agent, version, input) => StartRunTx(s, r, agent, version, input).st
    case Advance(cfg, r, i, j, l, found, now, ids) =>
      if AdvanceEnabled(past, a)
      then CommitTx(cfg, s, r, past[i].runs[r],
                    Pass(cfg, r, past[i].runs[r], Hist(past[j], r), past[l].signals, found, now), ids).st
      else s
    case FailRun(r, i, reason) =>
      if i < |past| && r in past[i].runs && !past[i].runs[r].status.IsTerminal()
      then AdvanceTx(s, r, past[i].runs[r].version, RunFailure(past[i].runs[r], reason),
                     Some(Fact(EvRunFailed, "", RunFailedData(reason)))).st
      else s
    case Claim(id, worker, ttl) => ClaimTx(s, id, worker, s.clock, ttl).st
    case Heartbeat(id, token, ttl) => HeartbeatTx(s, id, token, s.clock, ttl).st
    case Complete(id, token, result, seen) =>
      if Executed(tools, past, id, result, seen) then CompleteTx(s, id, token, result, s.clock).st else s
    case FailTask(id, token, reason, escalated, delay) => FailTx(s, id, token, reason, escalated, delay, s.clock).st
    case Reclaim(id, stale, reason, now) => if now <= s.clock then ReclaimTx(s, id, stale, reason, now).st else s
    case Deliver(r, i, signal, name, payload) =>
      if i < |past| && r in past[i].runs && !past[i].runs[r].status.IsTerminal()
      then DeliverTx(s, r, signal, name, payload, s.clock).st
      else s
    case Register(worker) => RegisterTx(s, worker).st
    case Mark(delivered, failed) => MarkTx(s, delivered, failed).st
    case Reserve(id) =>
      if id in s.tasks && s.tasks[id].tool in tools
      then ReserveTx(s, KeyOf(s.tasks[id]), FreshEffect(tools, s.tasks[id], id), s.tasks[id].step, s.clock).st
      else s
    case MoveEffect(key, from, to, out, run, fact) =>
      if Recordable(to, out, fact) then EffectTx(s, key, from, to, out, run, fact, s.clock).st else s
    case Escalate(run, fact) =>
      if IsEffectEvent(fact.typ) then NoteTx(s, run, fact).st else s
  }

  /** Every state a sequence of steps goes through, from the empty store on. */
  ghost function States(tools: Tools, acts: seq<Action>): (past: seq<State>)
    ensures |past| == |acts| + 1
  {
    if acts == [] then [EMPTY]
    else
      var past := States(tools, acts[..|acts| - 1]);
      past + [Next(tools, past, acts[|acts| - 1])]
  }

  /** Every state is in order, and stands to every earlier one as it should. */
  ghost predicate Good(past: seq<State>) {
    (forall k :: 0 <= k < |past| ==> Inv(past[k])) &&
    (forall i, j :: 0 <= i <= j < |past| ==> Evolves(past[i], past[j]))
  }

  lemma GoodAt(past: seq<State>, i: nat, j: nat)
    requires Good(past) && i <= j < |past|
    ensures Inv(past[i]) && Inv(past[j]) && Evolves(past[i], past[j])
  {
    hide Inv, Evolves;
  }

  lemma AdvanceKeeps(tools: Tools, past: seq<State>, a: Action)
    requires past != [] && Good(past) && a.Advance?
    ensures Inv(Next(tools, past, a)) && Evolves(Last(past), Next(tools, past, a))
  {
    hide Inv, Evolves, Good, Pass, CommitTx, Chosen, Pending, Consumed, Ids, Hist;
    var k := |past| - 1;
    GoodAt(past, k, k);
    if AdvanceEnabled(past, a) {
      GoodAt(past, a.i, a.j);
      GoodAt(past, a.j, k);
      GoodAt(past, a.i, k);
      GoodAt(past, a.l, k);
      PassKeepsInv(a.cfg, a.r, past[a.i], past[a.j], past[a.l], past[k], a.found, a.now, a.ids);
    }
  }

  lemma FailRunKeeps(tools: Tools, past: seq<State>, a: Action)
    requires past != [] && Good(past) && a.FailRun?
    ensures Inv(Next(tools, past, a)) && Evolves(Last(past), Next(tools, past, a))
  {
    hide Inv, Evolves, Good, AdvanceTx, MayRecord, RunEvolves;
    var k := |past| - 1;
    var s := past[k];
    GoodAt(past, k, k);
    if a.i < |past| && a.r in past[a.i].runs && !past[a.i].runs[a.r].status.IsTerminal() {
      var run := past[a.i].runs[a.r];
      var fact := Some(Fact(EvRunFailed, "", RunFailedData(a.reason)));
      GoodAt(past, a.i, k);
      RunEvolvesOf(past[a.i], s, a.r);
      if AdvanceError(s, a.r, run.version, RunFailure(run, a.reason)).None? {
        FailureMayBeRecorded(past[a.i], s, a.r, a.reason);
      }
      AdvanceKeepsInv(s, a.r, run.version, RunFailure(run, a.reason), fact);
    }
  }

  lemma FailureMayBeRecorded(a: State, s: State, r: RunId, reason: string)
    requires r in a.runs && r in s.runs && RunEvolves(a, s, r)
    requires s.runs[r].version == a.runs[r].version && !a.runs[r].status.IsTerminal()
    ensures MayRecord(s, r, RunFailure(a.runs[r], reason), Some(Fact(EvRunFailed, "", RunFailedData(reason))))
  {
    hide Pending, Consumed, Hist, Fresh;
  }

  lemma WorkKeeps(tools: Tools, past: seq<State>, a: Action)
    requires past != [] && Inv(Last(past))
    requires a.Claim? || a.Heartbeat? || a.Complete? || a.FailTask? || a.Reclaim?
    ensures Inv(Next(tools, past, a)) && Evolves(Last(past), Next(tools, past, a))
  {
    hide Inv, Evolves, ClaimTx, HeartbeatTx, CompleteTx, FailTx, ReclaimTx, Executed;
    var s := Last(past);
    EvolvesReflexive(s);
    match a {
      case Claim(id, worker, ttl) => ClaimKeepsInv(s, id, worker, s.clock, ttl);
      case Heartbeat(id, token, ttl) => HeartbeatKeepsInv(s, id, token, s.clock, ttl);
      case Complete(id, token, result, _) => CompleteKeepsInv(s, id, token, result, s.clock);
      case FailTask(id, token, reason, escalated, delay) =>
        FailKeepsInv(s, id, token, reason, escalated, delay, s.clock);
      case Reclaim(id, stale, reason, now) =>
        if now <= s.clock { ReclaimKeepsInv(s, id, stale, reason, now); }
      case _ =>
    }
  }

  lemma FreshIsReservable(tools: Tools, s: State, id: TaskId)
    requires id in s.tasks && s.tasks[id].tool in tools
    ensures Reservable(s, KeyOf(s.tasks[id]), FreshEffect(tools, s.tasks[id], id))
  {
  }

  lemma RestKeeps(tools: Tools, past: seq<State>, a: Action)
    requires past != [] && Inv(Last(past))
    requires a.Tick? || a.Start? || a.Deliver? || a.Register? || a.Mark? || a.Reserve? || a.MoveEffect? || a.Escalate?
    ensures Inv(Next(tools, past, a)) && Evolves(Last(past), Next(tools, past, a))
  {
    hide Inv, Evolves, StartRunTx, DeliverTx, RegisterTx, MarkTx, ReserveTx, EffectTx, IsEffectEvent, KeyOf,
         Reservable, FreshEffect, LogOn, Beside;
    var s := Last(past);
    EvolvesReflexive(s);
    match a {
      case Tick(now) => if now >= s.clock { TickKeepsInv(s, now); }
      case Start(r, agent, version, input) => StartKeepsInv(s, r, agent, version, input);
      case Deliver(r, _, signal, name, payload) => DeliverKeepsInv(s, r, signal, name, payload);
      case Register(worker) => RegisterKeepsInv(s, worker);
      case Mark(delivered, failed) => MarkKeepsInv(s, delivered, failed);
      case Reserve(id) =>
        if id in s.tasks && s.tasks[id].tool in tools {
          FreshIsReservable(tools, s, id);
          ReserveKeepsInv(s, KeyOf(s.tasks[id]), FreshEffect(tools, s.tasks[id], id), s.tasks[id].step, s.clock);
        }
      case MoveEffect(key, from, to, out, run, fact) =>
        if Recordable(to, out, fact) { EffectKeepsInv(s, key, from, to, out, run, fact, s.clock); }
      case Escalate(run, fact) =>
        if IsEffectEvent(fact.typ) && run in s.runs {
          EffectIsBeside(fact);
          NoteKeepsInv(s, run, fact);
        }
      case _ =>
    }
  }

  /** Every step keeps the invariants and evolves the state, whatever it read. */
  lemma NextKeeps(tools: Tools, past: seq<State>, a: Action)
    requires past != [] && Good(past)
    ensures Inv(Next(tools, past, a)) && Evolves(Last(past), Next(tools, past, a))
  {
    hide Inv, Evolves, Good, Next;
    GoodAt(past, |past| - 1, |past| - 1);
    match a {
      case Advance(_, _, _, _, _, _, _, _) => AdvanceKeeps(tools, past, a);
      case FailRun(_, _, _) => FailRunKeeps(tools, past, a);
      case Claim(_, _, _) => WorkKeeps(tools, past, a);
      case Heartbeat(_, _, _) => WorkKeeps(tools, past, a);
      case Complete(_, _, _, _) => WorkKeeps(tools, past, a);
      case FailTask(_, _, _, _, _) => WorkKeeps(tools, past, a);
      case Reclaim(_, _, _, _) => WorkKeeps(tools, past, a);
      case _ => RestKeeps(tools, past, a);
    }
  }

  lemma GoodGrows(past: seq<State>, s: State)
    requires past != [] && Good(past) && Inv(s) && Evolves(Last(past), s)
    ensures Good(past + [s])
  {
    hide Inv, Evolves;
    var k := |past| - 1;
    var all := past + [s];
    forall i, j | 0 <= i <= j < |all|
      ensures Evolves(all[i], all[j])
    {
      if j == |past| {
        if i == |past| {
          EvolvesReflexive(s);
        } else {
          assert Evolves(past[i], past[k]);
          EvolvesTransitive(past[i], past[k], s);
        }
      } else {
        assert Evolves(past[i], past[j]);
      }
    }
  }

  lemma EmptyIsGood()
    ensures Good([EMPTY])
  {
    EvolvesReflexive(EMPTY);
    assert Inv(EMPTY);
  }

  /** The main invariant: every reachable state is in order. */
  lemma {:induction false} AllReachable(tools: Tools, acts: seq<Action>)
    ensures Good(States(tools, acts))
  {
    hide Good, Next, Inv, Evolves;
    if acts == [] {
      EmptyIsGood();
    } else {
      var before := acts[..|acts| - 1];
      AllReachable(tools, before);
      var past := States(tools, before);
      NextKeeps(tools, past, acts[|acts| - 1]);
      GoodGrows(past, Next(tools, past, acts[|acts| - 1]));
    }
  }

  /** The states of a longer behaviour extend those of a shorter one. */
  lemma {:induction false} StatesExtend(tools: Tools, acts: seq<Action>, k: nat)
    requires k <= |acts|
    ensures States(tools, acts)[..k + 1] == States(tools, acts[..k])
  {
    hide Next;
    if k == |acts| {
      assert acts[..k] == acts;
      assert States(tools, acts)[..k + 1] == States(tools, acts);
    } else {
      var n := |acts| - 1;
      StatesExtend(tools, acts[..n], k);
      assert acts[..n][..k] == acts[..k];
      assert States(tools, acts)[..n + 1] == States(tools, acts[..n]);
      assert States(tools, acts)[..k + 1] == States(tools, acts)[..n + 1][..k + 1];
    }
  }

  lemma StepAt(tools: Tools, acts: seq<Action>, k: nat)
    requires k < |acts|
    ensures var past := States(tools, acts);
            past[k + 1] == Next(tools, past[..k + 1], acts[k])
  {
    hide Next;
    StatesExtend(tools, acts, k + 1);
    StatesExtend(tools, acts, k);
    var past := States(tools, acts);
    assert acts[..k + 1][..k] == acts[..k];
    assert past[k + 1] == past[..k + 2][k + 1];
  }
}
