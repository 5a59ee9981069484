/** The background reconciler (internal/effects/reconciler.go). It settles what
    no live task will ever settle, and it only ever asks: nothing here sends. */
module Reconciling {
  import opened Prelude
  import opened Names
  import opened Core
  import opened Tables
  import opened Invariants
  import opened Transactions
  import opened Advancing
  import opened Memory
  import opened TaskEngine
  import opened Executor
  import opened Queries
  import opened Behaviours
  import opened LedgerFrames
  import Ledger

  /** The steps it takes carry no step name: they belong to no live task. */
  function Owner(effect: Effect): Task {
    Task(effect.run, "", effect.tool, None, TaskPending, 0, 0, "")
  }

  // ----- the two transactions -----

  /** RUNNING becomes UNKNOWN, with the event that says so. */
  function MarkingTx(s: State, key: Key, effect: Effect): TxResult {
    EffectTx(s, key, EffectRunning, EffectUnknown, OWNER_STOPPED, effect.run,
             Some(Telling(Owner(effect), key, effect, EffectUnknown, OWNER_STOPPED, EvEffectUnknown)), s.clock)
  }

  /** What a definite answer makes of the effect. */
  datatype Verdict = Verdict(to: EffectStatus, out: EffectOutcome)

  function VerdictOf(answer: Resolution): Option<Verdict> {
    match answer
    case ResolvedCommitted(response, ref) => Some(Verdict(EffectCommitted, EffectOutcome(response, ref, "")))
    case ResolvedNotExecuted =>
      Some(Verdict(EffectFailed, EffectOutcome(None, "", "reconciled: the provider confirms this never happened")))
    case _ => None
  }

  /** UNKNOWN becomes what the provider said, with the event that says so. */
  function SettlingTx(s: State, key: Key, effect: Effect, v: Verdict): TxResult {
    EffectTx(s, key, EffectUnknown, v.to, v.out, effect.run,
             Some(Telling(Owner(effect), key, effect, v.to, v.out, EvEffectReconciled)), s.clock)
  }

  /** Somebody who settled it meanwhile is no error. */
  function Tolerated(err: Option<Error>): Option<Error> {
    if err == Some(Conflict) then None else err
  }

  /** markUnknown: losing to somebody who settled it meanwhile is fine. */
  method MarkUnknown(store: Store, key: Key, effect: Effect) returns (err: Option<Error>)
    requires InGoodOrder(store.st)
    modifies store
    ensures InGoodOrder(store.st) && Evolves(old(store.st), store.st)
    ensures store.st == MarkingTx(old(store.st), key, effect).st
    ensures store.deeds == Written(old(store.deeds), old(store.st), store.st)
    ensures err == Tolerated(ErrorOf(MarkingTx(old(store.st), key, effect)))
    ensures key in old(store.st).effects && old(store.st).effects[key].status.EffectRunning? &&
            effect.run in old(store.st).runs ==>
              err.None? && Recorded(old(store.st), store.st, key, effect.run, EffectUnknown, OWNER_STOPPED,
                                    EvEffectUnknown)
    ensures key in old(store.st).effects && !old(store.st).effects[key].status.EffectRunning? ==>
              err.None? && store.st == old(store.st)
  {
    hide InGoodOrder, Evolves, Telling, Log, Recorded, Written;
    ghost var s := store.st;
    if key in s.effects && s.effects[key].status.EffectRunning? && effect.run in s.runs {
      TransitionTells(s, Owner(effect), key, effect, EffectRunning, EffectUnknown, OWNER_STOPPED, EvEffectUnknown);
    }
    err := Transition(store, Owner(effect), key, effect, EffectRunning, EffectUnknown, OWNER_STOPPED,
                      Some(EvEffectUnknown));
    if err == Some(Conflict) { err := None; }
  }

  /** record: only an UNKNOWN effect is settled, and only once. */
  method Record(store: Store, key: Key, effect: Effect, v: Verdict) returns (err: Option<Error>)
    requires InGoodOrder(store.st) && (v.to.EffectCommitted? || (v.to.EffectFailed? && v.out.response.None?))
    modifies store
    ensures InGoodOrder(store.st) && Evolves(old(store.st), store.st)
    ensures store.st == SettlingTx(old(store.st), key, effect, v).st
    ensures store.deeds == Written(old(store.deeds), old(store.st), store.st)
    ensures err == Tolerated(ErrorOf(SettlingTx(old(store.st), key, effect, v)))
    ensures key in old(store.st).effects && old(store.st).effects[key].status.EffectUnknown? &&
            effect.run in old(store.st).runs ==>
              err.None? && Recorded(old(store.st), store.st, key, effect.run, v.to, v.out, EvEffectReconciled)
    ensures key in old(store.st).effects && !old(store.st).effects[key].status.EffectUnknown? ==>
              err.None? && store.st == old(store.st)
  {
    hide InGoodOrder, Evolves, Telling, Log, Recorded, Written;
    ghost var s := store.st;
    if key in s.effects && s.effects[key].status.EffectUnknown? && effect.run in s.runs {
      TransitionTells(s, Owner(effect), key, effect, EffectUnknown, v.to, v.out, EvEffectReconciled);
    }
    err := Transition(store, Owner(effect), key, effect, EffectUnknown, v.to, v.out, Some(EvEffectReconciled));
    if err == Some(Conflict) { err := None; }
  }

  // ----- one effect -----

  /** The row as the sweep goes on with it. */
  function AsMarked(listed: Effect): Effect {
    listed.(status := if listed.status.EffectRunning? then EffectUnknown else listed.status)
  }

  /** What a sweep first does to a listed effect of a tool it knows. */
  function Marking(s: State, key: Key, listed: Effect): TxResult {
    if listed.status.EffectRunning? then MarkingTx(s, key, listed) else Commit(s)
  }

  function MarkedIn(tools: Registry, s: State, key: Key, listed: Effect): State {
    if listed.tool in tools then Marking(s, key, listed).st else s
  }

  /** Whether the provider is asked at all. */
  predicate Asks(tools: Registry, listed: Effect, now: Time) {
    listed.tool in tools && tools[listed.tool].canAsk && !Outlived(tools[listed.tool].keyTTL, listed.createdAt, now)
  }

  /** One effect, from the tables a sweep takes it up in to those it leaves: known
      tools have it marked, and if it could be marked or was already gone, may be
      asked about, and the provider is definite, the answer is recorded over
      whatever the tables have become by then, which is asked. */
  ghost predicate TakenUp(tools: Registry, key: Key, listed: Effect, answer: Resolution, now: Time,
                          before: State, asked: State, after: State, settled: bool, err: Option<Error>)
  {
    if listed.tool !in tools then after == before && !settled && err.None?
    else
      var marked := Marking(before, key, listed);
      var refused := Tolerated(ErrorOf(marked));
      if refused.Some? then after == marked.st && !settled && err == refused
      else if !Asks(tools, listed, now) then after == marked.st && !settled && err.None?
      else
        && Evolves(marked.st, asked) && (settled <==> VerdictOf(answer).Some?)
        && (if settled then
              var res := SettlingTx(asked, key, AsMarked(listed), VerdictOf(answer).value);
              after == res.st && err == Tolerated(ErrorOf(res))
            else after == asked && err.None?)
  }

  /** What the answer makes of a row that is UNKNOWN when it comes in, and of any
      other, which somebody else has seen to. Only a definite answer settles. */
  ghost predicate AsTold(key: Key, run: RunId, answer: Resolution, asked: State, after: State, settled: bool) {
    match answer
    case LookupFailed(_) => !settled && after == asked
    case ResolvedUnknown => !settled && after == asked
    case ResolvedCommitted(response, ref) =>
      settled && key in asked.effects &&
      if asked.effects[key].status.EffectUnknown? then
        Recorded(asked, after, key, run, EffectCommitted, EffectOutcome(response, ref, ""), EvEffectReconciled) &&
        CommittedWith(after, key, response)
      else after == asked
    case ResolvedNotExecuted =>
      settled && key in asked.effects &&
      if asked.effects[key].status.EffectUnknown? then
        (exists text ::
          Recorded(asked, after, key, run, EffectFailed, EffectOutcome(None, "", text), EvEffectReconciled)) &&
        after.effects[key].status.EffectFailed? && after.effects[key].response.None?
      else after == asked
  }

  /** The second half of settle: the provider is asked, and what it says is taken. */
  method Take(store: Store, key: Key, effect: Effect, answer: Resolution)
    returns (settled: bool, err: Option<Error>, ghost asked: State)
    requires InGoodOrder(store.st)
    modifies store
    ensures InGoodOrder(store.st) && InGoodOrder(asked) && Evolves(old(store.st), asked) && Evolves(asked, store.st)
    ensures settled <==> VerdictOf(answer).Some?
    ensures if settled then
              var res := SettlingTx(asked, key, effect, VerdictOf(answer).value);
              store.st == res.st && err == Tolerated(ErrorOf(res))
            else store.st == asked && err.None?
    ensures store.deeds == Written(old(store.deeds), asked, store.st)
  {
    hide InGoodOrder, Evolves, SettlingTx, Recorded, Written;
    Interfere(store);
    asked := store.st;
    NothingWritten(store.deeds, asked);
    EvolvesReflexive(asked);
    match answer {
      case LookupFailed(_) => settled, err := false, None;
      case ResolvedUnknown => settled, err := false, None;
      case ResolvedCommitted(response, ref) =>
        settled := true;
        err := Record(store, key, effect, Verdict(EffectCommitted, EffectOutcome(response, ref, "")));
      case ResolvedNotExecuted =>
        settled := true;
        err := Record(store, key, effect,
                      Verdict(EffectFailed,
                              EffectOutcome(None, "", "reconciled: the provider confirms this never happened")));
    }
  }

  /** settle: what it finds out becomes the row, if the row is still UNKNOWN by
      then. A lookup that fails, or a tool it cannot ask about, settles nothing,
      and in no case is anything sent. */
  method Settle(store: Store, tools: Registry, key: Key, listed: Effect, answer: Resolution, now: Time)
    returns (settled: bool, err: Option<Error>, ghost marked: State, ghost asked: State)
    requires InGoodOrder(store.st)
    modifies store
    ensures InGoodOrder(store.st) && Evolves(old(store.st), store.st) && InGoodOrder(asked)
    ensures TakenUp(tools, key, listed, answer, now, old(store.st), asked, store.st, settled, err)
    ensures key in old(store.st).effects && listed.run in old(store.st).runs && Asks(tools, listed, now) ==>
              err.None? && AsTold(key, listed.run, answer, asked, store.st, settled)
    ensures store.deeds == Written(Written(old(store.deeds), old(store.st), marked), asked, store.st)
    ensures marked == MarkedIn(tools, old(store.st), key, listed)
  {
    hide InGoodOrder, Evolves, MarkingTx, SettlingTx, Recorded, AsTold, Written, Outlived;
    ghost var a, deeds := store.st, store.deeds;
    EvolvesReflexive(a);
    NothingWritten(deeds, a);
    marked, asked := a, a;
    if listed.tool !in tools { return false, None, marked, asked; }
    var d := tools[listed.tool];
    var effect := listed;
    ExpiresIff(d, effect, now);
    if effect.status == EffectRunning {
      err := MarkUnknown(store, key, effect);
      marked, asked := store.st, store.st;
      NothingWritten(store.deeds, asked);
      if err.Some? { return false, err, marked, asked; }
      effect := effect.(status := EffectUnknown);
    }
    if d.KeyExpired(effect, now) { return false, None, marked, asked; }
    if !d.canAsk { return false, None, marked, asked; }
    ghost var b := store.st;
    settled, err, asked := Take(store, key, effect, answer);
    EvolvesTransitive(a, b, asked);
    EvolvesTransitive(a, asked, store.st);
    KnownAnswers(tools, key, listed, answer, now, a, asked, store.st, settled, err);
  }

  lemma KnownAnswers(tools: Registry, key: Key, listed: Effect, answer: Resolution, now: Time,
                     before: State, asked: State, after: State, settled: bool, err: Option<Error>)
    requires TakenUp(tools, key, listed, answer, now, before, asked, after, settled, err)
    requires Evolves(before, asked) && InGoodOrder(asked)
    ensures key in before.effects && listed.run in before.runs && Asks(tools, listed, now) ==>
              err.None? && AsTold(key, listed.run, answer, asked, after, settled)
  {
    hide Inv, Evolves, NoEarlyAnswers, TakenUp, AsTold, Asks;
    if key in before.effects && listed.run in before.runs && Asks(tools, listed, now) {
      RowStands(before, asked, key);
      RunStays(before, asked, listed.run);
      DefiniteAnswers(tools, key, listed, answer, now, before, asked, after, settled, err);
    }
  }

  /** What comes of an effect the provider may be asked about, told without the
      transaction: if the row is still UNKNOWN by then it becomes the answer, and
      otherwise it stays what somebody else made of it. Either way the sweep
      counts a definite answer as settled. */
  lemma DefiniteAnswers(tools: Registry, key: Key, listed: Effect, answer: Resolution, now: Time,
                        before: State, asked: State, after: State, settled: bool, err: Option<Error>)
    requires TakenUp(tools, key, listed, answer, now, before, asked, after, settled, err) && Asks(tools, listed, now)
    requires key in before.effects && listed.run in before.runs
    requires key in asked.effects && listed.run in asked.runs && NoEarlyAnswers(asked)
    ensures err.None? && AsTold(key, listed.run, answer, asked, after, settled)
  {
    hide Recorded, Evolves, Marking, Telling, Log, NoEarlyAnswers, EffectTx;
    MarkingIsTolerated(before, key, listed);
    if VerdictOf(answer).Some? {
      var v := VerdictOf(answer).value;
      TransitionTells(asked, Owner(AsMarked(listed)), key, AsMarked(listed), EffectUnknown, v.to, v.out,
                      EvEffectReconciled);
      if asked.effects[key].status.EffectUnknown? {
        RecordedRow(asked, after, key, listed.run, v.to, v.out, EvEffectReconciled);
      }
    }
  }

  lemma MarkingIsTolerated(s: State, key: Key, listed: Effect)
    requires key in s.effects && listed.run in s.runs
    ensures Tolerated(ErrorOf(Marking(s, key, listed))).None?
  {
    hide Log, Telling, Moved;
  }

  lemma RecordedRow(s: State, t: State, key: Key, run: RunId, to: EffectStatus, out: EffectOutcome, typ: EventType)
    requires NoEarlyAnswers(s) && Recorded(s, t, key, run, to, out, typ) && s.effects[key].status.EffectUnknown?
    ensures key in t.effects && t.effects[key].status == to && t.effects[key].response == out.response
  {
    hide Appends;
  }

  /** It is what the ledger machine's sweep records: after marking and asking, it
      comes to record UNKNOWN as what it was told, or is gone. */
  lemma SettlesAsTheMachine(m: Ledger.Ledger, i: nat, answer: Resolution)
    requires i < |m.actors| && m.actors[i] == Ledger.Marking(true) && m.asks
    requires Ledger.Truthful(m.requests, SaidBy(answer))
    ensures var n := Ledger.Take(Ledger.Take(m, Ledger.Mark(i)), Ledger.Ask(i, SaidBy(answer)));
            && n.requests == m.requests
            && match answer
               case ResolvedCommitted(_, _) => n.actors[i] == Ledger.Recording(EffectUnknown, EffectCommitted)
               case ResolvedNotExecuted => n.actors[i] == Ledger.Recording(EffectUnknown, EffectFailed)
               case _ => n.actors[i] == Ledger.Gone
  {
  }

  // ----- a sweep -----

  /** One listed effect, as a sweep dealt with it. */
  datatype Visit = Visit(key: Key, before: State, marked: State, asked: State, after: State, settled: bool,
                         err: Option<Error>)

  /** All a sweep does: per effect it marks, and it records what it was told. */
  ghost function SweepDeeds(deeds: seq<Deed>, visits: seq<Visit>): seq<Deed> {
    if visits == [] then deeds
    else
      var v := visits[|visits| - 1];
      Written(Written(SweepDeeds(deeds, visits[..|visits| - 1]), v.before, v.marked), v.asked, v.after)
  }

  /** It only ever asks: nothing is sent. */
  lemma {:induction false} SweepsSendNothing(deeds: seq<Deed>, visits: seq<Visit>)
    ensures Sends(SweepDeeds(deeds, visits)) == Sends(deeds)
  {
    hide Sends, Written;
    if visits != [] {
      var v := visits[|visits| - 1];
      var sofar := SweepDeeds(deeds, visits[..|visits| - 1]);
      SweepsSendNothing(deeds, visits[..|visits| - 1]);
      WritingSendsNothing(sofar, v.before, v.marked);
      WritingSendsNothing(Written(sofar, v.before, v.marked), v.asked, v.after);
    }
  }

  function Counted(visits: seq<Visit>): nat {
    if visits == [] then 0
    else
      var v := visits[|visits| - 1];
      Counted(visits[..|visits| - 1]) + if v.settled && v.err.None? then 1 else 0
  }

  /** The effect as the sweep read it in s, taken up after prev and others in between. */
  ghost predicate VisitOf(v: Visit, tools: Registry, s: State, key: Key, answers: Key -> Resolution, prev: State) {
    && v.key == key && key in s.effects && Evolves(prev, v.before)
    && v.marked == MarkedIn(tools, v.before, key, s.effects[key])
    && TakenUp(tools, key, s.effects[key], answers(key), s.clock, v.before, v.asked, v.after, v.settled, v.err)
    && (Asks(tools, s.effects[key], s.clock) ==>
          v.err.None? && AsTold(key, s.effects[key].run, answers(key), v.asked, v.after, v.settled))
  }

  /** Where the tables stood after the first i visits. */
  function StoodAt(visits: seq<Visit>, s: State, i: nat): State
    requires i <= |visits|
  {
    if i == 0 then s else visits[i - 1].after
  }

  /** The visits of a sweep that read its rows in s, one key after the other. */
  ghost predicate Visited(visits: seq<Visit>, tools: Registry, s: State, keys: seq<Key>, answers: Key -> Resolution) {
    |visits| <= |keys| &&
    forall i :: 0 <= i < |visits| ==> VisitOf(visits[i], tools, s, keys[i], answers, StoodAt(visits, s, i))
  }

  /** ReconcileOnce: every stale effect the query lists is taken up once, oldest
      first, and one that cannot be settled does not stop the others. */
  method ReconcileOnce(store: Store, tools: Registry, staleAfter: int, batch: int, answers: Key -> Resolution)
    returns (count: nat, ghost keys: seq<Key>, ghost visits: seq<Visit>)
    requires InGoodOrder(store.st)
    modifies store
    ensures InGoodOrder(store.st) && Evolves(old(store.st), store.st)
    ensures var s := old(store.st);
            Lists(keys, Unresolved(s, s.clock - staleAfter), ByTime(LastTouched(s)), batch)
    ensures |visits| == |keys| && Visited(visits, tools, old(store.st), keys, answers)
    ensures store.st == StoodAt(visits, old(store.st), |visits|)
    ensures count == Counted(visits)
    ensures store.deeds == SweepDeeds(old(store.deeds), visits)
    ensures Sends(store.deeds) == Sends(old(store.deeds))
  {
    hide InGoodOrder, Evolves, TakenUp, LexLess, Lists, Visited, Counted, Unresolved, MarkedIn, AsTold, Asks, Sends,
         SweepDeeds, Written;
    ghost var deeds := store.deeds;
    ghost var a := store.st;
    EvolvesReflexive(a);
    var now := store.st.clock;
    var listed := UnresolvedEffects(store.st, now - staleAfter, batch);
    keys, visits := listed, [];
    NoVisits(tools, a, listed, answers);
    NoDeeds(deeds);
    ListedAreRows(a, now - staleAfter, listed, batch);
    var rows := store.st.effects;
    count := 0;
    for i := 0 to |listed|
      invariant InGoodOrder(store.st) && Evolves(a, store.st)
      invariant |visits| == i && Visited(visits, tools, a, listed, answers) && count == Counted(visits)
      invariant store.st == StoodAt(visits, a, |visits|) && store.deeds == SweepDeeds(deeds, visits)
    {
      ghost var b := store.st;
      Interfere(store);
      ghost var c := store.st;
      EvolvesTransitive(a, b, c);
      var key := listed[i];
      KnownRow(a, c, key);
      var done, err, marked, asked := Settle(store, tools, key, rows[key], answers(key), now);
      EvolvesTransitive(a, c, store.st);
      OneMoreDeed(deeds, visits, Visit(key, c, marked, asked, store.st, done, err));
      OneMore(visits, tools, a, listed, answers, Visit(key, c, marked, asked, store.st, done, err));
      visits := visits + [Visit(key, c, marked, asked, store.st, done, err)];
      if err.Some? { continue; }
      if done {
        count := count + 1;
      }
    }
    SweepsSendNothing(deeds, visits);
  }

  lemma NoDeeds(deeds: seq<Deed>)
    ensures SweepDeeds(deeds, []) == deeds
  {
  }

  lemma OneMoreDeed(deeds: seq<Deed>, visits: seq<Visit>, v: Visit)
    ensures SweepDeeds(deeds, visits + [v]) ==
            Written(Written(SweepDeeds(deeds, visits), v.before, v.marked), v.asked, v.after)
  {
    hide Written;
    assert (visits + [v])[..|visits|] == visits;
  }

  lemma KnownRow(a: State, c: State, key: Key)
    requires InGoodOrder(a) && Evolves(a, c) && key in a.effects
    ensures key in c.effects && a.effects[key].run in c.runs
  {
    hide Inv, Evolves, NoEarlyAnswers;
    EffectHasRun(a, key);
    RowStands(a, c, key);
    RunStays(a, c, a.effects[key].run);
  }

  lemma EffectHasRun(s: State, key: Key)
    requires Inv(s) && key in s.effects
    ensures s.effects[key].run in s.runs
  {
    hide HistoriesOk, TasksOk, RunsOk, IndexOk, SignalsOk;
  }

  lemma NoVisits(tools: Registry, s: State, keys: seq<Key>, answers: Key -> Resolution)
    ensures Visited([], tools, s, keys, answers) && Counted([]) == 0
  {
  }

  lemma OneMore(visits: seq<Visit>, tools: Registry, s: State, keys: seq<Key>, answers: Key -> Resolution, v: Visit)
    requires Visited(visits, tools, s, keys, answers) && |visits| < |keys|
    requires VisitOf(v, tools, s, keys[|visits|], answers, StoodAt(visits, s, |visits|))
    ensures Visited(visits + [v], tools, s, keys, answers)
    ensures Counted(visits + [v]) == Counted(visits) + if v.settled && v.err.None? then 1 else 0
  {
    hide VisitOf;
    var more := visits + [v];
    assert more[..|visits|] == visits;
    forall i | 0 <= i < |more|
      ensures VisitOf(more[i], tools, s, keys[i], answers, StoodAt(more, s, i))
    {
      assert more[i] == if i < |visits| then visits[i] else v;
      assert StoodAt(more, s, i) == StoodAt(visits, s, i);
    }
  }

  lemma ListedAreRows(s: State, before: Time, out: seq<Key>, limit: int)
    requires Lists(out, Unresolved(s, before), ByTime(LastTouched(s)), limit)
    ensures forall i :: 0 <= i < |out| ==> out[i] in s.effects
  {
    hide LexLess;
    forall i | 0 <= i < |out|
      ensures out[i] in s.effects
    {
      assert out[i] in Elements(out);
    }
  }
}
