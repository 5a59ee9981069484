/** One external action and everyone who may be working on it: any number of
    executors and background sweeps, each at its own place in the code of
    internal/effects, over one ledger row and a provider whose requests may take
    effect late, or never. Steps interleave freely, and an actor may stop at
    any point for good. */
module Ledger {
  import opened Prelude
  import opened Names
  import opened Core
  import opened Tables
  import opened Transactions

  /** One request as the provider sees it. Open: it may still take effect. */
  datatype Request = Open | Acted | Barred

  datatype Actor =
    | Starting                                       // about to reserve
    | Refused                                        // the key is taken: about to read the row
    | Holding(copy: EffectStatus)                    // a local copy of the row, perhaps stale
    | Marking(sweep: bool)                           // about to record RUNNING -> UNKNOWN
    | Asking(sweep: bool)                            // about to ask the provider
    | Beginning(from: EffectStatus)                  // about to record from -> RUNNING
    | Sending                                        // RUNNING is committed, nothing sent yet
    | Waiting(request: nat)                          // the tool's handler is running
    | Recording(from: EffectStatus, to: EffectStatus)
    | Gone                                           // returned, or crashed

  /** asks: the tool comes with a reconciler. The registry demands one of a
      QUERYABLE tool and allows any other to have one. */
  datatype Ledger = Ledger(class_: EffectClass, asks: bool, row: Option<EffectStatus>, actors: seq<Actor>,
                           requests: seq<Request>)

  datatype Outcome = Succeeded | NotExecuted | Ambiguous

  datatype Answer = SaysDone | SaysNotExecuted | SaysUnknown

  datatype Step =
    | Execute                       // a worker starts an attempt
    | Sweep                         // a sweep's query returns this row
    | Reserve(a: nat) | Read(a: nat) | Decide(a: nat) | Mark(a: nat)
    | Ask(a: nat, answer: Answer)
    | Begin(a: nat) | Send(a: nat)
    | Return(a: nat, outcome: Outcome)
    | Record(a: nat)
    | Crash(a: nat)                 // or any early return: an escalation, an expired key, a store error
    | Act(i: nat) | Bar(i: nat)     // the provider's own progress

  // ----- what the provider may truthfully say -----

  /** Nothing has happened, and nothing already sent ever will. */
  predicate Quiet(requests: seq<Request>) {
    forall i :: 0 <= i < |requests| ==> requests[i].Barred?
  }

  predicate Happened(requests: seq<Request>) {
    exists i :: 0 <= i < |requests| && requests[i].Acted?
  }

  function TimesActed(requests: seq<Request>): nat {
    if requests == [] then 0
    else TimesActed(requests[..|requests| - 1]) + (if requests[|requests| - 1].Acted? then 1 else 0)
  }

  predicate Truthful(requests: seq<Request>, answer: Answer) {
    match answer
    case SaysDone => Happened(requests)
    case SaysNotExecuted => Quiet(requests)
    case SaysUnknown => true
  }

  predicate TrueOutcome(request: Request, outcome: Outcome) {
    match outcome
    case Succeeded => request.Acted?
    case NotExecuted => request.Barred?
    case Ambiguous => true
  }

  /** ClassifyFailure, and success beside it. */
  function Classified(outcome: Outcome): EffectStatus {
    match outcome
    case Succeeded => EffectCommitted
    case NotExecuted => EffectFailed
    case Ambiguous => EffectUnknown
  }

  // ----- one step -----

  /** TransitionEffect: conditional on the status the caller believes. */
  predicate Moves(row: Option<EffectStatus>, from: EffectStatus, to: EffectStatus) {
    row == Some(from) && from.CanTransitionTo(to)
  }

  function Put(m: Ledger, a: nat, pc: Actor): Ledger
    requires a < |m.actors|
  {
    m.(actors := m.actors[a := pc])
  }

  /** What Execute does with the row it holds. */
  function Decided(m: Ledger, copy: EffectStatus): Actor {
    match RecoveryFor(true, copy, m.class_)
    case RecoverComplete => Gone
    case RecoverExecute => Beginning(copy)
    case RecoverEscalate => Gone
    case RecoverReconcile => if copy.EffectRunning? then Marking(false) else Resolving(m)
  }

  /** resolve, once the row says UNKNOWN. */
  function Resolving(m: Ledger): Actor {
    match m.class_
    case ClassIdempotentByKey => Beginning(EffectUnknown)
    case ClassQueryable => if m.asks then Asking(false) else Gone
    case _ => Gone
  }

  /** A sweep asks whenever there is a reconciler to ask, whatever the class. */
  function Marked(m: Ledger, sweep: bool): Actor {
    if !sweep then Resolving(m) else if m.asks then Asking(true) else Gone
  }

  function Told(sweep: bool, answer: Answer): Actor {
    match answer
    case SaysDone => Recording(EffectUnknown, EffectCommitted)
    case SaysNotExecuted => if sweep then Recording(EffectUnknown, EffectFailed) else Beginning(EffectUnknown)
    case SaysUnknown => Gone
  }

  function StepActor(m: Ledger, a: nat, step: Step): Ledger
    requires a < |m.actors|
  {
    match (step, m.actors[a])
    case (Crash(_), _) => Put(m, a, Gone)
    case (Reserve(_), Starting) =>
      if m.row.None? then Put(m.(row := Some(EffectPending)), a, Holding(EffectPending)) else Put(m, a, Refused)
    case (Read(_), Refused) => if m.row.Some? then Put(m, a, Holding(m.row.value)) else Put(m, a, Gone)
    case (Decide(_), Holding(copy)) => Put(m, a, Decided(m, copy))
    case (Mark(_), Marking(sweep)) =>
      if Moves(m.row, EffectRunning, EffectUnknown)
      then Put(m.(row := Some(EffectUnknown)), a, Marked(m, sweep))
      // A sweep goes on when somebody else settled the row; an executor stops.
      else Put(m, a, if sweep then Marked(m, sweep) else Gone)
    case (Ask(_, answer), Asking(sweep)) => if Truthful(m.requests, answer) then Put(m, a, Told(sweep, answer)) else m
    case (Begin(_), Beginning(from)) =>
      if Moves(m.row, from, EffectRunning) then Put(m.(row := Some(EffectRunning)), a, Sending) else Put(m, a, Gone)
    case (Send(_), Sending) => Put(m.(requests := m.requests + [Open]), a, Waiting(|m.requests|))
    case (Return(_, outcome), Waiting(i)) =>
      if i < |m.requests| && TrueOutcome(m.requests[i], outcome)
      then Put(m, a, Recording(EffectRunning, Classified(outcome)))
      else m
    case (Record(_), Recording(from, to)) =>
      if Moves(m.row, from, to) then Put(m.(row := Some(to)), a, Gone) else Put(m, a, Gone)
    case _ => m
  }

  function ActorOf(step: Step): Option<nat> {
    match step
    case Reserve(a) => Some(a)
    case Read(a) => Some(a)
    case Decide(a) => Some(a)
    case Mark(a) => Some(a)
    case Ask(a, _) => Some(a)
    case Begin(a) => Some(a)
    case Send(a) => Some(a)
    case Return(a, _) => Some(a)
    case Record(a) => Some(a)
    case Crash(a) => Some(a)
    case _ => None
  }

  /** A step that is not enabled changes nothing. */
  function Take(m: Ledger, step: Step): Ledger {
    match step
    case Execute => m.(actors := m.actors + [Starting])
    case Sweep =>
      if m.row == Some(EffectRunning) then m.(actors := m.actors + [Marking(true)])
      else if m.row == Some(EffectUnknown) then m.(actors := m.actors + [Marked(m, true)])
      else m
    case Act(i) =>
      if i < |m.requests| && m.requests[i].Open? then m.(requests := m.requests[i := Acted]) else m
    case Bar(i) =>
      if i < |m.requests| && m.requests[i].Open? then m.(requests := m.requests[i := Barred]) else m
    case _ =>
      if ActorOf(step).Some? && ActorOf(step).value < |m.actors| then StepActor(m, ActorOf(step).value, step) else m
  }

  function Begun(class_: EffectClass, asks: bool): Ledger {
    Ledger(class_, asks, None, [], [])
  }

  function After(m: Ledger, steps: seq<Step>): Ledger {
    if steps == [] then m else Take(After(m, steps[..|steps| - 1]), steps[|steps| - 1])
  }

  // ----- attempts that do not overlap -----

  /** Between learning that it may act, or that nothing happened, and having
      recorded what came of that. */
  predicate Hot(a: Actor) {
    match a
    case Beginning(from) => from.EffectUnknown?
    case Sending => true
    case Waiting(_) => true
    case Recording(from, to) => from.EffectRunning? || to.EffectFailed?
    case _ => false
  }

  predicate OneHot(m: Ledger) {
    forall a, b :: 0 <= a < b < |m.actors| ==> !(Hot(m.actors[a]) && Hot(m.actors[b]))
  }

  /** Between having begun and having recorded what came of it. */
  predicate Working(a: Actor) {
    a.Sending? || a.Waiting? || (a.Recording? && a.from.EffectRunning?)
  }

  predicate NoneWorking(m: Ledger) {
    forall a :: 0 <= a < |m.actors| ==> !Working(m.actors[a])
  }

  /** Nobody has acted on it, and nothing sent so far ever will. */
  predicate Untouched(row: Option<EffectStatus>) {
    row.None? || row.value.EffectPending? || row.value.EffectFailed?
  }

  // All requests but one are barred.
  predicate OnlyLive(requests: seq<Request>, i: nat) {
    forall j :: 0 <= j < |requests| && j != i ==> requests[j].Barred?
  }

  predicate OneLive(requests: seq<Request>) {
    forall i, j :: 0 <= i < j < |requests| ==> requests[i].Barred? || requests[j].Barred?
  }

  predicate ActorOk(m: Ledger, a: Actor) {
    match a
    case Beginning(from) =>
      from.EffectPending? || from.EffectFailed? ||
        (from.EffectUnknown? && m.class_.ClassQueryable? && Quiet(m.requests))
    case Marking(sweep) => sweep || m.class_.ClassQueryable?
    case Asking(sweep) => m.asks && (sweep || m.class_.ClassQueryable?)
    case Sending => Quiet(m.requests)
    case Waiting(i) => i < |m.requests| && OnlyLive(m.requests, i)
    case Recording(from, to) =>
      (from.EffectRunning? || (from.EffectUnknown? && m.asks)) &&
      (to.EffectFailed? ==> Quiet(m.requests)) && (to.EffectCommitted? ==> Happened(m.requests))
    case _ => true
  }

  predicate Ok(m: Ledger) {
    && OneLive(m.requests)
    && (Untouched(m.row) ==> Quiet(m.requests) && NoneWorking(m))
    && (m.row == Some(EffectCommitted) ==> Happened(m.requests))
    && (forall a :: 0 <= a < |m.actors| ==> ActorOk(m, m.actors[a]))
    && OneHot(m)
  }

  /** The two classes whose provider does not itself deduplicate. */
  predicate Undeduplicated(class_: EffectClass) {
    class_.ClassQueryable? || class_.ClassUnreconcilable?
  }

  lemma PutKeepsNoneWorking(m: Ledger, a: nat, pc: Actor)
    requires a < |m.actors| && OneHot(m) && (NoneWorking(m) || Hot(m.actors[a])) && !Working(pc)
    ensures NoneWorking(Put(m, a, pc))
  {
    var n := Put(m, a, pc);
    forall x | 0 <= x < |n.actors|
      ensures !Working(n.actors[x])
    {
      if x != a { assert n.actors[x] == m.actors[x]; }
    }
  }

  lemma RecordStep(m: Ledger, a: nat)
    requires Ok(m) && Undeduplicated(m.class_) && a < |m.actors| && m.actors[a].Recording?
    ensures Ok(StepActor(m, a, Record(a)))
  {
    if NoneWorking(m) || Hot(m.actors[a]) { PutKeepsNoneWorking(m, a, Gone); }
  }

  lemma KnowingStep(m: Ledger, a: nat, step: Step)
    requires Ok(m) && Undeduplicated(m.class_) && a < |m.actors| && OneHot(StepActor(m, a, step))
    requires step.Mark? || step.Ask?
    ensures Ok(StepActor(m, a, step))
  {
  }

  lemma ActorsStep(m: Ledger, a: nat, step: Step)
    requires Ok(m) && Undeduplicated(m.class_) && a < |m.actors| && OneHot(StepActor(m, a, step))
    requires !step.Send? && !step.Record? && !step.Mark? && !step.Ask?
    ensures Ok(StepActor(m, a, step))
  {
  }

  lemma SendStep(m: Ledger, a: nat)
    requires Ok(m) && Undeduplicated(m.class_) && a < |m.actors| && OneHot(StepActor(m, a, Send(a)))
    ensures Ok(StepActor(m, a, Send(a)))
  {
  }

  lemma TakeKeepsOk(m: Ledger, step: Step)
    requires Ok(m) && Undeduplicated(m.class_) && OneHot(Take(m, step))
    ensures Ok(Take(m, step)) && Take(m, step).class_ == m.class_ && Take(m, step).asks == m.asks
  {
    if ActorOf(step).Some? && ActorOf(step).value < |m.actors| {
      hide Ok, OneHot;
      var a := ActorOf(step).value;
      if step.Send? {
        SendStep(m, a);
      } else if step.Record? {
        if m.actors[a].Recording? { RecordStep(m, a); }
      } else if step.Mark? || step.Ask? {
        KnowingStep(m, a, step);
      } else {
        ActorsStep(m, a, step);
      }
    } else if step.Act? || step.Bar? {
      ProviderStep(m, step);
    }
  }

  lemma ProviderStep(m: Ledger, step: Step)
    requires Ok(m) && (step.Act? || step.Bar?)
    ensures Ok(Take(m, step))
  {
    if step.i < |m.requests| && m.requests[step.i].Open? {
      assert !Quiet(m.requests);
      assert !Happened(m.requests);  // at most one request is not barred
    }
  }

  /** An action that can be neither deduplicated nor asked about is never worked
      on by two at once, whatever the interleaving: nothing leaves UNKNOWN. */
  lemma UnreconcilableStaysOneHot(m: Ledger, step: Step)
    requires Ok(m) && m.class_.ClassUnreconcilable? && !m.asks
    ensures OneHot(Take(m, step))
  {
    if ActorOf(step).Some? && ActorOf(step).value < |m.actors| {
      HotOnlyByBeginning(m, ActorOf(step).value, step);
    }
  }

  lemma HotOnlyByBeginning(m: Ledger, a: nat, step: Step)
    requires Ok(m) && m.class_.ClassUnreconcilable? && !m.asks && a < |m.actors|
    ensures OneHot(StepActor(m, a, step))
  {
    var n := StepActor(m, a, step);
    if Untouched(m.row) { NoneHotWhileUntouched(m); }
    assert Hot(n.actors[a]) ==> Hot(m.actors[a]) || Untouched(m.row);
    forall x, y | 0 <= x < y < |n.actors|
      ensures !(Hot(n.actors[x]) && Hot(n.actors[y]))
    {
      assert x != a ==> n.actors[x] == m.actors[x];
      assert y != a ==> n.actors[y] == m.actors[y];
    }
  }

  lemma NoneHotWhileUntouched(m: Ledger)
    requires Ok(m) && m.class_.ClassUnreconcilable? && !m.asks && Untouched(m.row)
    ensures forall x :: 0 <= x < |m.actors| ==> !Hot(m.actors[x])
  {
    forall x | 0 <= x < |m.actors|
      ensures !Hot(m.actors[x])
    {
      assert ActorOk(m, m.actors[x]) && !Working(m.actors[x]);
    }
  }

  // ----- whole runs -----

  /** Whatever the steps, attempts on this action never overlapped. */
  predicate NeverOverlaps(class_: EffectClass, asks: bool, steps: seq<Step>) {
    forall k :: 0 <= k <= |steps| ==> OneHot(After(Begun(class_, asks), steps[..k]))
  }

  lemma {:induction false} RunsAreOk(class_: EffectClass, asks: bool, steps: seq<Step>)
    requires Undeduplicated(class_) && ((class_.ClassUnreconcilable? && !asks) || NeverOverlaps(class_, asks, steps))
    ensures Ok(After(Begun(class_, asks), steps))
    ensures After(Begun(class_, asks), steps).class_ == class_ && After(Begun(class_, asks), steps).asks == asks
  {
    hide Ok, OneHot, Take;
    if steps == [] {
      BegunOk(class_, asks);
    } else {
      var n := |steps| - 1;
      if !(class_.ClassUnreconcilable? && !asks) {
        ShorterNeverOverlaps(class_, asks, steps);
        assert steps[..|steps|] == steps;
        assert OneHot(After(Begun(class_, asks), steps));
      }
      RunsAreOk(class_, asks, steps[..n]);
      var m := After(Begun(class_, asks), steps[..n]);
      if class_.ClassUnreconcilable? && !asks { UnreconcilableStaysOneHot(m, steps[n]); }
      TakeKeepsOk(m, steps[n]);
    }
  }

  lemma BegunOk(class_: EffectClass, asks: bool)
    ensures Ok(Begun(class_, asks))
  {
  }

  lemma ShorterNeverOverlaps(class_: EffectClass, asks: bool, steps: seq<Step>)
    requires steps != [] && NeverOverlaps(class_, asks, steps)
    ensures NeverOverlaps(class_, asks, steps[..|steps| - 1])
  {
    hide OneHot, After;
    var shorter := steps[..|steps| - 1];
    forall k | 0 <= k <= |shorter|
      ensures OneHot(After(Begun(class_, asks), shorter[..k]))
    {
      assert shorter[..k] == steps[..k];
    }
  }

  lemma {:induction false} QuietMeansNever(requests: seq<Request>)
    requires Quiet(requests)
    ensures TimesActed(requests) == 0
  {
    if requests != [] { QuietMeansNever(requests[..|requests| - 1]); }
  }

  lemma {:induction false} OneLiveActsOnce(requests: seq<Request>)
    requires OneLive(requests)
    ensures TimesActed(requests) == if Happened(requests) then 1 else 0
  {
    if requests != [] {
      var n := |requests| - 1;
      OneLiveActsOnce(requests[..n]);
      if requests[n].Barred? {
        if i :| 0 <= i < |requests| && requests[i].Acted? { assert requests[..n][i].Acted?; }
      } else {
        QuietMeansNever(requests[..n]);
      }
    }
  }

  /** What the row says is so: COMMITTED, the action happened, exactly once;
      PENDING or FAILED, it never happened and nothing in flight will make it
      happen; anything else, at most once. */
  predicate TellsTheTruth(m: Ledger) {
    && TimesActed(m.requests) <= 1
    && (m.row == Some(EffectCommitted) ==> TimesActed(m.requests) == 1)
    && (Untouched(m.row) ==> TimesActed(m.requests) == 0 && Quiet(m.requests))
  }

  lemma OkTellsTheTruth(m: Ledger)
    requires Ok(m)
    ensures TellsTheTruth(m)
  {
    OneLiveActsOnce(m.requests);
  }

  /** QUERYABLE: with attempts that do not overlap, a crash anywhere and any
      number of later attempts and sweeps leave the action done at most once,
      and the ledger telling the truth throughout. */
  lemma QueryableIsExact(asks: bool, steps: seq<Step>, k: nat)
    requires NeverOverlaps(ClassQueryable, asks, steps) && k <= |steps|
    ensures TellsTheTruth(After(Begun(ClassQueryable, asks), steps[..k]))
  {
    forall i | 0 <= i <= |steps[..k]|
      ensures OneHot(After(Begun(ClassQueryable, asks), steps[..k][..i]))
    {
      assert steps[..k][..i] == steps[..i];
    }
    RunsAreOk(ClassQueryable, asks, steps[..k]);
    OkTellsTheTruth(After(Begun(ClassQueryable, asks), steps[..k]));
  }

  /** UNRECONCILABLE, and without a reconciler: at most once in every
      interleaving of any number of executors and sweeps, however stale. */
  lemma UnreconcilableIsAtMostOnce(steps: seq<Step>)
    ensures TellsTheTruth(After(Begun(ClassUnreconcilable, false), steps))
  {
    RunsAreOk(ClassUnreconcilable, false, steps);
    OkTellsTheTruth(After(Begun(ClassUnreconcilable, false), steps));
  }

  /** Attempts take turns: at any moment at most one actor has not returned or
      crashed. This is something whoever runs the attempts can see to. */
  ghost predicate TakeTurns(asks: bool, steps: seq<Step>) {
    forall k :: 0 <= k <= |steps| ==> OneAtWork(After(Begun(ClassQueryable, asks), steps[..k]))
  }

  predicate OneAtWork(m: Ledger) {
    forall a, b :: 0 <= a < b < |m.actors| ==> m.actors[a].Gone? || m.actors[b].Gone?
  }

  /** That is enough for the ledger to be exact. */
  lemma TakingTurnsIsExact(asks: bool, steps: seq<Step>, k: nat)
    requires TakeTurns(asks, steps) && k <= |steps|
    ensures TellsTheTruth(After(Begun(ClassQueryable, asks), steps[..k]))
  {
    hide After, TellsTheTruth;
    forall i | 0 <= i <= |steps|
      ensures OneHot(After(Begun(ClassQueryable, asks), steps[..i]))
    {
      assert OneAtWork(After(Begun(ClassQueryable, asks), steps[..i]));
    }
    QueryableIsExact(asks, steps, k);
  }

  // ----- the row is the store's row -----

  /** The row of one key, as the machine has it. */
  function RowOf(s: State, key: Key): Option<EffectStatus> {
    if key in s.effects then Some(s.effects[key].status) else None
  }

  /** The conditional move is TransitionEffect's, with its event or without: it
      commits when the machine's does, and leaves the row the machine leaves. */
  lemma MovesIsTheTransaction(s: State, key: Key, from: EffectStatus, to: EffectStatus, out: EffectOutcome,
                              run: RunId, fact: Option<Fact>, now: Time)
    requires fact.Some? ==> run in s.runs
    ensures var res := EffectTx(s, key, from, to, out, run, fact, now);
            && (res.Commit? <==> Moves(RowOf(s, key), from, to))
            && RowOf(res.st, key) == (if Moves(RowOf(s, key), from, to) then Some(to) else RowOf(s, key))
            && forall other :: other != key ==> RowOf(res.st, other) == RowOf(s, other)
  {
    hide Log;
  }

  /** And its reservation is ReserveEffect's. */
  lemma ReserveIsTheTransaction(m: Ledger, a: nat, s: State, key: Key, e: Effect, step: StepId, now: Time)
    requires a < |m.actors| && m.actors[a].Starting? && m.row == RowOf(s, key)
    requires e.run in s.runs && e.task in s.tasks && e.status.EffectPending?
    ensures var res := ReserveTx(s, key, e, step, now);
            && RowOf(res.st, key) == Take(m, Reserve(a)).row
            && (res.Commit? <==> Take(m, Reserve(a)).actors[a] == Holding(EffectPending))
            && (res.Abort? ==> res.error == EffectExists && Take(m, Reserve(a)).actors[a] == Refused)
  {
    hide Log, EffectFact;
  }
}
