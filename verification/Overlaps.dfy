/** Why attempts on one action must not overlap, and that recovery can always
    finish when they do not: runs of the ledger machine, put together. */
module Overlaps {
  import opened Prelude
  import opened Core
  import opened Ledger

  // ----- composing runs -----

  lemma {:induction false} AfterConcat(m: Ledger, a: seq<Step>, b: seq<Step>)
    ensures After(m, a + b) == After(After(m, a), b)
  {
    hide Take;
    if b == [] {
      assert a + b == a;
    } else {
      assert (a + b)[..|a + b| - 1] == a + b[..|b| - 1];
      AfterConcat(m, a, b[..|b| - 1]);
    }
  }

  lemma AfterOne(m: Ledger, step: Step)
    ensures After(m, [step]) == Take(m, step)
  {
    assert [step][..0] == [];
  }

  lemma AfterCons(m: Ledger, step: Step, rest: seq<Step>)
    ensures After(m, [step] + rest) == After(Take(m, step), rest)
  {
    AfterConcat(m, [step], rest);
    AfterOne(m, step);
  }

  lemma ActedOnceMore(requests: seq<Request>)
    ensures TimesActed(requests + [Acted]) == TimesActed(requests) + 1
  {
    assert (requests + [Acted])[..|requests|] == requests;
  }

  /** Beginning, sending, the provider doing it or losing it, the handler's
      return, and the record of that. */
  function Doing(a: nat, i: nat, acts: bool, outcome: Outcome): seq<Step> {
    [Begin(a)] + ([Send(a)] + ([if acts then Act(i) else Bar(i)] + ([Return(a, outcome)] + [Record(a)])))
  }

  lemma Begins(m: Ledger, a: nat, from: EffectStatus)
    requires a < |m.actors| && m.actors[a] == Beginning(from) && Moves(m.row, from, EffectRunning)
    ensures Take(m, Begin(a)) == m.(row := Some(EffectRunning), actors := m.actors[a := Sending])
  {
  }

  lemma Sends(m: Ledger, a: nat)
    requires a < |m.actors| && m.actors[a] == Sending
    ensures Take(m, Send(a)) == m.(requests := m.requests + [Open], actors := m.actors[a := Waiting(|m.requests|)])
  {
  }

  lemma Returns(m: Ledger, a: nat, i: nat, outcome: Outcome)
    requires a < |m.actors| && m.actors[a] == Waiting(i) && i < |m.requests| && TrueOutcome(m.requests[i], outcome)
    ensures Take(m, Return(a, outcome)) == m.(actors := m.actors[a := Recording(EffectRunning, Classified(outcome))])
  {
  }

  lemma Records(m: Ledger, a: nat, from: EffectStatus, to: EffectStatus)
    requires a < |m.actors| && m.actors[a] == Recording(from, to) && Moves(m.row, from, to)
    ensures Take(m, Record(a)) == m.(row := Some(to), actors := m.actors[a := Gone])
  {
  }

  lemma Settles(m: Ledger, i: nat, acts: bool)
    requires i < |m.requests| && m.requests[i].Open?
    ensures Take(m, if acts then Act(i) else Bar(i)) == m.(requests := m.requests[i := if acts then Acted else Barred])
  {
  }

  /** What one attempt does, from a row that lets it begin. */
  lemma DoingDoes(m: Ledger, a: nat, from: EffectStatus, acts: bool, outcome: Outcome)
    requires a < |m.actors| && m.actors[a] == Beginning(from) && Moves(m.row, from, EffectRunning)
    requires outcome.Ambiguous? || (outcome.Succeeded? && acts)
    ensures After(m, Doing(a, |m.requests|, acts, outcome)) ==
            m.(row := Some(Classified(outcome)), actors := m.actors[a := Gone],
               requests := m.requests + [if acts then Acted else Barred])
  {
    hide After, Take;
    var i := |m.requests|;
    var settle := if acts then Act(i) else Bar(i);
    var done := m.requests + [if acts then Acted else Barred];
    AfterCons(m, Begin(a), [Send(a)] + ([settle] + ([Return(a, outcome)] + [Record(a)])));
    Begins(m, a, from);
    var m1 := m.(row := Some(EffectRunning), actors := m.actors[a := Sending]);
    AfterCons(m1, Send(a), [settle] + ([Return(a, outcome)] + [Record(a)]));
    Sends(m1, a);
    var m2 := m1.(requests := m.requests + [Open], actors := m1.actors[a := Waiting(i)]);
    AfterCons(m2, settle, [Return(a, outcome)] + [Record(a)]);
    Settles(m2, i, acts);
    assert m2.requests[i := if acts then Acted else Barred] == done;
    var m3 := m2.(requests := done);
    AfterCons(m3, Return(a, outcome), [Record(a)]);
    Returns(m3, a, i, outcome);
    var m4 := m3.(actors := m3.actors[a := Recording(EffectRunning, Classified(outcome))]);
    AfterOne(m4, Record(a));
    Records(m4, a, EffectRunning, Classified(outcome));
    assert m4.actors[a := Gone] == m.actors[a := Gone];
  }

  // ----- why attempts must not overlap -----

  /** Two attempts that both hold the answer "it never happened" are enough to
      do the action twice: transitions are conditional on the status alone, and
      the status has come back to what the second one expects. */
  lemma OverlapDuplicates(m: Ledger, a: nat, b: nat)
    requires m.row == Some(EffectUnknown) && a < |m.actors| && b < |m.actors| && a != b
    requires m.actors[a] == Beginning(EffectUnknown) && m.actors[b] == Beginning(EffectUnknown)
    ensures var i := |m.requests|;
            TimesActed(After(m, Doing(a, i, true, Ambiguous) + Doing(b, i + 1, true, Ambiguous)).requests)
            == TimesActed(m.requests) + 2
  {
    hide After, Doing, TimesActed;
    var i := |m.requests|;
    AfterConcat(m, Doing(a, i, true, Ambiguous), Doing(b, i + 1, true, Ambiguous));
    DoingDoes(m, a, EffectUnknown, true, Ambiguous);
    var n := After(m, Doing(a, i, true, Ambiguous));
    DoingDoes(n, b, EffectUnknown, true, Ambiguous);
    ActedOnceMore(m.requests);
    ActedOnceMore(n.requests);
  }

  /** And a sweep that still holds such an answer makes the ledger say that an
      action which has happened never did. */
  lemma StaleSweepLies(m: Ledger, a: nat, b: nat)
    requires m.row == Some(EffectUnknown) && a < |m.actors| && b < |m.actors| && a != b
    requires m.actors[a] == Beginning(EffectUnknown) && m.actors[b] == Recording(EffectUnknown, EffectFailed)
    ensures var n := After(m, Doing(a, |m.requests|, true, Ambiguous) + [Record(b)]);
            n.row == Some(EffectFailed) && TimesActed(n.requests) >= 1 && !TellsTheTruth(n)
  {
    hide After, Doing, TimesActed;
    var i := |m.requests|;
    AfterConcat(m, Doing(a, i, true, Ambiguous), [Record(b)]);
    DoingDoes(m, a, EffectUnknown, true, Ambiguous);
    var n := After(m, Doing(a, i, true, Ambiguous));
    ActedOnceMore(m.requests);
    AfterOne(n, Record(b));
  }

  /** So is an attempt paused between recording RUNNING and sending: it holds no
      answer any more, and yet the second one, told meanwhile that nothing has
      happened, does it first. */
  lemma PausedSenderDuplicates(m: Ledger, a: nat, b: nat)
    requires m.row == Some(EffectUnknown) && a < |m.actors| && b < |m.actors| && a != b
    requires m.actors[a] == Sending && m.actors[b] == Beginning(EffectUnknown)
    ensures var i := |m.requests|;
            TimesActed(After(m, Doing(b, i, true, Ambiguous) + [Send(a), Act(i + 1)]).requests) ==
              TimesActed(m.requests) + 2
  {
    hide After, Doing, TimesActed;
    var i := |m.requests|;
    AfterConcat(m, Doing(b, i, true, Ambiguous), [Send(a), Act(i + 1)]);
    DoingDoes(m, b, EffectUnknown, true, Ambiguous);
    var n := After(m, Doing(b, i, true, Ambiguous));
    SendsAndActs(n, a);
    ActedOnceMore(m.requests);
    ActedOnceMore(n.requests);
  }

  lemma SendsAndActs(m: Ledger, a: nat)
    requires a < |m.actors| && m.actors[a] == Sending
    ensures After(m, [Send(a), Act(|m.requests|)]).requests == m.requests + [Acted]
  {
    hide After, Take;
    assert [Send(a), Act(|m.requests|)] == [Send(a)] + [Act(|m.requests|)];
    AfterCons(m, Send(a), [Act(|m.requests|)]);
    Sends(m, a);
    var n := m.(requests := m.requests + [Open], actors := m.actors[a := Waiting(|m.requests|)]);
    AfterOne(n, Act(|m.requests|));
    Settles(n, |m.requests|, true);
    assert (m.requests + [Open])[|m.requests| := Acted] == m.requests + [Acted];
  }

  // ----- recovery always has a way to finish -----

  /** From any state the crashes may have left, with nobody working and nothing
      in flight, one more attempt against a provider that answers ends with the
      action committed and done exactly once. */
  lemma RecoveryFinishes(m: Ledger) returns (steps: seq<Step>)
    requires Ok(m) && m.class_.ClassQueryable? && m.asks
    requires forall i :: 0 <= i < |m.requests| ==> !m.requests[i].Open?
    ensures var n := After(m, steps);
            n.row == Some(EffectCommitted) && TimesActed(n.requests) == 1
  {
    hide After, Doing, TimesActed;
    var a := |m.actors|;
    OneLiveActsOnce(m.requests);
    if m.row == Some(EffectCommitted) {
      steps := [];
      assert After(m, []) == m by { AfterNothing(m); }
    } else {
      var arriving := Arriving(a, m.row, if Happened(m.requests) then SaysDone else SaysNotExecuted);
      var n := Arrives(m);
      if n.actors[a].Recording? {
        steps := arriving + [Record(a)];
        AfterConcat(m, arriving, [Record(a)]);
        AfterOne(n, Record(a));
      } else {
        var i := |m.requests|;
        steps := arriving + Doing(a, i, true, Succeeded);
        AfterConcat(m, arriving, Doing(a, i, true, Succeeded));
        DoingDoes(n, a, n.row.value, true, Succeeded);
        ActedOnceMore(m.requests);
      }
    }
  }

  lemma AfterNothing(m: Ledger)
    ensures After(m, []) == m
  {
  }

  /** A new attempt, as far as knowing what to do. */
  function Arriving(a: nat, row: Option<EffectStatus>, answer: Answer): seq<Step> {
    [Execute, Reserve(a)] + (if row.None? then [] else [Read(a)]) + [Decide(a)] +
    (if row == Some(EffectRunning) then [Mark(a)] else []) +
    (if row == Some(EffectRunning) || row == Some(EffectUnknown) then [Ask(a, answer)] else [])
  }

  /** m, with one more actor and this row. */
  function With(m: Ledger, row: EffectStatus, pc: Actor): Ledger {
    m.(row := Some(row), actors := m.actors + [pc])
  }

  lemma Loads(m: Ledger)
    ensures var a := |m.actors|;
            var held := if m.row.None? then EffectPending else m.row.value;
            var m2 := Take(Take(m, Execute), Reserve(a));
            (if m.row.None? then m2 else Take(m2, Read(a))) == With(m, held, Holding(held))
  {
    var a := |m.actors|;
    var m1 := Take(m, Execute);
    assert m1.actors[a] == Starting;
    if m.row.None? {
      assert m1.actors[a := Holding(EffectPending)] == m.actors + [Holding(EffectPending)];
    } else {
      assert m1.actors[a := Refused] == m.actors + [Refused];
      assert (m.actors + [Refused])[a := Holding(m.row.value)] == m.actors + [Holding(m.row.value)];
    }
  }

  lemma Goes(m: Ledger, row: EffectStatus, pc: Actor, step: Step, row': EffectStatus, pc': Actor)
    requires ActorOf(step) == Some(|m.actors|)
    requires StepActor(With(m, row, pc), |m.actors|, step) == Put(With(m, row', pc), |m.actors|, pc')
    ensures Take(With(m, row, pc), step) == With(m, row', pc')
  {
    hide StepActor;
    assert (m.actors + [pc])[|m.actors| := pc'] == m.actors + [pc'];
  }

  lemma Decides(m: Ledger, held: EffectStatus)
    requires m.class_.ClassQueryable? && m.asks && !held.EffectCommitted?
    ensures Take(With(m, held, Holding(held)), Decide(|m.actors|)) ==
            With(m, held, if held.EffectRunning? then Marking(false)
                          else if held.EffectUnknown? then Asking(false) else Beginning(held))
  {
    Goes(m, held, Holding(held), Decide(|m.actors|), held, Decided(m, held));
  }

  lemma Marks(m: Ledger)
    requires m.class_.ClassQueryable? && m.asks
    ensures Take(With(m, EffectRunning, Marking(false)), Mark(|m.actors|)) == With(m, EffectUnknown, Asking(false))
  {
    Goes(m, EffectRunning, Marking(false), Mark(|m.actors|), EffectUnknown, Asking(false));
  }

  lemma Asks(m: Ledger, answer: Answer)
    requires Truthful(m.requests, answer)
    ensures Take(With(m, EffectUnknown, Asking(false)), Ask(|m.actors|, answer)) ==
            With(m, EffectUnknown, Told(false, answer))
  {
    Goes(m, EffectUnknown, Asking(false), Ask(|m.actors|, answer), EffectUnknown, Told(false, answer));
  }

  lemma Arrives(m: Ledger) returns (n: Ledger)
    requires m.class_.ClassQueryable? && m.asks && m.row != Some(EffectCommitted)
    requires forall i :: 0 <= i < |m.requests| ==> !m.requests[i].Open?
    requires Untouched(m.row) ==> !Happened(m.requests)
    ensures n == After(m, Arriving(|m.actors|, m.row, if Happened(m.requests) then SaysDone else SaysNotExecuted))
    ensures |n.actors| == |m.actors| + 1 && n.row.Some? && n == With(m, n.row.value, n.actors[|m.actors|])
    ensures if m.row.None? then n.row == Some(EffectPending)
            else if m.row == Some(EffectRunning) then n.row == Some(EffectUnknown) else n.row == m.row
    ensures if Happened(m.requests)
            then n.actors[|m.actors|] == Recording(EffectUnknown, EffectCommitted) && n.row == Some(EffectUnknown)
            else n.actors[|m.actors|] == Beginning(n.row.value) && n.row.value.CanTransitionTo(EffectRunning)
  {
    var answer := if Happened(m.requests) then SaysDone else SaysNotExecuted;
    var held := if m.row.None? then EffectPending else m.row.value;
    assert Truthful(m.requests, answer);
    hide Take, After, Truthful, Happened;
    ArrivesIn(m, answer);
    Loads(m);
    Decides(m, held);
    if held.EffectRunning? { Marks(m); }
    if held.EffectRunning? || held.EffectUnknown? {
      Asks(m, answer);
      n := With(m, EffectUnknown, Told(false, answer));
    } else {
      n := With(m, held, Beginning(held));
    }
  }

  lemma ArrivesIn(m: Ledger, answer: Answer)
    ensures var a := |m.actors|;
            var m2 := Take(Take(m, Execute), Reserve(a));
            var m3 := if m.row.None? then m2 else Take(m2, Read(a));
            var m4 := Take(m3, Decide(a));
            var m5 := if m.row == Some(EffectRunning) then Take(m4, Mark(a)) else m4;
            var n := if m.row == Some(EffectRunning) || m.row == Some(EffectUnknown) then Take(m5, Ask(a, answer))
              else m5;
            After(m, Arriving(a, m.row, answer)) == n
  {
    hide Take;
    var a := |m.actors|;
    var row := m.row;
    var s2 := [Execute, Reserve(a)];
    var s3 := s2 + (if row.None? then [] else [Read(a)]);
    var s4 := s3 + [Decide(a)];
    var s5 := s4 + (if row == Some(EffectRunning) then [Mark(a)] else []);
    assert s2 == [Execute] + [Reserve(a)];
    AfterOne(m, Execute);
    Snoc(m, [Execute], Reserve(a));
    Snoc(m, s2, Read(a));
    Snoc(m, s3, Decide(a));
    Snoc(m, s4, Mark(a));
    Snoc(m, s5, Ask(a, answer));
  }

  lemma Snoc(m: Ledger, steps: seq<Step>, step: Step)
    ensures After(m, steps + [step]) == Take(After(m, steps), step)
    ensures steps + [] == steps
  {
    assert (steps + [step])[..|steps|] == steps;
  }

  /** The overlap does come about: a lost request, then two attempts that ask at
      the same time. */
  lemma OverlapIsReachable() returns (steps: seq<Step>)
    ensures TimesActed(After(Begun(ClassQueryable, true), steps).requests) == 2
  {
    hide After, Doing, TimesActed, Arriving;
    var m := Begun(ClassQueryable, true);
    BegunOk(ClassQueryable, true);
    var n1 := Arrives(m);
    var s1 := Arriving(0, None, SaysNotExecuted);
    DoingDoes(n1, 0, EffectPending, false, Ambiguous);
    AfterConcat(m, s1, Doing(0, 0, false, Ambiguous));
    var n2 := After(n1, Doing(0, 0, false, Ambiguous));
    assert n2 == Ledger(ClassQueryable, true, Some(EffectUnknown), [Gone], [Barred]);
    var n3 := Arrives(n2);
    var s3 := Arriving(1, Some(EffectUnknown), SaysNotExecuted);
    AfterConcat(m, s1 + Doing(0, 0, false, Ambiguous), s3);
    assert n3 == Ledger(ClassQueryable, true, Some(EffectUnknown), [Gone, Beginning(EffectUnknown)], [Barred]);
    var n4 := Arrives(n3);
    var s4 := Arriving(2, Some(EffectUnknown), SaysNotExecuted);
    AfterConcat(m, s1 + Doing(0, 0, false, Ambiguous) + s3, s4);
    OverlapDuplicates(n4, 1, 2);
    var last := Doing(1, 1, true, Ambiguous) + Doing(2, 2, true, Ambiguous);
    steps := s1 + Doing(0, 0, false, Ambiguous) + s3 + s4 + last;
    AfterConcat(m, s1 + Doing(0, 0, false, Ambiguous) + s3 + s4, last);
    QuietMeansNever([Barred]);
  }

  // ----- any overlap is one too many -----

  /** When attempts first overlap, nothing has happened yet, nothing is in
      flight, and the row does not say otherwise. */
  lemma FirstOverlapIsQuiet(m: Ledger, step: Step)
    requires Ok(m) && m.class_.ClassQueryable? && m.asks && !OneHot(Take(m, step))
    ensures var n := Take(m, step);
            n.class_ == m.class_ && n.asks == m.asks && Quiet(n.requests) && n.row != Some(EffectCommitted)
  {
    if ActorOf(step).Some? && ActorOf(step).value < |m.actors| {
      NewlyHot(m, ActorOf(step).value, step);
    }
  }

  lemma NewlyHot(m: Ledger, a: nat, step: Step)
    requires Ok(m) && m.class_.ClassQueryable? && m.asks && a < |m.actors| && !OneHot(StepActor(m, a, step))
    ensures var n := StepActor(m, a, step);
            n.class_ == m.class_ && n.asks == m.asks && Quiet(n.requests) && n.row != Some(EffectCommitted)
  {
    var n := StepActor(m, a, step);
    assert n.class_ == m.class_ && n.asks == m.asks;
    if !(Hot(n.actors[a]) && !Hot(m.actors[a])) {
      forall x, y | 0 <= x < y < |n.actors|
        ensures !(Hot(n.actors[x]) && Hot(n.actors[y]))
      {
        assert x != a ==> n.actors[x] == m.actors[x];
        assert y != a ==> n.actors[y] == m.actors[y];
      }
      assert false;
    } else if m.actors[a].Asking? {
      assert Quiet(m.requests) && n.requests == m.requests && n.row == m.row;
      NothingHappened(m.requests);
    } else {
      assert m.actors[a].Beginning? && Untouched(m.row);
    }
  }

  lemma NothingHappened(requests: seq<Request>)
    requires Quiet(requests)
    ensures !Happened(requests)
  {
  }

  /** From there the row can get to UNKNOWN with nothing done. */
  lemma Unsettles(m: Ledger) returns (steps: seq<Step>)
    requires m.class_.ClassQueryable? && m.asks && Quiet(m.requests) && m.row != Some(EffectCommitted)
    ensures var n := After(m, steps);
            n.class_ == m.class_ && n.asks && Quiet(n.requests) && n.row == Some(EffectUnknown)
  {
    hide After, Doing;
    var a, i := |m.actors|, |m.requests|;
    NothingHappened(m.requests);
    var n := Arrives(m);
    steps := Arriving(a, m.row, SaysNotExecuted);
    if n.row != Some(EffectUnknown) {
      DoingDoes(n, a, n.row.value, false, Ambiguous);
      AfterConcat(m, steps, Doing(a, i, false, Ambiguous));
      steps := steps + Doing(a, i, false, Ambiguous);
    }
  }

  /** The converse of exactness: from any ledger in order, the first step after
      which two attempts overlap leaves a way for the action to be done twice,
      others joining in. */
  lemma FirstOverlapCanDuplicate(m: Ledger, step: Step) returns (steps: seq<Step>)
    requires Ok(m) && m.class_.ClassQueryable? && m.asks && !OneHot(Take(m, step))
    ensures !TellsTheTruth(After(Take(m, step), steps)) && TimesActed(After(Take(m, step), steps).requests) >= 2
  {
    hide Ok, OneHot, Take, After, Doing, TimesActed, Quiet;
    FirstOverlapIsQuiet(m, step);
    var n := Take(m, step);
    var s0 := Unsettles(n);
    var n0 := After(n, s0);
    NothingHappened(n0.requests);
    QuietIsClosed(n0.requests);
    var n1 := Arrives(n0);
    var s1 := Arriving(|n0.actors|, n0.row, SaysNotExecuted);
    var n2 := Arrives(n1);
    var s2 := Arriving(|n1.actors|, n1.row, SaysNotExecuted);
    var a, b := |n0.actors|, |n1.actors|;
    OverlapDuplicates(n2, a, b);
    var last := Doing(a, |n2.requests|, true, Ambiguous) + Doing(b, |n2.requests| + 1, true, Ambiguous);
    steps := s0 + s1 + s2 + last;
    AfterConcat(n, s0, s1);
    AfterConcat(n, s0 + s1, s2);
    AfterConcat(n, s0 + s1 + s2, last);
  }

  lemma QuietIsClosed(requests: seq<Request>)
    requires Quiet(requests)
    ensures forall i :: 0 <= i < |requests| ==> !requests[i].Open?
  {
  }

  /** And that overlap comes about too: the first attempt is paused, the second
      finds RUNNING, marks it, and is told truthfully that nothing has happened. */
  lemma PausedSenderIsReachable() returns (steps: seq<Step>)
    ensures TimesActed(After(Begun(ClassQueryable, true), steps).requests) == 2
  {
    hide After, Doing, TimesActed, Arriving;
    var m := Begun(ClassQueryable, true);
    BegunOk(ClassQueryable, true);
    var n1 := Arrives(m);
    var s1 := Arriving(0, None, SaysNotExecuted);
    Begins(n1, 0, EffectPending);
    AfterOne(n1, Begin(0));
    AfterConcat(m, s1, [Begin(0)]);
    var n2 := Take(n1, Begin(0));
    assert n2 == Ledger(ClassQueryable, true, Some(EffectRunning), [Sending], []);
    var n3 := Arrives(n2);
    var s3 := Arriving(1, Some(EffectRunning), SaysNotExecuted);
    AfterConcat(m, s1 + [Begin(0)], s3);
    assert n3 == Ledger(ClassQueryable, true, Some(EffectUnknown), [Sending, Beginning(EffectUnknown)], []);
    PausedSenderDuplicates(n3, 0, 1);
    var last := Doing(1, 0, true, Ambiguous) + [Send(0), Act(1)];
    steps := s1 + [Begin(0)] + s3 + last;
    AfterConcat(m, s1 + [Begin(0)] + s3, last);
    QuietMeansNever([]);
  }

  // ----- a reconciler on an action that cannot be reconciled -----

  /** What a sweep does that finds the row RUNNING: marks it, asks, is told that
      nothing happened, and records that. */
  function Sweeping(a: nat): seq<Step> {
    [Sweep] + ([Mark(a)] + ([Ask(a, SaysNotExecuted)] + [Record(a)]))
  }

  lemma SweepsToFailed(m: Ledger)
    requires m.asks && m.row == Some(EffectRunning) && Quiet(m.requests)
    ensures After(m, Sweeping(|m.actors|)) == m.(row := Some(EffectFailed), actors := m.actors + [Gone])
  {
    hide After;
    var a := |m.actors|;
    var m1 := Take(m, Sweep);
    var m2 := Take(m1, Mark(a));
    var m3 := Take(m2, Ask(a, SaysNotExecuted));
    AfterCons(m, Sweep, [Mark(a)] + ([Ask(a, SaysNotExecuted)] + [Record(a)]));
    AfterCons(m1, Mark(a), [Ask(a, SaysNotExecuted)] + [Record(a)]);
    AfterCons(m2, Ask(a, SaysNotExecuted), [Record(a)]);
    AfterOne(m3, Record(a));
    assert m1 == With(m, EffectRunning, Marking(true));
    Goes(m, EffectRunning, Marking(true), Mark(a), EffectUnknown, Asking(true));
    Goes(m, EffectUnknown, Asking(true), Ask(a, SaysNotExecuted), EffectUnknown,
         Recording(EffectUnknown, EffectFailed));
    Goes(m, EffectUnknown, Recording(EffectUnknown, EffectFailed), Record(a), EffectFailed, Gone);
  }

  /** A tool that is declared UNRECONCILABLE but given a reconciler, which the
      registry allows, can act twice: a sweep asks while an attempt is paused
      before sending, records FAILED, and the next attempt begins afresh. At most
      once in every interleaving holds exactly of those without one. */
  lemma ReconcilerBreaksAtMostOnce() returns (steps: seq<Step>)
    ensures TimesActed(After(Begun(ClassUnreconcilable, true), steps).requests) == 2
  {
    hide After, Doing, TimesActed, Sweeping;
    var m := Begun(ClassUnreconcilable, true);
    var s1 := [Execute, Reserve(0), Decide(0), Begin(0)];
    PausedAtOnce(m);
    var n1 := After(m, s1);
    SweepsToFailed(n1);
    AfterConcat(m, s1, Sweeping(1));
    var n2 := After(n1, Sweeping(1));
    assert n2 == Ledger(ClassUnreconcilable, true, Some(EffectFailed), [Sending, Gone], []);
    var s3 := [Execute, Reserve(2), Read(2), Decide(2)];
    BeginsAfresh(n2);
    AfterConcat(m, s1 + Sweeping(1), s3);
    var n3 := After(n2, s3);
    assert n3 == Ledger(ClassUnreconcilable, true, Some(EffectFailed), [Sending, Gone, Beginning(EffectFailed)], []);
    DoingDoes(n3, 2, EffectFailed, true, Ambiguous);
    var n4 := After(n3, Doing(2, 0, true, Ambiguous));
    AfterConcat(m, s1 + Sweeping(1) + s3, Doing(2, 0, true, Ambiguous));
    assert n4.requests == [] + [Acted] == [Acted] && n4.actors[0] == Sending;
    SendsAndActs(n4, 0);
    steps := s1 + Sweeping(1) + s3 + Doing(2, 0, true, Ambiguous) + [Send(0), Act(1)];
    AfterConcat(m, s1 + Sweeping(1) + s3 + Doing(2, 0, true, Ambiguous), [Send(0), Act(1)]);
    ActingAgainIsTwice();
  }

  lemma ActingAgainIsTwice()
    ensures TimesActed([Acted] + [Acted]) == 2
  {
    ActedOnceMore([]);
    ActedOnceMore([Acted]);
    QuietMeansNever([]);
    assert [] + [Acted] == [Acted];
  }

  lemma PausedAtOnce(m: Ledger)
    requires m == Begun(ClassUnreconcilable, true)
    ensures After(m, [Execute, Reserve(0), Decide(0), Begin(0)])
            == Ledger(ClassUnreconcilable, true, Some(EffectRunning), [Sending], [])
  {
    hide After;
    var s2 := [Execute] + [Reserve(0)];
    AfterOne(m, Execute);
    Snoc(m, [Execute], Reserve(0));
    Snoc(m, s2, Decide(0));
    Snoc(m, s2 + [Decide(0)], Begin(0));
    assert s2 + [Decide(0)] + [Begin(0)] == [Execute, Reserve(0), Decide(0), Begin(0)];
    var m1 := Take(m, Execute);
    assert m1 == m.(actors := [Starting]);
    var m2 := Take(m1, Reserve(0));
    assert m2 == m.(row := Some(EffectPending), actors := [Holding(EffectPending)]);
    var m3 := Take(m2, Decide(0));
    assert m3 == m.(row := Some(EffectPending), actors := [Beginning(EffectPending)]);
    assert Take(m3, Begin(0)) == m.(row := Some(EffectRunning), actors := [Sending]);
  }

  lemma BeginsAfresh(m: Ledger)
    requires m.class_.ClassUnreconcilable? && m.row == Some(EffectFailed) && |m.actors| == 2
    ensures After(m, [Execute, Reserve(2), Read(2), Decide(2)]) == m.(actors := m.actors + [Beginning(EffectFailed)])
  {
    hide After;
    var s2 := [Execute] + [Reserve(2)];
    AfterOne(m, Execute);
    Snoc(m, [Execute], Reserve(2));
    Snoc(m, s2, Read(2));
    Snoc(m, s2 + [Read(2)], Decide(2));
    assert s2 + [Read(2)] + [Decide(2)] == [Execute, Reserve(2), Read(2), Decide(2)];
    Loads(m);
    Goes(m, EffectFailed, Holding(EffectFailed), Decide(2), EffectFailed, Beginning(EffectFailed));
    assert With(m, EffectFailed, Beginning(EffectFailed)) == m.(actors := m.actors + [Beginning(EffectFailed)]);
  }
}
