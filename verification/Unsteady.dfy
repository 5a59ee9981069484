/** A body that is not steady diverges from itself, unedited: it joins two reads
    on ANY and uses the first success in the order of the calls. The second read
    comes in first and is used; then the first read comes in too. */
module Unsteady {
  import opened Prelude
  import opened Names
  import opened Core
  import opened Transactions
  import opened Histories
  import opened Agents
  import opened Replay

  // ----- when a body diverges from itself -----

  /** A replay, on what is in by then, of a body that agrees with itself so far
      reports a divergence at the next request on record exactly if what it asks
      for now differs, in a call both make, from what it asked for then. */
  lemma SelfDivergesIff(body: Body, x: History, y: History, gots: seq<Got>, later: seq<Got>)
    requires Traces(x, |gots| + 1, body(gots)) && Forward(x, y) && SameKeys(x, y)
    requires |later| == |gots| && Replayed(body, y, later)
    ensures TurnAt(body, y, later).NonDeterministic? <==> Differs(body(gots), body(later))
    ensures Differs(body(gots), body(later)) ==>
              TurnAt(body, y, later) == NonDeterministic(ChangedStep(|gots| + 1, body(gots), body(later)))
  {
    hide Step, Child, Look, Traces, Differs, ChangedStep, Forward, SameKeys, Replayed;
    TracesStand(x, y, |gots| + 1, body(gots));
    var w := body(later);
    if Durable(w) {
      ReportedIff(y, |gots| + 1, body(gots), w);
    } else {
      OnlyRequestsDiffer(body(gots), w);
    }
  }

  lemma OnlyRequestsDiffer(w: Want, later: Want)
    ensures Differs(w, later) ==> Durable(later)
  {
  }

  // ----- a body that does -----

  const READ: Call := Call("read", None)
  const ANY: JoinPolicy := JoinPolicy(JoinAny, 0)
  const FAN: Want := WantAll([READ, READ], ANY)

  /** The first success, in the order of the calls. */
  function Winner(os: seq<Outcome>): Json {
    if os == [] then None else if os[0].ok then os[0].result else Winner(os[1..])
  }

  function UseTheFirst(gots: seq<Got>): Want {
    if gots == [] then FAN
    else if |gots| == 1 && gots[0].GotOutcomes? then WantCall("use", Winner(gots[0].outcomes))
    else Returns(None)
  }

  function Reported(step: StepId, id: string, result: string): Event {
    Event(0, EvTaskCompleted, step, TaskCompletedData(id, Some(result)))
  }

  function Out(i: nat): Outcome {
    Outcome(i, "read", false, false, None, "")
  }

  function In(i: nat, result: string): Outcome {
    Outcome(i, "read", true, true, Some(result), "")
  }

  const SECOND_IS_IN: seq<Got> := [GotOutcomes([Out(0), In(1, "second")])]
  const BOTH_ARE_IN: seq<Got> := [GotOutcomes([In(0, "first"), In(1, "second")])]

  function Rounds(): seq<Round> {
    [Round([], ["t0", "t1"], [Reported(Child(Step(1), 1), "t1", "second")]),
     Round(SECOND_IS_IN, ["t2"], [Reported(Child(Step(1), 0), "t0", "first")]),
     Round(BOTH_ARE_IN, [], [])]
  }

  function Read(result: Option<string>): RecordedStep {
    RecordedStep("read", None, result, result.Some?, "")
  }

  /** What is on record once this much of the reads is in, and perhaps the use. */
  predicate Records(x: History, first: Option<string>, second: Option<string>, used: bool) {
    && Child(Step(1), 0) in x.steps && x.steps[Child(Step(1), 0)] == Read(first)
    && Child(Step(1), 1) in x.steps && x.steps[Child(Step(1), 1)] == Read(second)
    && (if used then Step(2) in x.steps && x.steps[Step(2)] == RecordedStep("use", second, None, false, "")
        else Step(2) !in x.steps)
    && x.waits == map[]
  }

  lemma NamesDiffer()
    ensures Child(Step(1), 0) != Child(Step(1), 1)
    ensures Step(2) != Child(Step(1), 0) && Step(2) != Child(Step(1), 1)
  {
    if Child(Step(1), 0) == Child(Step(1), 1) { ChildInjective(Step(1), 0, Step(1), 1); }
    StepIsNoChild(2, Step(1), 0);
    StepIsNoChild(2, Step(1), 1);
  }

  lemma ReadingSnoc(h: seq<Event>, e: Event)
    requires Reading(h).Some?
    ensures Reading(h + [e]) == Noting(Reading(h).value, e)
  {
    assert (h + [e])[..|h|] == h;
    hide Noting;
  }

  /** The fan-out on record, and nothing in. */
  lemma FannedOut(h: seq<Event>)
    requires Reading(h) == Some(NOTHING)
    ensures var g := h + StartEvents(CallToolParallel(Step(1), [READ, READ], ANY), ["t0", "t1"]);
            Reading(g).Some? && Records(Reading(g).value, None, None, false)
  {
    hide Step, Child, Reading;
    NamesDiffer();
    var f := Event(0, EvFanOutStarted, Step(1), FanOutData(ToolNames([READ, READ]), PolicyText(ANY)));
    var e0 := Event(0, EvTaskCreated, Child(Step(1), 0), TaskCreatedData("t0", "read", None));
    var e1 := Event(0, EvTaskCreated, Child(Step(1), 1), TaskCreatedData("t1", "read", None));
    TwoCreations();
    assert h + StartEvents(CallToolParallel(Step(1), [READ, READ], ANY), ["t0", "t1"]) == h + [f] + [e0] + [e1];
    ReadingSnoc(h, f);
    ReadingSnoc(h + [f], e0);
    ReadingSnoc(h + [f] + [e0], e1);
  }

  lemma TwoCreations()
    ensures CreationEvents(Step(1), [READ, READ], ["t0", "t1"], 2) ==
            [Event(0, EvTaskCreated, Child(Step(1), 0), TaskCreatedData("t0", "read", None)),
             Event(0, EvTaskCreated, Child(Step(1), 1), TaskCreatedData("t1", "read", None))]
  {
    hide Step, Child;
    assert CreationEvents(Step(1), [READ, READ], ["t0", "t1"], 1) ==
           [Event(0, EvTaskCreated, Child(Step(1), 0), TaskCreatedData("t0", "read", None))];
  }

  lemma SecondComesIn(x: History)
    requires Records(x, None, None, false)
    ensures var tail := [Reported(Child(Step(1), 1), "t1", "second")];
            ProperTail(x, tail) && Carries(tail) && Records(Through(x, tail), None, Some("second"), false)
  {
    hide Step, Child;
    NamesDiffer();
    OneProper(x, Reported(Child(Step(1), 1), "t1", "second"));
  }

  lemma FirstComesIn(x: History)
    requires Records(x, None, Some("second"), true)
    ensures var tail := [Reported(Child(Step(1), 0), "t0", "first")];
            ProperTail(x, tail) && Carries(tail) && Records(Through(x, tail), Some("first"), Some("second"), true)
  {
    hide Step, Child;
    NamesDiffer();
    OneProper(x, Reported(Child(Step(1), 0), "t0", "first"));
  }

  lemma UseIsAsked(h: seq<Event>)
    requires Reading(h).Some? && Records(Reading(h).value, None, Some("second"), false)
    ensures var g := h + StartEvents(CallTool(Step(2), "use", Some("second")), ["t2"]);
            Reading(g).Some? && Records(Reading(g).value, None, Some("second"), true)
  {
    hide Step, Child, Reading;
    NamesDiffer();
    ReadingSnoc(h, Event(0, EvTaskCreated, Step(2), TaskCreatedData("t2", "use", Some("second"))));
  }

  // ----- what the replays say -----

  lemma Joins(x: History, first: Option<string>, second: Option<string>, used: bool, gots: seq<Got>)
    requires Records(x, first, second, used) && second.Some?
    requires gots == [GotOutcomes([if first.Some? then In(0, first.value) else Out(0), In(1, second.value)])]
    ensures Look(x, Step(1), FAN) == Answer(gots[0]) && Replayed(UseTheFirst, x, gots)
  {
    hide Step, Child;
    assert FirstDiverging(x, Step(1), [READ, READ]) == 2;
    var os := Outcomes(x, Step(1), [READ, READ]);
    assert os == gots[0].outcomes;
    assert os[..1][..0] == [] && Succeeded(os) >= 1;
    assert gots[..0] == [];
  }

  lemma FirstRound()
    ensures var s := Told(UseTheFirst, Rounds()[..1]);
            Reading(s.h).Some? && Records(Reading(s.h).value, None, Some("second"), false) && !s.diverged &&
              s.ended.None?
  {
    hide Reading, Records, Look, Step, Child, StartEvents, ProperTail, Carries, Through;
    assert Rounds()[..1][..0] == [] && Rounds()[..1][0] == Rounds()[0];
    OpeningReads();
    NothingTraced();
    UnrecordedIsAsked(NOTHING, 1, FAN);
    FannedOut(OPENING);
    var g := OPENING + StartEvents(CallToolParallel(Step(1), [READ, READ], ANY), ["t0", "t1"]);
    SecondComesIn(Reading(g).value);
    ReadingThrough(g, [Reported(Child(Step(1), 1), "t1", "second")]);
  }

  lemma OpeningReads()
    ensures Reading(OPENING) == Some(NOTHING)
  {
    assert OPENING[..0] == [];
  }

  lemma NothingTraced()
    ensures NoTrace(NOTHING, 1) && Replayed(UseTheFirst, NOTHING, [])
  {
  }

  lemma SecondRound()
    ensures var s := Told(UseTheFirst, Rounds()[..2]);
            && Reading(s.h).Some? && Records(Reading(s.h).value, Some("first"), Some("second"), true)
            && !s.diverged && s.ended.None?
  {
    hide Reading, Records, Look, Step, Child, StartEvents, ProperTail, Carries, Through, Replayed;
    FirstRound();
    assert Rounds()[..2][..1] == Rounds()[..1] && Rounds()[..2][1] == Rounds()[1];
    var h := Told(UseTheFirst, Rounds()[..1]).h;
    var x := Reading(h).value;
    Joins(x, None, Some("second"), false, SECOND_IS_IN);
    AsksForTheSecond(x);
    UseIsAsked(h);
    var g := h + StartEvents(CallTool(Step(2), "use", Some("second")), ["t2"]);
    FirstComesIn(Reading(g).value);
    ReadingThrough(g, [Reported(Child(Step(1), 0), "t0", "first")]);
  }

  lemma AsksForTheSecond(x: History)
    requires Records(x, None, Some("second"), false)
    ensures Stops(UseTheFirst, x, SECOND_IS_IN)
    ensures TurnAt(UseTheFirst, x, SECOND_IS_IN) == Decides(CallTool(Step(2), "use", Some("second")))
    ensures !AlreadyThere(x, CallTool(Step(2), "use", Some("second")))
  {
    hide Step, Child;
    assert [Out(0), In(1, "second")][1..] == [In(1, "second")];
  }

  /** The third replay of the same body, on its own history. */
  lemma AnUnsteadyBodyDivergesFromItself()
    ensures Told(UseTheFirst, Rounds()).diverged
    ensures !Steady(UseTheFirst)
  {
    hide Reading, Records, Look, Step, Child, StartEvents, Replayed;
    SecondRound();
    assert Rounds()[..3] == Rounds() && Rounds()[..3][..2] == Rounds()[..2];
    var x := Reading(Told(UseTheFirst, Rounds()[..2]).h).value;
    Joins(x, Some("first"), Some("second"), true, BOTH_ARE_IN);
    AsksForTheFirst(x);
    if Steady(UseTheFirst) { var gots, begun := ReplayIsDirect(UseTheFirst, Rounds()); }
  }

  lemma AsksForTheFirst(x: History)
    requires Records(x, Some("first"), Some("second"), true)
    ensures Stops(UseTheFirst, x, BOTH_ARE_IN) && TurnAt(UseTheFirst, x, BOTH_ARE_IN) == NonDeterministic(Step(2))
  {
    hide Step, Child;
  }
}
