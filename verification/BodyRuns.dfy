/** What a run that replays one body can be relied on for. */
module BodyRuns {
  import opened Prelude
  import opened Names
  import opened Core
  import opened Tables
  import opened Waits
  import opened Lifecycle
  import opened Invariants
  import opened Transactions
  import opened RunSteps
  import opened Joins
  import opened FanOuts
  import opened Behaviours
  import opened StaticPlan
  import opened Histories
  import opened Agents
  import opened Replay
  import opened FanOutRuns
  import opened Skipping
  import opened Readability
  import opened Queries
  import opened Recovery
  import opened Following

  /** Replay equals direct execution, in every behaviour of the system: whatever
      the interleaving, the decisions in a run's history are, in order, those of
      the one uninterrupted run of its body that is answered with gots; history
      answers that body with gots and records nothing else of it; and replaying
      the body on it never diverges. */
  lemma RunsFollowTheirBody(tools: Tools, acts: seq<Action>, r: RunId, body: Body) returns (gots: seq<Got>, begun: bool)
    requires Steady(body) && FollowsBody(acts, r, body)
    ensures var h := Hist(Last(States(tools, acts)), r);
            && Reading(h).Some?
            && Replayed(body, Reading(h).value, gots) && Stops(body, Reading(h).value, gots)
            && TurnAt(body, Reading(h).value, gots).Decides?
            && Follows(body, Reading(h).value, gots, begun)
            && Openings(h) == AllOpenings(Direct(body, gots) + (if begun then NextAsked(body, gots) else []))
  {
    hide States, OnBody, Legible, Hist, Recorded, Steady, Replays, Follows, FansOf, Openings, AllOpenings, Direct,
         NextAsked, Replayed, Stops, TurnAt, Reading;
    LastOnBody(tools, acts, r, body);
    var s := Last(States(tools, acts));
    gots, begun := NextStand(body, s, r);
    TurnOnCourse(body, Recorded(s, r), gots, begun);
  }

  /** And between two decisions of a run, that is while it is not advanced, what
      is added to its history carries on what had begun, and is proper: the tails
      that the rounds of a replay are made of. */
  lemma TailsAreRounds(tools: Tools, acts: seq<Action>, r: RunId, body: Body, i: nat, j: nat)
    requires Steady(body) && FollowsBody(acts, r, body) && i <= j <= |acts|
    ensures var a, b := States(tools, acts)[i], States(tools, acts)[j];
            && Hist(b, r) == Hist(a, r) + Tail(a, b, r)
            && Reading(Hist(a, r)).Some? && ProperTail(Reading(Hist(a, r)).value, Tail(a, b, r))
            && (r in a.runs && r in b.runs && a.runs[r].version == b.runs[r].version ==> Carries(Tail(a, b, r)))
  {
    hide States, OnBody, Legible, Hist, Recorded, Steady, Replays, ProperTail, Carries, AllOnBody;
    AlwaysOnBody(tools, acts, r, body);
    OnBodyAt(body, States(tools, acts), r, i, j);
    ReadableIsRecorded(States(tools, acts)[i], r);
  }

  // ----- waiting on time or on tasks -----

  /** An answered request has nothing in flight. */
  lemma AnsweredIsSettled(body: Body, s: State, r: RunId, gots: seq<Got>, i: nat, k: StepId)
    requires AlwaysStable(body) && Replayed(body, Recorded(s, r), gots) && i < |gots| &&
             Traces(Recorded(s, r), i + 1, body(gots[..i]))
    requires k in Recorded(s, r).steps && KeyFor(k, i + 1)
    ensures Settled(Recorded(s, r).steps[k])
  {
    hide Step, Child, Skimming, Hist;
    var x := Recorded(s, r);
    var w := body(gots[..i]);
    assert Look(x, Step(i + 1), w) == Answer(gots[i]);
    assert Stable(w);
    if w.WantAll? {
      var os := Outcomes(x, Step(i + 1), w.calls);
      AllJoined(os);
      var n: nat :| k == Child(Step(i + 1), n);
      assert n < |w.calls| && os[n].settled;
    }
  }

  lemma InFlightIsOwed(s: State, id: TaskId)
    requires Inv(s) && id in s.tasks && !s.tasks[id].status.IsTerminal()
    ensures var x := Recorded(s, s.tasks[id].run);
            s.tasks[id].step in x.steps && !Settled(x.steps[s.tasks[id].step])
  {
    hide Inv, Hist, Reading, Skimming, ViewOf, IndexOk, HistoryOk, OwnStep, ChildStory, HasFinalFailure;
    var r := s.tasks[id].run;
    var h := Hist(s, r);
    InvParts(s);
    TaskHasRun(s, id);
    assert HistoryOk(s, r);
    StepsAreTheirs(s, r, id);
    NotMalformed(s, id);
    NothingYet(h, id);
    ReadsAlong(h, 0, ChildOutcome(s.tasks[id].step, 0, "", false, false, None, ""), id);
  }

  /** What is in flight belongs to the request the body stands at. */
  lemma InFlightIsCurrent(body: Body, s: State, r: RunId, gots: seq<Got>, begun: bool, id: TaskId)
    requires AlwaysStable(body) && Inv(s) && At(body, s, r, gots, begun)
    requires id in s.tasks && s.tasks[id].run == r && !s.tasks[id].status.IsTerminal()
    ensures begun && KeyFor(s.tasks[id].step, |gots| + 1) && (body(gots).WantCall? || body(gots).WantAll?)
  {
    hide Inv, Hist, Skimming, Openings, AllOpenings, FansOf, Step, Child, Replayed, Traces, KeyFor, AlwaysStable,
         Settled;
    InFlightIsOwed(s, id);
    var x := Recorded(s, r);
    var k := s.tasks[id].step;
    var n := |gots| + (if begun then 1 else 0);
    assert KeysUpTo(x, n);
    var p: int :| 1 <= p <= n && KeyFor(k, p);
    if p <= |gots| { AnsweredIsSettled(body, s, r, gots, p - 1, k); }
    TaskKeyIsTask(x, |gots| + 1, body(gots), k);
  }

  lemma TaskKeyIsTask(x: History, p: nat, w: Want, k: StepId)
    ensures Traces(x, p, w) && k in x.steps && KeyFor(k, p) ==> w.WantCall? || w.WantAll?
  {
    hide Step, Child;
  }

  /** A parked run stands at a sleep or a wait. */
  lemma ParkedStands(body: Body, s: State, r: RunId, gots: seq<Got>, begun: bool)
    requires Inv(s) && Legible(Hist(s, r)) && At(body, s, r, gots, begun) && Stops(body, Recorded(s, r), gots)
    requires r in s.runs && s.runs[r].status.RunRunning? && s.runs[r].availableAt.Some?
    ensures begun && (body(gots).WantSleep? || body(gots).WantSignal?)
  {
    hide Inv, Hist, Skimming, Openings, AllOpenings, FansOf, Step, Child, Traces, Reading, Pending, Legible, StatusOf,
         Sequential, SignalsOk, Consumed, KeyFor;
    InvRun(s, r);
    ReadableIsRecorded(s, r);
    PendingIsUnresolved(Hist(s, r));
    UnresolvedIsCurrent(body, Recorded(s, r), gots, begun, Pending(Hist(s, r)).value.step);
  }

  lemma UnresolvedIsCurrent(body: Body, x: History, gots: seq<Got>, begun: bool, k: StepId)
    requires Follows(body, x, gots, begun) && k in x.waits && !x.waits[k].resolved
    ensures begun && (body(gots).WantSleep? || body(gots).WantSignal?)
  {
    hide Step, Child, KeyFor, Traces, Look;
    var n := |gots| + (if begun then 1 else 0);
    var p: int :| 1 <= p <= n && KeyFor(k, p);
    if p <= |gots| {
      assert Look(x, Step(p - 1 + 1), body(gots[..p - 1])) == Answer(gots[p - 1]);
      assert Traces(x, p - 1 + 1, body(gots[..p - 1]));
      AnsweredWaitIsOver(x, p, body(gots[..p - 1]), k);
    } else {
      WaitKeyIsWait(x, p, body(gots), k);
    }
  }

  lemma AnsweredWaitIsOver(x: History, p: nat, w: Want, k: StepId)
    requires Durable(w) && Traces(x, p, w) && KeyFor(k, p) && k in x.waits && Look(x, Step(p), w).Answer?
    ensures x.waits[k].resolved
  {
    WaitKeyIsWait(x, p, w, k);
  }

  lemma WaitKeyIsWait(x: History, p: nat, w: Want, k: StepId)
    requires Traces(x, p, w) && KeyFor(k, p) && k in x.waits
    ensures k == Step(p) && (w.WantSleep? || w.WantSignal?)
  {
    hide Step, Child;
  }

  /** A run waits on time, or on tasks, and never on both: in every behaviour,
      for every run whose body joins its fan-outs on ALL. That a body does is
      something its author can see; a body that joins one on ANY is where it
      fails. */
  lemma NeverWaitsOnBoth(tools: Tools, acts: seq<Action>, r: RunId, body: Body)
    requires AlwaysStable(body) && FollowsBody(acts, r, body)
    ensures !WaitsOnBoth(Last(States(tools, acts)), r)
  {
    hide States, OnBody, Legible, Hist, Recorded, AlwaysStable, Steady, Replays, Follows, Stops, Replayed, At, Good,
         Inv, Evolves, KeyFor;
    StableIsSteady(body);
    LastOnBody(tools, acts, r, body);
    AllReachable(tools, acts);
    GoodAt(States(tools, acts), |acts|, |acts|);
    var s := Last(States(tools, acts));
    if WaitsOnBoth(s, r) {
      var gots, begun := NextStand(body, s, r);
      ParkedStands(body, s, r, gots, begun);
      var id :| id in s.tasks && s.tasks[id].run == r && !s.tasks[id].status.IsTerminal();
      InFlightIsCurrent(body, s, r, gots, begun, id);
    }
  }

  /** So the scan finds every sleeper that is due: no straggler hides it. */
  lemma SleepersAreListed(tools: Tools, acts: seq<Action>, r: RunId, body: Body, now: Time)
    requires AlwaysStable(body) && FollowsBody(acts, r, body)
    requires r in Last(States(tools, acts)).runs && Last(States(tools, acts)).runs[r].status.RunRunning?
    requires Last(States(tools, acts)).runs[r].availableAt.Some? &&
             Last(States(tools, acts)).runs[r].availableAt.value <= now
    ensures r in Owed(Last(States(tools, acts)), now)
  {
    hide States, AlwaysStable, Replays;
    NeverWaitsOnBoth(tools, acts, r, body);
  }

  // ----- standing at the fan-out -----

  lemma FanOutIsTheBodys(body: Body, s: State, r: RunId, gots: seq<Got>, begun: bool, f: FanOut) returns (i: nat)
    requires Inv(s) && r in s.runs && AllWhole(s) && At(body, s, r, gots, begun) && FanOutOf(Hist(s, r)) == Some(f)
    ensures i < |gots| + (if begun then 1 else 0)
    ensures var w := body(gots[..i]);
            w.WantAll? && f.step == Step(i + 1) && |w.calls| == |f.children| && f.join == JoinFrom(PolicyText(w.join))
  {
    hide Inv, AllWhole, Follows, Hist, Openings, AllOpenings, Step, PolicyText, JoinFrom, ChildStory, LastFanOut,
         Direct, NextAsked;
    var h := Hist(s, r);
    var p := LastFanOut(h);
    i :| i < |gots| + (if begun then 1 else 0) && IsFan(h[p], body, gots, i);
  }

  /** What a Go integer can count of a QUORUM join's children. */
  ghost predicate Sized(body: Body) {
    forall gots :: body(gots).WantAll? && body(gots).join.kind.JoinQuorum? ==> |body(gots).calls| <= MAX_INT
  }

  /** Whatever the joins, the body stood at the run's latest fan-out when it had
      been answered what came before it: what comparing the two readings of a join
      takes for granted. */
  lemma LatestFanOutStands(tools: Tools, acts: seq<Action>, r: RunId, body: Body) returns (f: FanOut, gots: seq<Got>)
    requires Steady(body) && Sized(body) && FollowsBody(acts, r, body) && r in Last(States(tools, acts)).runs
    requires FanOutOf(Hist(Last(States(tools, acts)), r)).Some?
    ensures f == FanOutOf(Hist(Last(States(tools, acts)), r)).value
    ensures StandsAt(body, Last(States(tools, acts)), r, f, gots)
  {
    hide States, OnBody, Legible, Hist, Recorded, Steady, Replays, Follows, Stops, Replayed, Good, Inv, Evolves,
         FanOutOf, AllWhole, Openings, AllOpenings, FansOf, Reading, StandsAt, Sized, At;
    LastOnBody(tools, acts, r, body);
    ReachableParts(tools, acts);
    var s := Last(States(tools, acts));
    f := FanOutOf(Hist(s, r)).value;
    var all, begun := NextStand(body, s, r);
    var i := FanOutIsTheBodys(body, s, r, all, begun, f);
    gots := all[..i];
    ReadableIsRecorded(s, r);
    StoodAt(body, s, r, all, begun, f, i);
  }

  lemma StoodAt(body: Body, s: State, r: RunId, gots: seq<Got>, begun: bool, f: FanOut, i: nat)
    requires Sized(body) && Reading(Hist(s, r)) == Some(Recorded(s, r)) && FanOutOf(Hist(s, r)) == Some(f)
    requires At(body, s, r, gots, begun) && i < |gots| + (if begun then 1 else 0)
    requires var w := body(gots[..i]);
             w.WantAll? && f.step == Step(i + 1) && |w.calls| == |f.children| && f.join == JoinFrom(PolicyText(w.join))
    ensures StandsAt(body, s, r, f, gots[..i])
  {
    hide Hist, Openings, AllOpenings, Step, PolicyText, JoinFrom, FanOutOf, Reading, FansOf, KeysUpTo, OnRecord,
         OnlyRecord, Child, Recorded, Look;
    var x := Recorded(s, r);
    var w := body(gots[..i]);
    PrefixReplayed(body, x, gots, i);
    assert Traces(x, i + 1, w) by { if i == |gots| { assert gots[..i] == gots; } }
    if i < |gots| {
      assert Look(x, Step(i + 1), w) == Answer(gots[i]);
      AnsweredIsWellFormed(x, Step(i + 1), w);
    } else {
      assert gots[..i] == gots;
    }
  }

  lemma AnsweredIsWellFormed(x: History, step: StepId, w: Want)
    requires Durable(w) && Look(x, step, w).Answer?
    ensures WellFormed(w)
  {
    hide WellFormed;
  }

  lemma PrefixReplayed(body: Body, x: History, gots: seq<Got>, i: nat)
    requires Replayed(body, x, gots) && i <= |gots|
    ensures Replayed(body, x, gots[..i])
  {
    hide Look, Step;
    forall j | 0 <= j < i
      ensures Durable(body(gots[..i][..j])) && Look(x, Step(j + 1), body(gots[..i][..j])) == Answer(gots[..i][j])
    {
      assert gots[..i][..j] == gots[..j];
    }
  }

  /** When the engine finds a fan-out of the run still joining, the body stands
      at that fan-out: what skipping the decider takes for granted. */
  lemma JoiningStands(tools: Tools, acts: seq<Action>, r: RunId, body: Body) returns (f: FanOut, gots: seq<Got>)
    requires Steady(body) && Sized(body) && FollowsBody(acts, r, body) && r in Last(States(tools, acts)).runs
    requires Joining(Hist(Last(States(tools, acts)), r)).Some?
    ensures f == Joining(Hist(Last(States(tools, acts)), r)).value
    ensures StandsAt(body, Last(States(tools, acts)), r, f, gots)
  {
    hide States, Steady, Sized, StandsAt, FanOutOf, Satisfied, Hist, Replays;
    f, gots := LatestFanOutStands(tools, acts, r, body);
  }

  /** Skipping the decider is sound for every such run, with nothing assumed of
      where its body stands. */
  lemma SkippedBodiesWouldRepeat(tools: Tools, acts: seq<Action>, r: RunId, body: Body)
    returns (f: FanOut, gots: seq<Got>)
    requires Steady(body) && Sized(body) && FollowsBody(acts, r, body) && r in Last(States(tools, acts)).runs
    requires Joining(Hist(Last(States(tools, acts)), r)).Some?
    ensures var h := Hist(Last(States(tools, acts)), r);
            && f == Joining(h).value && Reading(h).Some?
            && Replayed(body, Reading(h).value, gots) && Stops(body, Reading(h).value, gots) && body(gots).WantAll?
            && TurnAt(body, Reading(h).value, gots) ==
              Decides(CallToolParallel(f.step, body(gots).calls, body(gots).join))
  {
    hide States, Steady, Sized, Replays, Stops, Replayed, Reading, TurnAt, Joining, Hist, OnRecord;
    f, gots := JoiningStands(tools, acts, r, body);
    SkippingIsSound(tools, acts, body, r, f, gots);
  }

  /** And the other way round, for every policy: the body, replayed up to the
      run's latest fan-out, re-issues it just while the engine finds it joining,
      if and only if the join does not turn on failures without a message. */
  lemma AskedInVainIff(tools: Tools, acts: seq<Action>, r: RunId, body: Body) returns (f: FanOut, gots: seq<Got>)
    requires Steady(body) && Sized(body) && FollowsBody(acts, r, body) && r in Last(States(tools, acts)).runs
    requires FanOutOf(Hist(Last(States(tools, acts)), r)).Some?
    ensures var h := Hist(Last(States(tools, acts)), r);
            && FanOutOf(h) == Some(f) && Reading(h).Some? && Replayed(body, Reading(h).value, gots)
            && body(gots).WantAll? && Step(|gots| + 1) == f.step && |body(gots).calls| == |f.children|
            && ((Stops(body, Reading(h).value, gots) <==> Joining(h).Some?) <==> !TurnsOnSilence(f))
  {
    hide States, Steady, Sized, Replays, Stops, Replayed, Reading, Joining, Hist, OnRecord, FanOutOf, TurnsOnSilence;
    f, gots := LatestFanOutStands(tools, acts, r, body);
    NeverAskedInVain(tools, acts, body, r, f, gots);
  }
}
