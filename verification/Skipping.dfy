/** Three readings of one fan-out: the tables, the engine's fold over history,
    and the replay driver's. Where they agree, where they do not, and why not
    asking a decider that could only repeat itself is sound. */
module Skipping {
  import opened Prelude
  import opened Names
  import opened Core
  import opened Tables
  import opened Lifecycle
  import opened Invariants
  import opened Transactions
  import opened TaskSteps
  import opened RunSteps
  import opened Joins
  import opened FanOuts
  import opened Behaviours
  import opened FanOutRuns
  import opened Histories
  import opened Agents
  import opened Replay

  // ----- one child, read three ways -----

  /** An event that reports this task's last failure. */
  predicate IsFinalFailure(e: Event, id: TaskId) {
    Concerns(e, id) && e.typ.EvTaskFailed? && e.data.TaskFailedData? && e.data.final
  }

  predicate HasFinalFailure(h: seq<Event>, id: TaskId) {
    exists k :: 0 <= k < |h| && IsFinalFailure(h[k], id)
  }

  predicate Unsettled(c: ChildOutcome) {
    !c.settled && !c.succeeded
  }

  predicate StillOwed(rec: RecordedStep) {
    !rec.completed && rec.error == ""
  }

  predicate FailedAlike(c: ChildOutcome, rec: RecordedStep) {
    c.settled && !c.succeeded && !rec.completed && rec.error == c.error
  }

  /** How the engine's reading and the driver's stand to the task's phase. */
  predicate Reads(phase: Phase, c: ChildOutcome, rec: Option<RecordedStep>, failed: bool) {
    match phase
    case Absent => Unsettled(c) && rec.None? && !failed
    case Done =>
      c.settled && c.succeeded && rec.Some? && rec.value.completed && rec.value.error == "" &&
        rec.value.result == c.result && !failed
    case Failing(final) =>
      rec.Some? && failed == final &&
        (if final then FailedAlike(c, rec.value) else Unsettled(c) && StillOwed(rec.value))
    case Dead => rec.Some? && (if failed then FailedAlike(c, rec.value) else Unsettled(c) && StillOwed(rec.value))
    case Malformed => true
    case _ => Unsettled(c) && rec.Some? && StillOwed(rec.value) && !failed
  }

  function Entry(x: History, step: StepId): Option<RecordedStep> {
    if step in x.steps then Some(x.steps[step]) else None
  }

  /** A reading that passes over what it cannot make sense of. */
  function Skimming(h: seq<Event>): History {
    if h == [] then NOTHING
    else
      var x := Skimming(h[..|h| - 1]);
      match Noting(x, h[|h| - 1])
      case Some(y) => y
      case None => x
  }

  lemma {:induction false} ReadingIsSkimming(h: seq<Event>)
    requires Reading(h).Some?
    ensures Skimming(h) == Reading(h).value
  {
    if h != [] { ReadingIsSkimming(h[..|h| - 1]); }
  }

  /** Task events under this step are this task's, and the other way round. */
  predicate OwnStep(tail: seq<Event>, step: StepId, id: TaskId) {
    forall k :: 0 <= k < |tail| && IsTaskEvent(tail[k].typ) ==> (tail[k].step == step <==> Concerns(tail[k], id))
  }

  /** One event, read three ways. */
  lemma ReadsOne(v: View, c: ChildOutcome, x: History, failed: bool, e: Event, id: TaskId)
    requires Reads(v.phase, c, Entry(x, c.step), failed)
    requires IsTaskEvent(e.typ) ==> (e.step == c.step <==> Concerns(e, id))
    ensures var v' := if Concerns(e, id) then StepView(v, e) else v;
            var c' := if e.step == c.step then StepChild(c, e) else c;
            var x' := if Noting(x, e).Some? then Noting(x, e).value else x;
            Reads(v'.phase, c', Entry(x', c.step), failed || IsFinalFailure(e, id)) && c'.step == c.step
  {
  }

  lemma {:induction false} BeforeItExists(h: seq<Event>, step: StepId, id: TaskId)
    requires OwnStep(h, step, id) && ViewOf(h, id).phase.Absent?
    ensures Entry(Skimming(h), step).None? && !HasFinalFailure(h, id)
  {
    if h != [] {
      var n := |h| - 1;
      assert !Concerns(h[n], id);
      BeforeItExists(h[..n], step, id);
      FinalFailureSnoc(h, id);
    }
  }

  lemma FinalFailureSnoc(h: seq<Event>, id: TaskId)
    requires h != []
    ensures HasFinalFailure(h, id) <==> HasFinalFailure(h[..|h| - 1], id) || IsFinalFailure(h[|h| - 1], id)
  {
    hide IsFinalFailure;
    var g := h[..|h| - 1];
    assert forall k :: 0 <= k < |g| ==> g[k] == h[k];
    if k :| 0 <= k < |g| && IsFinalFailure(g[k], id) { assert IsFinalFailure(h[k], id); }
  }

  /** From where the task does not exist yet, the three readings go together. */
  lemma {:induction false} ReadsAlong(h: seq<Event>, m: nat, c: ChildOutcome, id: TaskId)
    requires m <= |h| && OwnStep(h, c.step, id) && Unsettled(c)
    requires ViewOf(h[..m], id).phase.Absent?
    ensures Reads(ViewOf(h, id).phase, ChildStory(c, h[m..]), Entry(Skimming(h), c.step), HasFinalFailure(h, id))
  {
    hide Noting, StepChild, StepView, Reads, Concerns, IsFinalFailure, HasFinalFailure;
    if |h| == m {
      assert h[..m] == h && h[m..] == [];
      BeforeItExists(h, c.step, id);
      AbsentReads(c, Entry(Skimming(h), c.step), HasFinalFailure(h, id));
    } else {
      var n := |h| - 1;
      assert h[..n][..m] == h[..m] && h[..n][m..] == h[m..n];
      assert h[m..] == h[m..n] + [h[n]];
      ReadsAlong(h[..n], m, c, id);
      StoryStep(c, h[m..n], h[n]);
      StoryKeepsName(c, h[m..n]);
      FinalFailureSnoc(h, id);
      ReadsOne(ViewOf(h[..n], id), ChildStory(c, h[m..n]), Skimming(h[..n]), HasFinalFailure(h[..n], id), h[n], id);
    }
  }

  lemma AbsentReads(c: ChildOutcome, rec: Option<RecordedStep>, failed: bool)
    requires Unsettled(c) && rec.None? && !failed
    ensures Reads(Absent, c, rec, failed)
  {
  }

  // ----- in every reachable state -----

  lemma StepsAreTheirs(s: State, r: RunId, id: TaskId)
    requires IndexOk(s) && HistoryOk(s, r) && id in s.tasks && s.tasks[id].run == r
    ensures OwnStep(Hist(s, r), s.tasks[id].step, id)
  {
    hide Gapless;
    var h := Hist(s, r);
    forall k | 0 <= k < |h| && IsTaskEvent(h[k].typ)
      ensures h[k].step == s.tasks[id].step <==> Concerns(h[k], id)
    {
      assert EventOk(s, r, h[k]);
      var other := TaskIdOf(h[k].data).value;
      assert s.stepIndex[StepKey(r, s.tasks[other].step)] == other;
      assert s.stepIndex[StepKey(r, s.tasks[id].step)] == id;
    }
  }

  lemma {:induction false} AbsentBefore(h: seq<Event>, id: TaskId, k: nat, m: nat)
    requires m <= k < |h| && h[k].typ.EvTaskCreated? && Concerns(h[k], id) && !ViewOf(h, id).phase.Malformed?
    ensures ViewOf(h[..m], id).phase.Absent?
  {
    var n := |h| - 1;
    if k < n {
      assert h[..n][..m] == h[..m];
      AbsentBefore(h[..n], id, k, m);
    } else {
      assert ViewOf(h[..n], id).phase.Absent?;
      AbsentPrefix(h[..n], id, m);
      assert h[..n][..m] == h[..m];
    }
  }

  lemma {:induction false} AbsentPrefix(h: seq<Event>, id: TaskId, m: nat)
    requires m <= |h| && ViewOf(h, id).phase.Absent?
    ensures ViewOf(h[..m], id).phase.Absent?
  {
    if m < |h| {
      assert h[..|h| - 1][..m] == h[..m];
      AbsentPrefix(h[..|h| - 1], id, m);
    } else {
      assert h[..m] == h;
    }
  }

  /** The task of a fan-out's i-th child. */
  lemma ChildTask(s: State, r: RunId, p: int, i: nat) returns (id: TaskId)
    requires Inv(s) && r in s.runs && 0 <= p < |Hist(s, r)| && WholeAt(Hist(s, r), p) && i < |Hist(s, r)[p].data.calls|
    ensures var step := Child(Hist(s, r)[p].step, i);
            && StepKey(r, step) in s.stepIndex && s.stepIndex[StepKey(r, step)] == id
            && id in s.tasks && s.tasks[id].run == r && s.tasks[id].step == step
    ensures ViewOf(Hist(s, r)[..p + 1], id).phase.Absent?
  {
    hide Inv, Hist, Child, ViewOf, PolicyText, IndexOk, HistoryOk, Concerns;
    InvParts(s);
    assert HistoryOk(s, r);
    var h := Hist(s, r);
    var k := p + 1 + i;
    assert CreatedAt(h, k, Child(h[p].step, i), h[p].data.calls[i]);
    id := CreatedTask(s, r, k);
    NotMalformed(s, id);
    AbsentBefore(h, id, k, p + 1);
  }

  /** The task a creation event is about. */
  lemma CreatedTask(s: State, r: RunId, k: nat) returns (id: TaskId)
    requires IndexOk(s) && HistoryOk(s, r) && k < |Hist(s, r)| && Hist(s, r)[k].typ.EvTaskCreated?
    ensures var step := Hist(s, r)[k].step;
            && id in s.tasks && s.tasks[id].run == r && s.tasks[id].step == step && Concerns(Hist(s, r)[k], id)
            && StepKey(r, step) in s.stepIndex && s.stepIndex[StepKey(r, step)] == id
  {
    hide Gapless, Hist;
    assert EventOk(s, r, Hist(s, r)[k]);
    id := TaskIdOf(Hist(s, r)[k].data).value;
  }

  lemma NotMalformed(s: State, id: TaskId)
    requires Inv(s) && id in s.tasks
    ensures ViewOf(Hist(s, s.tasks[id].run), id).phase == PhaseOf(s.tasks[id].status)
    ensures !ViewOf(Hist(s, s.tasks[id].run), id).phase.Malformed?
  {
    hide Inv, ViewOf, Hist, Rows, LeaseOk;
    InvTask(s, id);
  }

  lemma ChildOf(h: seq<Event>, f: FanOut, i: nat)
    requires FanOutOf(h) == Some(f) && i < |f.children|
    ensures var p := LastFanOut(h);
            && 0 <= p < |h| && h[p].data.FanOutData? && f.step == h[p].step && i < |h[p].data.calls|
            && f.children[i] == ChildStory(NewChild(f.step, h[p].data.calls, i), h[p + 1..])
            && f.children[i].step == Child(f.step, i)
  {
    hide LastFanOut, ChildStory, Child;
    var p := LastFanOut(h);
    StoryKeepsName(NewChild(f.step, h[p].data.calls, i), h[p + 1..]);
  }

  lemma WholeHere(s: State, r: RunId, p: int)
    requires AllWhole(s) && 0 <= p < |Hist(s, r)| && Hist(s, r)[p].typ.EvFanOutStarted?
    ensures WholeAt(Hist(s, r), p)
  {
    hide WholeAt;
    assert Whole(Hist(s, r));
  }

  lemma IndexAndHistory(s: State, r: RunId)
    requires Inv(s) && r in s.runs
    ensures IndexOk(s) && HistoryOk(s, r)
  {
    hide IndexOk, HistoryOk, ParentsOk, EffectsOk, TasksOk, RunsOk;
  }

  /** The three readings of child i of a run's latest fan-out. */
  lemma ChildReads(s: State, r: RunId, f: FanOut, i: nat) returns (id: TaskId)
    requires Inv(s) && r in s.runs && AllWhole(s) && FanOutOf(Hist(s, r)) == Some(f) && i < |f.children|
    ensures StepKey(r, Child(f.step, i)) in s.stepIndex && s.stepIndex[StepKey(r, Child(f.step, i))] == id &&
            id in s.tasks
    ensures s.tasks[id].run == r && f.children[i].step == Child(f.step, i)
    ensures Reads(PhaseOf(s.tasks[id].status), f.children[i], Entry(Skimming(Hist(s, r)), Child(f.step, i)),
                  HasFinalFailure(Hist(s, r), id))
    ensures !PhaseOf(s.tasks[id].status).Malformed?
  {
    hide Inv, Hist, FanOutOf, ChildStory, LastFanOut, Child, Skimming, Reads, HasFinalFailure, AllWhole, WholeAt,
         ViewOf, IndexOk, HistoryOk, OwnStep, PhaseOf;
    var h := Hist(s, r);
    ChildOf(h, f, i);
    var p := LastFanOut(h);
    WholeHere(s, r, p);
    id := ChildTask(s, r, p, i);
    IndexAndHistory(s, r);
    StepsAreTheirs(s, r, id);
    ReadsAlong(h, p + 1, NewChild(f.step, h[p].data.calls, i), id);
    NotMalformed(s, id);
  }

  lemma ReachableParts(tools: Tools, acts: seq<Action>)
    ensures Inv(Last(States(tools, acts))) && AllWhole(Last(States(tools, acts)))
  {
    hide States, Inv, Evolves, AllWhole;
    AllReachable(tools, acts);
    GoodAt(States(tools, acts), |acts|, |acts|);
    FanOutsAreWhole(tools, acts);
  }

  /** The engine's reading and the tables, in every reachable state: a child is
      settled and succeeded exactly when its task is COMPLETED, and settled and
      failed exactly when its task is DEAD_LETTER by a failure its worker
      reported. A child the reaper dead-letters is never settled. */
  lemma TablesAgree(tools: Tools, acts: seq<Action>, r: RunId, f: FanOut, i: nat)
    requires r in Last(States(tools, acts)).runs && FanOutOf(Hist(Last(States(tools, acts)), r)) == Some(f) &&
             i < |f.children|
    ensures var s := Last(States(tools, acts));
            var key := StepKey(r, Child(f.step, i));
            var c := f.children[i];
            && key in s.stepIndex && s.stepIndex[key] in s.tasks
            && var id := s.stepIndex[key];
               && (c.settled && c.succeeded <==> s.tasks[id].status.TaskCompleted?)
               && (c.settled && !c.succeeded <==> s.tasks[id].status.TaskDeadLetter? && HasFinalFailure(Hist(s, r), id))
  {
    hide States, Inv, AllWhole, Hist, FanOutOf, Child, Skimming, HasFinalFailure;
    ReachableParts(tools, acts);
    var s := Last(States(tools, acts));
    var id := ChildReads(s, r, f, i);
  }

  // ----- the engine's reading and the driver's -----

  /** A final failure whose message is empty: the driver takes a step with no
      error text for one still in flight. */
  predicate Silent(c: ChildOutcome) {
    c.settled && !c.succeeded && c.error == ""
  }

  /** The fan-out as the driver sees it. */
  function Muted(f: FanOut): FanOut {
    f.(children := seq(|f.children|, i requires 0 <= i < |f.children| =>
                         if Silent(f.children[i]) then f.children[i].(settled := false) else f.children[i]))
  }

  lemma OutcomeAgrees(s: State, r: RunId, f: FanOut, i: nat, call: Call)
    requires Inv(s) && r in s.runs && AllWhole(s) && FanOutOf(Hist(s, r)) == Some(f) && i < |f.children|
    requires Reading(Hist(s, r)).Some?
    ensures var o := OutcomeOf(Reading(Hist(s, r)).value, f.step, i, call);
            var c := Muted(f).children[i];
            o.settled == c.settled &&
              (c.settled ==> o.ok == c.succeeded && (o.ok ==> o.result == c.result) && (!o.ok ==> o.error == c.error))
    ensures StepKey(r, Child(f.step, i)) in s.stepIndex
  {
    hide Inv, AllWhole, Hist, FanOutOf, Child, Skimming, Reading, HasFinalFailure;
    var id := ChildReads(s, r, f, i);
    ReadingIsSkimming(Hist(s, r));
  }

  lemma {:induction false} SameCounts(os: seq<Outcome>, cs: seq<ChildOutcome>)
    requires |os| == |cs|
    requires forall i :: 0 <= i < |os| ==>
             os[i].settled == cs[i].settled && (cs[i].settled ==> os[i].ok == cs[i].succeeded)
    ensures Succeeded(os) == Successes(cs) && Failed(os) == Failures(cs)
  {
    if os != [] { SameCounts(os[..|os| - 1], cs[..|cs| - 1]); }
  }

  /** The driver finds a fan-out joined exactly when the engine's rule is
      satisfied with the silent failures left out. */
  lemma DriverJoins(s: State, r: RunId, f: FanOut, calls: seq<Call>, join: JoinPolicy)
    requires Inv(s) && r in s.runs && AllWhole(s) && FanOutOf(Hist(s, r)) == Some(f) && Reading(Hist(s, r)).Some?
    requires |calls| == |f.children| && (join.kind.JoinQuorum? ==> |calls| <= MAX_INT) && join.Valid(|calls|) &&
             f.join == JoinFrom(PolicyText(join))
    ensures Joined(join, Outcomes(Reading(Hist(s, r)).value, f.step, calls)) == Satisfied(Muted(f))
  {
    hide Inv, AllWhole, Hist, FanOutOf, Reading, OutcomeOf, PolicyText, JoinFrom;
    var x := Reading(Hist(s, r)).value;
    var os := Outcomes(x, f.step, calls);
    forall i | 0 <= i < |os|
      ensures os[i].settled == Muted(f).children[i].settled
      ensures Muted(f).children[i].settled ==> os[i].ok == Muted(f).children[i].succeeded
    {
      OutcomeAgrees(s, r, f, i, calls[i]);
    }
    SameCounts(os, Muted(f).children);
    PolicyRoundTrip(join, |calls|);
  }

  lemma MutedSettles(f: FanOut)
    ensures Satisfied(Muted(f)) ==> Satisfied(f)
    ensures (forall i :: 0 <= i < |f.children| ==> !Silent(f.children[i])) ==> Muted(f) == f
  {
    hide Satisfied;
    if Satisfied(Muted(f)) {
      SatisfiedIsMonotone(Muted(f), f.children);
      assert Muted(f).(children := f.children) == f;
    }
    if forall i :: 0 <= i < |f.children| ==> !Silent(f.children[i]) {
      assert Muted(f).children == f.children;
    }
  }

  /** The body, replayed on this run's history, stands at the fan-out f. */
  ghost predicate StandsAt(body: Body, s: State, r: RunId, f: FanOut, gots: seq<Got>)
  {
    && Reading(Hist(s, r)).Some? && FanOutOf(Hist(s, r)) == Some(f)
    && Replayed(body, Reading(Hist(s, r)).value, gots)
    && var w := body(gots);
       && w.WantAll? && w.join.Valid(|w.calls|) && Step(|gots| + 1) == f.step
       && |w.calls| == |f.children| && (w.join.kind.JoinQuorum? ==> |w.calls| <= MAX_INT) &&
         f.join == JoinFrom(PolicyText(w.join))
       && OnRecord(Reading(Hist(s, r)).value, |gots| + 1, w)
  }

  /** A fan-out on record is answered once it has joined, and asked for again
      until then. */
  lemma RecordedFanOut(x: History, p: nat, w: Want)
    requires w.WantAll? && OnRecord(x, p, w) && w.join.Valid(|w.calls|)
    ensures Look(x, Step(p), w) ==
            if Joined(w.join, Outcomes(x, Step(p), w.calls)) then Answer(GotOutcomes(Outcomes(x, Step(p), w.calls)))
            else Unwind(CallToolParallel(Step(p), w.calls, w.join))
  {
    hide Step, Child, Outcomes, Joined;
    assert FirstDiverging(x, Step(p), w.calls) == |w.calls|;
  }

  lemma StandingTurn(body: Body, s: State, r: RunId, f: FanOut, gots: seq<Got>)
    requires Inv(s) && r in s.runs && AllWhole(s) && StandsAt(body, s, r, f, gots)
    ensures var x := Reading(Hist(s, r)).value;
            if Satisfied(Muted(f)) then !Stops(body, x, gots)
            else Stops(body, x, gots) &&
                 TurnAt(body, x, gots) == Decides(CallToolParallel(f.step, body(gots).calls, body(gots).join))
  {
    hide Inv, AllWhole, Hist, FanOutOf, Reading, Outcomes, PolicyText, JoinFrom, Child, Step, Muted, Satisfied, Joined,
         OnRecord, Replayed, Look;
    var x := Reading(Hist(s, r)).value;
    var w := body(gots);
    DriverJoins(s, r, f, w.calls, w.join);
    RecordedFanOut(x, |gots| + 1, w);
  }

  /** Skipping the decider is sound: whenever the engine finds a fan-out still
      joining and asks nobody, the body, had it been asked, would have issued
      the identical fan-out again. */
  lemma SkippingIsSound(tools: Tools, acts: seq<Action>, body: Body, r: RunId, f: FanOut, gots: seq<Got>)
    requires r in Last(States(tools, acts)).runs && StandsAt(body, Last(States(tools, acts)), r, f, gots)
    requires Joining(Hist(Last(States(tools, acts)), r)).Some?
    ensures var x := Reading(Hist(Last(States(tools, acts)), r)).value;
            Stops(body, x, gots) &&
            TurnAt(body, x, gots) == Decides(CallToolParallel(f.step, body(gots).calls, body(gots).join))
  {
    hide States, Inv, AllWhole, Muted, Satisfied;
    ReachableParts(tools, acts);
    MutedSettles(f);
    StandingTurn(body, Last(States(tools, acts)), r, f, gots);
  }

  /** How many children failed for good without a message. */
  function Silences(cs: seq<ChildOutcome>): (n: nat)
    ensures n <= Failures(cs)
  {
    if cs == [] then 0 else Silences(cs[..|cs| - 1]) + (if Silent(cs[|cs| - 1]) then 1 else 0)
  }

  lemma {:induction false} MutedCounts(f: FanOut, n: nat)
    requires n <= |f.children|
    ensures Successes(Muted(f).children[..n]) == Successes(f.children[..n])
    ensures Failures(Muted(f).children[..n]) + Silences(f.children[..n]) == Failures(f.children[..n])
  {
    var cs, ms := f.children, Muted(f).children;
    if n > 0 {
      MutedCounts(f, n - 1);
      assert cs[..n][..n - 1] == cs[..n - 1] && ms[..n][..n - 1] == ms[..n - 1];
    }
  }

  /** The join turns on failures without a message, in numbers: ALL when every
      child has settled and one did so in silence; ANY when in addition none
      succeeded; QUORUM when it is short of successes and only the silent
      failures put it out of reach. */
  predicate TurnsOnSilence(f: FanOut) {
    var total, succeeded, failed, silent :=
      |f.children|, Successes(f.children), Failures(f.children), Silences(f.children);
    match f.join.kind
    case JoinAll => succeeded + failed == total && silent > 0
    case JoinAny => succeeded == 0 && failed == total && silent > 0
    case JoinQuorum => succeeded < f.join.quorum && total - failed < f.join.quorum <= total - failed + silent
    case JoinUnknown(_) => false
  }

  lemma SilenceDecides(f: FanOut)
    ensures Satisfied(f) != Satisfied(Muted(f)) <==> TurnsOnSilence(f)
  {
    MutedCounts(f, |f.children|);
    assert f.children[..|f.children|] == f.children && Muted(f).children[..|f.children|] == Muted(f).children;
    hide Silences, Successes, Failures;
  }

  /** The other way round it holds exactly when the join does not turn on
      failures without a message: the body re-issues its fan-out just while the
      engine finds it joining, if and only if the counts say so. */
  lemma NeverAskedInVain(tools: Tools, acts: seq<Action>, body: Body, r: RunId, f: FanOut, gots: seq<Got>)
    requires r in Last(States(tools, acts)).runs && StandsAt(body, Last(States(tools, acts)), r, f, gots)
    ensures var h := Hist(Last(States(tools, acts)), r);
            (Stops(body, Reading(h).value, gots) <==> Joining(h).Some?) <==> !TurnsOnSilence(f)
  {
    hide States, Inv, AllWhole, Stops, TurnAt, TurnsOnSilence, Satisfied, Muted;
    ReachableParts(tools, acts);
    SilenceDecides(f);
    StandingTurn(body, Last(States(tools, acts)), r, f, gots);
    MutedSettles(f);
    hide StandsAt;
  }

  /** Committing the re-issued fan-out leaves every table as it was. */
  lemma ReissueCommitsNothing(s: State, r: RunId, expected: int, output: Json, step: StepId,
                              calls: seq<Call>, join: JoinPolicy, ids: seq<TaskId>, max: int)
    requires |ids| == |calls| > 0 && StepKey(r, Child(step, 0)) in s.stepIndex
    ensures var res := FanOutTx(s, r, expected, output, step, calls, join, ids, max);
            res.Abort? && res.st == s &&
            (AdvanceError(s, r, expected, RunState(RunRunning, output, "", None)).None? ==> res.error == TaskExists)
  {
    hide Child, Log, ToolNames, PolicyText;
    if r in s.runs {
      var o := LogOn(Bump(s, r, RunState(RunRunning, output, "", None)), r,
                     Fact(EvFanOutStarted, step, FanOutData(ToolNames(calls), PolicyText(join))));
      FirstChildRefused(o, r, step, calls, ids, max, |calls|);
    }
  }

  lemma {:induction false} FirstChildRefused(s: State, r: RunId, step: StepId, calls: seq<Call>, ids: seq<TaskId>,
                                             max: int, n: nat)
    requires |ids| == |calls| && 0 < n <= |calls| && r in s.runs && StepKey(r, Child(step, 0)) in s.stepIndex
    ensures AddChildren(s, r, step, calls, ids, max, n) == Abort(TaskExists, s)
  {
    if n > 1 { FirstChildRefused(s, r, step, calls, ids, max, n - 1); }
  }
}
