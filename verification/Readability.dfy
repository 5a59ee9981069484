/** The replay driver can read every history the engine writes: no outcome comes
    without the start it is the outcome of, and no body is unreadable. */
module Readability {
  import opened Prelude
  import opened Names
  import opened Core
  import opened Tables
  import opened Waits
  import opened Lifecycle
  import opened Invariants
  import opened Transactions
  import opened RunSteps
  import opened Joins
  import opened FanOuts
  import opened Advancing
  import opened Behaviours
  import opened Frames
  import opened Marks
  import opened StaticPlan
  import opened Histories
  import opened Skipping

  predicate Legible(h: seq<Event>) {
    Reading(h).Some?
  }

  ghost predicate AllLegible(s: State) {
    forall r :: Legible(Hist(s, r))
  }

  lemma {:induction false} PlainTailReads(h: seq<Event>, g: seq<Event>)
    requires Legible(h) && QuietTail(h, g, WakingsToo)
    ensures Legible(g)
  {
    if |g| == |h| {
      assert g == h;
    } else {
      var n := |g| - 1;
      assert QuietTail(h, g[..n], WakingsToo);
      PlainTailReads(h, g[..n]);
      assert !Marked(g[n], WakingsToo);
    }
  }

  lemma LoggedReads(h: seq<Event>, f: Fact)
    requires Legible(h) && Noting(Reading(h).value, AsEvent(f)).Some?
    ensures Legible(Log(h, f))
  {
    var e := Stamp(h, f);
    assert e.typ == f.typ && e.data == f.data && e.step == f.step;
    assert Log(h, f)[..|h|] == h;
  }

  // ----- a completion follows a creation -----

  lemma RunningIsRecorded(s: State, id: TaskId)
    requires Inv(s) && id in s.tasks && s.tasks[id].status.TaskRunning? && Legible(Hist(s, s.tasks[id].run))
    ensures s.tasks[id].step in Reading(Hist(s, s.tasks[id].run)).value.steps
  {
    hide Inv, Hist, Reading, Skimming, ViewOf, IndexOk, HistoryOk, OwnStep, ChildStory, HasFinalFailure;
    var r := s.tasks[id].run;
    var h := Hist(s, r);
    InvParts(s);
    TaskHasRun(s, id);
    assert HistoryOk(s, r);
    StepsAreTheirs(s, r, id);
    NotMalformed(s, id);
    var c := ChildOutcome(s.tasks[id].step, 0, "", false, false, None, "");
    NothingYet(h, id);
    ReadsAlong(h, 0, c, id);
    ReadingIsSkimming(h);
  }

  lemma NothingYet(h: seq<Event>, id: TaskId)
    ensures ViewOf(h[..0], id).phase.Absent?
  {
  }

  lemma CompleteReads(s: State, id: TaskId, token: int, result: Json, now: Time)
    requires Inv(s) && AllLegible(s)
    ensures AllLegible(CompleteTx(s, id, token, result, now).st)
  {
    hide Inv, Legible, Hist, CompleteTx, NothingCreated;
    var res := CompleteTx(s, id, token, result, now);
    forall r
      ensures Legible(Hist(res.st, r))
    {
      assert Legible(Hist(s, r));
      CompletedRow(s, id, token, result, now, r);
      if res.Commit? && s.tasks[id].run == r {
        RunningIsRecorded(s, id);
        CompletionReads(Hist(s, r), s.tasks[id].step, id, result);
      } else if res.Abort? {
        AbortedComplete(s, id, token, result, now);
      }
    }
  }

  lemma CompletionReads(h: seq<Event>, step: StepId, id: TaskId, result: Json)
    requires Legible(h) && step in Reading(h).value.steps
    ensures Legible(Log(h, Fact(EvTaskCompleted, step, TaskCompletedData(id, result))))
  {
    hide Reading, Log;
    LoggedReads(h, Fact(EvTaskCompleted, step, TaskCompletedData(id, result)));
  }

  // ----- a waking follows a wait -----

  lemma {:induction false} PendingIsRecorded(h: seq<Event>)
    requires Legible(h) && Pending(h).Some?
    ensures Pending(h).value.step in Reading(h).value.waits
  {
    var n := |h| - 1;
    if StartOf(h[n]).None? { PendingIsRecorded(h[..n]); }
  }

  lemma WakingReads(s: State, r: RunId, next: RunState, f: Fact)
    requires r in s.runs && Legible(Hist(s, r)) && MayRecord(s, r, next, Some(f)) && Resolves(AsEvent(f)) &&
             !f.data.Unreadable?
    ensures Legible(Log(Hist(s, r), f))
  {
    hide Pending, Hist, Reading, Log, Consumed, Fresh;
    PendingIsRecorded(Hist(s, r));
    LoggedReads(Hist(s, r), f);
  }

  lemma WokenFact(cfg: Config, r: RunId, run: Run, h: seq<Event>, signals: map<SignalKey, Signal>,
                  found: Option<string>, now: Time)
    requires found.Some? ==> SignalKey(r, found.value) in signals
    ensures var c := Pass(cfg, r, run, h, signals, found, now);
            c.Write? && c.fact.Some? ==> !c.fact.value.data.Unreadable?
  {
    hide Pending, Joining;
  }

  lemma WakingPassReads(tools: Tools, past: seq<State>, a: Action)
    requires past != [] && Good(past) && AllLegible(Last(past)) && a.Advance? && AdvanceEnabled(past, a)
    requires !Unremarkable(PassOf(past, a), WakingsToo)
    ensures AllLegible(Next(tools, past, a))
  {
    hide Inv, Evolves, Good, Legible, Hist, Pass, Chosen, Pending, Ids, Consumed, AdvanceTx, PassFrame, MayRecord;
    var k := |past| - 1;
    var s, t := Last(past), Next(tools, past, a);
    var c := PassOf(past, a);
    var run := past[a.i].runs[a.r];
    GoodAt(past, a.i, a.j);
    GoodAt(past, a.j, k);
    GoodAt(past, a.i, k);
    GoodAt(past, a.l, k);
    GoodAt(past, k, k);
    assert t == AdvanceTx(s, a.r, run.version, c.next, c.fact).st;
    CommitFrame(a.cfg, s, a.r, run, c, a.ids);
    WokenFact(a.cfg, a.r, run, Hist(past[a.j], a.r), past[a.l].signals, a.found, a.now);
    FrameOthers(s, t, a.r, if t == s || c.fact.None? then [] else TakenBy(AsEvent(c.fact.value)));
    WrittenHistory(s, a.r, run.version, c.next, c.fact.value);
    assert Legible(Hist(s, a.r));
    if a.r in s.runs && s.runs[a.r].version == run.version {
      PassMayBeRecorded(a.cfg, a.r, past[a.i], past[a.j], past[a.l], s, a.found, a.now);
      WakingReads(s, a.r, c.next, c.fact.value);
    }
    forall q
      ensures Legible(Hist(t, q))
    {
      assert Legible(Hist(s, q));
    }
  }

  lemma WrittenHistory(s: State, r: RunId, expected: int, next: RunState, f: Fact)
    ensures var t := AdvanceTx(s, r, expected, next, Some(f)).st;
            Hist(t, r) == Hist(s, r) ||
              (r in s.runs && s.runs[r].version == expected && Hist(t, r) == Log(Hist(s, r), f))
  {
    hide Log;
  }

  // ----- every step -----

  lemma UnmarkedReads(s: State, t: State)
    requires AllLegible(s) && Unmarked(s, t, WakingsToo)
    ensures AllLegible(t)
  {
    hide Legible, Hist, QuietTail;
    forall r
      ensures Legible(Hist(t, r))
    {
      assert QuietTail(Hist(s, r), Hist(t, r), WakingsToo);
      PlainTailReads(Hist(s, r), Hist(t, r));
    }
  }

  lemma ReportReads(tools: Tools, past: seq<State>, a: Action)
    requires past != [] && Inv(Last(past)) && AllLegible(Last(past)) && a.Complete?
    ensures AllLegible(Next(tools, past, a))
  {
    hide AllLegible, CompleteTx, Executed, Inv;
    CompleteReads(Last(past), a.id, a.token, a.result, Last(past).clock);
  }

  lemma StepReads(tools: Tools, past: seq<State>, a: Action)
    requires past != [] && Good(past) && AllLegible(Last(past))
    ensures AllLegible(Next(tools, past, a))
  {
    hide AllLegible, Next, AdvanceEnabled, PassOf, Unmarked, Unremarkable, Good, Inv, Evolves;
    GoodAt(past, |past| - 1, |past| - 1);
    if a.Complete? {
      ReportReads(tools, past, a);
    } else if a.Advance? && AdvanceEnabled(past, a) && !Unremarkable(PassOf(past, a), WakingsToo) {
      WakingPassReads(tools, past, a);
    } else {
      OthersAddNone(tools, past, a, WakingsToo);
      UnmarkedReads(Last(past), Next(tools, past, a));
    }
  }

  lemma EmptyReads()
    ensures AllLegible(EMPTY)
  {
  }

  /** In every behaviour, reading a run's history never meets what the reader
      calls impossible: a completion of a step that was never created, a waking
      from a wait that was never started, or a body it cannot decode. */
  lemma {:induction false} EngineHistoriesAreReadable(tools: Tools, acts: seq<Action>)
    ensures AllLegible(Last(States(tools, acts)))
  {
    hide Next, AllLegible, Good;
    if acts == [] {
      EmptyReads();
    } else {
      var before := acts[..|acts| - 1];
      EngineHistoriesAreReadable(tools, before);
      AllReachable(tools, before);
      StepReads(tools, States(tools, before), acts[|acts| - 1]);
    }
  }
}
