/** The engine's operations as their callers see them (internal/engine): several
    reads and transactions in a row, with anybody else's transactions in
    between. Each keeps the invariants however the others interleave, because
    what it commits is exactly the specified pass over what it read. */
module Engine {
  import opened Prelude
  import opened Names
  import opened Core
  import opened Tables
  import opened Waits
  import opened Invariants
  import opened Transactions
  import opened TaskSteps
  import opened RunSteps
  import opened FanOuts
  import opened Advancing
  import opened Behaviours
  import opened Agreement
  import opened LedgerFrames
  import opened Memory
  import opened TaskEngine
  import opened RunEngine
  import opened Executor
  import opened Queries

  // ----- Advance -----

  /** What a pass has read so far: the run in a, its history in b. */
  ghost predicate HasRead(store: Store, a: State, b: State, r: RunId, run: Run, h: seq<Event>)
    reads store
  {
    && InGoodOrder(store.st) && Evolves(a, b) && Evolves(b, store.st) && Evolves(a, store.st)
    && r in a.runs && run == a.runs[r] && h == Hist(b, r)
  }

  /** One commitment of a pass: the run as read in a, its history in b, the
      signals in c, committed against d, which made it after. */
  datatype Turn = Turn(a: State, b: State, c: State, d: State, found: Option<string>, now: Time, ids: seq<TaskId>,
                       after: State)

  /** The tables it leaves are what the specified pass makes of those reads, in
      the order in which they were read, and nothing else. */
  ghost predicate TurnOf(cfg: Config, r: RunId, t: Turn) {
    && r in t.a.runs && Evolves(t.a, t.b) && Evolves(t.b, t.d) && Evolves(t.a, t.d) && Evolves(t.c, t.d)
    && (t.found.Some? ==> SignalKey(r, t.found.value) in t.c.signals)
    && (Pending(Hist(t.b, r)).Some? ==>
          Chosen(t.c.signals, r, Pending(Hist(t.b, r)).value.signal, Ids(Consumed(Hist(t.b, r))), t.found))
    && t.after == CommitTx(cfg, t.d, r, t.a.runs[r],
                           Pass(cfg, r, t.a.runs[r], Hist(t.b, r), t.c.signals, t.found, t.now), t.ids).st
  }

  /** Where the tables stood after the first i turns. */
  function StoodAt(s: State, turns: seq<Turn>, i: nat): State
    requires i <= |turns|
  {
    if i == 0 then s else turns[i - 1].after
  }

  function StoodLast(s: State, turns: seq<Turn>): State {
    StoodAt(s, turns, |turns|)
  }

  /** A turn that came after these tables, others in between. */
  ghost predicate TurnAfter(cfg: Config, r: RunId, t: Turn, before: State) {
    TurnOf(cfg, r, t) && Evolves(before, t.d)
  }

  /** Turns one after the other, from s on. */
  ghost predicate Turns(cfg: Config, r: RunId, s: State, turns: seq<Turn>) {
    forall i :: 0 <= i < |turns| ==> TurnAfter(cfg, r, turns[i], StoodAt(s, turns, i))
  }

  lemma NoTurns(cfg: Config, r: RunId, s: State)
    ensures Turns(cfg, r, s, []) && StoodLast(s, []) == s
  {
  }

  lemma OneMore(cfg: Config, r: RunId, s: State, turns: seq<Turn>, t: Turn)
    requires Turns(cfg, r, s, turns) && TurnOf(cfg, r, t) && Evolves(StoodLast(s, turns), t.d)
    ensures Turns(cfg, r, s, turns + [t]) && StoodLast(s, turns + [t]) == t.after
  {
    hide TurnOf, Evolves;
    var more := turns + [t];
    forall i | 0 <= i < |more|
      ensures TurnAfter(cfg, r, more[i], StoodAt(s, more, i))
    {
      assert StoodAt(s, more, i) == StoodAt(s, turns, i);
      assert more[i] == if i < |turns| then turns[i] else t;
    }
  }

  /** A later pass goes on where another one stopped. */
  lemma {:induction false} MoreTurns(cfg: Config, r: RunId, s: State, turns: seq<Turn>, u: State, rest: seq<Turn>)
    requires Turns(cfg, r, s, turns) && Turns(cfg, r, u, rest) && Evolves(StoodLast(s, turns), u)
    ensures Turns(cfg, r, s, turns + rest)
    ensures StoodLast(s, turns + rest) == if rest == [] then StoodLast(s, turns) else StoodLast(u, rest)
    decreases |rest|
  {
    hide TurnOf, Evolves;
    if rest == [] {
      assert turns + rest == turns;
    } else {
      var n := |rest| - 1;
      TurnsBefore(cfg, r, u, rest);
      MoreTurns(cfg, r, s, turns, u, rest[..n]);
      if n == 0 { EvolvesTransitive(StoodLast(s, turns), u, rest[n].d); }
      OneMore(cfg, r, s, turns + rest[..n], rest[n]);
      assert turns + rest == turns + rest[..n] + [rest[n]];
    }
  }

  lemma TurnsBefore(cfg: Config, r: RunId, s: State, turns: seq<Turn>)
    requires Turns(cfg, r, s, turns) && turns != []
    ensures var n := |turns| - 1;
            Turns(cfg, r, s, turns[..n]) && TurnOf(cfg, r, turns[n]) && Evolves(StoodLast(s, turns[..n]), turns[n].d)
  {
    hide TurnOf, Evolves;
    var n := |turns| - 1;
    assert TurnAfter(cfg, r, turns[n], StoodAt(s, turns, n));
    assert StoodLast(s, turns[..n]) == StoodAt(s, turns, n);
    forall i | 0 <= i < n
      ensures TurnAfter(cfg, r, turns[..n][i], StoodAt(s, turns[..n], i))
    {
      assert turns[..n][i] == turns[i] && StoodAt(s, turns[..n], i) == StoodAt(s, turns, i);
    }
  }

  /** All that these turns have done. */
  ghost function TurnDeeds(deeds: seq<Deed>, turns: seq<Turn>): seq<Deed> {
    if turns == [] then deeds
    else
      var t := turns[|turns| - 1];
      Written(TurnDeeds(deeds, turns[..|turns| - 1]), t.d, t.after)
  }

  lemma NoTurnDeeds(deeds: seq<Deed>)
    ensures TurnDeeds(deeds, []) == deeds
  {
  }

  lemma OneTurnDeed(deeds: seq<Deed>, turns: seq<Turn>, t: Turn)
    ensures TurnDeeds(deeds, turns + [t]) == Written(TurnDeeds(deeds, turns), t.d, t.after)
    ensures turns == [] ==> TurnDeeds(deeds, [t]) == Written(deeds, t.d, t.after)
  {
    hide Written;
    assert (turns + [t])[..|turns|] == turns;
    assert turns == [] ==> turns + [t] == [t];
  }

  lemma {:induction false} MoreTurnDeeds(deeds: seq<Deed>, turns: seq<Turn>, rest: seq<Turn>)
    ensures TurnDeeds(deeds, turns + rest) == TurnDeeds(TurnDeeds(deeds, turns), rest)
    decreases |rest|
  {
    hide Written;
    if rest == [] {
      assert turns + rest == turns;
    } else {
      var n := |rest| - 1;
      MoreTurnDeeds(deeds, turns, rest[..n]);
      assert turns + rest == turns + rest[..n] + [rest[n]];
      OneTurnDeed(deeds, turns + rest[..n], rest[n]);
    }
  }

  /** The turn records that the run waits for a signal. */
  ghost predicate ParksOnSignal(cfg: Config, r: RunId, t: Turn) {
    TurnOf(cfg, r, t) &&
    var c := Pass(cfg, r, t.a.runs[r], Hist(t.b, r), t.c.signals, t.found, t.now);
    c.Write? && c.fact.Some? && c.fact.value.typ.EvSignalWaitStarted?
  }

  lemma ServingNeverParks(cfg: Config, r: RunId, t: Turn)
    requires TurnOf(cfg, r, t) && Pending(Hist(t.b, r)).Some?
    ensures !ParksOnSignal(cfg, r, t)
  {
    hide Evolves, Pending, Hist, Chosen, CommitTx, AskDecider;
  }

  ghost function Parks(cfg: Config, r: RunId, turns: seq<Turn>): nat {
    if turns == [] then 0
    else Parks(cfg, r, turns[..|turns| - 1]) + if ParksOnSignal(cfg, r, turns[|turns| - 1]) then 1 else 0
  }

  /** Whatever follows a park on a signal begins by reading the run again. */
  ghost predicate LooksAfterParks(cfg: Config, r: RunId, turns: seq<Turn>) {
    forall i :: 0 <= i < |turns| - 1 && ParksOnSignal(cfg, r, turns[i]) ==> Evolves(turns[i].after, turns[i + 1].a)
  }

  lemma OneMoreLook(cfg: Config, r: RunId, turns: seq<Turn>, t: Turn)
    requires LooksAfterParks(cfg, r, turns)
    requires turns != [] && ParksOnSignal(cfg, r, turns[|turns| - 1]) ==> Evolves(turns[|turns| - 1].after, t.a)
    ensures LooksAfterParks(cfg, r, turns + [t])
    ensures Parks(cfg, r, turns + [t]) == Parks(cfg, r, turns) + if ParksOnSignal(cfg, r, t) then 1 else 0
  {
    hide ParksOnSignal, Evolves;
    var more := turns + [t];
    assert more[..|turns|] == turns;
    forall i | 0 <= i < |more| - 1 && ParksOnSignal(cfg, r, more[i])
      ensures Evolves(more[i].after, more[i + 1].a)
    {
      assert more[i] == turns[i] && more[i + 1] == if i + 1 < |turns| then turns[i + 1] else t;
    }
  }

  lemma {:induction false} MoreLooks(cfg: Config, r: RunId, turns: seq<Turn>, rest: seq<Turn>)
    requires LooksAfterParks(cfg, r, turns) && LooksAfterParks(cfg, r, rest)
    requires turns != [] && rest != [] && ParksOnSignal(cfg, r, turns[|turns| - 1]) ==>
               Evolves(turns[|turns| - 1].after, rest[0].a)
    ensures LooksAfterParks(cfg, r, turns + rest)
    ensures Parks(cfg, r, turns + rest) == Parks(cfg, r, turns) + Parks(cfg, r, rest)
    decreases |rest|
  {
    hide ParksOnSignal, Evolves;
    if rest == [] {
      assert turns + rest == turns;
    } else {
      var n := |rest| - 1;
      var before := turns + rest[..n];
      LooksBefore(cfg, r, rest);
      MoreLooks(cfg, r, turns, rest[..n]);
      assert before != [] ==> before[|before| - 1] == if n == 0 then turns[|turns| - 1] else rest[n - 1];
      OneMoreLook(cfg, r, before, rest[n]);
      assert turns + rest == before + [rest[n]];
    }
  }

  lemma LooksBefore(cfg: Config, r: RunId, turns: seq<Turn>)
    requires LooksAfterParks(cfg, r, turns) && turns != []
    ensures var n := |turns| - 1;
            && LooksAfterParks(cfg, r, turns[..n])
            && (n > 0 && ParksOnSignal(cfg, r, turns[n - 1]) ==> Evolves(turns[n - 1].after, turns[n].a))
  {
    hide ParksOnSignal, Evolves;
    var n := |turns| - 1;
    forall i | 0 <= i < n - 1 && ParksOnSignal(cfg, r, turns[..n][i])
      ensures Evolves(turns[..n][i].after, turns[..n][i + 1].a)
    {
      assert turns[..n][i] == turns[i] && turns[..n][i + 1] == turns[i + 1];
    }
  }

  /** Nothing more is to be done for this run by this engine. */
  predicate Finished(cfg: Config, s: State, r: RunId) {
    r !in s.runs || s.runs[r].status.IsTerminal() || s.runs[r].agent != cfg.agent
  }

  method History(store: Store, r: RunId) returns (h: seq<Event>)
    ensures h == Hist(store.st, r)
  {
    if r in store.st.events { return store.st.events[r]; }
    return [];
  }

  /** A pass, committed against whatever the tables are by now, keeps them in order. */
  lemma PassCommits(cfg: Config, r: RunId, a: State, b: State, c: State, d: State, found: Option<string>, now: Time,
                    ids: seq<TaskId>)
    requires InGoodOrder(d) && Evolves(a, b) && Evolves(b, d) && Evolves(a, d) && Evolves(c, d) && r in a.runs
    requires cfg.maxAttempts >= 1
    requires Pending(Hist(b, r)).Some? ==>
               Chosen(c.signals, r, Pending(Hist(b, r)).value.signal, Ids(Consumed(Hist(b, r))), found)
    requires found.Some? ==> SignalKey(r, found.value) in c.signals
    ensures var t := CommitTx(cfg, d, r, a.runs[r], Pass(cfg, r, a.runs[r], Hist(b, r), c.signals, found, now), ids).st;
            InGoodOrder(t) && Evolves(d, t)
  {
    hide Inv, Evolves, Pass, CommitTx, Chosen, Pending, Ids, Consumed, Hist, NoEarlyAnswers;
    GoodParts(d);
    PassKeepsInv(cfg, r, a, b, c, d, found, now, ids);
    var p := Pass(cfg, r, a.runs[r], Hist(b, r), c.signals, found, now);
    CommitKeepsLedger(cfg, d, r, a.runs[r], p, ids);
    SameAnswers(d, CommitTx(cfg, d, r, a.runs[r], p, ids).st);
  }

  /** A timer ends by firing at the instant it was set for; a wait for a signal by
      the signal that was found, as it is stored, and with none by its deadline. */
  predicate Ends(f: Fact, w: Wait, signals: map<SignalKey, Signal>, r: RunId, found: Option<string>) {
    && f.step == w.step
    && match w.kind
       case WaitTimer => f.typ.EvTimerFired? && f.data == TimerFiredData(w.until)
       case WaitSignal =>
         if found.Some? then
           f.typ.EvSignalReceived? && SignalKey(r, found.value) in signals &&
           var sig := signals[SignalKey(r, found.value)];
           f.data == SignalReceivedData(sig.name, found.value, sig.payload)
         else f.typ.EvSignalWaitTimedOut? && f.data == SignalTimedOutData(w.signal, w.until)
  }

  /** What a pass makes of a run it found waiting, told without saying which event
      it picks: unless another pass has moved the run on, the wait is over if its
      instant has come or its signal is there, and then one event that ends it is
      on record and the run is awake; otherwise nothing is recorded, and the run
      sleeps on, until then. */
  ghost predicate Served(r: RunId, run: Run, w: Wait, t: Turn) {
    if r !in t.d.runs || t.d.runs[r].version != run.version then t.after == t.d
    else
      && r in t.after.runs
      && if w.until <= t.now || (w.kind.WaitSignal? && t.found.Some?) then
           && t.after.runs[r].availableAt.None? && t.after.runs[r].version == run.version + 1
           && exists f :: Ends(f, w, t.c.signals, r, t.found) && t.after.events == t.d.events[r := Log(Hist(t.d, r), f)]
         else
           t.after.events == t.d.events &&
           t.after.runs[r].availableAt == if run.availableAt.None? then Some(w.until) else t.d.runs[r].availableAt
  }

  lemma ServingServes(cfg: Config, r: RunId, w: Wait, t: Turn)
    requires TurnOf(cfg, r, t) && Pending(Hist(t.b, r)) == Some(w)
    requires t.a.runs[r].status.RunRunning? && t.a.runs[r].agent == cfg.agent
    requires r in t.d.runs && t.d.runs[r].version == t.a.runs[r].version ==> t.d.runs[r].status.RunRunning?
    ensures Served(r, t.a.runs[r], w, t)
    ensures r in t.d.runs ==>
              (WaitEnds(r, w, t).Some? && TurnError(cfg, r, t).None? <==>
                 t.d.runs[r].version == t.a.runs[r].version &&
                 (w.until <= t.now || (w.kind.WaitSignal? && t.found.Some?)))
  {
    hide Evolves, Pending, Hist, Chosen, Log, Ids, Consumed, WaitOver, Ends, Pass, CommitTx, AdvanceTx;
    var run := t.a.runs[r];
    ServingIsThePass(cfg, r, run, Hist(t.b, r), t.c.signals, t.found, t.now, t.d, t.ids);
    OverIff(w, t.c.signals, r, t.found, t.now);
    SwapWrites(t.d, r, run, StillRunning(run), WaitOver(w, t.c.signals, r, t.found, t.now));
    SwapWrites(t.d, r, run, RunState(RunRunning, run.output, "", Some(w.until)), None);
  }

  /** As above, for a pass that read its run before it. */
  lemma StillServes(cfg: Config, r: RunId, w: Wait, t: Turn)
    requires TurnOf(cfg, r, t) && Pending(Hist(t.b, r)) == Some(w) && InGoodOrder(t.d)
    requires !t.a.runs[r].status.IsTerminal() && t.a.runs[r].agent == cfg.agent
    ensures Served(r, t.a.runs[r], w, t) && r in t.d.runs
    ensures WaitEnds(r, w, t).Some? && TurnError(cfg, r, t).None? <==>
            t.d.runs[r].version == t.a.runs[r].version &&
            (w.until <= t.now || (w.kind.WaitSignal? && t.found.Some?))
  {
    hide Inv, Evolves, NoEarlyAnswers, Pending, Hist, Chosen, Ids, Consumed, WaitOver, Pass, CommitTx, Served,
         TurnError;
    SameAgent(t.a, t.b, t.c, t.d, r);
    if t.d.runs[r].version == t.a.runs[r].version { UnmovedRun(t.a, t.b, t.c, t.d, r); }
    ServingServes(cfg, r, w, t);
  }

  lemma OverIff(w: Wait, signals: map<SignalKey, Signal>, r: RunId, found: Option<string>, now: Time)
    requires found.Some? ==> SignalKey(r, found.value) in signals
    ensures var over := WaitOver(w, signals, r, found, now);
            && (over.Some? <==> w.until <= now || (w.kind.WaitSignal? && found.Some?))
            && (over.Some? ==> Ends(over.value, w, signals, r, found))
  {
  }

  /** What a swap of a running run's row writes, with its event if it has one. */
  lemma SwapWrites(d: State, r: RunId, run: Run, next: RunState, fact: Option<Fact>)
    requires next.status.RunRunning?
    requires r in d.runs && d.runs[r].version == run.version ==> d.runs[r].status.RunRunning?
    ensures var res := AdvanceTx(d, r, run.version, next, fact);
            if r !in d.runs || d.runs[r].version != run.version then res.Abort? && res.st == d
            else
              && res.Commit? && r in res.st.runs && res.st.runs[r].availableAt == next.availableAt
              && res.st.runs[r].version == run.version + 1
              && res.st.events == if fact.Some? then d.events[r := Log(Hist(d, r), fact.value)] else d.events
  {
    hide Log;
  }

  /** The event that ends this wait, if something has ended it: the one place
      that looks at the outside world on a waiting run's behalf. */
  method WaitIsOver(store: Store, r: RunId, history: seq<Event>, w: Wait, now: Time)
    returns (over: Option<Fact>, found: Option<string>)
    ensures Chosen(store.st.signals, r, w.signal, Ids(Consumed(history)), found)
    ensures found.Some? ==> SignalKey(r, found.value) in store.st.signals
    ensures over == WaitOver(w, store.st.signals, r, found, now)
    ensures over.Some? <==> w.until <= now || (w.kind.WaitSignal? && found.Some?)
    ensures over.Some? ==> Ends(over.value, w, store.st.signals, r, found)
  {
    hide Ids, Consumed, LexLess;
    found := UnconsumedSignal(store.st, r, history, w.signal);
    match w.kind {
      case WaitTimer =>
        if !w.Elapsed(now) { return None, found; }
        return Some(Fact(EvTimerFired, w.step, TimerFiredData(w.until))), found;
      case WaitSignal =>
        if found.Some? {
          var sig := store.st.signals[SignalKey(r, found.value)];
          return Some(Fact(EvSignalReceived, w.step, SignalReceivedData(sig.name, found.value, sig.payload))), found;
        }
        if w.Elapsed(now) {
          return Some(Fact(EvSignalWaitTimedOut, w.step, SignalTimedOutData(w.signal, w.until))), found;
        }
        return None, found;
    }
  }

  lemma ServingIsThePass(cfg: Config, r: RunId, run: Run, h: seq<Event>, signals: map<SignalKey, Signal>,
                         found: Option<string>, now: Time, d: State, ids: seq<TaskId>)
    requires found.Some? ==> SignalKey(r, found.value) in signals
    requires !run.status.IsTerminal() && run.agent == cfg.agent && Pending(h).Some?
    ensures var w := Pending(h).value;
            var over := WaitOver(w, signals, r, found, now);
            CommitTx(cfg, d, r, run, Pass(cfg, r, run, h, signals, found, now), ids) ==
            if over.Some? then AdvanceTx(d, r, run.version, StillRunning(run), over)
            else if run.availableAt.None? then
              AdvanceTx(d, r, run.version, RunState(RunRunning, run.output, "", Some(w.until)), None)
            else Commit(d)
  {
    hide Pending, AdvanceTx;
  }

  /** resume: end the wait, or put the run back to sleep on it: turn is what it
      committed. ready says that the wait was ended by this very commit, and
      then run and history are re-read in the same instant. */
  method Resume(store: Store, cfg: Config, r: RunId, run: Run, history: seq<Event>, w: Wait, now: Time, ghost a: State,
                ghost b: State)
    returns (ready: bool, run': Run, history': seq<Event>, err: Option<Error>, ghost turn: Turn)
    requires HasRead(store, a, b, r, run, history) && cfg.maxAttempts >= 1
    requires Pending(history) == Some(w) && !run.status.IsTerminal() && run.agent == cfg.agent
    modifies store
    ensures InGoodOrder(store.st) && Evolves(old(store.st), store.st)
    ensures TurnOf(cfg, r, turn) && turn.a == a && turn.b == b && turn.now == now && turn.ids == []
    ensures Evolves(old(store.st), turn.c) && Evolves(old(store.st), turn.d) && store.st == turn.after
    ensures err == if WaitEnds(r, w, turn).Some? || run.availableAt.None? then Swallowed(TurnError(cfg, r, turn))
            else None
    ensures ready <==> WaitEnds(r, w, turn).Some? && TurnError(cfg, r, turn).None?
    ensures Served(r, run, w, turn)
    ensures ready <==> r in turn.d.runs && turn.d.runs[r].version == run.version &&
                       (w.until <= now || (w.kind.WaitSignal? && turn.found.Some?))
    ensures store.deeds == Written(old(store.deeds), turn.d, store.st)
    ensures !ParksOnSignal(cfg, r, turn)
    ensures ready ==> r in store.st.runs && run' == store.st.runs[r] && history' == Hist(store.st, r) &&
                      run'.status.RunRunning? && run'.agent == cfg.agent && Pending(history').None?
  {
    hide InGoodOrder, Evolves, Chosen, Pending, Ids, Consumed, Hist, Pass, CommitTx, AdvanceTx, WaitOver, Ends, Served,
         Written;
    ready, run', history', err := false, run, history, None;
    ghost var was := store.st;
    Interfere(store);
    ghost var c := store.st;
    var over, found := WaitIsOver(store, r, history, w, now);
    Interfere(store);
    ghost var d := store.st;
    Chain(a, was, c, d);
    Chain(b, was, c, d);
    PassCommits(cfg, r, a, b, c, d, found, now, []);
    ServingIsThePass(cfg, r, run, history, c.signals, found, now, d, []);
    EvolvesTransitive(was, c, d);
    turn := Turn(a, b, c, d, found, now, [],
                 CommitTx(cfg, d, r, run, Pass(cfg, r, run, history, c.signals, found, now), []).st);
    ServingNeverParks(cfg, r, turn);
    StillServes(cfg, r, w, turn);
    NothingWritten(store.deeds, d);
    if over.None? {
      if run.availableAt.None? {
        err := AdvanceAndRecord(store, r, run.version, RunState(RunRunning, run.output, "", Some(w.until)), None);
        err := Swallowed(err);
      }
      EvolvesTransitive(was, d, store.st);
      return;
    }
    err := AdvanceAndRecord(store, r, run.version, StillRunning(run), over);
    EvolvesTransitive(was, d, store.st);
    if err.Some? {
      err := Swallowed(err);
      return;
    }
    OverResolves(w, c.signals, r, found, now);
    ResumedRun(a, b, c, d, r, w, over.value);
    ready, run' := true, store.st.runs[r];
    history' := History(store, r);
  }

  /** What a turn found to end this wait. */
  function WaitEnds(r: RunId, w: Wait, t: Turn): Option<Fact>
    requires t.found.Some? ==> SignalKey(r, t.found.value) in t.c.signals
  {
    WaitOver(w, t.c.signals, r, t.found, t.now)
  }

  /** Why a turn was not committed, if it was not. */
  ghost function TurnError(cfg: Config, r: RunId, t: Turn): Option<Error>
    requires r in t.a.runs && (t.found.Some? ==> SignalKey(r, t.found.value) in t.c.signals)
  {
    ErrorOf(CommitTx(cfg, t.d, r, t.a.runs[r], Pass(cfg, r, t.a.runs[r], Hist(t.b, r), t.c.signals, t.found, t.now),
                     t.ids))
  }

  lemma Chain(a: State, b: State, c: State, d: State)
    requires Evolves(a, b) && Evolves(b, c) && Evolves(c, d)
    ensures Evolves(a, c) && Evolves(a, d)
  {
    hide Evolves;
    EvolvesTransitive(a, b, c);
    EvolvesTransitive(a, c, d);
  }

  lemma OverResolves(w: Wait, signals: map<SignalKey, Signal>, r: RunId, found: Option<string>, now: Time)
    requires found.Some? ==> SignalKey(r, found.value) in signals
    ensures var over := WaitOver(w, signals, r, found, now);
            over.Some? ==> Resolves(AsEvent(over.value)) && over.value.step == w.step
  {
  }

  lemma ResumedRun(a: State, b: State, c: State, d: State, r: RunId, w: Wait, f: Fact)
    requires r in a.runs && StaleReads(a, b, c, d, r) && Pending(Hist(b, r)) == Some(w) && Resolves(AsEvent(f)) &&
             f.step == w.step
    requires AdvanceTx(d, r, a.runs[r].version, StillRunning(a.runs[r]), Some(f)).Commit?
    ensures var t := AdvanceTx(d, r, a.runs[r].version, StillRunning(a.runs[r]), Some(f)).st;
            && r in t.runs && t.runs[r].status.RunRunning? && t.runs[r].agent == a.runs[r].agent
            && Pending(Hist(t, r)).None?
  {
    hide Pending, Consumed, Log, Hist, Inv, Evolves, StaleReads;
    UnmovedRun(a, b, c, d, r);
    SameAgent(a, b, c, d, r);
    ClosedByLog(Hist(d, r), w, f);
    LoggedHistory(Bump(d, r, StillRunning(a.runs[r])), r, f);
    LoggedHistory(d, r, f);
    BumpedHistory(d, r, StillRunning(a.runs[r]));
  }

  lemma SameAgent(a: State, b: State, c: State, d: State, r: RunId)
    requires StaleReads(a, b, c, d, r)
    ensures r in d.runs && d.runs[r].agent == a.runs[r].agent
  {
    hide Pending, Consumed, Hist, Inv, Evolves;
    RunEvolvesOf(a, d, r);
  }

  lemma ClosedByLog(h: seq<Event>, w: Wait, f: Fact)
    requires Pending(h) == Some(w) && Resolves(AsEvent(f)) && f.step == w.step
    ensures Pending(Log(h, f)).None?
  {
    hide Pending, Log;
    PendingLog(h, f);
    StampIs(h, f);
  }

  lemma LoggedHistory(s: State, r: RunId, f: Fact)
    ensures Hist(LogOn(s, r, f), r) == Log(Hist(s, r), f)
  {
    hide Log;
  }

  lemma BumpedHistory(s: State, r: RunId, next: RunState)
    requires r in s.runs
    ensures Hist(Bump(s, r, next), r) == Hist(s, r)
  {
  }

  lemma AskingIsThePass(cfg: Config, r: RunId, run: Run, h: seq<Event>, signals: map<SignalKey, Signal>, now: Time)
    requires !run.status.IsTerminal() && run.agent == cfg.agent && Pending(h).None?
    ensures Pass(cfg, r, run, h, signals, None, now) == AskDecider(cfg, run, h)
  {
    hide Pending, AskDecider;
  }

  function NewIds(gen: nat -> TaskId, n: nat): seq<TaskId> {
    seq(n, i requires 0 <= i < n => gen(i))
  }

  /** The task ids a commitment takes from the generator. */
  function IdsFor(c: Commitment, gen: nat -> TaskId): seq<TaskId> {
    match c
    case Dispatch(_, _) => NewIds(gen, 1)
    case Fan(_, calls, _) => NewIds(gen, |calls|)
    case _ => []
  }

  /** Losing the race is not an error: whoever won has done the work. */
  function Swallowed(err: Option<Error>): Option<Error> {
    if err == Some(Conflict) || err == Some(TaskExists) then None else err
  }

  /** Carrying out a decision: whichever transaction it calls for. */
  method CarryOut(store: Store, cfg: Config, r: RunId, run: Run, c: Commitment, gen: nat -> TaskId)
    returns (err: Option<Error>)
    modifies store
    ensures store.st == CommitTx(cfg, old(store.st), r, run, c, IdsFor(c, gen)).st
    ensures store.deeds == Written(old(store.deeds), old(store.st), store.st)
    ensures err == Swallowed(ErrorOf(CommitTx(cfg, old(store.st), r, run, c, IdsFor(c, gen))))
  {
    hide AdvanceTx, DispatchTx, FanOutTx;
    err := None;
    match c {
      case Nothing =>
      case Write(next, fact) => err := AdvanceAndRecord(store, r, run.version, next, fact);
      case Dispatch(step, call) => err := DispatchOne(store, r, run, step, NewIds(gen, 1)[0], call, cfg.maxAttempts);
      case Fan(step, calls, join) =>
        err := DispatchFanOut(store, r, run, step, calls, join, NewIds(gen, |calls|), cfg.maxAttempts);
    }
    err := Swallowed(err);
  }

  /** The second half of a pass: nobody is asked while a fan-out is joining;
      otherwise the decider is, and its decision is carried out against whatever
      the tables are by then: turn is what that committed. */
  method Act(store: Store, cfg: Config, r: RunId, run: Run, history: seq<Event>, gen: nat -> TaskId, now: Time,
             ghost a: State, ghost b: State) returns (err: Option<Error>, again: bool, ghost turn: Turn)
    requires HasRead(store, a, b, r, run, history) && cfg.maxAttempts >= 1
    requires Pending(history).None? && !run.status.IsTerminal() && run.agent == cfg.agent
    modifies store
    ensures InGoodOrder(store.st) && Evolves(old(store.st), store.st)
    ensures TurnOf(cfg, r, turn) && turn.a == a && turn.b == b && turn.ids == IdsFor(AskDecider(cfg, run, history), gen)
    ensures Evolves(old(store.st), turn.d) && store.st == turn.after
    ensures store.deeds == Written(old(store.deeds), turn.d, store.st)
    ensures store.st == CommitTx(cfg, turn.d, r, run, AskDecider(cfg, run, history), turn.ids).st
    ensures err == if Joining(history).None? && cfg.decide(run, history).Unavailable? then Some(DeciderUnavailable)
                   else Swallowed(ErrorOf(CommitTx(cfg, turn.d, r, run, AskDecider(cfg, run, history), turn.ids)))
    ensures again <==> ParksOnSignal(cfg, r, turn)
    ensures Joining(history).Some? ==> store.st == turn.d && err.None?
    ensures Joining(history).None? ==>
              match cfg.decide(run, history)
              case Unavailable => store.st == turn.d && err == Some(DeciderUnavailable)
              case CannotDecide(error) =>
                store.st == CommitTx(cfg, turn.d, r, run, CannotGoOn(error), []).st
              case Decided(decision) =>
                store.st == CommitTx(cfg, turn.d, r, run, Enact(run, decision), IdsFor(Enact(run, decision), gen)).st
  {
    hide InGoodOrder, Evolves, Pending, Hist, Pass, CommitTx, Joining, Ids, Consumed, Chosen, Written;
    ghost var was := store.st;
    Interfere(store);
    ghost var d := store.st;
    EvolvesTransitive(a, was, d);
    EvolvesTransitive(b, was, d);
    EvolvesReflexive(d);
    ghost var c := AskDecider(cfg, run, history);
    AskingIsThePass(cfg, r, run, history, d.signals, now);
    PassCommits(cfg, r, a, b, d, d, None, now, IdsFor(c, gen));
    EvolvesTransitive(was, d, CommitTx(cfg, d, r, run, c, IdsFor(c, gen)).st);
    turn := Turn(a, b, d, d, None, now, IdsFor(c, gen), CommitTx(cfg, d, r, run, c, IdsFor(c, gen)).st);
    err, again := None, false;
    NothingWritten(store.deeds, d);
    var pending, waiting := PendingFanOut(history);
    if waiting {
      assert c == Nothing;
      NothingCommits(cfg, d, r, run, gen);
      return;
    }
    match cfg.decide(run, history) {
      case Unavailable =>
        NothingCommits(cfg, d, r, run, gen);
        return Some(DeciderUnavailable), false, turn;
      case CannotDecide(error) => err := CarryOut(store, cfg, r, run, CannotGoOn(error), gen);
      case Decided(decision) =>
        err := CarryOut(store, cfg, r, run, Enact(run, decision), gen);
        again := decision.WaitForSignal?;
    }
  }

  lemma NothingCommits(cfg: Config, d: State, r: RunId, run: Run, gen: nat -> TaskId)
    ensures CommitTx(cfg, d, r, run, Nothing, IdsFor(Nothing, gen)) == Commit(d)
  {
  }

  /** Turns from s on, and looks after their parks, up to the tables now. */
  ghost predicate Chained(cfg: Config, r: RunId, s: State, turns: seq<Turn>, now: State) {
    Turns(cfg, r, s, turns) && LooksAfterParks(cfg, r, turns) && Evolves(StoodLast(s, turns), now)
  }

  lemma NotYet(cfg: Config, r: RunId, s: State)
    ensures Chained(cfg, r, s, [], s) && Parks(cfg, r, []) == 0
  {
    hide Evolves;
    NoTurns(cfg, r, s);
    NoLooks(cfg, r);
    EvolvesReflexive(s);
  }

  /** The first turn, of tables read in s. */
  lemma FirstTurn(cfg: Config, r: RunId, s: State, t: Turn)
    requires TurnOf(cfg, r, t) && t.a == s
    ensures Chained(cfg, r, s, [t], t.after)
    ensures Parks(cfg, r, [t]) == if ParksOnSignal(cfg, r, t) then 1 else 0
  {
    hide Evolves, ParksOnSignal, LooksAfterParks, Turns, Parks;
    NotYet(cfg, r, s);
    assert [] + [t] == [t];
    EvolvesReflexive(t.after);
    OneMore(cfg, r, s, [], t);
    OneMoreLook(cfg, r, [], t);
  }

  /** The second turn of a pass that resumed its run. */
  lemma SecondTurn(cfg: Config, r: RunId, s: State, t: Turn, u: Turn)
    requires TurnOf(cfg, r, t) && t.a == s && TurnOf(cfg, r, u) && !ParksOnSignal(cfg, r, t) && Evolves(t.after, u.d)
    ensures Chained(cfg, r, s, [t, u], u.after)
    ensures Parks(cfg, r, [t, u]) == if ParksOnSignal(cfg, r, u) then 1 else 0
  {
    hide Evolves, ParksOnSignal, LooksAfterParks, Turns, Parks;
    FirstTurn(cfg, r, s, t);
    assert [t] + [u] == [t, u];
    EvolvesReflexive(u.after);
    OneMore(cfg, r, s, [t], u);
    OneMoreLook(cfg, r, [t], u);
  }

  /** A pass that begins where the turns so far have left off. */
  lemma GoOn(cfg: Config, r: RunId, s: State, turns: seq<Turn>, e: State, f: State, more: seq<Turn>, now: State)
    requires Chained(cfg, r, s, turns, e) && turns != [] && turns[|turns| - 1].after == e && Evolves(e, f)
    requires Chained(cfg, r, f, more, now) && (more != [] ==> more[0].a == f)
    ensures Chained(cfg, r, s, turns + more, now)
    ensures Parks(cfg, r, turns + more) == Parks(cfg, r, turns) + Parks(cfg, r, more)
  {
    hide Evolves, ParksOnSignal, LooksAfterParks, Turns, Parks;
    MoreTurns(cfg, r, s, turns, f, more);
    MoreLooks(cfg, r, turns, more);
    if more == [] { EvolvesTransitive(e, f, now); }
  }

  /** One pass, up to where it would look again: it has parked the run on a signal. */
  method OnePass(store: Store, cfg: Config, r: RunId, gen: nat -> TaskId, now: Time)
    returns (err: Option<Error>, again: bool, ghost turns: seq<Turn>)
    requires InGoodOrder(store.st) && cfg.maxAttempts >= 1
    modifies store
    ensures InGoodOrder(store.st) && Evolves(old(store.st), store.st)
    ensures Chained(cfg, r, old(store.st), turns, store.st)
    ensures turns == [] <==> Finished(cfg, old(store.st), r)
    ensures if turns == [] then store.st == old(store.st) && err == if r in old(store.st).runs then None
            else Some(NotFound)
            else turns[0].a == old(store.st) && turns[|turns| - 1].after == store.st
    ensures store.deeds == TurnDeeds(old(store.deeds), turns)
    ensures again <==> turns != [] && ParksOnSignal(cfg, r, turns[|turns| - 1])
    ensures Parks(cfg, r, turns) == if again then 1 else 0
  {
    hide InGoodOrder, Evolves, Pending, Hist, CommitTx, AskDecider, TurnOf, ParksOnSignal, Chained, Parks, TurnDeeds,
         Written;
    ghost var a, deeds := store.st, store.deeds;
    turns := [];
    NoTurnDeeds(deeds);
    NotYet(cfg, r, a);
    EvolvesReflexive(a);
    again := false;
    if r !in store.st.runs { return Some(NotFound), again, turns; }
    var run := store.st.runs[r];
    if run.status.IsTerminal() { return None, again, turns; }
    if run.agent != cfg.agent { return None, again, turns; }
    Interfere(store);
    ghost var b := store.st;
    EvolvesReflexive(b);
    var history := History(store, r);
    var w, waiting := PendingWait(history);
    if waiting {
      ghost var first: Turn;
      var ready, run', history';
      ready, run', history', err, first := Resume(store, cfg, r, run, history, w, now, a, b);
      ghost var c := store.st;
      EvolvesReflexive(c);
      EvolvesTransitive(a, b, c);
      FirstTurn(cfg, r, a, first);
      OneTurnDeed(deeds, [], first);
      turns := [first];
      if err.Some? || !ready { return; }
      NotTerminal(run');
      ghost var second: Turn;
      err, again, second := Act(store, cfg, r, run', history', gen, now, c, c);
      EvolvesTransitive(a, c, store.st);
      SecondTurn(cfg, r, a, first, second);
      assert [first] + [second] == [first, second];
      OneTurnDeed(deeds, [first], second);
      turns := [first, second];
    } else {
      ghost var only: Turn;
      err, again, only := Act(store, cfg, r, run, history, gen, now, a, b);
      EvolvesTransitive(a, b, store.st);
      FirstTurn(cfg, r, a, only);
      OneTurnDeed(deeds, [], only);
      turns := [only];
    }
  }

  /** Advance: one pass, and one more whenever it parks the run on a signal that
      may already be there. turns is everything it commits; passes bounds how
      often it begins again. */
  method Advance(store: Store, cfg: Config, r: RunId, gen: nat -> TaskId, now: Time, passes: nat)
    returns (err: Option<Error>, ghost turns: seq<Turn>)
    requires InGoodOrder(store.st) && cfg.maxAttempts >= 1
    modifies store
    ensures InGoodOrder(store.st) && Evolves(old(store.st), store.st)
    ensures Chained(cfg, r, old(store.st), turns, store.st)
    ensures turns == [] <==> Finished(cfg, old(store.st), r)
    ensures if turns == [] then store.st == old(store.st) && err == if r in old(store.st).runs then None
            else Some(NotFound)
            else turns[0].a == old(store.st)
    ensures store.deeds == TurnDeeds(old(store.deeds), turns)
    ensures turns != [] && ParksOnSignal(cfg, r, turns[|turns| - 1]) ==>
              err.Some? || Parks(cfg, r, turns) > passes || Finished(cfg, store.st, r)
    decreases passes
  {
    hide InGoodOrder, Evolves, Chained, ParksOnSignal, Parks, Finished, TurnDeeds;
    ghost var a, deeds := store.st, store.deeds;
    var again: bool;
    err, again, turns := OnePass(store, cfg, r, gen, now);
    if again && err.None? && passes > 0 {
      ghost var e := store.st;
      Interfere(store);
      ghost var f := store.st;
      EvolvesTransitive(a, e, f);
      ghost var more;
      err, more := Advance(store, cfg, r, gen, now, passes - 1);
      EvolvesTransitive(a, f, store.st);
      GoOn(cfg, r, a, turns, e, f, more, store.st);
      MoreTurnDeeds(deeds, turns, more);
      assert more != [] ==> (turns + more)[|turns + more| - 1] == more[|more| - 1];
      turns := turns + more;
    }
  }

  lemma NoLooks(cfg: Config, r: RunId)
    ensures LooksAfterParks(cfg, r, []) && Parks(cfg, r, []) == 0
  {
  }

  lemma NotTerminal(run: Run)
    requires run.status.RunRunning?
    ensures !run.status.IsTerminal()
  {
  }

  // ----- starting, failing and finishing -----

  method StartRun(store: Store, cfg: Config, id: RunId, input: Json, gen: nat -> TaskId, now: Time, passes: nat)
    returns (err: Option<Error>, ghost started: State, ghost turns: seq<Turn>)
    requires InGoodOrder(store.st) && cfg.maxAttempts >= 1
    modifies store
    ensures InGoodOrder(store.st) && Evolves(old(store.st), store.st)
    ensures id in old(store.st).runs ==> err == Some(Conflict) && store.st == old(store.st) && turns == []
    ensures id !in old(store.st).runs ==> id in store.st.runs && store.st.runs[id].agentVersion == cfg.agentVersion
    ensures started == StartRunTx(old(store.st), id, cfg.agent, cfg.agentVersion, input).st
    ensures id !in old(store.st).runs ==>
              && id in started.runs
              && started.runs[id] == Run(cfg.agent, cfg.agentVersion, RunRunning, 0, input, None, "", None)
    ensures id !in old(store.st).runs ==> PassedOver(cfg, id, started, turns, store.st)
    ensures store.deeds == TurnDeeds(Written(old(store.deeds), old(store.st), started), turns)
  {
    hide InGoodOrder, Inv, Evolves, NoEarlyAnswers, StartRunTx, TurnDeeds, Written, Chained;
    ghost var a := store.st;
    turns := [];
    GoodParts(a);
    StartKeepsInv(a, id, cfg.agent, cfg.agentVersion, input);
    StartKeepsLedger(a, id, cfg.agent, cfg.agentVersion, input);
    SameAnswers(a, StartRunTx(a, id, cfg.agent, cfg.agentVersion, input).st);
    StartedRow(a, id, cfg.agent, cfg.agentVersion, input);
    err := CreateRun(store, id, cfg.agent, cfg.agentVersion, input);
    started := store.st;
    ghost var b := store.st;
    NoTurnDeeds(store.deeds);
    GoodWhole(b);
    if err.Some? { return; }
    Interfere(store);
    ghost var c := store.st;
    EvolvesTransitive(a, b, c);
    err, turns := Advance(store, cfg, id, gen, now, passes);
    ReportedTurns(cfg, id, b, c, turns, store.st);
    Chain(b, c, store.st, store.st) by { EvolvesReflexive(store.st); }
    EvolvesTransitive(a, c, store.st);
    RunEvolvesOf(b, store.st, id);
  }

  lemma StartedRow(s: State, id: RunId, agent: string, version: string, input: Json)
    ensures var res := StartRunTx(s, id, agent, version, input);
            if id in s.runs then res == Abort(Conflict, s)
            else res.Commit? && id in res.st.runs &&
                 res.st.runs[id] == Run(agent, version, RunRunning, 0, input, None, "", None)
  {
    hide Log;
  }

  /** What failRun writes: the swap expects the row as it was read. */
  function FailingTx(s: State, r: RunId, run: Run, reason: string): TxResult {
    AdvanceTx(s, r, run.version, RunFailure(run, reason), Some(Fact(EvRunFailed, "", RunFailedData(reason))))
  }

  /** failRun, from the tables in which it read the run to those it leaves, swap
      being where it tried to write. */
  ghost predicate FailedBy(r: RunId, reason: string, read: State, swap: State, after: State) {
    && r in read.runs && Evolves(read, swap)
    && if read.runs[r].status.IsTerminal() then after == read && swap == read
       else after == FailingTx(swap, r, read.runs[r], reason).st
  }

  /** The run fails exactly if nobody has moved it on since it was read. If
      somebody has, nothing is written, and failRun takes it for finished: it need
      not be. */
  lemma FailsIffUnmoved(r: RunId, reason: string, read: State, swap: State, after: State)
    requires FailedBy(r, reason, read, swap, after) && !read.runs[r].status.IsTerminal()
    ensures r in swap.runs && r in after.runs
    ensures if swap.runs[r].version == read.runs[r].version then
              && after.runs[r].status.RunFailed? && after.runs[r].lastError == reason
              && Hist(after, r) == Log(Hist(swap, r), Fact(EvRunFailed, "", RunFailedData(reason)))
            else after == swap
  {
    hide Evolves, Log, Pending, Consumed;
    RunEvolvesOf(read, swap, r);
    assert RunEvolves(read, swap, r);
  }

  /** failRun: a terminal state for a run whose step is gone for good. */
  method FailRun(store: Store, r: RunId, reason: string) returns (err: Option<Error>, ghost swap: State)
    requires InGoodOrder(store.st)
    modifies store
    ensures InGoodOrder(store.st) && Evolves(old(store.st), store.st)
    ensures err == if r in old(store.st).runs then None else Some(NotFound)
    ensures r !in old(store.st).runs ==> store.st == old(store.st)
    ensures r in old(store.st).runs ==> FailedBy(r, reason, old(store.st), swap, store.st)
    ensures store.deeds == Written(old(store.deeds), swap, store.st)
  {
    hide InGoodOrder, Inv, Evolves, NoEarlyAnswers, AdvanceTx, MayRecord, RunEvolves, Written;
    ghost var a := store.st;
    NothingWritten(store.deeds, a);
    swap := a;
    EvolvesReflexive(a);
    if r !in store.st.runs { return Some(NotFound), swap; }
    var run := store.st.runs[r];
    if run.status.IsTerminal() { return None, swap; }
    Interfere(store);
    swap := store.st;
    GoodParts(swap);
    RunEvolvesOf(a, swap, r);
    RunIsThere(a, swap, r);
    var fact := Fact(EvRunFailed, "", RunFailedData(reason));
    if AdvanceError(swap, r, run.version, RunFailure(run, reason)).None? { FailureMayBeRecorded(a, swap, r, reason); }
    AdvanceKeepsInv(swap, r, run.version, RunFailure(run, reason), Some(fact));
    WriteKeepsLedger(swap, r, run.version, RunFailure(run, reason), Some(fact));
    SameAnswers(swap, AdvanceTx(swap, r, run.version, RunFailure(run, reason), Some(fact)).st);
    OnlyConflicts(a, swap, r, reason);
    err := AdvanceAndRecord(store, r, run.version, RunFailure(run, reason), Some(fact));
    GoodWhole(store.st);
    EvolvesTransitive(a, swap, store.st);
    err := Swallowed(err);
  }

  lemma OnlyConflicts(a: State, d: State, r: RunId, reason: string)
    requires r in a.runs && RunEvolves(a, d, r) && !a.runs[r].status.IsTerminal()
    ensures ErrorOf(FailingTx(d, r, a.runs[r], reason)) == if d.runs[r].version == a.runs[r].version then None
            else Some(Conflict)
  {
    hide Pending, Consumed, Hist, Log;
  }

  lemma RunIsThere(a: State, b: State, r: RunId)
    requires r in a.runs && RunEvolves(a, b, r)
    ensures r in b.runs
  {
    hide Pending, Consumed, Hist;
  }

  // ----- reports -----

  /** What becomes of a report that was not committed: one that is fenced off, or
      comes after the task moved on, is discarded in silence. */
  predicate Discarded(res: TxResult) {
    res.Abort? && (res.error.Fenced? || res.error.Conflict?)
  }

  /** A pass over the run after a report that left mid: all it committed, unless
      the run had finished or is another agent's. */
  ghost predicate PassedOver(cfg: Config, r: RunId, mid: State, turns: seq<Turn>, after: State) {
    Chained(cfg, r, mid, turns, after) && (turns == [] ==> Finished(cfg, after, r))
  }

  lemma ReportedTurns(cfg: Config, r: RunId, mid: State, c: State, turns: seq<Turn>, now: State)
    requires Evolves(mid, c) && Chained(cfg, r, c, turns, now)
    ensures Chained(cfg, r, mid, turns, now)
  {
    hide Evolves, ParksOnSignal, LooksAfterParks, Turns;
    NoTurns(cfg, r, mid);
    MoreTurns(cfg, r, mid, [], c, turns);
    assert [] + turns == turns;
    if turns == [] { EvolvesTransitive(mid, c, now); }
  }

  /** CompleteTask: the report, and then a pass over the run. */
  method ReportComplete(store: Store, cfg: Config, id: TaskId, token: int, result: Json, gen: nat -> TaskId, now: Time,
                        passes: nat)
    returns (err: Option<Error>, ghost mid: State, ghost turns: seq<Turn>)
    requires InGoodOrder(store.st) && cfg.maxAttempts >= 1
    modifies store
    ensures mid == CompleteTx(old(store.st), id, token, result, old(store.st).clock).st
    ensures InGoodOrder(store.st) && Evolves(old(store.st), mid) && Evolves(mid, store.st)
    ensures var res := CompleteTx(old(store.st), id, token, result, old(store.st).clock);
            if res.Commit? then
              id in old(store.st).tasks && PassedOver(cfg, old(store.st).tasks[id].run, mid, turns, store.st)
            else store.st == old(store.st) && err == if Discarded(res) then None else ErrorOf(res)
    ensures id in old(store.st).leases && id in old(store.st).tasks && old(store.st).leases[id].token != token ==>
              err.None? && store.st == old(store.st)
    ensures store.deeds == TurnDeeds(Written(old(store.deeds), old(store.st), mid), turns)
  {
    hide InGoodOrder, Inv, Evolves, NoEarlyAnswers, CompleteTx, Chained, TurnDeeds, Written;
    ghost var a := store.st;
    turns := [];
    GoodParts(a);
    EvolvesReflexive(a);
    CompleteKeepsInv(a, id, token, result, a.clock);
    CompleteKeepsLedger(a, id, token, result, a.clock);
    SameAnswers(a, CompleteTx(a, id, token, result, a.clock).st);
    FencedReports(a, id, token, result, "", false, 0, a.clock);
    AbortsUnchanged(a, id, token, result, a.clock);
    var run := if id in store.st.tasks then store.st.tasks[id].run else "";
    err := RecordCompletion(store, id, token, result);
    mid := store.st;
    NoTurnDeeds(store.deeds);
    GoodWhole(mid);
    EvolvesReflexive(mid);
    if err == Some(Fenced) || err == Some(Conflict) { return None, mid, turns; }
    if err.Some? { return; }
    Interfere(store);
    ghost var c := store.st;
    err, turns := Advance(store, cfg, run, gen, now, passes);
    EvolvesTransitive(mid, c, store.st);
    ReportedTurns(cfg, run, mid, c, turns, store.st);
  }

  lemma FencedReports(s: State, id: TaskId, token: int, result: Json, reason: string, escalated: bool, delay: int,
                      now: Time)
    ensures id in s.tasks && id in s.leases && s.leases[id].token != token ==>
              CompleteTx(s, id, token, result, now) == Abort(Fenced, s) &&
              FailTx(s, id, token, reason, escalated, delay, now) == Abort(Fenced, s)
  {
    hide Log;
  }

  lemma AbortsUnchanged(s: State, id: TaskId, token: int, result: Json, now: Time)
    ensures CompleteTx(s, id, token, result, now).Abort? ==> CompleteTx(s, id, token, result, now).st == s
    ensures CompleteTx(s, id, token, result, now).Commit? ==> id in s.tasks
  {
    hide Log;
  }

  lemma FailAbortsUnchanged(s: State, id: TaskId, token: int, reason: string, escalated: bool, delay: int, now: Time)
    ensures FailTx(s, id, token, reason, escalated, delay, now).Abort? ==>
              FailTx(s, id, token, reason, escalated, delay, now).st == s
    ensures FailTx(s, id, token, reason, escalated, delay, now).Commit? ==> id in s.tasks
  {
    hide Log;
  }

  /** Why a run fails with this step of its own. */
  function LossOf(id: TaskId, attempt: int, reason: string, escalated: bool): string {
    if escalated then "task " + id + " needs human resolution: " + reason
    else "task " + id + " exhausted " + AttemptText(attempt) + " attempts: " + reason
  }

  function AttemptText(n: int): string {
    if n < 0 then "-" + Decimal(-n) else Decimal(n)
  }

  lemma ReportedRun(a: State, b: State, c: State, id: TaskId)
    requires id in a.tasks && Evolves(a, b) && Evolves(b, c) && InGoodOrder(c)
    ensures a.tasks[id].run in c.runs
  {
    hide Inv, Evolves, NoEarlyAnswers;
    TaskKeeps(a, b, id);
    TaskKeeps(b, c, id);
    RunOfTask(c, id);
  }

  /** FailTask: the report decides between a retry, a child the agent will hear
      of, and a run that has lost one of its own steps or needs a human. For the
      last, read and swap are where failRun read the run and tried to fail it. */
  method ReportFailure(store: Store, cfg: Config, id: TaskId, token: int, reason: string, escalated: bool, delay: int,
                       gen: nat -> TaskId, now: Time, passes: nat)
    returns (err: Option<Error>, ghost mid: State, ghost turns: seq<Turn>, ghost read: State, ghost swap: State)
    requires InGoodOrder(store.st) && cfg.maxAttempts >= 1
    modifies store
    ensures mid == FailTx(old(store.st), id, token, reason, escalated, delay, old(store.st).clock).st
    ensures InGoodOrder(store.st) && Evolves(old(store.st), mid) && Evolves(mid, store.st)
    ensures var res := FailTx(old(store.st), id, token, reason, escalated, delay, old(store.st).clock);
            if res.Abort? then store.st == old(store.st) && err == if Discarded(res) then None else ErrorOf(res)
            else
              && id in old(store.st).tasks
              && var task := old(store.st).tasks[id];
                 if WillRetry(task, escalated) then store.st == mid && err.None?
                 else if !escalated && Parent(task.step).Some? then PassedOver(cfg, task.run, mid, turns, store.st)
                 else
                   && err.None? && Evolves(mid, read)
                   && FailedBy(task.run, LossOf(id, task.attempt, reason, escalated), read, swap, store.st)
    ensures id in old(store.st).leases && id in old(store.st).tasks && old(store.st).leases[id].token != token ==>
              err.None? && store.st == old(store.st)
    ensures store.deeds ==
            var reported := Written(old(store.deeds), old(store.st), mid);
            if turns != [] then TurnDeeds(reported, turns) else Written(reported, swap, store.st)
  {
    hide InGoodOrder, Inv, Evolves, NoEarlyAnswers, FailTx, Chained, FailedBy, TurnDeeds, Written;
    ghost var a := store.st;
    turns, read, swap := [], a, a;
    GoodParts(a);
    FailKeepsInv(a, id, token, reason, escalated, delay, a.clock);
    FailKeepsLedger(a, id, token, reason, escalated, delay, a.clock);
    SameAnswers(a, FailTx(a, id, token, reason, escalated, delay, a.clock).st);
    FencedReports(a, id, token, None, reason, escalated, delay, a.clock);
    FailAbortsUnchanged(a, id, token, reason, escalated, delay, a.clock);
    var known := id in store.st.tasks;
    var task := if known then store.st.tasks[id] else NO_CLAIM.task;
    var retry := !task.Exhausted() && !escalated;
    err := RecordFailure(store, id, token, reason, escalated, delay);
    mid := store.st;
    swap := mid;
    NothingWritten(store.deeds, mid);
    NoTurnDeeds(store.deeds);
    GoodWhole(mid);
    EvolvesReflexive(mid);
    if err == Some(Fenced) || err == Some(Conflict) { return None, mid, turns, read, swap; }
    if err.Some? { return; }
    if retry { return None, mid, turns, read, swap; }
    Interfere(store);
    read := store.st;
    if !escalated && Parent(task.step).Some? {
      err, turns := Advance(store, cfg, task.run, gen, now, passes);
      swap := store.st;
      NothingWritten(store.deeds, swap);
      ReportedTurns(cfg, task.run, mid, read, turns, store.st);
    } else {
      ReportedRun(a, mid, read, id);
      err, swap := FailRun(store, task.run, LossOf(id, task.attempt, reason, escalated));
    }
    EvolvesTransitive(mid, read, store.st);
  }

  // ----- signals -----

  /** Whether a delivery gets past the checks it makes before its transaction. */
  predicate Deliverable(s: State, r: RunId, id: string, name: string) {
    r != "" && id != "" && name != "" && r in s.runs && !s.runs[r].status.IsTerminal()
  }

  /** DeliverSignal. What passes the checks is stored in the tables as they are
      by then, d, even if the run has finished meanwhile, and releases the run. A
      repeated delivery is not an error and changes nothing. */
  method DeliverSignal(store: Store, r: RunId, id: string, name: string, payload: Json)
    returns (err: Option<Error>, ghost d: State)
    requires InGoodOrder(store.st)
    modifies store
    ensures InGoodOrder(store.st) && Evolves(old(store.st), store.st)
    ensures err.None? <==> Deliverable(old(store.st), r, id, name)
    ensures store.deeds == Written(old(store.deeds), d, store.st)
    ensures err.Some? ==> store.st == old(store.st)
    ensures err.None? ==>
              && Evolves(old(store.st), d) && r in d.runs
              && if SignalKey(r, id) in d.signals then store.st == d
                 else store.st == d.(signals := d.signals[SignalKey(r, id) := Signal(name, payload, d.clock)],
                                     runs := d.runs[r := d.runs[r].(availableAt := None)])
    ensures err.None? && SignalKey(r, id) in old(store.st).signals ==>
              SignalKey(r, id) in store.st.signals &&
              store.st.signals[SignalKey(r, id)] == old(store.st).signals[SignalKey(r, id)]
  {
    hide InGoodOrder, Inv, Evolves, NoEarlyAnswers, Written;
    ghost var a := store.st;
    d := a;
    NothingWritten(store.deeds, d);
    EvolvesReflexive(a);
    if r == "" || id == "" || name == "" { return Some(InvalidTransition), d; }
    if r !in store.st.runs { return Some(NotFound), d; }
    if store.st.runs[r].status.IsTerminal() { return Some(InvalidTransition), d; }
    Interfere(store);
    d := store.st;
    GoodParts(d);
    RunStays(a, d, r);
    DeliverKeepsInv(d, r, id, name, payload);
    DeliverKeepsLedger(d, r, id, name, payload, d.clock);
    SameAnswers(d, DeliverTx(d, r, id, name, payload, d.clock).st);
    err := RecordAndRelease(store, r, id, name, payload);
    GoodWhole(store.st);
    EvolvesTransitive(a, d, store.st);
    if SignalKey(r, id) in a.signals { SignalStands(a, store.st, SignalKey(r, id)); }
    if err == Some(SignalExists) { err := None; }
  }
}
