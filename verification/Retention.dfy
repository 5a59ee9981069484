/** Tools whose provider deduplicates by key, but only for so long: the ledger
    machine with clocks. The executor stops re-sending when the key's retention
    has passed, and looks at the clock before it sends, not when. */
module Retention {
  import opened Prelude
  import opened Core
  import opened Ledger

  /** ttl: the retention the tool declares. memory: how long its provider
      recognises a key from when it first took effect. slack: how long a send may
      trail the moment it was decided. late: whether an effect on record as FAILED
      may be begun afresh after the retention, as nothing in the executor forbids. */
  datatype Timing = Timing(ttl: Time, memory: Time, slack: Time, late: bool)

  /** The machine, and: when the row was made, when each actor was last certain
      that it may act, when that was for each request, when the key first took
      effect, and how often the action has been done. */
  datatype Timed = Timed(m: Ledger, now: Time, createdAt: Time, stamps: seq<Time>, sent: seq<Time>,
                         seen: Option<Time>, times: nat)

  datatype Tick = Wait(to: Time) | Do(step: Step)

  function Fresh(asks: bool): Timed {
    Timed(Begun(ClassIdempotentByKey, asks), 0, 0, [], [], None, 0)
  }

  predicate Expired(k: Timing, t: Timed) {
    k.ttl > 0 && t.now - t.createdAt > k.ttl
  }

  /** An actor that has just resolved to send again is stopped if the key has
      expired, and is certain as of now if not. */
  function Resolved(k: Timing, t: Timed, a: nat, m: Ledger): Timed
    requires a < |m.actors| && a < |t.stamps|
  {
    if m.actors[a] != Beginning(EffectUnknown) then t.(m := m)
    else if Expired(k, t) then t.(m := Put(m, a, Gone))
    else t.(m := m, stamps := t.stamps[a := t.now])
  }

  /** The provider does what is asked unless it remembers having done it. */
  function Provided(k: Timing, t: Timed, m: Ledger): Timed {
    if t.seen.Some? && t.now - t.seen.value <= k.memory then t.(m := m)
    else t.(m := m, seen := Some(t.now), times := t.times + 1)
  }

  /** It begins what nobody is in doubt about. */
  predicate Restarts(m: Ledger, a: Actor) {
    a.Beginning? && !a.from.EffectUnknown? && Moves(m.row, a.from, EffectRunning)
  }

  function Going(k: Timing, t: Timed, tick: Tick): Timed {
    match tick
    case Wait(to) => if to >= t.now then t.(now := to) else t
    case Do(step) =>
      var m := Take(t.m, step);
      match step
      case Execute => t.(m := m, stamps := t.stamps + [t.now])
      case Sweep => if |m.actors| > |t.m.actors| then t.(m := m, stamps := t.stamps + [t.now]) else t
      case Reserve(a) => if t.m.row.None? then t.(m := m, createdAt := t.now) else t.(m := m)
      case Decide(a) => if a < |m.actors| && a < |t.stamps| && m != t.m then Resolved(k, t, a, m) else t.(m := m)
      case Mark(a) => if a < |m.actors| && a < |t.stamps| && m != t.m then Resolved(k, t, a, m) else t.(m := m)
      case Begin(a) =>
        if a < |t.m.actors| && a < |t.stamps| && Restarts(t.m, t.m.actors[a])
        then t.(m := m, stamps := t.stamps[a := t.now]) else t.(m := m)
      case Send(a) =>
        if |m.requests| > |t.m.requests| && a < |t.stamps| then t.(m := m, sent := t.sent + [t.stamps[a]])
        else t.(m := m)
      case Act(i) => if i < |t.m.requests| && t.m.requests[i].Open? then Provided(k, t, m) else t
      case _ => t.(m := m)
  }

  // ----- at most once -----

  /** What is assumed of the tick: a request takes effect within slack of its
      sender's certainty, or never; and, unless late, a failed effect is begun
      afresh within the retention. */
  predicate InTime(k: Timing, t: Timed, tick: Tick) {
    match tick
    case Do(Act(i)) => i < |t.sent| && i < |t.m.requests| && t.m.requests[i].Open? ==> t.now <= t.sent[i] + k.slack
    case Do(Begin(a)) =>
      !k.late && a < |t.m.actors| && t.m.actors[a] == Beginning(EffectFailed) && t.m.row == Some(EffectFailed) ==>
        t.now <= t.createdAt + k.ttl
    case _ => true
  }

  predicate Shaped(t: Timed) {
    && t.m.class_.ClassIdempotentByKey? && t.createdAt <= t.now
    && |t.stamps| == |t.m.actors| && |t.sent| == |t.m.requests|
    && (forall a :: 0 <= a < |t.stamps| ==> t.stamps[a] <= t.now && t.m.actors[a] != Asking(false))
    && (forall i :: 0 <= i < |t.sent| ==> t.sent[i] <= t.now)
  }

  /** Nothing is sent before the row is past PENDING. */
  predicate Ordered(t: Timed) {
    && (t.m.row.None? ==>
          t.m.requests == [] &&
          forall a :: 0 <= a < |t.m.actors| ==> t.m.actors[a].Starting? || t.m.actors[a].Gone?)
    && (t.m.row == Some(EffectPending) ==>
          t.m.requests == [] &&
          forall a :: 0 <= a < |t.m.actors| ==> !t.m.actors[a].Sending? && !t.m.actors[a].Waiting?)
  }

  /** It is sure that it may send, and has not done so yet. */
  predicate MaySend(a: Actor) {
    a == Beginning(EffectUnknown) || a.Sending?
  }

  /** Whoever may still send is certain recently enough for the provider to remember. */
  predicate Remembered(k: Timing, t: Timed)
    requires Shaped(t)
  {
    && (t.seen.None? ==> t.times == 0)
    && (t.seen.Some? ==>
          && t.times == 1 && t.createdAt <= t.seen.value <= t.now && t.m.requests != []
          && (forall a :: 0 <= a < |t.stamps| && MaySend(t.m.actors[a]) ==>
                t.stamps[a] + k.slack <= t.seen.value + k.memory)
          && (forall i :: 0 <= i < |t.sent| && t.m.requests[i].Open? ==>
                t.sent[i] + k.slack <= t.seen.value + k.memory))
  }

  predicate Sound(k: Timing, t: Timed) {
    Shaped(t) && Ordered(t) && Remembered(k, t)
  }

  predicate Enough(k: Timing) {
    k.ttl > 0 && k.slack >= 0 && k.memory >= k.ttl + k.slack && !k.late
  }

  /** Where an actor may go without anything else changing. */
  predicate MayStand(k: Timing, t: Timed, a: nat, pc: Actor)
    requires a < |t.stamps|
  {
    && pc != Asking(false)
    && (t.m.row.None? ==> pc.Gone?) && (t.m.row == Some(EffectPending) ==> !pc.Sending? && !pc.Waiting?)
    && (t.seen.Some? && MaySend(pc) ==>
          t.stamps[a] + k.slack <= t.seen.value + k.memory)
  }

  lemma PutIsSound(k: Timing, t: Timed, a: nat, pc: Actor)
    requires Sound(k, t) && a < |t.m.actors| && MayStand(k, t, a, pc)
    ensures Sound(k, t.(m := Put(t.m, a, pc)))
  {
  }

  lemma GoneIsSound(k: Timing, t: Timed, a: nat)
    requires Sound(k, t) && a < |t.m.actors|
    ensures Sound(k, t.(m := Put(t.m, a, Gone)))
  {
    hide Put;
    assert Shaped(t);
    PutIsSound(k, t, a, Gone);
  }

  lemma RowIsSound(k: Timing, t: Timed, row: EffectStatus)
    requires Sound(k, t) && t.m.row.Some? && !row.EffectPending?
    ensures Sound(k, t.(m := t.m.(row := Some(row))))
  {
  }

  /** Certain as of now: the provider will remember, if anything has been done. */
  lemma StampIsSound(k: Timing, t: Timed, a: nat)
    requires Sound(k, t) && a < |t.m.actors|
    requires t.seen.Some? ==> t.now + k.slack <= t.seen.value + k.memory
    ensures Sound(k, t.(stamps := t.stamps[a := t.now]))
  {
  }

  lemma ActIsSound(k: Timing, t: Timed, i: nat)
    requires Enough(k) && Sound(k, t) && InTime(k, t, Do(Act(i)))
    ensures Sound(k, Going(k, t, Do(Act(i))))
  {
  }

  lemma SendIsSound(k: Timing, t: Timed, a: nat)
    requires Enough(k) && Sound(k, t)
    ensures Sound(k, Going(k, t, Do(Send(a))))
  {
  }

  lemma BeginnerMaySend(k: Timing, t: Timed, a: nat)
    requires Sound(k, t) && a < |t.m.actors| && t.m.actors[a] == Beginning(EffectUnknown) &&
             t.m.row == Some(EffectUnknown)
    ensures var u := t.(m := t.m.(row := Some(EffectRunning))); a < |u.stamps| && MayStand(k, u, a, Sending)
  {
  }

  lemma RestartMaySend(k: Timing, t: Timed, a: nat)
    requires Enough(k) && Sound(k, t) && InTime(k, t, Do(Begin(a)))
    requires a < |t.m.actors| && Restarts(t.m, t.m.actors[a])
    ensures t.seen.Some? ==> t.now + k.slack <= t.seen.value + k.memory
    ensures var u := t.(stamps := t.stamps[a := t.now], m := t.m.(row := Some(EffectRunning)));
            a < |u.stamps| && MayStand(k, u, a, Sending)
  {
  }

  lemma BeginIsSound(k: Timing, t: Timed, a: nat)
    requires Enough(k) && Sound(k, t) && InTime(k, t, Do(Begin(a)))
    ensures Sound(k, Going(k, t, Do(Begin(a))))
  {
    if a < |t.m.actors| && t.m.actors[a].Beginning? {
      assert a < |t.stamps|;
      hide Sound, MayStand, InTime, Enough;
      if Restarts(t.m, t.m.actors[a]) {
        RestartMaySend(k, t, a);
        var u := t.(stamps := t.stamps[a := t.now]);
        StampIsSound(k, t, a);
        RowIsSound(k, u, EffectRunning);
        PutIsSound(k, u.(m := u.m.(row := Some(EffectRunning))), a, Sending);
      } else if t.m.actors[a].from.EffectUnknown? && t.m.row == Some(EffectUnknown) {
        BeginnerMaySend(k, t, a);
        RowIsSound(k, t, EffectRunning);
        PutIsSound(k, t.(m := t.m.(row := Some(EffectRunning))), a, Sending);
      } else {
        GoneIsSound(k, t, a);
      }
    }
  }

  /** Resolving to send again: in time, or not at all. */
  lemma ResolvedIsSound(k: Timing, t: Timed, a: nat)
    requires Enough(k) && Sound(k, t) && a < |t.m.actors| && t.m.row.Some?
    ensures Sound(k, Resolved(k, t, a, Put(t.m, a, Beginning(EffectUnknown))))
  {
    if !Expired(k, t) { ResolvedInTime(k, t); }
    assert a < |t.stamps| == |t.m.actors|;
    var m := Put(t.m, a, Beginning(EffectUnknown));
    hide Sound, Enough;
    if Expired(k, t) {
      assert Put(m, a, Gone) == Put(t.m, a, Gone);
      GoneIsSound(k, t, a);
    } else {
      StampIsSound(k, t, a);
      var u := t.(stamps := t.stamps[a := t.now]);
      PutIsSound(k, u, a, Beginning(EffectUnknown));
    }
  }

  lemma ResolvedInTime(k: Timing, t: Timed)
    requires Enough(k) && Sound(k, t) && !Expired(k, t)
    ensures t.seen.Some? ==> t.now + k.slack <= t.seen.value + k.memory
  {
  }

  /** Only those who have yet to reserve are there before the row is. */
  lemma RowIsThere(k: Timing, t: Timed, a: nat)
    requires Sound(k, t) && a < |t.m.actors| && !t.m.actors[a].Starting? && !t.m.actors[a].Gone?
    ensures t.m.row.Some? && t.m.class_.ClassIdempotentByKey? && a < |t.stamps| && t.m.actors[a] != Asking(false)
  {
  }

  lemma DecideIsSound(k: Timing, t: Timed, a: nat)
    requires Enough(k) && Sound(k, t)
    ensures Sound(k, Going(k, t, Do(Decide(a))))
  {
    if a < |t.m.actors| && t.m.actors[a].Holding? {
      RowIsThere(k, t, a);
      hide Sound, Enough;
      var pc := Decided(t.m, t.m.actors[a].copy);
      if pc == Beginning(EffectUnknown) {
        ResolvedIsSound(k, t, a);
      } else {
        PutIsSound(k, t, a, pc);
      }
    }
  }

  lemma MarkIsSound(k: Timing, t: Timed, a: nat)
    requires Enough(k) && Sound(k, t)
    ensures Sound(k, Going(k, t, Do(Mark(a))))
  {
    if a < |t.m.actors| && t.m.actors[a].Marking? {
      RowIsThere(k, t, a);
      hide Sound, Enough;
      var sweep := t.m.actors[a].sweep;
      if Moves(t.m.row, EffectRunning, EffectUnknown) {
        RowIsSound(k, t, EffectUnknown);
        MarkedIsSound(k, t.(m := t.m.(row := Some(EffectUnknown))), a, sweep);
      } else if sweep {
        PutIsSound(k, t, a, Marked(t.m, true));
      } else {
        GoneIsSound(k, t, a);
      }
    }
  }

  lemma MarkedIsSound(k: Timing, t: Timed, a: nat, sweep: bool)
    requires Enough(k) && Sound(k, t) && a < |t.m.actors| && t.m.row == Some(EffectUnknown)
    ensures var m := Put(t.m, a, Marked(t.m, sweep)); a < |t.stamps| && Sound(k, Resolved(k, t, a, m))
  {
    assert a < |t.stamps| && t.m.class_.ClassIdempotentByKey?;
    hide Sound, Enough;
    if sweep {
      PutIsSound(k, t, a, Marked(t.m, true));
    } else {
      ResolvedIsSound(k, t, a);
    }
  }

  lemma RecordIsSound(k: Timing, t: Timed, a: nat)
    requires Enough(k) && Sound(k, t)
    ensures Sound(k, Going(k, t, Do(Record(a))))
  {
    if a < |t.m.actors| && t.m.actors[a].Recording? {
      RowIsThere(k, t, a);
      hide Sound, Enough;
      var from, to := t.m.actors[a].from, t.m.actors[a].to;
      if Moves(t.m.row, from, to) {
        RowIsSound(k, t, to);
        GoneIsSound(k, t.(m := t.m.(row := Some(to))), a);
      } else {
        GoneIsSound(k, t, a);
      }
    }
  }

  lemma ReserveIsSound(k: Timing, t: Timed, a: nat)
    requires Enough(k) && Sound(k, t)
    ensures Sound(k, Going(k, t, Do(Reserve(a))))
  {
  }

  lemma ActorIsSound(k: Timing, t: Timed, a: nat, step: Step)
    requires Enough(k) && Sound(k, t) && ActorOf(step) == Some(a) &&
             (step.Read? || step.Ask? || step.Return? || step.Crash?)
    ensures Sound(k, Going(k, t, Do(step)))
  {
    if a < |t.m.actors| {
      if step.Crash? {
        hide Sound, Enough;
        GoneIsSound(k, t, a);
      } else if !t.m.actors[a].Starting? && !t.m.actors[a].Gone? {
        RowIsThere(k, t, a);
        hide Sound, Enough;
        var m := Take(t.m, step);
        if m != t.m { PutIsSound(k, t, a, m.actors[a]); }
      }
    }
  }

  lemma OutsideIsSound(k: Timing, t: Timed, tick: Tick)
    requires Enough(k) && Sound(k, t) && (tick.Wait? || tick.step.Execute? || tick.step.Sweep? || tick.step.Bar?)
    ensures Sound(k, Going(k, t, tick))
  {
  }

  lemma GoingIsSound(k: Timing, t: Timed, tick: Tick)
    requires Enough(k) && Sound(k, t) && InTime(k, t, tick)
    ensures Sound(k, Going(k, t, tick))
  {
    hide Enough, Sound, InTime, Going;
    match tick {
      case Wait(_) => OutsideIsSound(k, t, tick);
      case Do(step) =>
        match step {
          case Act(i) => ActIsSound(k, t, i);
          case Send(a) => SendIsSound(k, t, a);
          case Begin(a) => BeginIsSound(k, t, a);
          case Decide(a) => DecideIsSound(k, t, a);
          case Mark(a) => MarkIsSound(k, t, a);
          case Record(a) => RecordIsSound(k, t, a);
          case Reserve(a) => ReserveIsSound(k, t, a);
          case Read(a) => ActorIsSound(k, t, a, step);
          case Ask(a, _) => ActorIsSound(k, t, a, step);
          case Return(a, _) => ActorIsSound(k, t, a, step);
          case Crash(a) => ActorIsSound(k, t, a, step);
          case _ => OutsideIsSound(k, t, tick);
        }
    }
  }

  // ----- whole runs -----

  function Ran(k: Timing, ticks: seq<Tick>): Timed {
    if ticks == [] then Fresh(false) else Going(k, Ran(k, ticks[..|ticks| - 1]), ticks[|ticks| - 1])
  }

  predicate AllInTime(k: Timing, ticks: seq<Tick>) {
    forall i :: 0 <= i < |ticks| ==> InTime(k, Ran(k, ticks[..i]), ticks[i])
  }

  lemma {:induction false} RunsAreSound(k: Timing, ticks: seq<Tick>)
    requires Enough(k) && AllInTime(k, ticks)
    ensures Sound(k, Ran(k, ticks))
  {
    hide Enough, Sound, Going, InTime;
    if ticks == [] {
      FreshIsSound(k);
    } else {
      var n := |ticks| - 1;
      forall i | 0 <= i < n
        ensures InTime(k, Ran(k, ticks[..n][..i]), ticks[..n][i])
      {
        assert ticks[..n][..i] == ticks[..i];
      }
      RunsAreSound(k, ticks[..n]);
      GoingIsSound(k, Ran(k, ticks[..n]), ticks[n]);
    }
  }

  lemma FreshIsSound(k: Timing)
    ensures Sound(k, Fresh(false))
  {
  }

  lemma SoundActsOnce(k: Timing, t: Timed)
    requires Sound(k, t)
    ensures t.times <= 1
  {
  }

  // ----- putting runs together -----

  /** A run that is in time and ends in this state. */
  predicate Reaches(k: Timing, ticks: seq<Tick>, t: Timed) {
    AllInTime(k, ticks) && Ran(k, ticks) == t
  }

  predicate Alike(t: Timed, u: Timed) {
    && t.m.class_ == u.m.class_ && t.m.asks == u.m.asks && t.m.row == u.m.row && t.m.actors == u.m.actors
    && t.m.requests == u.m.requests && t.now == u.now && t.createdAt == u.createdAt && t.stamps == u.stamps
    && t.sent == u.sent && t.seen == u.seen && t.times == u.times
  }

  lemma OneTick(k: Timing, ticks: seq<Tick>, t: Timed, tick: Tick, u: Timed) returns (more: seq<Tick>)
    requires Reaches(k, ticks, t) && InTime(k, t, tick) && Alike(Going(k, t, tick), u)
    ensures Reaches(k, more, u)
  {
    hide Going, InTime;
    more := ticks + [tick];
    assert more[..|ticks|] == ticks;
    forall i | 0 <= i < |more|
      ensures InTime(k, Ran(k, more[..i]), more[i])
    {
      assert more[..i] == ticks[..i];
      if i < |ticks| { assert more[i] == ticks[i]; } else { assert ticks[..i] == ticks; }
    }
  }

  lemma NothingRan(k: Timing)
    ensures Reaches(k, [], Fresh(false))
  {
  }

  function At(row: EffectStatus, actors: seq<Actor>, requests: seq<Request>): Ledger {
    Ledger(ClassIdempotentByKey, false, Some(row), actors, requests)
  }

  /** The first attempt begins at once. */
  lemma FirstDecides(k: Timing) returns (ticks: seq<Tick>)
    ensures Reaches(k, ticks, Timed(At(EffectPending, [Beginning(EffectPending)], []), 0, 0, [0], [], None, 0))
  {
    hide Reaches;
    NothingRan(k);
    var started := Begun(ClassIdempotentByKey, false).(actors := [Starting]);
    var t, u := Fresh(false), Fresh(false).(m := started, stamps := [0]);
    ticks := OneTick(k, [], t, Do(Execute), u);
    t, u := u, u.(m := At(EffectPending, [Holding(EffectPending)], []));
    ticks := OneTick(k, ticks, t, Do(Reserve(0)), u);
    t, u := u, u.(m := At(EffectPending, [Beginning(EffectPending)], []));
    ticks := OneTick(k, ticks, t, Do(Decide(0)), u);
  }

  /** It sends. */
  lemma FirstSends(k: Timing) returns (ticks: seq<Tick>)
    ensures Reaches(k, ticks, Timed(At(EffectRunning, [Waiting(0)], [Open]), 0, 0, [0], [0], None, 0))
  {
    hide Reaches;
    ticks := FirstDecides(k);
    var t := Timed(At(EffectPending, [Beginning(EffectPending)], []), 0, 0, [0], [], None, 0);
    var u := t.(m := At(EffectRunning, [Sending], []));
    ticks := OneTick(k, ticks, t, Do(Begin(0)), u);
    t, u := u, Timed(At(EffectRunning, [Waiting(0)], [Open]), 0, 0, [0], [0], None, 0);
    ticks := OneTick(k, ticks, t, Do(Send(0)), u);
  }

  /** The provider acts at once. */
  lemma FirstActs(k: Timing) returns (ticks: seq<Tick>)
    requires k.slack >= 0
    ensures Reaches(k, ticks, Timed(At(EffectRunning, [Waiting(0)], [Acted]), 0, 0, [0], [0], Some(0), 1))
  {
    hide Reaches;
    ticks := FirstSends(k);
    var t := Timed(At(EffectRunning, [Waiting(0)], [Open]), 0, 0, [0], [0], None, 0);
    var u := Timed(At(EffectRunning, [Waiting(0)], [Acted]), 0, 0, [0], [0], Some(0), 1);
    ticks := OneTick(k, ticks, t, Do(Act(0)), u);
  }

  /** And the attempt does not hear of it. */
  lemma FirstIsAmbiguous(k: Timing) returns (ticks: seq<Tick>)
    requires k.slack >= 0
    ensures Reaches(k, ticks, Timed(At(EffectUnknown, [Gone], [Acted]), 0, 0, [0], [0], Some(0), 1))
  {
    hide Reaches;
    ticks := FirstActs(k);
    var t := Timed(At(EffectRunning, [Waiting(0)], [Acted]), 0, 0, [0], [0], Some(0), 1);
    var u := t.(m := At(EffectRunning, [Recording(EffectRunning, EffectUnknown)], [Acted]));
    ticks := OneTick(k, ticks, t, Do(Return(0, Ambiguous)), u);
    t, u := u, u.(m := At(EffectUnknown, [Gone], [Acted]));
    ticks := OneTick(k, ticks, t, Do(Record(0)), u);
  }

  /** A second attempt resolves to send again, at this instant. */
  lemma SecondResolves(k: Timing, at: Time) returns (ticks: seq<Tick>)
    requires k.slack >= 0 && 0 <= at <= k.ttl
    ensures Reaches(k, ticks,
                    Timed(At(EffectUnknown, [Gone, Beginning(EffectUnknown)], [Acted]), at, 0, [0, at], [0], Some(0),
                          1))
  {
    hide Reaches;
    ticks := FirstIsAmbiguous(k);
    var t := Timed(At(EffectUnknown, [Gone], [Acted]), 0, 0, [0], [0], Some(0), 1);
    var u := t.(now := at);
    ticks := OneTick(k, ticks, t, Tick.Wait(at), u);
    t, u := u, u.(m := At(EffectUnknown, [Gone, Starting], [Acted]), stamps := [0, at]);
    ticks := OneTick(k, ticks, t, Do(Execute), u);
    t, u := u, u.(m := At(EffectUnknown, [Gone, Refused], [Acted]));
    ticks := OneTick(k, ticks, t, Do(Reserve(1)), u);
    t, u := u, u.(m := At(EffectUnknown, [Gone, Holding(EffectUnknown)], [Acted]));
    ticks := OneTick(k, ticks, t, Do(Read(1)), u);
    t, u := u, u.(m := At(EffectUnknown, [Gone, Beginning(EffectUnknown)], [Acted]));
    ticks := OneTick(k, ticks, t, Do(Decide(1)), u);
  }

  /** It begins, and sends at once. */
  lemma SecondSends(k: Timing, at: Time) returns (ticks: seq<Tick>)
    requires k.slack >= 0 && 0 <= at <= k.ttl
    ensures Reaches(k, ticks,
                    Timed(At(EffectRunning, [Gone, Waiting(1)], [Acted, Open]), at, 0, [0, at], [0, at], Some(0), 1))
  {
    hide Reaches;
    ticks := SecondResolves(k, at);
    var t := Timed(At(EffectUnknown, [Gone, Beginning(EffectUnknown)], [Acted]), at, 0, [0, at], [0], Some(0), 1);
    var u := t.(m := At(EffectRunning, [Gone, Sending], [Acted]));
    ticks := OneTick(k, ticks, t, Do(Begin(1)), u);
    t, u := u, u.(m := At(EffectRunning, [Gone, Waiting(1)], [Acted, Open]), sent := [0, at]);
    ticks := OneTick(k, ticks, t, Do(Send(1)), u);
  }

  /** An attempt that is paused after it looked at the clock: with less memory
      than the retention it checks and the pause together, the action is done twice. */
  lemma TooLateActsTwice(k: Timing) returns (ticks: seq<Tick>)
    requires k.ttl > 0 && k.slack >= 0 && k.memory < k.ttl + k.slack
    ensures AllInTime(k, ticks) && Ran(k, ticks).times == 2
  {
    hide Reaches, AllInTime, Ran;
    ticks := SecondSends(k, k.ttl);
    var late := k.ttl + k.slack;
    var t := Timed(At(EffectRunning, [Gone, Waiting(1)], [Acted, Open]), k.ttl, 0, [0, k.ttl], [0, k.ttl], Some(0), 1);
    var u := t.(now := late);
    ticks := OneTick(k, ticks, t, Tick.Wait(late), u);
    t, u := u, u.(m := At(EffectRunning, [Gone, Waiting(1)], [Acted, Acted]), seen := Some(late), times := 2);
    ticks := OneTick(k, ticks, t, Do(Act(1)), u);
    ReachedInTime(k, ticks, u);
  }

  lemma ReachedInTime(k: Timing, ticks: seq<Tick>, t: Timed)
    requires Reaches(k, ticks, t)
    ensures AllInTime(k, ticks) && Ran(k, ticks) == t
  {
  }

  // ----- what a definite failure forgets -----

  /** A re-send that definitely failed: it says so, and the row says so of the
      whole action, which has been done. */
  lemma AFailedResendLies(k: Timing) returns (ticks: seq<Tick>)
    requires k.ttl > 0 && k.slack >= 0
    ensures Reaches(k, ticks, Timed(At(EffectFailed, [Gone, Gone], [Acted, Barred]), 0, 0, [0, 0], [0, 0], Some(0), 1))
  {
    hide Reaches;
    ticks := SecondSends(k, 0);
    var t := Timed(At(EffectRunning, [Gone, Waiting(1)], [Acted, Open]), 0, 0, [0, 0], [0, 0], Some(0), 1);
    var u := t.(m := At(EffectRunning, [Gone, Waiting(1)], [Acted, Barred]));
    ticks := OneTick(k, ticks, t, Do(Bar(1)), u);
    t, u := u, u.(m := At(EffectRunning, [Gone, Recording(EffectRunning, EffectFailed)], [Acted, Barred]));
    ticks := OneTick(k, ticks, t, Do(Return(1, NotExecuted)), u);
    t, u := u, u.(m := At(EffectFailed, [Gone, Gone], [Acted, Barred]));
    ticks := OneTick(k, ticks, t, Do(Record(1)), u);
  }

  /** A third attempt finds FAILED, and takes nothing to have happened: whatever
      the clock says, it begins. */
  lemma ThirdBegins(k: Timing, at: Time) returns (ticks: seq<Tick>)
    requires k.ttl > 0 && k.slack >= 0 && at >= 0
    ensures Reaches(k, ticks, Timed(At(EffectFailed, [Gone, Gone, Beginning(EffectFailed)], [Acted, Barred]), at, 0,
                                    [0, 0, at], [0, 0], Some(0), 1))
  {
    hide Reaches;
    ticks := AFailedResendLies(k);
    var t := Timed(At(EffectFailed, [Gone, Gone], [Acted, Barred]), 0, 0, [0, 0], [0, 0], Some(0), 1);
    var u := t.(now := at);
    ticks := OneTick(k, ticks, t, Tick.Wait(at), u);
    t, u := u, u.(m := At(EffectFailed, [Gone, Gone, Starting], [Acted, Barred]), stamps := [0, 0, at]);
    ticks := OneTick(k, ticks, t, Do(Execute), u);
    t, u := u, u.(m := At(EffectFailed, [Gone, Gone, Refused], [Acted, Barred]));
    ticks := OneTick(k, ticks, t, Do(Reserve(2)), u);
    t, u := u, u.(m := At(EffectFailed, [Gone, Gone, Holding(EffectFailed)], [Acted, Barred]));
    ticks := OneTick(k, ticks, t, Do(Read(2)), u);
    t, u := u, u.(m := At(EffectFailed, [Gone, Gone, Beginning(EffectFailed)], [Acted, Barred]));
    ticks := OneTick(k, ticks, t, Do(Decide(2)), u);
  }

  /** And if the provider has forgotten by then, it does the action again, though
      nobody overlapped and nobody paused. */
  lemma LateRestartActsTwice(k: Timing) returns (ticks: seq<Tick>)
    requires k.ttl > 0 && k.slack >= 0 && k.memory >= 0 && k.late
    ensures AllInTime(k, ticks) && Ran(k, ticks).times == 2
  {
    hide Reaches, AllInTime, Ran;
    var at := k.memory + 1;
    ticks := ThirdBegins(k, at);
    var t := Timed(At(EffectFailed, [Gone, Gone, Beginning(EffectFailed)], [Acted, Barred]), at, 0,
                   [0, 0, at], [0, 0], Some(0), 1);
    var u := t.(m := At(EffectRunning, [Gone, Gone, Sending], [Acted, Barred]));
    ticks := OneTick(k, ticks, t, Do(Begin(2)), u);
    t, u := u, u.(m := At(EffectRunning, [Gone, Gone, Waiting(2)], [Acted, Barred, Open]), sent := [0, 0, at]);
    ticks := OneTick(k, ticks, t, Do(Send(2)), u);
    var done := At(EffectRunning, [Gone, Gone, Waiting(2)], [Acted, Barred, Acted]);
    t, u := u, u.(m := done, seen := Some(at), times := 2);
    ticks := OneTick(k, ticks, t, Do(Act(2)), u);
    ReachedInTime(k, ticks, u);
  }

  /** So an action of this class is done at most once, through any crashes and
      however attempts overlap, exactly if the provider remembers a key for at
      least the declared retention and the longest pause together, and nobody
      begins a failed effect afresh after that retention. */
  lemma AtMostOnceIff(k: Timing)
    requires k.ttl > 0 && k.slack >= 0
    ensures (forall ticks :: AllInTime(k, ticks) ==> Ran(k, ticks).times <= 1) <==>
            k.memory >= k.ttl + k.slack && !k.late
  {
    hide AllInTime, Ran, Sound;
    if k.memory < k.ttl + k.slack {
      var ticks := TooLateActsTwice(k);
    } else if k.late {
      var ticks := LateRestartActsTwice(k);
    } else {
      forall ticks | AllInTime(k, ticks)
        ensures Ran(k, ticks).times <= 1
      {
        RunsAreSound(k, ticks);
        SoundActsOnce(k, Ran(k, ticks));
      }
    }
  }
}
