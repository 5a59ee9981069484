/** A run's latest fan-out, read back out of history (internal/core/join.go). */
module FanOuts {
  import opened Prelude
  import opened Names
  import opened Core
  import opened Transactions
  import opened Joins

  // ----- the recorded policy -----

  lemma DigitRunOfDecimal(d: string, after: string)
    requires AllDigits(d) && after != "" && !IsDigit(after[0])
    ensures DigitRun(d + after) == |d|
  {
    hide DigitRun;
    var s := d + after;
    var n := DigitRun(s);
    assert forall i :: 0 <= i < |d| ==> s[i] == d[i];
    assert s[|d|] == after[0];
    assert n >= |d|;
    assert n <= |d|;
  }

  /** What is written is what is read back, for every policy that is valid for
      some fan-out: the unused quorum of ALL and ANY is the one thing lost. */
  lemma PolicyRoundTrip(join: JoinPolicy, n: int)
    requires join.Valid(n) && (join.kind.JoinQuorum? ==> n <= MAX_INT)
    ensures JoinFrom(PolicyText(join)) == if join.kind.JoinQuorum? then join else join.(quorum := 0)
  {
    if join.kind.JoinQuorum? {
      var d := Decimal(join.quorum);
      DecimalReads(join.quorum);
      AtoiInvertsDecimal(join.quorum);
      var text := PolicyText(join);
      assert text == QUORUM_OPEN + (d + ")");
      assert QUORUM_OPEN <= text && text[|QUORUM_OPEN|..] == d + ")";
      ScanDecimal(d, join.quorum);
    }
  }

  lemma ScanDecimal(d: string, n: int)
    requires d != "" && AllDigits(d) && Atoi(d) == Some(n)
    ensures ScanQuorum(QUORUM_OPEN + (d + ")")) == Some(n)
  {
    hide Atoi, DigitRun;
    var text := QUORUM_OPEN + (d + ")");
    var rest := d + ")";
    assert text[|QUORUM_OPEN|..] == rest;
    assert QUORUM_OPEN <= text;
    assert rest[0] == d[0] && IsDigit(rest[0]);
    assert SkipSpaces(rest) == rest;
    assert rest[0..] == rest;
    DigitRunOfDecimal(d, ")");
    assert rest[..|d|] == d && rest[|d|] == ')';
  }

  // ----- one child -----

  /** What one event does to the child it is about. */
  function StepChild(c: ChildOutcome, e: Event): ChildOutcome {
    if e.typ.EvTaskCompleted? then
      c.(settled := true, succeeded := true, result := if e.data.TaskCompletedData? then e.data.result else None)
    else if e.typ.EvTaskFailed? && e.data.TaskFailedData? then
      var c' := c.(error := e.data.error);
      if e.data.final then c'.(settled := true, succeeded := false) else c'
    else c
  }

  /** A child's story: the events under its own step, and no others. */
  function ChildStory(c: ChildOutcome, tail: seq<Event>): ChildOutcome {
    if tail == [] then c
    else
      var before := ChildStory(c, tail[..|tail| - 1]);
      var e := tail[|tail| - 1];
      if e.step == c.step then StepChild(before, e) else before
  }

  lemma {:induction false} StoryKeepsName(c: ChildOutcome, tail: seq<Event>)
    ensures ChildStory(c, tail).step == c.step
  {
    if tail != [] { StoryKeepsName(c, tail[..|tail| - 1]); }
  }

  function NewChild(step: StepId, tools: seq<string>, i: nat): ChildOutcome
    requires i < |tools|
  {
    ChildOutcome(Child(step, i), i, tools[i], false, false, None, "")
  }

  function NewChildren(step: StepId, tools: seq<string>): seq<ChildOutcome> {
    seq(|tools|, i requires 0 <= i < |tools| => NewChild(step, tools, i))
  }

  // ----- the latest fan-out -----

  /** Where a history's last FAN_OUT_STARTED is, or -1. */
  function LastFanOut(h: seq<Event>): (p: int)
    ensures -1 <= p < |h|
    ensures p >= 0 ==> h[p].typ.EvFanOutStarted?
    ensures forall k :: p < k < |h| ==> !h[k].typ.EvFanOutStarted?
  {
    if h == [] then -1
    else if h[|h| - 1].typ.EvFanOutStarted? then |h| - 1
    else LastFanOut(h[..|h| - 1])
  }

  predicate SomeUnreadableFanOut(h: seq<Event>) {
    exists k :: 0 <= k < |h| && h[k].typ.EvFanOutStarted? && !h[k].data.FanOutData?
  }

  /** The declarative reading: the last fan-out, each child with its own story
      since. None if there is none, or if any on record cannot be read. */
  function FanOutOf(h: seq<Event>): Option<FanOut> {
    var p := LastFanOut(h);
    if p < 0 || SomeUnreadableFanOut(h) then None
    else
      assert h[p].data.FanOutData?;
      Some(FanOut(h[p].step, JoinFrom(h[p].data.join), ChildrenSince(h[p].step, h[p].data.calls, h[p + 1..])))
  }

  function ChildrenSince(step: StepId, tools: seq<string>, tail: seq<Event>): seq<ChildOutcome> {
    seq(|tools|, i requires 0 <= i < |tools| => ChildStory(NewChild(step, tools, i), tail))
  }

  /** The fan-out still joining, if there is one. */
  function Joining(h: seq<Event>): Option<FanOut> {
    match FanOutOf(h)
    case Some(f) => if Satisfied(f) then None else Some(f)
    case None => None
  }

  // The index map of a fan-out: children's steps are pairwise different.
  predicate IndexesExactly(index: map<StepId, int>, cs: seq<ChildOutcome>) {
    (forall k :: k in index ==> 0 <= index[k] < |cs| && cs[index[k]].step == k) &&
    (forall i :: 0 <= i < |cs| ==> cs[i].step in index && index[cs[i].step] == i)
  }

  /** The index map built while opening a fan-out. */
  method OpenFanOut(step: StepId, tools: seq<string>) returns (children: seq<ChildOutcome>, index: map<StepId, int>)
    ensures children == NewChildren(step, tools)
    ensures IndexesExactly(index, children)
  {
    children, index := [], map[];
    for i := 0 to |tools|
      invariant |children| == i
      invariant forall k :: 0 <= k < i ==> children[k] == NewChild(step, tools, k)
      invariant IndexesExactly(index, children)
    {
      var child := Child(step, i);
      forall k | 0 <= k < i
        ensures children[k].step != child
      {
        if children[k].step == child { ChildInjective(step, k, step, i); }
      }
      children := children + [ChildOutcome(child, i, tools[i], false, false, None, "")];
      index := index[child := i];
    }
  }

  // The children after a prefix of the tail.
  predicate Tracks(cs: seq<ChildOutcome>, step: StepId, tools: seq<string>, tail: seq<Event>) {
    |cs| == |tools| && forall i :: 0 <= i < |cs| ==> cs[i] == ChildStory(NewChild(step, tools, i), tail)
  }

  lemma StoryStep(c: ChildOutcome, tail: seq<Event>, e: Event)
    ensures ChildStory(c, tail + [e]) ==
            if e.step == c.step then StepChild(ChildStory(c, tail), e) else ChildStory(c, tail)
  {
    assert (tail + [e])[..|tail|] == tail;
  }

  lemma TracksStep(cs: seq<ChildOutcome>, cs': seq<ChildOutcome>, step: StepId, tools: seq<string>, tail: seq<Event>,
                   e: Event)
    requires Tracks(cs, step, tools, tail) && |cs'| == |cs|
    requires forall i :: 0 <= i < |cs| ==> cs'[i] == if e.step == cs[i].step then StepChild(cs[i], e) else cs[i]
    ensures Tracks(cs', step, tools, tail + [e])
  {
    hide StepChild, ChildStory;
    forall i | 0 <= i < |cs|
      ensures cs'[i] == ChildStory(NewChild(step, tools, i), tail + [e])
    {
      StoryStep(NewChild(step, tools, i), tail, e);
      StoryKeepsName(NewChild(step, tools, i), tail);
    }
  }

  lemma LastFanOutSnoc(h: seq<Event>, k: nat)
    requires k < |h|
    ensures LastFanOut(h[..k + 1]) == if h[k].typ.EvFanOutStarted? then k else LastFanOut(h[..k])
  {
    assert h[..k + 1][..k] == h[..k];
  }

  predicate Opened(h: seq<Event>, p: int, open: FanOut, k: int) {
    && 0 <= p < k <= |h| && h[p].data.FanOutData?
    && open.step == h[p].step && open.join == JoinFrom(h[p].data.join)
    && Tracks(open.children, h[p].step, h[p].data.calls, h[p + 1..k])
  }

  lemma OpenedIsFanOutOf(h: seq<Event>, p: int, open: FanOut)
    requires Opened(h, p, open, |h|) && p == LastFanOut(h) && !SomeUnreadableFanOut(h)
    ensures FanOutOf(h) == Some(open)
  {
    hide LastFanOut, ChildStory, JoinFrom, SomeUnreadableFanOut, NewChild;
    assert h[p + 1..|h|] == h[p + 1..];
    assert FanOutOf(h).value.children == open.children;
  }

  /** A task event under a child's step settles it, or notes its error. */
  method Note(index: map<StepId, int>, children: seq<ChildOutcome>, e: Event) returns (after: seq<ChildOutcome>)
    requires IndexesExactly(index, children)
    ensures |after| == |children| && IndexesExactly(index, after)
    ensures forall k :: 0 <= k < |children| ==>
              after[k] == if e.step == children[k].step then StepChild(children[k], e) else children[k]
  {
    hide StepChild;
    after := children;
    if e.step in index {
      var i := index[e.step];
      var c := children[i];
      if e.typ.EvTaskCompleted? {
        c := c.(settled := true, succeeded := true,
                result := match e.data case TaskCompletedData(_, result) => result case _ => None);
      } else if e.typ.EvTaskFailed? {
        match e.data {
          case TaskFailedData(_, error, _, final) =>
            c := c.(error := error);
            if final {
              c := c.(settled := true, succeeded := false);
            }
          case _ =>
        }
      }
      StepChildIs(children[i], e, c);
      after := children[i := c];
    }
  }

  lemma NoteKeepsOpened(h: seq<Event>, p: int, open: FanOut, k: int, after: seq<ChildOutcome>)
    requires Opened(h, p, open, k) && k < |h| && |after| == |open.children|
    requires forall i :: 0 <= i < |after| ==>
               after[i] ==
                 if h[k].step == open.children[i].step then StepChild(open.children[i], h[k]) else open.children[i]
    ensures Opened(h, p, open.(children := after), k + 1)
  {
    hide StepChild, ChildStory, JoinFrom, NewChild, Tracks;
    assert h[p + 1..k] + [h[k]] == h[p + 1..k + 1];
    TracksStep(open.children, after, h[p].step, h[p].data.calls, h[p + 1..k], h[k]);
  }

  /** PendingFanOut: one pass, an index map and an early return. */
  method PendingFanOut(history: seq<Event>) returns (open: FanOut, waiting: bool)
    ensures waiting <==> Joining(history).Some?
    ensures waiting ==> open == Joining(history).value
  {
    hide ChildStory, StepChild, JoinFrom, Satisfied, IndexesExactly, LastFanOut, Opened, FanOutOf, NewChildren;
    open, waiting := FanOut("", JoinPolicy(JoinUnknown(""), 0), []), false;
    var found := false;
    var index: map<StepId, int> := map[];
    ghost var p := -1;
    assert LastFanOut(history[..0]) == -1 by { LastFanOutOfNothing(history[..0]); }
    for k := 0 to |history|
      invariant p == LastFanOut(history[..k])
      invariant found <==> p >= 0
      invariant forall j :: 0 <= j < k && history[j].typ.EvFanOutStarted? ==> history[j].data.FanOutData?
      invariant found ==> Opened(history, p, open, k) && IndexesExactly(index, open.children)
      invariant !waiting
    {
      var e := history[k];
      LastFanOutSnoc(history, k);
      if e.typ.EvFanOutStarted? {
        match e.data {
          case FanOutData(calls, join) =>
            var cs, ix := OpenFanOut(e.step, calls);
            open := FanOut(e.step, JoinFrom(join), cs);
            index := ix;
            found := true;
            p := k;
            FreshlyOpened(history, k, open);
          case _ =>
            UnreadableMeansNone(history, k);
            return;
        }
      } else if found {
        var after := Note(index, open.children, e);
        NoteKeepsOpened(history, p, open, k, after);
        open := open.(children := after);
      }
    }
    assert history[..|history|] == history;
    if found {
      OpenedIsFanOutOf(history, p, open);
    } else {
      NothingOpened(history);
    }
    waiting := found && !Satisfied(open);
  }

  lemma LastFanOutOfNothing(h: seq<Event>)
    requires h == []
    ensures LastFanOut(h) == -1
  {
  }

  lemma NothingOpened(h: seq<Event>)
    requires LastFanOut(h) < 0
    ensures FanOutOf(h) == None
  {
    hide LastFanOut;
  }

  lemma UnreadableMeansNone(h: seq<Event>, k: int)
    requires 0 <= k < |h| && h[k].typ.EvFanOutStarted? && !h[k].data.FanOutData?
    ensures FanOutOf(h) == None
  {
    hide LastFanOut;
    assert SomeUnreadableFanOut(h);
  }

  lemma FreshlyOpened(h: seq<Event>, k: int, open: FanOut)
    requires 0 <= k < |h| && h[k].data.FanOutData?
    requires open == FanOut(h[k].step, JoinFrom(h[k].data.join), NewChildren(h[k].step, h[k].data.calls))
    ensures Opened(h, k, open, k + 1)
  {
    assert h[k + 1..k + 1] == [];
  }

  lemma StepChildIs(c: ChildOutcome, e: Event, c': ChildOutcome)
    requires e.typ.EvTaskCompleted? ==>
               c' == c.(settled := true, succeeded := true,
                        result := if e.data.TaskCompletedData? then e.data.result else None)
    requires e.typ.EvTaskFailed? ==>
               c' == if !e.data.TaskFailedData? then c
                     else if e.data.final then c.(error := e.data.error, settled := true, succeeded := false)
                     else c.(error := e.data.error)
    requires !e.typ.EvTaskCompleted? && !e.typ.EvTaskFailed? ==> c' == c
    ensures c' == StepChild(c, e) && c'.step == c.step
  {
  }

  // ----- the order of events does not matter across children -----

  function Under(tail: seq<Event>, step: StepId): seq<Event> {
    if tail == [] then []
    else Under(tail[..|tail| - 1], step) + (if tail[|tail| - 1].step == step then [tail[|tail| - 1]] else [])
  }

  lemma {:induction false} StoryIsProjection(c: ChildOutcome, tail: seq<Event>)
    ensures ChildStory(c, tail) == ChildStory(c, Under(tail, c.step))
  {
    if tail != [] {
      var n := |tail| - 1;
      StoryIsProjection(c, tail[..n]);
      var u := Under(tail[..n], c.step);
      assert tail == tail[..n] + [tail[n]];
      StoryStep(c, tail[..n], tail[n]);
      if tail[n].step == c.step {
        StoryStep(c, u, tail[n]);
        assert Under(tail, c.step) == u + [tail[n]];
      } else {
        assert Under(tail, c.step) == u + [];
        assert u + [] == u;
      }
    }
  }

  /** Two continuations of one history that agree on each child's own events,
      in their own order, are joined alike, however the children interleave. */
  lemma ChildOrderIsIrrelevant(h: seq<Event>, a: seq<Event>, b: seq<Event>)
    requires forall i :: 0 <= i < |a| ==> !a[i].typ.EvFanOutStarted?
    requires forall i :: 0 <= i < |b| ==> !b[i].typ.EvFanOutStarted?
    requires forall step :: Under(a, step) == Under(b, step)
    ensures FanOutOf(h + a) == FanOutOf(h + b) && Joining(h + a) == Joining(h + b)
  {
    hide LastFanOut, ChildrenSince, Under, SomeUnreadableFanOut, JoinFrom, Satisfied, FanOutOf;
    AppendedFanOut(h, a);
    AppendedFanOut(h, b);
    var p := LastFanOut(h);
    if p >= 0 && !SomeUnreadableFanOut(h) {
      Readable(h, p);
      SameChildren(h[p].step, h[p].data.calls, h[p + 1..], a, b);
    }
  }

  lemma AppendedFanOut(h: seq<Event>, a: seq<Event>)
    requires forall i :: 0 <= i < |a| ==> !a[i].typ.EvFanOutStarted?
    ensures var p := LastFanOut(h);
            if p < 0 || SomeUnreadableFanOut(h) then FanOutOf(h + a) == None
            else h[p].data.FanOutData? &&
                 FanOutOf(h + a) == Some(FanOut(h[p].step, JoinFrom(h[p].data.join),
                                                ChildrenSince(h[p].step, h[p].data.calls, h[p + 1..] + a)))
  {
    hide LastFanOut, ChildrenSince, SomeUnreadableFanOut, JoinFrom;
    SameStart(h, a);
    var p := LastFanOut(h);
    if p >= 0 && !SomeUnreadableFanOut(h) {
      Readable(h, p);
      TailOf(h, a, p);
    }
  }

  lemma SameChildren(step: StepId, tools: seq<string>, t: seq<Event>, a: seq<Event>, b: seq<Event>)
    requires forall s :: Under(a, s) == Under(b, s)
    ensures ChildrenSince(step, tools, t + a) == ChildrenSince(step, tools, t + b)
  {
    hide ChildStory, Under;
    forall i | 0 <= i < |tools|
      ensures ChildStory(NewChild(step, tools, i), t + a) == ChildStory(NewChild(step, tools, i), t + b)
    {
      StoryAppends(NewChild(step, tools, i), t, a, b);
    }
  }

  lemma Readable(h: seq<Event>, p: int)
    requires 0 <= p < |h| && h[p].typ.EvFanOutStarted? && !SomeUnreadableFanOut(h)
    ensures h[p].data.FanOutData?
  {
  }

  lemma TailOf(h: seq<Event>, a: seq<Event>, p: int)
    requires 0 <= p < |h|
    ensures (h + a)[p] == h[p] && (h + a)[p + 1..] == h[p + 1..] + a
  {
  }

  lemma SameStart(h: seq<Event>, a: seq<Event>)
    requires forall i :: 0 <= i < |a| ==> !a[i].typ.EvFanOutStarted?
    ensures LastFanOut(h + a) == LastFanOut(h)
    ensures SomeUnreadableFanOut(h + a) <==> SomeUnreadableFanOut(h)
  {
    hide LastFanOut;
    var g := h + a;
    forall k | |h| <= k < |g|
      ensures !g[k].typ.EvFanOutStarted?
    {
      assert g[k] == a[k - |h|];
    }
    assert forall k :: 0 <= k < |h| ==> g[k] == h[k];
  }

  lemma {:induction false} UnderConcat(a: seq<Event>, b: seq<Event>, step: StepId)
    ensures Under(a + b, step) == Under(a, step) + Under(b, step)
  {
    if b == [] {
      assert a + b == a;
    } else {
      var n := |b| - 1;
      UnderConcat(a, b[..n], step);
      assert (a + b)[..|a| + n] == a + b[..n];
      assert (a + b)[|a| + n] == b[n];
    }
  }

  lemma StoryAppends(c: ChildOutcome, t: seq<Event>, a: seq<Event>, b: seq<Event>)
    requires Under(a, c.step) == Under(b, c.step)
    ensures ChildStory(c, t + a) == ChildStory(c, t + b)
  {
    StoryIsProjection(c, t + a);
    StoryIsProjection(c, t + b);
    UnderConcat(t, a, c.step);
    UnderConcat(t, b, c.step);
  }
}
