/** The store's queries (internal/store/memory): rows picked out of a map in no
    particular order, sorted by the caller's order, and cut to a limit. */
module Queries {
  import opened Prelude
  import opened Names
  import opened Core
  import opened Tables
  import opened Waits
  import opened Advancing

  // ----- sorting -----

  ghost predicate StrictTotal<T(!new)>(less: (T, T) -> bool) {
    && (forall x :: !less(x, x))
    && (forall x, y, z :: less(x, y) && less(y, z) ==> less(x, z))
    && (forall x, y :: x != y ==> less(x, y) || less(y, x))
  }

  predicate Increasing<T>(out: seq<T>, less: (T, T) -> bool) {
    forall i, j :: 0 <= i < j < |out| ==> less(out[i], out[j])
  }

  function Elements<T>(out: seq<T>): set<T> {
    set i | 0 <= i < |out| :: out[i]
  }

  /** out is the first limit of the matches in order, or all of them if there
      are no more than that, or if no limit is set. */
  ghost predicate Lists<T(!new)>(out: seq<T>, matches: set<T>, less: (T, T) -> bool, limit: int) {
    && Increasing(out, less)
    && Elements(out) <= matches
    && (forall x, i :: x in matches && x !in Elements(out) && 0 <= i < |out| ==> less(out[i], x))
    && (if limit <= 0 || |matches| <= limit then Elements(out) == matches else |out| == limit)
  }

  method Insert<T(!new)>(out: seq<T>, x: T, less: (T, T) -> bool) returns (more: seq<T>)
    requires StrictTotal(less) && Increasing(out, less) && x !in Elements(out)
    ensures Increasing(more, less) && Elements(more) == Elements(out) + {x} && |more| == |out| + 1
  {
    var i := 0;
    while i < |out| && less(out[i], x)
      invariant 0 <= i <= |out|
      invariant forall k :: 0 <= k < i ==> less(out[k], x)
    {
      i := i + 1;
    }
    more := out[..i] + [x] + out[i..];
    forall k | i <= k < |out|
      ensures less(x, out[k])
    {
      assert out[k] in Elements(out);
      if k == i { assert out[i] != x; } else { assert less(out[i], out[k]); assert out[i] in Elements(out); }
    }
    Inserted(out, i, x);
  }

  lemma Inserted<T>(out: seq<T>, i: nat, x: T)
    requires i <= |out|
    ensures Elements(out[..i] + [x] + out[i..]) == Elements(out) + {x}
  {
    var more := out[..i] + [x] + out[i..];
    assert more[i] == x;
    forall k | 0 <= k < |out|
      ensures out[k] in Elements(more)
    {
      assert more[if k < i then k else k + 1] == out[k];
    }
    forall y | y in Elements(more)
      ensures y in Elements(out) + {x}
    {
      var k :| 0 <= k < |more| && more[k] == y;
      assert k < i ==> y == out[k];
      assert k > i ==> y == out[k - 1];
    }
  }

  lemma SizeOfIncreasing<T(!new)>(out: seq<T>, less: (T, T) -> bool)
    requires StrictTotal(less) && Increasing(out, less)
    ensures |Elements(out)| == |out|
  {
    if out != [] {
      var n := |out| - 1;
      SizeOfIncreasing(out[..n], less);
      assert forall i :: 0 <= i < n ==> out[i] != out[n];
      assert Elements(out) == Elements(out[..n]) + {out[n]};
    }
  }

  /** sort.Slice, and then the limit. */
  method SortAndCut<T(==,!new)>(matches: set<T>, less: (T, T) -> bool, limit: int) returns (out: seq<T>)
    requires StrictTotal(less)
    ensures Lists(out, matches, less, limit)
  {
    out := [];
    var todo := matches;
    while todo != {}
      invariant todo <= matches && Increasing(out, less) && Elements(out) == matches - todo
      decreases todo
    {
      var x :| x in todo;
      out := Insert(out, x, less);
      todo := todo - {x};
    }
    SizeOfIncreasing(out, less);
    if limit > 0 && |out| > limit {
      CutOff(out, less, limit);
      out := out[..limit];
    }
  }

  lemma CutOff<T(!new)>(out: seq<T>, less: (T, T) -> bool, limit: nat)
    requires Increasing(out, less) && limit <= |out|
    ensures Increasing(out[..limit], less) && Elements(out[..limit]) <= Elements(out)
    ensures forall x, i :: x in Elements(out) && x !in Elements(out[..limit]) && 0 <= i < limit ==>
            less(out[..limit][i], x)
  {
    var cut := out[..limit];
    forall x, i | x in Elements(out) && x !in Elements(cut) && 0 <= i < limit
      ensures less(cut[i], x)
    {
      var k :| 0 <= k < |out| && out[k] == x;
      assert forall j :: 0 <= j < limit ==> cut[j] in Elements(cut);
    }
  }

  // ----- the orders -----

  lemma LexIsStrict(a: string, b: string, c: string)
    ensures !LexLess(a, a)
    ensures LexLess(a, b) && LexLess(b, c) ==> LexLess(a, c)
    ensures a != b ==> LexLess(a, b) || LexLess(b, a)
  {
    if a != [] && b != [] && c != [] { LexIsStrict(a[1..], b[1..], c[1..]); }
    if a != [] { LexIrreflexive(a); }
    if a != [] && b != [] && a[0] == b[0] {
      LexTotal(a[1..], b[1..]);
      assert a == [a[0]] + a[1..] && b == [b[0]] + b[1..];
    }
  }

  lemma LexIrreflexive(a: string)
    ensures !LexLess(a, a)
  {
    if a != [] { LexIrreflexive(a[1..]); }
  }

  lemma LexTotal(a: string, b: string)
    ensures a != b ==> LexLess(a, b) || LexLess(b, a)
  {
    if a != [] && b != [] && a[0] == b[0] {
      LexTotal(a[1..], b[1..]);
      assert a == [a[0]] + a[1..] && b == [b[0]] + b[1..];
    }
  }

  lemma LexOrder()
    ensures StrictTotal(LexLess)
  {
    forall a, b, c
      ensures !LexLess(a, a)
      ensures LexLess(a, b) && LexLess(b, c) ==> LexLess(a, c)
      ensures a != b ==> LexLess(a, b) || LexLess(b, a)
    {
      LexIsStrict(a, b, c);
    }
  }

  /** By an instant, and by name among equals. */
  function ByTime(at: string -> Time): (string, string) -> bool {
    (x, y) => at(x) < at(y) || (at(x) == at(y) && LexLess(x, y))
  }

  lemma TimeOrder(at: string -> Time)
    ensures StrictTotal(ByTime(at))
  {
    LexOrder();
    hide LexLess;
  }

  // ----- the queries -----

  function LeaseExpiry(s: State): string -> Time {
    id => if id in s.leases then s.leases[id].expiresAt else 0
  }

  /** Leases that have run out on a task somebody may still be waiting for. */
  function Lapsed(s: State, now: Time): set<TaskId> {
    set id | id in s.leases && s.leases[id].Expired(now) && id in s.tasks && !s.tasks[id].status.IsTerminal()
  }

  method ExpiredLeases(s: State, now: Time, limit: int) returns (out: seq<TaskId>)
    ensures Lists(out, Lapsed(s, now), ByTime(LeaseExpiry(s)), limit)
  {
    TimeOrder(LeaseExpiry(s));
    var found: set<TaskId> := {};
    var todo := s.leases.Keys;
    while todo != {}
      invariant todo <= s.leases.Keys
      invariant forall id :: id in found <==> id in Lapsed(s, now) && id !in todo
      decreases todo
    {
      var id :| id in todo;
      todo := todo - {id};
      if !s.leases[id].Expired(now) { continue; }
      if id !in s.tasks || s.tasks[id].status.IsTerminal() { continue; }
      found := found + {id};
    }
    assert found == Lapsed(s, now);
    out := SortAndCut(found, ByTime(LeaseExpiry(s)), limit);
  }

  function Announceable(s: State, now: Time): set<int> {
    set d | d in s.deliveries && d !in s.published && s.deliveries[d].availableAt <= now
  }

  /** ZERO_TIME, the zero instant, is never after now. */
  method PendingDeliveries(s: State, now: Time, limit: int) returns (out: seq<int>)
    requires now >= ZERO_TIME
    ensures Lists(out, Announceable(s, now), (x, y) => x < y, limit)
  {
    var found: set<int> := {};
    var todo: set<int> := s.deliveries.Keys;
    while todo != {}
      invariant todo <= s.deliveries.Keys
      invariant forall d :: d in found <==> d in Announceable(s, now) && d !in todo
      decreases todo
    {
      SomeIn(todo);
      var d :| d in todo;
      todo := todo - {d};
      if d !in s.published && (s.deliveries[d].availableAt == ZERO_TIME || s.deliveries[d].availableAt <= now) {
        found := found + {d};
      }
    }
    forall d
      ensures d in found <==> d in Announceable(s, now)
    {
    }
    SameElements(found, Announceable(s, now));
    out := SortAndCut(found, (x, y) => x < y, limit);
  }

  lemma SomeIn(todo: set<int>)
    requires todo != {}
    ensures exists d :: d in todo
  {
    if forall d :: d !in todo { SameElements(todo, {}); }
  }

  lemma SameElements(a: set<int>, b: set<int>)
    requires forall d :: d in a <==> d in b
    ensures a == b
  {
    assert forall d :: d in a ==> d in b;
    assert forall d :: d in b ==> d in a;
    assert a <= b && b <= a;
  }

  /** Tasks that wait for a worker. */
  function Waiting(s: State): set<TaskId> {
    set id | id in s.tasks && s.tasks[id].status.TaskPending?
  }

  /** What the recovery scan publishes once more, whatever became of the row in
      the outbox. When each task was created is the caller's to say. */
  method PendingTasks(s: State, createdAt: TaskId -> Time, limit: int) returns (out: seq<TaskId>)
    ensures Lists(out, Waiting(s), ByTime(createdAt), limit)
  {
    TimeOrder(createdAt);
    var found: set<TaskId> := {};
    var todo := s.tasks.Keys;
    while todo != {}
      invariant todo <= s.tasks.Keys
      invariant forall id :: id in found <==> id in Waiting(s) && id !in todo
      decreases todo
    {
      var id :| id in todo;
      todo := todo - {id};
      if s.tasks[id].status == TaskPending {
        found := found + {id};
      }
    }
    assert found == Waiting(s);
    out := SortAndCut(found, ByTime(createdAt), limit);
  }

  predicate InFlight(s: State, r: RunId) {
    exists id :: id in s.tasks && s.tasks[id].run == r && !s.tasks[id].status.IsTerminal()
  }

  /** Runs that are owed a decision: running, with nothing in flight, and not parked. */
  function Owed(s: State, now: Time): set<RunId> {
    set r | r in s.runs && s.runs[r].status.RunRunning? && !InFlight(s, r) && !s.runs[r].IsWaiting(now)
  }

  method RunsAwaitingAdvance(s: State, now: Time, limit: int) returns (out: seq<RunId>)
    ensures Lists(out, Owed(s, now), LexLess, limit)
  {
    hide LexLess;
    LexOrder();
    var inFlight: set<RunId> := {};
    var tasks := s.tasks.Keys;
    while tasks != {}
      invariant tasks <= s.tasks.Keys
      invariant forall r :: r in inFlight <==>
                  exists id :: id in s.tasks && id !in tasks && s.tasks[id].run == r && !s.tasks[id].status.IsTerminal()
      decreases tasks
    {
      var id :| id in tasks;
      tasks := tasks - {id};
      if !s.tasks[id].status.IsTerminal() {
        inFlight := inFlight + {s.tasks[id].run};
      }
    }
    assert forall r :: r in inFlight <==> InFlight(s, r);
    var found: set<RunId> := {};
    var todo := s.runs.Keys;
    while todo != {}
      invariant todo <= s.runs.Keys
      invariant forall r :: r in found <==> r in Owed(s, now) && r !in todo
      decreases todo
    {
      var r :| r in todo;
      todo := todo - {r};
      if s.runs[r].status == RunRunning && r !in inFlight && !s.runs[r].IsWaiting(now) {
        found := found + {r};
      }
    }
    assert found == Owed(s, now);
    out := SortAndCut(found, LexLess, limit);
  }

  function LastTouched(s: State): string -> Time {
    k => if k in s.effects then s.effects[k].updatedAt else 0
  }

  function Unresolved(s: State, before: Time): set<Key> {
    set k | k in s.effects && (s.effects[k].status.EffectRunning? || s.effects[k].status.EffectUnknown?) &&
            s.effects[k].updatedAt < before
  }

  method UnresolvedEffects(s: State, before: Time, limit: int) returns (out: seq<Key>)
    ensures Lists(out, Unresolved(s, before), ByTime(LastTouched(s)), limit)
  {
    TimeOrder(LastTouched(s));
    var found: set<Key> := {};
    var todo := s.effects.Keys;
    while todo != {}
      invariant todo <= s.effects.Keys
      invariant forall k :: k in found <==> k in Unresolved(s, before) && k !in todo
      decreases todo
    {
      var k :| k in todo;
      todo := todo - {k};
      var e := s.effects[k];
      if e.status != EffectRunning && e.status != EffectUnknown { continue; }
      if !(e.updatedAt < before) { continue; }
      found := found + {k};
    }
    assert found == Unresolved(s, before);
    out := SortAndCut(found, ByTime(LastTouched(s)), limit);
  }

  function ArrivedAt(s: State, r: RunId): string -> Time {
    id => if SignalKey(r, id) in s.signals then s.signals[SignalKey(r, id)].createdAt else 0
  }

  function Named(s: State, r: RunId, name: string): set<string> {
    set k | k in s.signals && k.run == r && s.signals[k].name == name :: k.id
  }

  method Signals(s: State, r: RunId, name: string) returns (out: seq<string>)
    ensures Lists(out, Named(s, r, name), ByTime(ArrivedAt(s, r)), 0)
  {
    TimeOrder(ArrivedAt(s, r));
    var found: set<string> := {};
    var todo := s.signals.Keys;
    while todo != {}
      invariant todo <= s.signals.Keys
      invariant forall id :: id in found <==> id in Named(s, r, name) && SignalKey(r, id) !in todo
      decreases todo
    {
      var k :| k in todo;
      todo := todo - {k};
      if k.run == r && s.signals[k].name == name {
        found := found + {k.id};
      }
    }
    assert found == Named(s, r, name);
    out := SortAndCut(found, ByTime(ArrivedAt(s, r)), 0);
  }

  /** The first stored signal of that name nobody has taken: what it finds is
      the oldest such, and it finds none only if there is none. */
  method UnconsumedSignal(s: State, r: RunId, history: seq<Event>, name: string) returns (found: Option<string>)
    ensures Chosen(s.signals, r, name, Ids(Consumed(history)), found)
  {
    hide LexLess, Consumed, Ids;
    var stored := Signals(s, r, name);
    var taken := ConsumedSignals(history);
    for i := 0 to |stored|
      invariant forall k :: 0 <= k < i ==> stored[k] in taken
    {
      if stored[i] !in taken {
        FirstIsOldest(s, r, name, stored, taken, i);
        return Some(stored[i]);
      }
    }
    forall id
      ensures !Untaken(s.signals, r, name, taken, id)
    {
      if SignalKey(r, id) in s.signals && s.signals[SignalKey(r, id)].name == name {
        assert id in Named(s, r, name);
      }
    }
    return None;
  }

  lemma FirstIsOldest(s: State, r: RunId, name: string, stored: seq<string>, taken: set<string>, i: nat)
    requires Lists(stored, Named(s, r, name), ByTime(ArrivedAt(s, r)), 0) && i < |stored|
    requires stored[i] !in taken && forall k :: 0 <= k < i ==> stored[k] in taken
    ensures Oldest(s.signals, r, name, taken, stored[i])
  {
    hide LexLess;
    assert stored[i] in Elements(stored);
    forall other | Untaken(s.signals, r, name, taken, other) && other != stored[i]
      ensures Before(s.signals[SignalKey(r, stored[i])], stored[i], s.signals[SignalKey(r, other)], other)
    {
      assert other in Named(s, r, name);
      var k :| 0 <= k < |stored| && stored[k] == other;
      assert ByTime(ArrivedAt(s, r))(stored[i], stored[k]);
    }
  }
}
