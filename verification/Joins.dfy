/** Fan-out joins (internal/core/join.go): when a fan-out has finished waiting. */
module Joins {
  import opened Prelude
  import opened Names
  import opened Core

  datatype ChildOutcome = ChildOutcome(step: StepId, index: int, tool: string,
                                       settled: bool, succeeded: bool, result: Json, error: string)

  datatype FanOut = FanOut(step: StepId, join: JoinPolicy, children: seq<ChildOutcome>)

  function Successes(cs: seq<ChildOutcome>): (n: nat)
    ensures n <= |cs|
  {
    if cs == [] then 0
    else Successes(cs[..|cs| - 1]) + (if cs[|cs| - 1].settled && cs[|cs| - 1].succeeded then 1 else 0)
  }

  function Failures(cs: seq<ChildOutcome>): (n: nat)
    ensures n + Successes(cs) <= |cs|
  {
    if cs == [] then 0
    else Failures(cs[..|cs| - 1]) + (if cs[|cs| - 1].settled && !cs[|cs| - 1].succeeded then 1 else 0)
  }

  /** One pass over the children. */
  method Counts(f: FanOut) returns (succeeded: int, failed: int, settled: int)
    ensures succeeded == Successes(f.children) && failed == Failures(f.children)
    ensures settled == succeeded + failed
  {
    succeeded, failed, settled := 0, 0, 0;
    for k := 0 to |f.children|
      invariant succeeded == Successes(f.children[..k]) && failed == Failures(f.children[..k])
      invariant settled == succeeded + failed
    {
      var c := f.children[k];
      assert f.children[..k + 1][..k] == f.children[..k];
      if !c.settled { continue; }
      settled := settled + 1;
      if c.succeeded {
        succeeded := succeeded + 1;
      } else {
        failed := failed + 1;
      }
    }
    assert f.children[..|f.children|] == f.children;
  }

  /** The second exit of each policy is the one for when enough success is no
      longer coming. A policy this build cannot evaluate counts as finished. */
  function Satisfied(f: FanOut): bool {
    var succeeded, failed, total := Successes(f.children), Failures(f.children), |f.children|;
    match f.join.kind
    case JoinAll => succeeded + failed == total
    case JoinAny => succeeded > 0 || failed == total
    case JoinQuorum => succeeded >= f.join.quorum || total - failed < f.join.quorum
    case JoinUnknown(_) => true
  }

  // ----- what a join means -----

  /** later is a way earlier may look further on: settled children stand. */
  predicate Settles(earlier: seq<ChildOutcome>, later: seq<ChildOutcome>) {
    |earlier| == |later| &&
    forall i :: 0 <= i < |earlier| && earlier[i].settled ==>
      later[i].settled && later[i].succeeded == earlier[i].succeeded
  }

  /** A way every child could end up. */
  predicate Completion(cs: seq<ChildOutcome>, end: seq<ChildOutcome>) {
    Settles(cs, end) && forall i :: 0 <= i < |end| ==> end[i].settled
  }

  /** The question an ANY or QUORUM join waits for the answer to. */
  predicate Enough(join: JoinPolicy, end: seq<ChildOutcome>) {
    Successes(end) >= if join.kind.JoinQuorum? then join.quorum else 1
  }

  lemma {:induction false} SettlingOnlyAdds(a: seq<ChildOutcome>, b: seq<ChildOutcome>)
    requires Settles(a, b)
    ensures Successes(a) <= Successes(b) && Failures(a) <= Failures(b)
  {
    if a != [] {
      SettlingOnlyAdds(a[..|a| - 1], b[..|b| - 1]);
    }
  }

  lemma {:induction false} AllSettled(cs: seq<ChildOutcome>)
    ensures Successes(cs) + Failures(cs) == |cs| <==> forall i :: 0 <= i < |cs| ==> cs[i].settled
  {
    if cs != [] {
      var n := |cs| - 1;
      AllSettled(cs[..n]);
      assert forall i :: 0 <= i < n ==> cs[..n][i] == cs[i];
      if Successes(cs) + Failures(cs) == |cs| {
        assert cs[n].settled;
      }
    }
  }

  /** Every unsettled child ends the same way. */
  function EndAll(cs: seq<ChildOutcome>, ok: bool): seq<ChildOutcome> {
    seq(|cs|, i requires 0 <= i < |cs| => if cs[i].settled then cs[i] else cs[i].(settled := true, succeeded := ok))
  }

  lemma {:induction false} EndAllCounts(cs: seq<ChildOutcome>, ok: bool)
    ensures Completion(cs, EndAll(cs, ok))
    ensures Successes(EndAll(cs, ok)) == if ok then |cs| - Failures(cs) else Successes(cs)
  {
    if cs != [] {
      var n := |cs| - 1;
      EndAllCounts(cs[..n], ok);
      assert EndAll(cs, ok)[..n] == EndAll(cs[..n], ok);
    }
  }

  /** A join is exact. ALL is satisfied when every child has settled. ANY and
      QUORUM are satisfied precisely when every way the unsettled children
      could still end gives the same answer to "enough successes?". */
  lemma JoinIsExact(f: FanOut)
    requires f.join.Valid(|f.children|)
    ensures f.join.kind.JoinAll? ==>
              (Satisfied(f) <==> forall i :: 0 <= i < |f.children| ==> f.children[i].settled)
    ensures !f.join.kind.JoinAll? ==>
              (Satisfied(f) <==>
               forall e1, e2 :: Completion(f.children, e1) && Completion(f.children, e2) ==>
                 (Enough(f.join, e1) <==> Enough(f.join, e2)))
  {
    var cs := f.children;
    AllSettled(cs);
    if !f.join.kind.JoinAll? {
      EndAllCounts(cs, true);
      EndAllCounts(cs, false);
      if Satisfied(f) {
        forall e1, e2 | Completion(cs, e1) && Completion(cs, e2)
          ensures Enough(f.join, e1) <==> Enough(f.join, e2)
        {
          Bounds(cs, e1);
          Bounds(cs, e2);
        }
      } else {
        assert Enough(f.join, EndAll(cs, true)) != Enough(f.join, EndAll(cs, false));
      }
    }
  }

  lemma Bounds(cs: seq<ChildOutcome>, end: seq<ChildOutcome>)
    requires Completion(cs, end)
    ensures Successes(cs) <= Successes(end) <= |cs| - Failures(cs)
  {
    SettlingOnlyAdds(cs, end);
    AllSettled(end);
  }

  /** Settling more children never un-satisfies a join. */
  lemma SatisfiedIsMonotone(f: FanOut, later: seq<ChildOutcome>)
    requires Settles(f.children, later) && Satisfied(f)
    ensures Satisfied(f.(children := later))
  {
    SettlingOnlyAdds(f.children, later);
  }

  // ----- what a join leaves behind -----

  /** No child is still out when this join of n children is satisfied. */
  ghost predicate LeavesNoneBehind(join: JoinPolicy, n: nat) {
    forall cs: seq<ChildOutcome> :: |cs| == n && JoinedBy(join, cs) ==> forall i :: 0 <= i < n ==> cs[i].settled
  }

  predicate JoinedBy(join: JoinPolicy, cs: seq<ChildOutcome>) {
    Satisfied(FanOut("", join, cs))
  }

  function Ended(settled: bool, succeeded: bool): ChildOutcome {
    ChildOutcome("", 0, "", settled, succeeded, None, "")
  }

  /** k children that ended one way, and the rest still out. */
  function Partly(k: nat, n: nat, ok: bool): (cs: seq<ChildOutcome>)
    requires k <= n
    ensures |cs| == n && forall i :: 0 <= i < n ==> cs[i] == Ended(i < k, ok)
  {
    seq(n, i requires 0 <= i < n => Ended(i < k, ok))
  }

  lemma {:induction false} PartlyCounts(k: nat, n: nat, ok: bool)
    requires k <= n
    ensures Successes(Partly(k, n, ok)) == (if ok then k else 0) && Failures(Partly(k, n, ok)) == (if ok then 0 else k)
    decreases n
  {
    if n > 0 {
      var before := if k < n then k else n - 1;
      PartlyCounts(before, n - 1, ok);
      assert |Partly(k, n, ok)| == n && Partly(k, n, ok)[n - 1] == Ended(n - 1 < k, ok);
      assert Partly(k, n, ok)[..n - 1] == Partly(before, n - 1, ok);
    }
  }

  /** Only ALL waits for everybody, a fan-out of one aside. */
  lemma OnlyAllLeavesNoneBehind(join: JoinPolicy, n: nat)
    requires join.Valid(n)
    ensures LeavesNoneBehind(join, n) <==> join.kind.JoinAll? || n == 1
  {
    if join.kind.JoinAll? || n == 1 {
      forall cs: seq<ChildOutcome> | |cs| == n && JoinedBy(join, cs)
        ensures forall i :: 0 <= i < n ==> cs[i].settled
      {
        AllSettled(cs);
      }
    } else {
      var early := join.kind.JoinQuorum? && join.quorum == n;
      var k := if join.kind.JoinQuorum? && !early then join.quorum else 1;
      PartlyCounts(k, n, !early);
      assert JoinedBy(join, Partly(k, n, !early));
      assert !Partly(k, n, !early)[n - 1].settled;
    }
  }

  // ----- the policy as history records it -----

  function SkipSpaces(s: string): string {
    if s != "" && s[0] == ' ' then SkipSpaces(s[1..]) else s
  }

  /** How many leading digits. */
  function DigitRun(s: string): (n: nat)
    ensures n <= |s|
    ensures forall i :: 0 <= i < n ==> IsDigit(s[i])
    ensures n < |s| ==> !IsDigit(s[n])
  {
    if s == "" || !IsDigit(s[0]) then 0 else 1 + DigitRun(s[1..])
  }

  const QUORUM_OPEN := "QUORUM("

  /** Sscanf(s, "QUORUM(%d)"): what follows the closing bracket is ignored. */
  function ScanQuorum(s: string): Option<int> {
    if !(QUORUM_OPEN <= s) then None
    else
      var rest := SkipSpaces(s[|QUORUM_OPEN|..]);
      var sign := if rest != "" && (rest[0] == '-' || rest[0] == '+') then 1 else 0;
      var n := sign + DigitRun(rest[sign..]);
      if n < |rest| && rest[n] == ')' then Atoi(rest[..n]) else None
  }

  function JoinFrom(s: string): JoinPolicy {
    if s == "ALL" then JoinPolicy(JoinAll, 0)
    else if s == "ANY" then JoinPolicy(JoinAny, 0)
    else
      match ScanQuorum(s)
      case Some(n) => if n > 0 then JoinPolicy(JoinQuorum, n) else JoinPolicy(JoinUnknown(""), 0)
      case None => JoinPolicy(JoinUnknown(""), 0)
  }
}
