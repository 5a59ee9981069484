/** Logical positions and the keys derived from them (internal/core/ids.go and
    the key constructor of internal/core/effect.go), at the level of characters:
    a step's name is what history, the ledger and every worker agree on, so the
    formats and the parsers have to be exact inverses. */
module Names {
  import opened Prelude

  type RunId = string
  type TaskId = string
  type StepId = string
  type Key = string

  // ----- decimal numerals: fmt's %d and strconv.Atoi -----

  // Go's int is 64 bits wide; Atoi reports a range error outside it.
  const MAX_INT: int := 0x7FFF_FFFF_FFFF_FFFF
  const MIN_INT: int := -0x8000_0000_0000_0000

  function DigitChar(d: nat): char
    requires d < 10
  {
    "0123456789"[d]
  }

  predicate IsDigit(c: char) {
    '0' <= c <= '9'
  }

  function DigitValue(c: char): nat
    requires IsDigit(c)
  {
    c as int - '0' as int
  }

  function Decimal(n: nat): string {
    if n < 10 then [DigitChar(n)] else Decimal(n / 10) + [DigitChar(n % 10)]
  }

  predicate AllDigits(s: string) {
    forall i :: 0 <= i < |s| ==> IsDigit(s[i])
  }

  function Value(s: string): nat
    requires AllDigits(s)
  {
    if s == "" then 0 else 10 * Value(s[..|s| - 1]) + DigitValue(s[|s| - 1])
  }

  /** An optional sign, then at least one digit, within the width of an int. */
  function Atoi(s: string): Option<int> {
    var signed := s != "" && (s[0] == '-' || s[0] == '+');
    var digits := if signed then s[1..] else s;
    if digits == "" || !AllDigits(digits) then None
    else
      var v: int := if signed && s[0] == '-' then 0 - Value(digits) else Value(digits);
      if MIN_INT <= v <= MAX_INT then Some(v) else None
  }

  lemma {:induction false} DecimalReads(n: nat)
    ensures Decimal(n) != "" && AllDigits(Decimal(n)) && Value(Decimal(n)) == n
  {
    if n >= 10 {
      DecimalReads(n / 10);
      assert Decimal(n)[..|Decimal(n)| - 1] == Decimal(n / 10);
    } else {
      assert Decimal(n)[..0] == "";
    }
  }

  lemma AtoiInvertsDecimal(n: nat)
    requires n <= MAX_INT
    ensures Atoi(Decimal(n)) == Some(n)
  {
    DecimalReads(n);
    assert IsDigit(Decimal(n)[0]);
  }

  lemma DecimalInjective(m: nat, n: nat)
    requires Decimal(m) == Decimal(n)
    ensures m == n
  {
    DecimalReads(m);
    DecimalReads(n);
  }

  // ----- steps and their children -----

  function Step(n: nat): StepId {
    "S" + Decimal(n)
  }

  function Child(s: StepId, n: nat): StepId {
    s + "." + Decimal(n)
  }

  /** The position of the last occurrence of c, or -1. */
  function LastIndex(s: string, c: char): (i: int)
    ensures -1 <= i < |s|
    ensures i >= 0 ==> s[i] == c
    ensures forall k :: i < k < |s| ==> s[k] != c
  {
    if s == "" then -1
    else if s[|s| - 1] == c then |s| - 1
    else LastIndex(s[..|s| - 1], c)
  }

  lemma LastIndexIs(s: string, c: char, p: nat)
    requires p < |s| && s[p] == c
    requires forall i :: p < i < |s| ==> s[i] != c
    ensures LastIndex(s, c) == p
  {
    hide LastIndex;
    var i := LastIndex(s, c);
    assert !(i < p < |s|);
  }

  function Parent(s: StepId): Option<StepId> {
    var i := LastIndex(s, '.');
    if i <= 0 || i == |s| - 1 then None
    else if Atoi(s[i + 1..]) == None then None
    else Some(s[..i])
  }

  function ChildIndex(s: StepId): int {
    var i := LastIndex(s, '.');
    if Parent(s) == None then -1
    else
      match Atoi(s[i + 1..])
      case Some(n) => n
      case None => -1
  }

  /** StepIDs of a fan-out of n calls: the loop of ids.go. */
  method Children(s: StepId, n: nat) returns (out: seq<StepId>)
    ensures |out| == n
    ensures forall i :: 0 <= i < n ==> out[i] == Child(s, i)
    ensures forall i, j :: 0 <= i < j < n ==> out[i] != out[j]
  {
    out := [];
    for k := 0 to n
      invariant |out| == k
      invariant forall i :: 0 <= i < k ==> out[i] == Child(s, i)
    {
      out := out + [Child(s, k)];
    }
    forall i, j | 0 <= i < j < n
      ensures out[i] != out[j]
    {
      if out[i] == out[j] { ChildInjective(s, i, s, j); }
    }
  }

  lemma DotOfChild(s: StepId, n: nat)
    ensures LastIndex(Child(s, n), '.') == |s|
    ensures Child(s, n)[|s| + 1..] == Decimal(n)
    ensures Child(s, n)[..|s|] == s
  {
    DecimalReads(n);
    var c := Child(s, n);
    forall k | |s| < k < |c|
      ensures c[k] != '.'
    {
      assert c[k] == Decimal(n)[k - |s| - 1];
    }
    LastIndexIs(c, '.', |s|);
  }

  /** Parent and ChildIndex invert Child for every index an int can hold. The
      one step they do not invert is the empty one: its children are not
      recognised as children at all. */
  lemma ParentInvertsChild(s: StepId, n: nat)
    requires n <= MAX_INT
    ensures Parent(Child(s, n)) == (if s == "" then None else Some(s))
    ensures ChildIndex(Child(s, n)) == (if s == "" then -1 else n)
  {
    DotOfChild(s, n);
    AtoiInvertsDecimal(n);
    DecimalReads(n);
  }

  lemma ChildInjective(s: StepId, m: nat, t: StepId, n: nat)
    requires Child(s, m) == Child(t, n)
    ensures s == t && m == n
  {
    DotOfChild(s, m);
    DotOfChild(t, n);
    DecimalInjective(m, n);
  }

  lemma StepIsTopLevel(n: nat)
    ensures Parent(Step(n)) == None
    ensures Lacks(Step(n), ':') && Lacks(Step(n), '.')
  {
    DecimalReads(n);
    forall k | 0 <= k < |Step(n)|
      ensures Step(n)[k] != '.' && Step(n)[k] != ':'
    {
      if k > 0 { assert IsDigit(Decimal(n)[k - 1]); }
    }
  }

  lemma StepInjective(m: nat, n: nat)
    requires Step(m) == Step(n)
    ensures m == n
  {
    assert Step(m)[1..] == Decimal(m) && Step(n)[1..] == Decimal(n);
    DecimalInjective(m, n);
  }

  /** A top-level step and a child of a top-level step never share a name. */
  lemma StepIsNoChild(m: nat, s: StepId, n: nat)
    ensures Step(m) != Child(s, n)
  {
    StepIsTopLevel(m);
    assert Child(s, n)[|s|] == '.';
  }

  // ----- idempotency keys -----

  /** run:step:E<seq>. A task performs one external action, so the sequence
      number the executor passes is always FIRST_EFFECT. */
  function NewKey(run: RunId, step: StepId, seqNo: nat): Key {
    run + ":" + step + ":E" + Decimal(seqNo)
  }

  const FIRST_EFFECT: nat := 1

  predicate Lacks(s: string, c: char) {
    forall i :: 0 <= i < |s| ==> s[i] != c
  }

  // Reading a key back from its right end, one colon at a time.
  lemma AfterTheJoin(before: string, after: string, i: nat)
    requires |before| < i <= |before| + |after|
    ensures (before + ":" + after)[i] == after[i - |before| - 1]
  {
  }

  lemma LastColon(before: string, after: string)
    requires Lacks(after, ':')
    ensures LastIndex(before + ":" + after, ':') == |before|
  {
    hide LastIndex;
    var k := before + ":" + after;
    forall i | |before| < i < |k|
      ensures k[i] != ':'
    {
      AfterTheJoin(before, after, i);
    }
    LastIndexIs(k, ':', |before|);
  }

  lemma SplitAtLastColon(b1: string, a1: string, b2: string, a2: string)
    requires Lacks(a1, ':') && Lacks(a2, ':')
    requires b1 + ":" + a1 == b2 + ":" + a2
    ensures b1 == b2 && a1 == a2
  {
    hide LastIndex;
    LastColon(b1, a1);
    LastColon(b2, a2);
    var k := b1 + ":" + a1;
    assert k[..|b1|] == b1 && k[..|b2|] == b2;
    assert k[|b1| + 1..] == a1 && k[|b2| + 1..] == a2;
  }

  lemma NoColonInSeq(n: nat)
    ensures Lacks("E" + Decimal(n), ':')
  {
    DecimalReads(n);
  }

  /** Two actions share a key only when they are the same action. Steps are
      free of colons; run identifiers may be anything. */
  lemma KeyInjective(r1: RunId, s1: StepId, n1: nat, r2: RunId, s2: StepId, n2: nat)
    requires Lacks(s1, ':') && Lacks(s2, ':')
    requires NewKey(r1, s1, n1) == NewKey(r2, s2, n2)
    ensures r1 == r2 && s1 == s2 && n1 == n2
  {
    hide Decimal;
    NoColonInSeq(n1);
    NoColonInSeq(n2);
    var e1, e2 := "E" + Decimal(n1), "E" + Decimal(n2);
    assert NewKey(r1, s1, n1) == (r1 + ":" + s1) + ":" + e1;
    assert NewKey(r2, s2, n2) == (r2 + ":" + s2) + ":" + e2;
    SplitAtLastColon(r1 + ":" + s1, e1, r2 + ":" + s2, e2);
    SplitAtLastColon(r1, s1, r2, s2);
    assert e1[1..] == Decimal(n1) && e2[1..] == Decimal(n2);
    DecimalInjective(n1, n2);
  }

  /** Without the restriction on steps keys do collide. */
  lemma KeyCollision()
    ensures NewKey("a", "b:c", 1) == NewKey("a:b", "c", 1)
  {
    assert "a" + ":" + "b:c" == "a:b" + ":" + "c";
  }
}
