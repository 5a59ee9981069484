/** The retry curve (RetryPolicy.Backoff in internal/core/tool.go), over the
    reals: the rounding and overflow of durations are not modelled. */
module Retries {

  datatype RetryPolicy = RetryPolicy(initial: real, maxBackoff: real, multiplier: real, jitter: real) {
    /** A multiplier below one is read as one. */
    function Growth(): real {
      if multiplier < 1.0 then 1.0 else multiplier
    }
    function Clamped(): real {
      if jitter <= 0.0 then 0.0 else if jitter > 1.0 then 1.0 else jitter
    }
  }

  function Power(b: real, n: nat): real {
    if n == 0 then 1.0 else b * Power(b, n - 1)
  }

  function Capped(p: RetryPolicy, delay: real): real {
    if p.maxBackoff > 0.0 && delay > p.maxBackoff then p.maxBackoff else delay
  }

  /** The curve without jitter: the initial delay grown attempt by attempt, and
      never more than the cap, if there is one. */
  function Curve(p: RetryPolicy, attempt: int): real {
    if p.initial <= 0.0 || attempt < 1 then 0.0
    else Capped(p, p.initial * Power(p.Growth(), attempt - 1))
  }

  lemma GrownMore(x: real, b: real)
    requires x > 0.0 && b >= 1.0
    ensures x * b >= x
  {
  }

  lemma PowerStep(x: real, b: real, n: nat)
    ensures x * Power(b, n + 1) == x * Power(b, n) * b
  {
    assert Power(b, n + 1) == b * Power(b, n);
  }

  lemma {:induction false} PowerGrows(x: real, b: real, m: nat, n: nat)
    requires x > 0.0 && b >= 1.0 && m <= n
    ensures 0.0 < x * Power(b, m) <= x * Power(b, n)
    decreases n
  {
    if n > 0 {
      if m < n {
        PowerGrows(x, b, m, n - 1);
      } else {
        PowerGrows(x, b, n - 1, n - 1);
      }
      PowerStep(x, b, n - 1);
      GrownMore(x * Power(b, n - 1), b);
    }
  }

  /** draw is what the random source returns. */
  method Backoff(p: RetryPolicy, attempt: int, draw: real) returns (wait: real)
    requires 0.0 <= draw <= 1.0
    ensures Curve(p, attempt) * (1.0 - p.Clamped()) <= wait <= Curve(p, attempt)
    ensures p.Clamped() == 0.0 ==> wait == Curve(p, attempt)
  {
    hide Power;
    if p.initial <= 0.0 || attempt < 1 { return 0.0; }
    var mult := p.multiplier;
    if mult < 1.0 { mult := 1.0; }
    var delay := p.initial;
    assert delay == p.initial * Power(mult, 0) by { PowerZero(mult); }
    var i := 1;
    while i < attempt
      invariant 1 <= i <= attempt
      invariant delay == p.initial * Power(mult, i - 1)
    {
      PowerStep(p.initial, mult, i - 1);
      delay := delay * mult;
      if p.maxBackoff > 0.0 && delay >= p.maxBackoff {
        PowerGrows(p.initial, mult, i, attempt - 1);
        delay := p.maxBackoff;
        break;
      }
      i := i + 1;
    }
    if p.maxBackoff > 0.0 && delay > p.maxBackoff {
      delay := p.maxBackoff;
    }
    assert delay == Curve(p, attempt);
    CurveIsPositive(p, attempt);
    wait := Jittered(p, delay, draw);
  }

  /** Randomize away up to the jitter, keeping the rest as a floor. */
  method Jittered(p: RetryPolicy, delay: real, draw: real) returns (wait: real)
    requires delay > 0.0 && 0.0 <= draw <= 1.0
    ensures delay * (1.0 - p.Clamped()) <= wait <= delay
    ensures p.Clamped() == 0.0 ==> wait == delay
  {
    var jitter := p.jitter;
    if jitter <= 0.0 { return delay; }
    if jitter > 1.0 { jitter := 1.0; }
    assert jitter == p.Clamped();
    Between(delay, p.Clamped(), draw);
    var floor := delay * (1.0 - jitter);
    var spread := delay * jitter;
    wait := floor + draw * spread;
    assert floor == delay * (1.0 - p.Clamped()) && spread == delay * p.Clamped();
    assert wait == delay * (1.0 - p.Clamped()) + draw * (delay * p.Clamped());
  }

  lemma PowerZero(b: real)
    ensures Power(b, 0) == 1.0
  {
  }

  lemma CurveIsPositive(p: RetryPolicy, attempt: int)
    requires p.initial > 0.0 && attempt >= 1
    ensures Curve(p, attempt) > 0.0
  {
    hide Power;
    PowerGrows(p.initial, p.Growth(), attempt - 1, attempt - 1);
    CappedIsMonotone(p, p.initial * Power(p.Growth(), attempt - 1), p.initial * Power(p.Growth(), attempt - 1));
  }

  lemma Share(whole: real, part: real)
    requires whole >= 0.0 && 0.0 <= part <= 1.0
    ensures 0.0 <= part * whole <= whole
  {
  }

  lemma Between(delay: real, jitter: real, draw: real)
    requires delay > 0.0 && 0.0 <= jitter <= 1.0 && 0.0 <= draw <= 1.0
    ensures delay * (1.0 - jitter) <= delay * (1.0 - jitter) + draw * (delay * jitter) <= delay
  {
    var spread := delay * jitter;
    Share(delay, jitter);
    assert jitter * delay == spread;
    Share(spread, draw);
    assert delay * (1.0 - jitter) + spread == delay;
  }

  lemma CappedIsMonotone(p: RetryPolicy, x: real, y: real)
    requires 0.0 < x <= y
    ensures 0.0 < Capped(p, x) <= Capped(p, y)
    ensures p.maxBackoff > 0.0 ==> Capped(p, y) <= p.maxBackoff
  {
  }

  /** The curve never falls from one attempt to a later one, nor exceeds the cap. */
  lemma CurveIsMonotone(p: RetryPolicy, k: int, m: int)
    requires k <= m
    ensures Curve(p, k) <= Curve(p, m)
    ensures p.maxBackoff > 0.0 ==> Curve(p, m) <= p.maxBackoff
  {
    hide Power;
    if p.initial > 0.0 && k >= 1 {
      PowerGrows(p.initial, p.Growth(), k - 1, m - 1);
      CappedIsMonotone(p, p.initial * Power(p.Growth(), k - 1), p.initial * Power(p.Growth(), m - 1));
    } else if p.initial > 0.0 && m >= 1 {
      CurveIsPositive(p, m);
    }
  }
}
