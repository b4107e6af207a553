/** The retry policy of a native step and the delay between its attempts, over the reals. */
module Backoff {
  datatype RetryPolicy = RetryPolicy(maxAttempts: int, initialDelay: real, multiplier: real, maxDelay: real)

  predicate ValidPolicy(p: RetryPolicy) {
    p.maxAttempts >= 1 && p.initialDelay >= 0.0 && p.multiplier >= 1.0 && p.maxDelay >= 0.0
  }

  const NO_RETRY := RetryPolicy(1, 0.0, 2.0, 60.0)

  function Pow(base: real, n: nat): real {
    if n == 0 then 1.0 else base * Pow(base, n - 1)
  }

  function Least(a: real, b: real): real {
    if a <= b then a else b
  }

  function DelayAfter(p: RetryPolicy, attempt: int): real
    requires attempt >= 1
  {
    if p.initialDelay == 0.0 then 0.0
    else Least(p.initialDelay * Pow(p.multiplier, attempt - 1), p.maxDelay)
  }

  lemma {:induction false} PowGrows(base: real, m: nat, n: nat)
    requires base >= 1.0 && m <= n
    ensures 1.0 <= Pow(base, m) <= Pow(base, n)
  {
    if m < n {
      PowGrows(base, m, n - 1);
      assert base * Pow(base, n - 1) >= 1.0 * Pow(base, n - 1);
    } else if n > 0 {
      PowGrows(base, n - 1, n - 1);
      assert base * Pow(base, n - 1) >= 1.0 * Pow(base, n - 1);
    }
  }

  /** The delay never falls as attempts go on, and stays between zero and the maximum. */
  lemma {:induction false} DelayGrows(p: RetryPolicy, a: int, b: int)
    requires ValidPolicy(p) && 1 <= a <= b
    ensures 0.0 <= DelayAfter(p, a) <= DelayAfter(p, b) <= p.maxDelay
  {
    PowGrows(p.multiplier, a - 1, b - 1);
    var x, y := Pow(p.multiplier, a - 1), Pow(p.multiplier, b - 1);
    assert p.initialDelay * x <= p.initialDelay * y;
    assert 0.0 <= p.initialDelay * x;
  }

  /** The delay before it is cut off at the maximum. */
  function FullDelay(p: RetryPolicy, attempt: int): real
    requires attempt >= 1
  {
    p.initialDelay * Pow(p.multiplier, attempt - 1)
  }

  lemma FullDelayIs(p: RetryPolicy, attempt: int)
    requires ValidPolicy(p) && attempt >= 1
    ensures FullDelay(p, attempt) >= 0.0 && FullDelay(p, 1) == p.initialDelay
    ensures FullDelay(p, attempt + 1) == FullDelay(p, attempt) * p.multiplier
    ensures p.initialDelay == 0.0 ==> FullDelay(p, attempt) == 0.0
  {
    var x := Pow(p.multiplier, attempt - 1);
    assert x >= 0.0 by { PowGrows(p.multiplier, attempt - 1, attempt - 1); }
    assert Pow(p.multiplier, attempt) == p.multiplier * x && Pow(p.multiplier, 0) == 1.0;
    hide Pow;
    Products(p.initialDelay, p.multiplier, x);
  }

  lemma Products(a: real, b: real, c: real)
    ensures a * (b * c) == a * c * b && a * 1.0 == a
    ensures a >= 0.0 && c >= 0.0 ==> a * c >= 0.0
    ensures a == 0.0 ==> a * c == 0.0
  {}

  /** The first delay is the initial one and each next one the one before times the multiplier, all cut
      off at the maximum. */
  lemma {:induction false} DelayMultiplies(p: RetryPolicy, attempt: int)
    requires ValidPolicy(p) && attempt >= 1
    ensures DelayAfter(p, 1) == (if p.initialDelay <= p.maxDelay then p.initialDelay else p.maxDelay)
    ensures var next := DelayAfter(p, attempt) * p.multiplier;
            DelayAfter(p, attempt + 1) == (if next <= p.maxDelay then next else p.maxDelay)
  {
    hide FullDelay, DelayAfter, Pow;
    FullDelayIs(p, 1);
    FullDelayIs(p, attempt);
    DelayIs(p, 1);
    DelayIs(p, attempt);
    DelayIs(p, attempt + 1);
    CutOffAgain(FullDelay(p, attempt), p.multiplier, p.maxDelay);
  }

  lemma DelayIs(p: RetryPolicy, attempt: int)
    requires ValidPolicy(p) && attempt >= 1
    ensures DelayAfter(p, attempt) == Least(FullDelay(p, attempt), p.maxDelay)
  {
    FullDelayIs(p, attempt);
    hide Pow;
  }

  lemma CutOffAgain(full: real, multiplier: real, most: real)
    requires full >= 0.0 && multiplier >= 1.0 && most >= 0.0
    ensures Least(full * multiplier, most) == Least(Least(full, most) * multiplier, most)
  {
    Stretches(full, multiplier);
    Stretches(most, multiplier);
  }

  lemma Stretches(x: real, multiplier: real)
    requires x >= 0.0 && multiplier >= 1.0
    ensures x * multiplier >= x
  {
    assert x * (multiplier - 1.0) >= 0.0;
  }

  /** n times x, added up. */
  function Times(n: nat, x: real): real {
    if n == 0 then 0.0 else Times(n - 1, x) + x
  }

  lemma {:induction false} TimesIsProduct(n: nat, x: real)
    ensures Times(n, x) == n as real * x
  {
    if n > 0 {
      TimesIsProduct(n - 1, x);
      Distribute((n - 1) as real, x);
    }
  }

  lemma Distribute(y: real, x: real)
    ensures (y + 1.0) * x == y * x + x
  {}

  lemma {:induction false} TimesGrows(m: nat, n: nat, x: real)
    requires m <= n && x >= 0.0
    ensures 0.0 <= Times(m, x) <= Times(n, x)
    decreases n
  {
    if m < n { TimesGrows(m, n - 1, x); } else if n > 0 { TimesGrows(n - 1, n - 1, x); }
  }

  /** All the delay before the attempt that follows `failures` failed ones. */
  function TotalBackoff(p: RetryPolicy, failures: nat): real {
    if failures == 0 then 0.0 else TotalBackoff(p, failures - 1) + DelayAfter(p, failures)
  }

  lemma {:induction false} TotalBackoffBound(p: RetryPolicy, failures: nat)
    requires ValidPolicy(p)
    ensures 0.0 <= TotalBackoff(p, failures) <= Times(failures, p.maxDelay)
  {
    hide DelayAfter, Pow;
    if failures > 0 {
      TotalBackoffBound(p, failures - 1);
      DelayGrows(p, failures, failures);
    }
  }

  // ----- sleeping in slices -----

  function Slice(remaining: real): real {
    Least(remaining, 0.1)
  }

  function Slices(delay: real): seq<real>
    decreases if delay <= 0.0 then 0 else (delay * 10.0).Floor + 1
  {
    if delay <= 0.0 then [] else [Slice(delay)] + Slices(delay - Slice(delay))
  }

  function Sum(s: seq<real>): real {
    if s == [] then 0.0 else s[0] + Sum(s[1..])
  }

  function Ceiling(x: real): int {
    -((-x).Floor)
  }

  /** A delay is slept in the fewest slices of at most a tenth of a second, and exactly. */
  lemma {:induction false} SlicesExact(delay: real)
    requires delay >= 0.0
    ensures Sum(Slices(delay)) == delay
    ensures |Slices(delay)| == Ceiling(delay / 0.1)
    ensures forall x :: x in Slices(delay) ==> 0.0 < x <= 0.1
    decreases if delay <= 0.0 then 0 else (delay * 10.0).Floor + 1
  {
    if delay > 0.0 {
      var rest := delay - Slice(delay);
      SlicesExact(rest);
      assert Slices(delay)[1..] == Slices(rest);
      assert delay / 0.1 == delay * 10.0 && rest / 0.1 == rest * 10.0;
      if delay > 0.1 {
        assert (-(delay * 10.0)).Floor == (-(rest * 10.0)).Floor - 1;
      } else {
        assert rest == 0.0 && (-(delay * 10.0)).Floor == -1;
      }
    }
  }

  lemma {:induction false} SlicesAt(delay: real, done: seq<real>, remaining: real)
    requires Slices(delay) == done + Slices(remaining) && remaining > 0.0
    ensures Slices(delay) == done + [Slice(remaining)] + Slices(remaining - Slice(remaining))
  {
    assert done + ([Slice(remaining)] + Slices(remaining - Slice(remaining)))
        == done + [Slice(remaining)] + Slices(remaining - Slice(remaining));
  }

  /** The delay loop: the control is asked before every slice and once after the last; the first
      answer that stops the run ends the sleep there.  `stops(k)` is the answer to question k. */
  method RetryDelay(delay: real, stops: nat -> bool) returns (slept: seq<real>, checks: nat, stopped: bool)
    ensures slept <= Slices(delay) && checks == |slept| + 1
    ensures forall k :: 0 <= k < |slept| ==> !stops(k)
    ensures stopped == stops(|slept|)
    ensures !stopped ==> slept == Slices(delay)
  {
    slept, checks, stopped := [], 0, false;
    var remaining := delay;
    while remaining > 0.0
      invariant Slices(delay) == slept + Slices(remaining)
      invariant checks == |slept| && forall k :: 0 <= k < |slept| ==> !stops(k)
      decreases if remaining <= 0.0 then 0 else (remaining * 10.0).Floor + 1
    {
      SlicesAt(delay, slept, remaining);
      checks := checks + 1;
      if stops(checks - 1) {
        return slept, checks, true;
      }
      var interval := Slice(remaining);
      slept := slept + [interval];
      remaining := remaining - interval;
    }
    checks := checks + 1;
    stopped := stops(checks - 1);
  }
}
