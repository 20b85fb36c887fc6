/**
 Backoff settings and the two curves they describe: the delay slept between
 attempts and the timeout handed to each attempt. Both start at an initial
 value, grow by a multiplier after each retryable failure and are capped by a
 maximum. Time is measured in whole milliseconds and every growth step rounds
 down, so the curves are exactly geometric only for whole-number multipliers.
 */
module Backoff {
  import opened Options

  type Pos = n: nat | n > 0 witness 1

  /** A growth factor `num / den`; scaling rounds down to whole milliseconds. */
  datatype Multiplier = Multiplier(num: nat, den: Pos)

  /** The four timeout fields, which are either all set or all unset. */
  datatype TimeoutSettings = TimeoutSettings(
    initialTimeout: nat,
    timeoutMult: Multiplier,
    maxTimeout: nat,
    totalTimeout: nat)

  /** `BackoffSettings(initial_retry_delay, retry_delay_multiplier, max_retry_delay,
      initial_rpc_timeout, rpc_timeout_multiplier, max_rpc_timeout, total_timeout)`. */
  datatype BackoffSettings = BackoffSettings(
    initialDelay: nat,
    delayMult: Multiplier,
    maxDelay: nat,
    timeouts: Option<TimeoutSettings>)

  function Min(a: nat, b: nat): nat
  {
    if a <= b then a else b
  }

  /** A multiplier that never shrinks what it scales. */
  predicate NonShrinking(m: Multiplier)
  {
    m.num >= m.den
  }

  /** `x` scaled by `m`, rounded down. */
  function Scale(x: nat, m: Multiplier): (r: nat)
    ensures r * m.den <= x * m.num < r * m.den + m.den
    ensures NonShrinking(m) ==> r >= x
    ensures m.num <= m.den ==> r <= x
  {
    ScaleBounds(x, m);
    ScaleFloor(x, m);
    x * m.num / m.den
  }

  /** `x * m.num / m.den` is the largest whole number whose multiple of `m.den`
      does not exceed `x * m.num`. */
  lemma ScaleFloor(x: nat, m: Multiplier)
    ensures (x * m.num / m.den) * m.den <= x * m.num < (x * m.num / m.den) * m.den + m.den
  {
    DivFloor(x * m.num, m.den);
  }

  lemma DivFloor(a: nat, d: Pos)
    ensures (a / d) * d <= a < (a / d) * d + d
  {
    assert (a / d) * d + a % d == a;
  }

  lemma ScaleBounds(x: nat, m: Multiplier)
    ensures m.num >= m.den ==> x * m.num / m.den >= x
    ensures m.num <= m.den ==> x * m.num / m.den <= x
  {
    MulDivCancel(x, m.den);
    if m.num >= m.den {
      MulMonotone(m.den, m.num, x);
      DivMonotone(x * m.den, x * m.num, m.den);
    } else {
      MulMonotone(m.num, m.den, x);
      DivMonotone(x * m.num, x * m.den, m.den);
    }
  }

  lemma MulMonotone(a: nat, b: nat, c: nat)
    ensures a <= b ==> c * a <= c * b && a * c <= b * c
  {
    if a <= b {
      assert c * b == c * a + c * (b - a);
    }
  }

  lemma MulDivCancel(x: nat, d: Pos)
    ensures x * d / d == x
  {
    var q, r := x * d / d, x * d % d;
    assert q * d + r == x * d;
    MulMonotone(q + 1, x, d);
    MulMonotone(x + 1, q, d);
  }

  lemma DivMonotone(a: nat, b: nat, d: Pos)
    requires a <= b
    ensures a / d <= b / d
  {
    var q, q2 := a / d, b / d;
    assert q * d + a % d == a;
    assert q2 * d + b % d == b;
    MulMonotone(q2 + 1, q, d);
  }

  /** One growth step of a curve: scale, then cap. */
  function Grow(x: nat, m: Multiplier, cap: nat): (r: nat)
    ensures r <= cap
    ensures r <= Scale(x, m)
    ensures r == cap || r == Scale(x, m)
  {
    Min(Scale(x, m), cap)
  }

  /** The `n`-th value of a curve (0-based): `initial` grown `n` times. */
  function CurveAt(initial: nat, m: Multiplier, cap: nat, n: nat): (c: nat)
    ensures 0 < n ==> c <= cap
    ensures c <= initial || c <= cap
  {
    if n == 0 then initial else Grow(CurveAt(initial, m, cap, n - 1), m, cap)
  }

  /** `k` to the power `n`. */
  function Pow(k: nat, n: nat): nat
  {
    if n == 0 then 1 else Pow(k, n - 1) * k
  }

  /** Capping before or after scaling by a whole number gives the same value. */
  lemma CapThenScale(a: nat, cap: nat, k: nat)
    ensures Min(Min(a, cap) * k, cap) == Min(a * k, cap)
  {
    if cap < a {
      MulMonotone(cap, a, k);
      if 0 < k {
        MulMonotone(1, k, cap);
      }
    }
  }

  /** With a whole-number multiplier `k` the curve is exactly geometric: after
      `n > 0` growth steps it is `initial * k^n`, capped. */
  lemma {:induction false} CurveClosedForm(initial: nat, k: nat, cap: nat, n: nat)
    ensures CurveAt(initial, Multiplier(k, 1), cap, n) ==
              if n == 0 then initial else Min(initial * Pow(k, n), cap)
  {
    if n > 0 {
      var c := CurveAt(initial, Multiplier(k, 1), cap, n - 1);
      ScaleWhole(c, k);
      if n > 1 {
        CurveClosedForm(initial, k, cap, n - 1);
        CapThenScale(initial * Pow(k, n - 1), cap, k);
        MulAssoc(initial, Pow(k, n - 1), k);
      }
    }
  }

  /** Scaling by a whole number is multiplication. */
  lemma ScaleWhole(x: nat, k: nat)
    ensures Scale(x, Multiplier(k, 1)) == x * k
  {
  }

  lemma MulAssoc(a: nat, b: nat, c: nat)
    ensures a * b * c == a * (b * c)
  {
  }

  /** With a fractional multiplier every growth step rounds down, so a small
      value can stay put: 3 ms grown by 13/10 is 3 ms again, at every step. */
  lemma {:induction false} FractionalCurveStalls(n: nat)
    ensures CurveAt(3, Multiplier(13, 10), 1000, n) == 3
  {
    if n > 0 {
      FractionalCurveStalls(n - 1);
    }
  }

  /** After the first growth step a curve never exceeds its cap; from an initial
      value within the cap, no value does. */
  lemma CurveCapped(initial: nat, m: Multiplier, cap: nat, n: nat)
    requires n > 0 || initial <= cap
    ensures CurveAt(initial, m, cap, n) <= cap
  {
  }

  /** With a non-shrinking multiplier and an initial value within the cap the
      curve never decreases, so every value is at least the initial one. */
  lemma {:induction false} CurveMonotone(initial: nat, m: Multiplier, cap: nat, n: nat)
    requires NonShrinking(m) && initial <= cap
    ensures initial <= CurveAt(initial, m, cap, n) <= CurveAt(initial, m, cap, n + 1)
  {
    if n > 0 {
      CurveMonotone(initial, m, cap, n - 1);
    }
    CurveCapped(initial, m, cap, n);
  }

  /** A curve that has reached its cap stays there. */
  lemma {:induction false} CurveStaysAtCap(initial: nat, m: Multiplier, cap: nat, n: nat, k: nat)
    requires NonShrinking(m) && CurveAt(initial, m, cap, n) == cap
    ensures CurveAt(initial, m, cap, n + k) == cap
  {
    if k > 0 {
      CurveStaysAtCap(initial, m, cap, n, k - 1);
    }
  }

  /** The `n`-th delay slept between attempts. */
  function DelayAt(b: BackoffSettings, n: nat): nat
  {
    CurveAt(b.initialDelay, b.delayMult, b.maxDelay, n)
  }

  /** The `n`-th per-attempt timeout, when timeout settings are present. */
  function TimeoutAt(t: TimeoutSettings, n: nat): nat
  {
    CurveAt(t.initialTimeout, t.timeoutMult, t.maxTimeout, n)
  }
}
