/** Shared numeric helpers: JavaScript's Math.max/Math.min clamping and
    Math.round on Dafny's unbounded reals, plus Option and Result. */
module Num {

  datatype Option<T> = None | Some(value: T)

  datatype Result<T, E> = Ok(value: T) | Err(error: E)

  function Abs(x: real): (r: real)
    ensures r >= 0.0
    ensures r == x || r == -x
  {
    if x < 0.0 then -x else x
  }

  function MaxR(a: real, b: real): (r: real)
    ensures r >= a && r >= b
    ensures r == a || r == b
  {
    if a >= b then a else b
  }

  function MinR(a: real, b: real): (r: real)
    ensures r <= a && r <= b
    ensures r == a || r == b
  {
    if a <= b then a else b
  }

  /** `Math.max(lo, Math.min(hi, x))`, the clamp idiom used throughout the source. */
  function Clamp(x: real, lo: real, hi: real): (r: real)
    ensures lo <= hi ==> lo <= r <= hi
    ensures lo <= x <= hi ==> r == x
    ensures x <= lo <= hi ==> r == lo
    ensures lo <= hi <= x ==> r == hi
  {
    MaxR(lo, MinR(hi, x))
  }

  /** `Math.max(0, Math.min(1, n))`. */
  function Clamp01(x: real): (r: real)
    ensures 0.0 <= r <= 1.0
    ensures 0.0 <= x <= 1.0 ==> r == x
  {
    Clamp(x, 0.0, 1.0)
  }

  /** JavaScript's `Math.round`: the nearest integer, halves rounded up. */
  function Round(x: real): (r: int)
    ensures r as real - 0.5 <= x < r as real + 0.5
  {
    (x + 0.5).Floor
  }

  lemma RoundOfInt(k: int)
    ensures Round(k as real) == k
  {
  }

  lemma RoundMonotone(x: real, y: real)
    requires x <= y
    ensures Round(x) <= Round(y)
  {
  }

  /** A product of two variable reals, kept behind a name so that equal
      arguments give equal products by congruence. */
  function Mul(a: real, b: real): real {
    a * b
  }

  /** A quotient of two reals, kept behind a name for the same reason. */
  function Div(a: real, b: real): real
    requires b != 0.0
  {
    a / b
  }

  /** A non-zero quantity over itself is 1. */
  lemma DivSelf(x: real)
    requires x != 0.0
    ensures Div(x, x) == 1.0
  {
    assert 1.0 * x == x;
  }

  /** n times the mean s / n gives back the total s. */
  lemma MulMean(n: real, s: real)
    requires n != 0.0
    ensures Mul(n, s / n) == s
  {
  }

  /** One step of a one-pole filter from p toward t by the factor k. */
  function Lerp(p: real, t: real, k: real): real {
    p + (t - p) * k
  }

  /** Clamping preserves order. */
  lemma ClampMonotone(x: real, y: real, lo: real, hi: real)
    requires x <= y
    ensures Clamp(x, lo, hi) <= Clamp(y, lo, hi)
  {
  }

  /** Scaling by a non-negative factor preserves order. */
  lemma MulMonotone(a: real, b: real, k: real)
    requires a <= b && k >= 0.0
    ensures Mul(a, k) <= Mul(b, k)
  {
    MulNonneg(b - a, k);
    assert (b - a) * k == b * k - a * k;
  }

  /** A product with a non-zero factor determines the other factor. */
  lemma MulCancel(e: real, a: real, b: real)
    requires e != 0.0 && a != b
    ensures Mul(e, a) != Mul(e, b)
  {
    assert e * a - e * b == e * (a - b);
    assert e * (a - b) != 0.0;
  }

  lemma MulNonneg(x: real, y: real)
    requires x >= 0.0 && y >= 0.0
    ensures x * y >= 0.0
  {
  }

  /** Scaling a non-negative value by a factor in [0, 1] keeps it between 0 and itself. */
  lemma MulAtMost(a: real, k: real)
    requires a >= 0.0 && 0.0 <= k <= 1.0
    ensures 0.0 <= a * k
    ensures a * k <= a
    ensures a > 0.0 && k < 1.0 ==> a * k < a
  {
    MulNonneg(a, k);
    MulNonneg(a, 1.0 - k);
    assert a * (1.0 - k) == a - a * k;
    if a > 0.0 && k < 1.0 {
      assert a * (1.0 - k) > 0.0;
    }
  }

  /** The square of a value in [-1, 1] lies in [0, 1]. */
  lemma SquareUnit(c: real)
    requires -1.0 <= c <= 1.0
    ensures 0.0 <= Mul(c, c) <= 1.0
  {
    if c >= 0.0 {
      MulAtMost(c, c);
    } else {
      MulAtMost(-c, -c);
      assert (-c) * (-c) == c * c;
    }
  }

  /** Scaling a non-positive value by a factor in [0, 1] keeps it between itself and 0. */
  lemma MulAtLeast(a: real, k: real)
    requires a <= 0.0 && 0.0 <= k <= 1.0
    ensures a * k <= 0.0
    ensures a <= a * k
    ensures a < 0.0 && k < 1.0 ==> a < a * k
  {
    MulAtMost(-a, k);
    assert (-a) * k == -(a * k);
  }

  lemma StepUp(p: real, t: real, k: real)
    requires 0.0 <= k <= 1.0 && p <= t
    ensures p <= Lerp(p, t, k) <= t
  {
    var x := (t - p) * k;
    MulAtMost(t - p, k);
    assert 0.0 <= x;
    assert x <= t - p;
    assert Lerp(p, t, k) == p + x;
  }

  lemma StepDown(p: real, t: real, k: real)
    requires 0.0 <= k <= 1.0 && t < p
    ensures t <= Lerp(p, t, k) <= p
  {
    var d := p - t;
    var y := d * k;
    MulAtMost(d, k);
    assert 0.0 <= y <= d;
    assert (t - p) * k == -y;
    assert Lerp(p, t, k) == p - y;
  }

  /** A step of a one-pole filter with k in [0, 1] lands
      between p and t and no further from t than p was. */
  lemma StepToward(p: real, t: real, k: real)
    requires 0.0 <= k <= 1.0
    ensures MinR(p, t) <= Lerp(p, t, k) <= MaxR(p, t)
    ensures Abs(Lerp(p, t, k) - t) <= Abs(p - t)
  {
    if p <= t {
      StepUp(p, t, k);
    } else {
      StepDown(p, t, k);
    }
  }

  lemma AbsScaleNonneg(f: real, k: real)
    requires 0.0 < k <= 1.0 && f >= 0.0
    ensures Abs(f * k) <= Abs(f)
    ensures k < 1.0 && f != 0.0 ==> Abs(f * k) < Abs(f)
  {
    MulAtMost(f, k);
  }

  lemma AbsScaleNeg(f: real, k: real)
    requires 0.0 < k <= 1.0 && f < 0.0
    ensures Abs(f * k) <= Abs(f)
    ensures k < 1.0 ==> Abs(f * k) < Abs(f)
  {
    MulAtLeast(f, k);
  }

  /** Scaling by a factor in (0, 1] never grows a magnitude, and strictly
      shrinks a non-zero one when the factor is under 1. */
  lemma AbsScale(f: real, k: real)
    requires 0.0 < k <= 1.0
    ensures Abs(Mul(f, k)) <= Abs(f)
    ensures k < 1.0 && f != 0.0 ==> Abs(Mul(f, k)) < Abs(f)
  {
    if f >= 0.0 {
      AbsScaleNonneg(f, k);
    } else {
      AbsScaleNeg(f, k);
    }
  }

  /** k blocks of width s, k·s, written as a sum so that proofs about
      block boundaries stay linear. */
  function Span(k: nat, s: nat): nat {
    if k == 0 then 0 else Span(k - 1, s) + s
  }

  lemma {:induction false} SpanIsMul(k: nat, s: nat)
    ensures Span(k, s) == k * s
  {
    if k > 0 {
      SpanIsMul(k - 1, s);
      assert (k - 1) * s + s == k * s;
    }
  }

  lemma {:induction false} SpanMono(a: nat, b: nat, s: nat)
    requires a <= b
    ensures Span(a, s) <= Span(b, s)
    decreases b
  {
    if a < b {
      SpanMono(a, b - 1, s);
    }
  }

  /** Division with remainder, in terms of Span. */
  lemma DivMod(n: nat, s: nat)
    requires s >= 1
    ensures n == Span(n / s, s) + n % s && 0 <= n % s < s
  {
    SpanIsMul(n / s, s);
  }

  /** A number of blocks that fits in n is at most n / s. */
  lemma DivAtLeast(q: nat, s: nat, n: nat)
    requires s >= 1 && Span(q, s) <= n
    ensures q <= n / s
  {
    DivMod(n, s);
    if n / s < q {
      SpanMono(n / s + 1, q, s);
      assert false;
    }
  }
}
