/**
 * The two arithmetic rules the board writers use everywhere: a coordinate in millimetres is
 * written as `int(v * 1e4)` (Python's `int` of a float truncates toward zero), and the grid
 * column count is `max(1, int(sqrt(n)))` for n components. Reals stand for the floats, so
 * the model is exact where the program rounds.
 */
module Units {

  /** Python's `int(v)` on a float: truncation toward zero. */
  function Trunc(v: real): int
  {
    if v >= 0.0 then v.Floor else -((-v).Floor)
  }

  /** Truncation drops the fraction: it moves toward zero by less than one. */
  lemma TruncBounds(v: real)
    ensures v >= 0.0 ==> 0 <= Trunc(v) && Trunc(v) as real <= v < Trunc(v) as real + 1.0
    ensures v < 0.0 ==> Trunc(v) <= 0 && Trunc(v) as real - 1.0 < v <= Trunc(v) as real
  {
    if v < 0.0 {
      assert (-v).Floor as real <= -v < (-v).Floor as real + 1.0;
    }
  }

  /** Coordinates are scaled by 10^4: one unit is a tenth of a micrometre. */
  const Scale: real := 10000.0

  /** The integer written for a coordinate of v millimetres. */
  function Encode(v: real): int
  {
    Trunc(v * Scale)
  }

  /** A coordinate that is an exact multiple of 10^-4 mm is written exactly (12.3456 as 123456). */
  lemma EncodeExact(k: int)
    ensures Encode(k as real / Scale) == k
  {
    assert (k as real / Scale) * Scale == k as real;
  }

  /** The written integer never moves away from zero and loses less than one unit. */
  lemma EncodeBounds(v: real)
    ensures v >= 0.0 ==> 0 <= Encode(v) && Encode(v) as real <= v * Scale < Encode(v) as real + 1.0
    ensures v < 0.0 ==> Encode(v) <= 0 && Encode(v) as real - 1.0 < v * Scale <= Encode(v) as real
  {
    TruncBounds(v * Scale);
  }

  /** Encoding preserves order. */
  lemma EncodeMonotone(a: real, b: real)
    requires a <= b
    ensures Encode(a) <= Encode(b)
  {
    assert a * Scale <= b * Scale;
    TruncBounds(a * Scale);
    TruncBounds(b * Scale);
  }

  /** Two coordinates at least 2 units (0.2 micrometre) apart stay strictly ordered when written. */
  lemma EncodeStrict(a: real, b: real)
    requires b * Scale - a * Scale >= 2.0
    ensures Encode(a) < Encode(b)
  {
    TruncBounds(a * Scale);
    TruncBounds(b * Scale);
  }

  /** The integer square root, the exact value of `int(np.sqrt(n))` in real arithmetic. */
  function ISqrt(n: nat): nat
  {
    if n == 0 then 0
    else if n < 4 then 1
    else
      var s := 2 * ISqrt(n / 4);
      if (s + 1) * (s + 1) <= n then s + 1 else s
  }

  /** ISqrt(n) is the largest r with r * r <= n. */
  lemma {:induction false} ISqrtSpec(n: nat)
    ensures ISqrt(n) * ISqrt(n) <= n < (ISqrt(n) + 1) * (ISqrt(n) + 1)
  {
    if n >= 4 {
      var t := ISqrt(n / 4);
      ISqrtSpec(n / 4);
      SqrtStep(n, t);
    }
  }

  /** Doubling the root of n / 4 brackets the root of n. */
  lemma SqrtStep(n: nat, t: nat)
    requires t * t <= n / 4 < (t + 1) * (t + 1)
    ensures (2 * t) * (2 * t) <= n < (2 * t + 2) * (2 * t + 2)
  {
    var m := n / 4;
    assert n == 4 * m + n % 4;
    assert (2 * t) * (2 * t) == 4 * (t * t);
    assert m + 1 <= (t + 1) * (t + 1);
    assert (2 * t + 2) * (2 * t + 2) == 4 * ((t + 1) * (t + 1));
  }

  /** The column count of the placement grid: `max(1, int(sqrt(n)))`. */
  function Cols(n: nat): (c: nat)
    ensures c >= 1
  {
    var r := ISqrt(n);
    if r < 1 then 1 else r
  }

  /** The grid has at least one column, and int(sqrt(n)) columns when there are components. */
  lemma ColsSpec(n: nat)
    ensures n >= 1 ==> Cols(n) * Cols(n) <= n < (Cols(n) + 1) * (Cols(n) + 1)
    ensures n == 0 ==> Cols(n) == 1
  {
    ISqrtSpec(n);
  }

  /** Pin pitch in millimetres (0.1 inch). */
  const Pitch: real := 2.54

  /** The x position of pin k of a `pins`-pin footprint centred at x: `x + (k - pins/2) * 2.54`. */
  function PinX(x: real, k: int, pins: int): real
  {
    x + (k as real - pins as real / 2.0) * Pitch
  }

  /** Consecutive pins are exactly one pitch apart and sit symmetrically about x. */
  lemma PinXLayout(x: real, k: int, pins: int)
    ensures PinX(x, k + 1, pins) - PinX(x, k, pins) == Pitch
    ensures PinX(x, k, pins) - x == -(PinX(x, pins - k, pins) - x)
  {
  }
}
