/**
 * The interpolation and easing helpers shared by the three breathing
 * exercises (utils.js): linear interpolation of numbers and of RGB colours,
 * sampling of a multi-stop colour ramp at a progress value, and the cubic
 * easing curves.
 *
 * JavaScript numbers are modelled as exact reals, `Math.round(x)` as
 * `(x + 0.5).Floor`, and `Math.pow(x, 3)` as `Pow(x, 3)` over a natural
 * exponent.
 */
module Utils {
  import opened Wrappers

  /** A colour object `{r, g, b}` as the ramps of the exercises write it. */
  datatype Rgb = Rgb(r: int, g: int, b: int)

  predicate IsByte(x: int) { 0 <= x <= 255 }

  /** Every channel is a byte: the colour can be written as CSS `rgb(...)`. */
  predicate ValidRgb(c: Rgb) { IsByte(c.r) && IsByte(c.g) && IsByte(c.b) }

  /** Every stop of a ramp is a valid colour. */
  predicate AllValid(ramp: seq<Rgb>) {
    forall i | 0 <= i < |ramp| :: ValidRgb(ramp[i])
  }

  // The fact about products that every bound below rests on. It is stated
  // over plain variables so that the solver never has to reason about a
  // product of sums.

  lemma MulNonneg(x: real, y: real)
    requires 0.0 <= x && 0.0 <= y
    ensures 0.0 <= x * y
  {
  }

  // ---------------------------------------------------------------------
  // Interpolation
  // ---------------------------------------------------------------------

  /** `lerp(a, b, t)`: the point a fraction `t` of the way from `a` to `b`. */
  function Lerp(a: real, b: real, t: real): (r: real)
    ensures t == 0.0 ==> r == a
    ensures t == 1.0 ==> r == b
  {
    a + (b - a) * t
  }

  /** For a weight in [0, 1], `Lerp` never leaves the segment between the two ends. */
  lemma LerpBetween(a: real, b: real, t: real)
    ensures 0.0 <= t <= 1.0 && a <= b ==> a <= Lerp(a, b, t)
    ensures 0.0 <= t <= 1.0 && a <= b ==> Lerp(a, b, t) <= b
    ensures 0.0 <= t <= 1.0 && b <= a ==> b <= Lerp(a, b, t)
    ensures 0.0 <= t <= 1.0 && b <= a ==> Lerp(a, b, t) <= a
  {
    if 0.0 <= t <= 1.0 {
      if a <= b {
        MulNonneg(b - a, t);
        MulNonneg(b - a, 1.0 - t);
      } else {
        MulNonneg(a - b, t);
        MulNonneg(a - b, 1.0 - t);
      }
    }
  }

  /** The documented examples of `lerp`. */
  lemma LerpExamples()
    ensures Lerp(0.0, 100.0, 0.5) == 50.0
    ensures Lerp(0.0, 100.0, 0.25) == 25.0
    ensures Lerp(10.0, 20.0, 1.0) == 20.0
  {
  }

  /**
   * `Math.round`: the nearest integer, halves rounded towards +infinity.
   * The result is the one integer in the half-open window (x - 1/2, x + 1/2].
   */
  function Round(x: real): (n: int)
    ensures RoundsTo(x, n)
  {
    (x + 0.5).Floor
  }

  /** `n` is within one half of `x`: above `x - 1/2`, at most `x + 1/2`. */
  predicate RoundsTo(x: real, n: int) {
    x - 0.5 < n as real && n as real <= x + 0.5
  }

  /** An integer is its own rounding. */
  lemma RoundInt(k: int)
    ensures Round(k as real) == k
  {
  }

  /** `x` lies between `a` and `b`, whichever of them is larger. */
  predicate Between(x: int, a: int, b: int) {
    (a <= b ==> a <= x && x <= b) && (b <= a ==> b <= x && x <= a)
  }

  /** Every channel of `c` lies between the same channels of `c1` and `c2`. */
  predicate RgbBetween(c: Rgb, c1: Rgb, c2: Rgb) {
    Between(c.r, c1.r, c2.r) && Between(c.g, c1.g, c2.g) && Between(c.b, c1.b, c2.b)
  }

  /**
   * `lerpColor`: `lerp` on each channel, each rounded to an integer. Each
   * channel is the exact interpolation to within one half, and for a weight
   * in [0, 1] it lies between the channels of the two colours.
   */
  function LerpColor(c1: Rgb, c2: Rgb, t: real): (c: Rgb)
    ensures t == 0.0 ==> c == c1
    ensures t == 1.0 ==> c == c2
    ensures RoundsTo(Lerp(c1.r as real, c2.r as real, t), c.r)
    ensures RoundsTo(Lerp(c1.g as real, c2.g as real, t), c.g)
    ensures RoundsTo(Lerp(c1.b as real, c2.b as real, t), c.b)
    ensures 0.0 <= t <= 1.0 ==> RgbBetween(c, c1, c2)
    ensures ValidRgb(c1) && ValidRgb(c2) && 0.0 <= t <= 1.0 ==> ValidRgb(c)
  {
    LerpBetween(c1.r as real, c2.r as real, t);
    LerpBetween(c1.g as real, c2.g as real, t);
    LerpBetween(c1.b as real, c2.b as real, t);
    Rgb(Round(Lerp(c1.r as real, c2.r as real, t)),
        Round(Lerp(c1.g as real, c2.g as real, t)),
        Round(Lerp(c1.b as real, c2.b as real, t)))
  }

  /** Interpolating a colour with itself gives that colour, whatever the weight. */
  lemma LerpColorSame(c: Rgb, t: real)
    ensures LerpColor(c, c, t) == c
  {
    RoundInt(c.r);
    RoundInt(c.g);
    RoundInt(c.b);
  }

  /** The documented example: half way from red to blue, 127.5 rounds up to 128. */
  lemma LerpColorExample()
    ensures LerpColor(Rgb(255, 0, 0), Rgb(0, 0, 255), 0.5) == Rgb(128, 0, 128)
  {
  }

  // ---------------------------------------------------------------------
  // Sampling a colour ramp
  // ---------------------------------------------------------------------

  /**
   * Where a progress value falls in an array of `n` stops: the stop below
   * (`lo`), the stop above (`hi`, clamped to the last stop) and the weight
   * of the upper stop.
   */
  datatype Position = Position(lo: int, hi: int, weight: real)

  function Locate(n: nat, progress: real): (p: Position)
    ensures 0.0 <= p.weight
    ensures p.weight < 1.0
    ensures 0 <= p.lo < n ==> p.lo <= p.hi
    ensures 0 <= p.lo < n ==> p.hi < n
    ensures 0 <= p.lo < n ==> p.hi <= p.lo + 1
    ensures 0 <= p.lo < n <==> 0.0 <= progress * (n - 1) as real < n as real
  {
    var idx := progress * (n - 1) as real;
    var lo := idx.Floor;
    Position(lo, if lo + 1 <= n - 1 then lo + 1 else n - 1, idx - lo as real)
  }

  /** A progress in [0, 1] always lands on a stop of a non-empty array. */
  lemma LocateInRange(n: nat, progress: real)
    requires n > 0 && 0.0 <= progress <= 1.0
    ensures 0 <= Locate(n, progress).lo < n
  {
    ScaleWithin(progress, (n - 1) as real);
    FloorWithin(progress * (n - 1) as real, n - 1);
  }

  /** The fractional index `lo + weight` is the progress scaled to the stops. */
  lemma LocateIndex(n: nat, progress: real)
    ensures Locate(n, progress).lo as real + Locate(n, progress).weight == progress * (n - 1) as real
  {
  }

  /**
   * `getColorFromArray`. JavaScript raises a TypeError when the lower stop
   * `arr[lo]` does not exist (an empty array, a negative progress, or a
   * progress that runs past the last stop); that case is `None`.
   */
  function ColorFromArray(arr: seq<Rgb>, progress: real): (r: Option<Rgb>)
    ensures r.Some? <==> |arr| > 0 && 0.0 <= progress * (|arr| - 1) as real < |arr| as real
    ensures r.Some? && AllValid(arr) ==> ValidRgb(r.value)
    ensures |arr| > 0 && progress == 0.0 ==> r == Some(arr[0])
    ensures |arr| > 0 && progress == 1.0 ==> r == Some(arr[|arr| - 1])
  {
    var p := Locate(|arr|, progress);
    if 0 <= p.lo < |arr| then
      var c := LerpColor(arr[p.lo], arr[p.hi], p.weight);
      assert p.lo == |arr| - 1 ==> c == arr[p.lo] by {
        if p.lo == |arr| - 1 { LerpColorSame(arr[p.lo], p.weight); }
      }
      Some(c)
    else
      None
  }

  /** Every progress in [0, 1] yields a colour from a non-empty array. */
  lemma ColorFromArrayDefined(arr: seq<Rgb>, progress: real)
    requires |arr| > 0 && 0.0 <= progress <= 1.0
    ensures ColorFromArray(arr, progress).Some?
  {
    LocateInRange(|arr|, progress);
  }

  /**
   * A sampled colour lies, channel by channel, between the two neighbouring
   * stops the progress falls between.
   */
  lemma ColorFromArrayBetween(arr: seq<Rgb>, progress: real)
    requires ColorFromArray(arr, progress).Some?
    ensures 0 <= Locate(|arr|, progress).lo <= Locate(|arr|, progress).hi < |arr|
    ensures RgbBetween(ColorFromArray(arr, progress).value,
                       arr[Locate(|arr|, progress).lo], arr[Locate(|arr|, progress).hi])
  {
  }

  lemma DivMul(x: real, y: real)
    requires y != 0.0
    ensures x / y * y == x
  {
  }

  /** Every entry of the array is an exact stop: progress k/(n-1) gives arr[k]. */
  lemma ColorFromArrayAtStop(arr: seq<Rgb>, k: int)
    requires |arr| >= 2 && 0 <= k < |arr|
    ensures ColorFromArray(arr, k as real / (|arr| - 1) as real) == Some(arr[k])
  {
    var n := |arr|;
    DivMul(k as real, (n - 1) as real);
    var p := Locate(n, k as real / (n - 1) as real);
    assert p.lo == k && p.weight == 0.0;
  }

  /** A whole number plus a fraction in [0, 1) has that whole number as integer part. */
  lemma FloorOf(k: int, w: real)
    requires 0.0 <= w < 1.0
    ensures (k as real + w).Floor == k
  {
  }

  /**
   * Between two stops the sample interpolates: a progress that falls a
   * fraction `w` of the way from stop `k` to stop `k + 1` gives `lerpColor`
   * of those two stops at weight `w`.
   */
  lemma ColorFromArraySegment(arr: seq<Rgb>, k: int, w: real)
    requires |arr| >= 2 && 0 <= k < |arr| - 1 && 0.0 <= w < 1.0
    ensures ColorFromArray(arr, (k as real + w) / (|arr| - 1) as real)
         == Some(LerpColor(arr[k], arr[k + 1], w))
  {
    var n := |arr|;
    DivMul(k as real + w, (n - 1) as real);
    FloorOf(k, w);
    var p := Locate(n, (k as real + w) / (n - 1) as real);
    assert p.lo == k && p.hi == k + 1 && p.weight == w;
  }

  /**
   * The documented examples on red-yellow-green: a quarter of the way gives
   * orange (255, 128, 0) and three quarters of the way lime (128, 255, 0).
   */
  lemma ColorFromArrayExample()
    ensures ColorFromArray([Rgb(255, 0, 0), Rgb(255, 255, 0), Rgb(0, 255, 0)], 0.25)
         == Some(Rgb(255, 128, 0))
    ensures ColorFromArray([Rgb(255, 0, 0), Rgb(255, 255, 0), Rgb(0, 255, 0)], 0.75)
         == Some(Rgb(128, 255, 0))
  {
  }

  // ---------------------------------------------------------------------
  // Easing
  // ---------------------------------------------------------------------

  /** `Math.pow(x, n)` for a natural exponent. */
  function Pow(x: real, n: nat): (r: real)
    ensures 0.0 <= x ==> 0.0 <= r
    ensures 0.0 <= x <= 1.0 ==> r <= 1.0
    ensures n > 0 && x == 0.0 ==> r == 0.0
    ensures x == 1.0 ==> r == 1.0
  {
    if n == 0 then 1.0
    else
      var p := Pow(x, n - 1);
      PowStep(x, p);
      x * p
  }

  /** One more factor keeps a power non-negative, and within [0, 1] for a base in [0, 1]. */
  lemma PowStep(x: real, p: real)
    ensures 0.0 <= x && 0.0 <= p ==> 0.0 <= x * p
    ensures 0.0 <= x <= 1.0 && 0.0 <= p <= 1.0 ==> x * p <= 1.0
  {
    if 0.0 <= x && 0.0 <= p {
      MulNonneg(x, p);
      if x <= 1.0 && p <= 1.0 {
        MulNonneg(x, 1.0 - p);
      }
    }
  }

  lemma PowCube(x: real)
    ensures Pow(x, 3) == x * x * x
  {
    assert Pow(x, 1) == x;
  }

  /** On non-negative bases, a larger base never gives a smaller power. */
  lemma {:induction false} PowMonotone(x: real, y: real, n: nat)
    requires 0.0 <= x <= y
    ensures Pow(x, n) <= Pow(y, n)
  {
    if n > 0 {
      PowMonotone(x, y, n - 1);
      MulNonneg(y - x, Pow(y, n - 1));
      MulNonneg(x, Pow(y, n - 1) - Pow(x, n - 1));
    }
  }

  /** Scaling by a weight in [0, 1] keeps a non-negative length within itself. */
  lemma ScaleWithin(t: real, m: real)
    requires 0.0 <= t <= 1.0 && 0.0 <= m
    ensures 0.0 <= t * m
    ensures t * m <= m
  {
    MulNonneg(t, m);
    MulNonneg(1.0 - t, m);
  }

  /** The integer part of a number in [0, m] is in [0, m]. */
  lemma FloorWithin(x: real, m: int)
    requires 0.0 <= x <= m as real
    ensures 0 <= x.Floor <= m
  {
  }

  /** Below one half, a cube stays below one eighth. */
  lemma CubeBelowHalf(t: real)
    ensures 0.0 <= t < 0.5 ==> t * t * t < 0.125
  {
    if 0.0 <= t < 0.5 {
      MulNonneg(t, 0.5 - t);
      MulNonneg(t * t, 0.5 - t);
    }
  }

  /** `easeInOutCubic`: slow start, fast middle, slow end. */
  function EaseInOutCubic(t: real): (r: real)
    ensures 0.0 <= t <= 1.0 ==> 0.0 <= r
    ensures 0.0 <= t <= 1.0 ==> r <= 1.0
    ensures 0.0 <= t < 0.5 ==> r < 0.5
    ensures 0.5 <= t <= 1.0 ==> 0.5 <= r
    ensures t == 0.0 ==> r == 0.0
    ensures t == 0.5 ==> r == 0.5
    ensures t == 1.0 ==> r == 1.0
  {
    PowCube(t);
    CubeBelowHalf(t);
    if t < 0.5 then 4.0 * t * t * t else 1.0 - Pow(-2.0 * t + 2.0, 3) / 2.0
  }

  /** `easeOutCubic`: fast start, slow end. */
  function EaseOutCubic(t: real): (r: real)
    ensures 0.0 <= t <= 1.0 ==> 0.0 <= r
    ensures 0.0 <= t <= 1.0 ==> r <= 1.0
    ensures t == 0.0 ==> r == 0.0
    ensures t == 1.0 ==> r == 1.0
  {
    1.0 - Pow(1.0 - t, 3)
  }

  /** `easeInCubic`: slow start, fast end. */
  function EaseInCubic(t: real): (r: real)
    ensures 0.0 <= t <= 1.0 ==> 0.0 <= r
    ensures 0.0 <= t <= 1.0 ==> r <= 1.0
    ensures t == 0.0 ==> r == 0.0
    ensures t == 1.0 ==> r == 1.0
  {
    PowCube(t);
    t * t * t
  }

  /**
   * The two halves of `easeInOutCubic` are ease-in squeezed into [0, 1/2]
   * and ease-out squeezed into [1/2, 1].
   */
  lemma EaseInOutCubicHalves(t: real)
    ensures t < 0.5 ==> EaseInOutCubic(t) == EaseInCubic(2.0 * t) / 2.0
    ensures 0.5 <= t ==> EaseInOutCubic(t) == 0.5 + EaseOutCubic(2.0 * t - 1.0) / 2.0
  {
  }

  /** Ease-out is ease-in played backwards. */
  lemma EaseOutIsReversedEaseIn(t: real)
    ensures EaseOutCubic(t) == 1.0 - EaseInCubic(1.0 - t)
  {
    PowCube(1.0 - t);
  }

  /** `easeInOutCubic` is point-symmetric about (1/2, 1/2). */
  lemma EaseInOutCubicSymmetric(t: real)
    ensures EaseInOutCubic(1.0 - t) == 1.0 - EaseInOutCubic(t)
  {
    if t < 0.5 {
      assert -2.0 * (1.0 - t) + 2.0 == 2.0 * t;
      PowCube(2.0 * t);
    } else if t > 0.5 {
      assert -2.0 * t + 2.0 == 2.0 * (1.0 - t);
      PowCube(2.0 * (1.0 - t));
    }
  }

  /** All three curves are non-decreasing on [0, 1]. */
  lemma EasingMonotone(s: real, t: real)
    requires 0.0 <= s <= t <= 1.0
    ensures EaseInCubic(s) <= EaseInCubic(t)
    ensures EaseOutCubic(s) <= EaseOutCubic(t)
    ensures EaseInOutCubic(s) <= EaseInOutCubic(t)
  {
    PowCube(s);
    PowCube(t);
    PowMonotone(s, t, 3);
    PowMonotone(1.0 - t, 1.0 - s, 3);
    if 0.5 <= s {
      PowMonotone(-2.0 * t + 2.0, -2.0 * s + 2.0, 3);
    }
  }

  lemma MulPos(x: real, y: real)
    requires 0.0 < x && 0.0 < y
    ensures 0.0 < x * y
  {
  }

  /** Strictly inside (0, 1), a cube is smaller than its base. */
  lemma CubeBelow(t: real)
    ensures 0.0 < t < 1.0 ==> Pow(t, 3) < t
  {
    PowCube(t);
    if 0.0 < t < 1.0 {
      MulPos(t, 1.0 - t);
      MulPos(t, 1.0 - t * t);
    }
  }

  /** Ease-in starts slowly: inside (0, 1) it stays below the diagonal. */
  lemma EaseInBelow(t: real)
    ensures 0.0 < t < 1.0 ==> EaseInCubic(t) < t
  {
    CubeBelow(t);
    PowCube(t);
  }

  /** Ease-out ends slowly: inside (0, 1) it stays above the diagonal. */
  lemma EaseOutAbove(t: real)
    ensures 0.0 < t < 1.0 ==> t < EaseOutCubic(t)
  {
    CubeBelow(1.0 - t);
  }

  /**
   * Ease-in-out starts slowly, below the diagonal on its first half, and
   * ends slowly, above the diagonal on its second half.
   */
  lemma EaseInOutShape(t: real)
    ensures 0.0 < t < 0.5 ==> EaseInOutCubic(t) < t
    ensures 0.5 < t < 1.0 ==> t < EaseInOutCubic(t)
  {
    if 0.0 < t < 0.5 {
      EaseInBelow(2.0 * t);
      EaseInOutCubicHalves(t);
    } else if 0.5 < t < 1.0 {
      EaseOutAbove(2.0 * t - 1.0);
      EaseInOutCubicHalves(t);
    }
  }
}
