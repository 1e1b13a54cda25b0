/**
 * Angle utilities and the two smoothers of the app: degree/radian conversion,
 * heading normalisation into [0, 360), the 16-point compass label, the linear
 * moving average used for tilt and the circular moving average used for the
 * compass heading. Python floats are modelled as exact reals.
 */
module MathUtils {
  import opened Slices

  /** Python's `math.pi`: the double nearest to pi, written out in decimal. */
  const PI: real := 3.141592653589793

  /** `math.radians`: half a turn is `PI`, a quarter turn `PI / 2`, a full turn `2 * PI`. */
  function DegToRad(deg: real): (rad: real)
    ensures deg == 0.0 ==> rad == 0.0
    ensures deg == 90.0 ==> rad == PI / 2.0
    ensures deg == 180.0 ==> rad == PI
    ensures deg == 360.0 ==> rad == 2.0 * PI
  {
    deg * PI / 180.0
  }

  /** `math.degrees`: `PI` is half a turn and `2 * PI` a full turn. */
  function RadToDeg(rad: real): (deg: real)
    ensures rad == 0.0 ==> deg == 0.0
    ensures rad == PI ==> deg == 180.0
    ensures rad == 2.0 * PI ==> deg == 360.0
  {
    rad * 180.0 / PI
  }

  /** Converting to radians and back returns the original angle. */
  lemma RadToDegOfDegToRad(deg: real)
    ensures RadToDeg(DegToRad(deg)) == deg
  {
    calc {
      RadToDeg(DegToRad(deg));
      (deg * PI / 180.0) * 180.0 / PI;
      deg * (PI / PI);
      deg;
    }
  }

  /** Converting to degrees and back returns the original angle. */
  lemma DegToRadOfRadToDeg(rad: real)
    ensures DegToRad(RadToDeg(rad)) == rad
  {
    calc {
      DegToRad(RadToDeg(rad));
      (rad * 180.0 / PI) * PI / 180.0;
      rad * (PI / PI);
      rad;
    }
  }

  // ---------------------------------------------------------------------------
  // Headings

  /** `x` is a whole number. */
  predicate IsWhole(x: real)
  {
    x == x.Floor as real
  }

  /** `heading % 360.0`: Python's modulo takes the sign of the divisor, so the
      result is the heading minus a floored number of whole turns. */
  function NormalizeHeading(heading: real): (r: real)
    ensures 0.0 <= r < 360.0
  {
    heading - 360.0 * (heading / 360.0).Floor as real
  }

  /** The normalised heading points the same way: it differs from the input by
      a whole number of turns. */
  lemma NormalizeHeadingSameDirection(heading: real)
    ensures IsWhole((heading - NormalizeHeading(heading)) / 360.0)
  {
    var f := (heading / 360.0).Floor;
    assert (heading - NormalizeHeading(heading)) / 360.0 == f as real;
  }

  /** Conversely, the only angle in [0, 360) a whole number of turns away from
      `heading` is its normalisation. */
  lemma NormalizeHeadingUnique(heading: real, r: real)
    requires 0.0 <= r < 360.0
    requires IsWhole((heading - r) / 360.0)
    ensures r == NormalizeHeading(heading)
  {
    var k := ((heading - r) / 360.0).Floor;
    assert heading == r + 360.0 * k as real;
    assert heading / 360.0 == r / 360.0 + k as real;
    assert 0.0 <= r / 360.0 < 1.0;
    assert (heading / 360.0).Floor == k;
  }

  /** Adding any whole number of turns does not change the normalised heading. */
  lemma NormalizeHeadingPeriodic(heading: real, turns: int)
    ensures NormalizeHeading(heading + 360.0 * turns as real) == NormalizeHeading(heading)
  {
    var shifted := heading + 360.0 * turns as real;
    var r := NormalizeHeading(heading);
    var f := (heading / 360.0).Floor;
    assert r == heading - 360.0 * f as real;
    assert (shifted - r) / 360.0 == (f + turns) as real;
    NormalizeHeadingUnique(shifted, r);
  }

  /** A heading already in [0, 360) is left alone. */
  lemma NormalizeHeadingIdentity(heading: real)
    requires 0.0 <= heading < 360.0
    ensures NormalizeHeading(heading) == heading
  {
    assert (heading - heading) / 360.0 == 0.0;
    NormalizeHeadingUnique(heading, heading);
  }

  /** The concrete cases of the app's unit tests. */
  lemma NormalizeHeadingExamples()
    ensures NormalizeHeading(0.0) == 0.0
    ensures NormalizeHeading(359.9) == 359.9
    ensures NormalizeHeading(360.0) == 0.0
    ensures NormalizeHeading(720.0) == 0.0
    ensures NormalizeHeading(450.0) == 90.0
    ensures NormalizeHeading(-90.0) == 270.0
    ensures NormalizeHeading(-180.0) == 180.0
  {
    assert (359.9 / 360.0).Floor == 0;
    assert (450.0 / 360.0).Floor == 1;
    assert (-90.0 / 360.0).Floor == -1;
    assert (-180.0 / 360.0).Floor == -1;
  }

  // ---------------------------------------------------------------------------
  // Cardinal labels

  /** The 16 compass labels, clockwise from north, one per 22.5 degree sector. */
  const Directions: seq<string> :=
    [ "N", "NNE", "NE", "ENE",
      "E", "ESE", "SE", "SSE",
      "S", "SSW", "SW", "WSW",
      "W", "WNW", "NW", "NNW" ]

  /** Python 3's `round(x)` for a float: to the nearest integer, exact halves to
      the even neighbour. */
  function RoundHalfEven(x: real): (n: int)
    ensures RoundsTo(x, n)
  {
    var f := x.Floor;
    var frac := x - f as real;
    if frac < 0.5 then f
    else if frac > 0.5 then f + 1
    else if f % 2 == 0 then f else f + 1
  }

  /** Reference meaning of rounding half to even: `n` is strictly nearest to `x`,
      or `x` lies exactly half-way and `n` is the even neighbour. */
  predicate RoundsTo(x: real, n: int)
  {
    var d := x - n as real;
    (-0.5 < d < 0.5) || ((d == 0.5 || d == -0.5) && n % 2 == 0)
  }

  /** At most one integer is the half-even rounding of `x`. */
  lemma RoundHalfEvenUnique(x: real, n: int)
    requires RoundsTo(x, n)
    ensures n == RoundHalfEven(x)
  {
  }

  /** Shifting by an even integer shifts the half-even rounding by the same amount. */
  lemma RoundHalfEvenShift(x: real, k: int)
    requires k % 2 == 0
    ensures RoundHalfEven(x + k as real) == RoundHalfEven(x) + k
  {
    var n := RoundHalfEven(x);
    EvenShift(n, k);
    assert RoundsTo(x + k as real, n + k);
    RoundHalfEvenUnique(x + k as real, n + k);
  }

  /** Adding an even number keeps the parity. */
  lemma EvenShift(n: int, k: int)
    requires k % 2 == 0
    ensures (n + k) % 2 == n % 2
  {
    var a := n + k;
    var d := a / 2 - n / 2 - k / 2;
    assert 2 * d == n % 2 - a % 2;
    assert d == 0;
  }

  /** `round(heading / 22.5) % 16`; Python's `%` with a positive modulus agrees with
      Dafny's Euclidean `%`. */
  function CardinalIndex(heading: real): (i: int)
    ensures 0 <= i < |Directions|
  {
    RoundHalfEven(heading / 22.5) % 16
  }

  /** `heading_to_cardinal`: the label of the sector centre nearest to `heading`. */
  function HeadingToCardinal(heading: real): (name: string)
    ensures exists i :: 0 <= i < |Directions| && name == Directions[i]
  {
    Directions[CardinalIndex(heading)]
  }

  /** The result is always one of the 16 labels. */
  lemma HeadingToCardinalIsLabel(heading: real)
    ensures HeadingToCardinal(heading) in Directions
  {
  }

  /** The label is that of the nearest sector centre `22.5 * n`, with an exact
      half-sector tie going to the even `n`. */
  lemma HeadingToCardinalNearest(heading: real, n: int)
    requires RoundsTo(heading / 22.5, n)
    ensures HeadingToCardinal(heading) == Directions[n % 16]
  {
    RoundHalfEvenUnique(heading / 22.5, n);
  }

  /** Adding whole multiples of 16 keeps the residue modulo 16, and such a
      multiple is even. */
  lemma ModSixteenShift(n: int, turns: int)
    ensures (16 * turns) % 2 == 0
    ensures (n + 16 * turns) % 16 == n % 16
  {
    var k := 16 * turns;
    var e := k / 2 - 8 * turns;
    assert 2 * e == - (k % 2);
    var a := n + k;
    var d := a / 16 - n / 16 - turns;
    assert 16 * d == n % 16 - a % 16;
  }

  /** Whole turns do not change the label. */
  lemma HeadingToCardinalPeriodic(heading: real, turns: int)
    ensures HeadingToCardinal(heading + 360.0 * turns as real) == HeadingToCardinal(heading)
  {
    var x := heading / 22.5;
    var k := 16 * turns;
    assert (heading + 360.0 * turns as real) / 22.5 == x + k as real;
    ModSixteenShift(RoundHalfEven(x), turns);
    RoundHalfEvenShift(x, k);
  }

  /** Normalising a heading first does not change its label. */
  lemma HeadingToCardinalOfNormalized(heading: real)
    ensures HeadingToCardinal(NormalizeHeading(heading)) == HeadingToCardinal(heading)
  {
    var turns := -(heading / 360.0).Floor;
    assert NormalizeHeading(heading) == heading + 360.0 * turns as real;
    HeadingToCardinalPeriodic(heading, turns);
  }

  /** The four cardinal points of the app's unit tests. */
  lemma HeadingToCardinalCardinalPoints()
    ensures HeadingToCardinal(0.0) == "N" && HeadingToCardinal(90.0) == "E"
    ensures HeadingToCardinal(180.0) == "S" && HeadingToCardinal(270.0) == "W"
  {
    assert 0.0 / 22.5 == 0.0;
    HeadingToCardinalNearest(0.0, 0);
    assert 90.0 / 22.5 == 4.0;
    HeadingToCardinalNearest(90.0, 4);
    assert 180.0 / 22.5 == 8.0;
    HeadingToCardinalNearest(180.0, 8);
    assert 270.0 / 22.5 == 12.0;
    HeadingToCardinalNearest(270.0, 12);
  }

  /** The four intercardinal points of the app's unit tests. */
  lemma HeadingToCardinalIntercardinalPoints()
    ensures HeadingToCardinal(45.0) == "NE" && HeadingToCardinal(135.0) == "SE"
    ensures HeadingToCardinal(225.0) == "SW" && HeadingToCardinal(315.0) == "NW"
  {
    assert 45.0 / 22.5 == 2.0;
    HeadingToCardinalNearest(45.0, 2);
    assert 135.0 / 22.5 == 6.0;
    HeadingToCardinalNearest(135.0, 6);
    assert 225.0 / 22.5 == 10.0;
    HeadingToCardinalNearest(225.0, 10);
    assert 315.0 / 22.5 == 14.0;
    HeadingToCardinalNearest(315.0, 14);
  }

  /** A full turn wraps back to north, and exact half-sector ties go to the even
      sector: 11.25 to N (sector 0, not 1), 33.75 to NE (sector 2, not 1), and
      348.75 to N (sector 16, not 15). */
  lemma HeadingToCardinalWrapAndTies()
    ensures HeadingToCardinal(360.0) == "N"
    ensures HeadingToCardinal(11.25) == "N" && HeadingToCardinal(33.75) == "NE"
    ensures HeadingToCardinal(348.75) == "N"
  {
    HeadingToCardinalNearest(360.0, 16);
    HeadingToCardinalNearest(11.25, 0);
    HeadingToCardinalNearest(33.75, 2);
    HeadingToCardinalNearest(348.75, 16);
  }

  // ---------------------------------------------------------------------------
  // Linear moving average

  function Sum(s: seq<real>): real
  {
    if s == [] then 0.0 else s[0] + Sum(s[1..])
  }

  function Mean(s: seq<real>): real
    requires s != []
  {
    Sum(s) / |s| as real
  }

  /** Readings bounded by `lo` and `hi` have a sum bounded by `|s|` times each. */
  lemma {:induction false} SumBetween(s: seq<real>, lo: real, hi: real)
    requires forall i :: 0 <= i < |s| ==> lo <= s[i] <= hi
    ensures |s| as real * lo <= Sum(s) <= |s| as real * hi
  {
    if s != [] {
      SumBetween(s[1..], lo, hi);
      assert |s| as real * lo == lo + (|s| - 1) as real * lo;
      assert |s| as real * hi == hi + (|s| - 1) as real * hi;
    }
  }

  /** The mean lies between any bounds of the readings. */
  lemma MeanBetween(s: seq<real>, lo: real, hi: real)
    requires s != []
    requires forall i :: 0 <= i < |s| ==> lo <= s[i] <= hi
    ensures lo <= Mean(s) <= hi
  {
    SumBetween(s, lo, hi);
    var n := |s| as real;
    assert Mean(s) * n == Sum(s);
  }

  /** `smooth_values(values, window)`: 0 for an empty history, otherwise the mean
      of the `window` most recent readings (of all of them when the window is
      larger than the history, or 0). */
  function SmoothValues(values: seq<real>, window: nat): (r: real)
    ensures values == [] ==> r == 0.0
    ensures |values| == 1 ==> r == values[0]
  {
    if values == [] then 0.0
    else
      assert |values| == 1 ==> Sum(values) == values[0] + Sum([]);
      Mean(Last(values, window))
  }

  /** The smoothed value lies between the smallest and the largest reading of the
      averaged window. */
  lemma SmoothValuesBetween(values: seq<real>, window: nat, lo: real, hi: real)
    requires values != []
    requires forall x :: x in Last(values, window) ==> lo <= x <= hi
    ensures lo <= SmoothValues(values, window) <= hi
  {
    var recent := Last(values, window);
    forall i | 0 <= i < |recent|
      ensures lo <= recent[i] <= hi
    {
      assert recent[i] in recent;
    }
    MeanBetween(recent, lo, hi);
  }

  /** A constant history smooths to that constant. */
  lemma SmoothValuesConstant(values: seq<real>, window: nat, c: real)
    requires values != []
    requires forall i :: 0 <= i < |values| ==> values[i] == c
    ensures SmoothValues(values, window) == c
  {
    var recent := Last(values, window);
    forall x | x in recent
      ensures c <= x <= c
    {
      var j :| 0 <= j < |recent| && recent[j] == x;
      assert x == values[|values| - |recent| + j];
    }
    SmoothValuesBetween(values, window, c, c);
  }

  /** With a positive window, the result is the mean of the last
      `min(window, len(values))` readings, as `smooth_values` computes it. */
  lemma SmoothValuesIsWindowMean(values: seq<real>, window: nat)
    requires values != [] && window > 0
    ensures var n := if window < |values| then window else |values|;
      SmoothValues(values, window) == Sum(values[|values| - n..]) / n as real
  {
  }

  /** A window at least as long as the history averages the whole history. */
  lemma SmoothValuesWideWindow(values: seq<real>, window: nat)
    requires values != [] && window >= |values|
    ensures SmoothValues(values, window) == Sum(values) / |values| as real
  {
  }

  /** Readings older than the window do not affect the result, so trimming a
      history down to at least `window` readings leaves it unchanged. */
  lemma SmoothValuesIgnoresOlder(older: seq<real>, recent: seq<real>, window: nat)
    requires 0 < window <= |recent|
    ensures SmoothValues(older + recent, window) == SmoothValues(recent, window)
  {
    LastOfConcat(older, recent, window);
  }

  /** The average of `[10, 20, 30]` over a window of 3 is 20. */
  lemma SmoothValuesExample()
    ensures SmoothValues([10.0, 20.0, 30.0], 3) == 20.0
  {
    assert Last([10.0, 20.0, 30.0], 3) == [10.0, 20.0, 30.0];
    assert Sum([10.0, 20.0, 30.0]) == 60.0;
  }

  // ---------------------------------------------------------------------------
  // Circular moving average

  /** The trigonometric functions of Python's `math` module, taken as given. */
  datatype Trig = Trig(sin: real -> real, cos: real -> real, atan2: (real, real) -> real)

  /** `math.sin(deg_to_rad(h)) for h in s` */
  function Sines(trig: Trig, s: seq<real>): (r: seq<real>)
    ensures |r| == |s|
  {
    seq(|s|, i requires 0 <= i < |s| => trig.sin(DegToRad(s[i])))
  }

  /** `math.cos(deg_to_rad(h)) for h in s` */
  function Cosines(trig: Trig, s: seq<real>): (r: seq<real>)
    ensures |r| == |s|
  {
    seq(|s|, i requires 0 <= i < |s| => trig.cos(DegToRad(s[i])))
  }

  /** `smooth_heading(headings, window)`: 0 for an empty history, otherwise the
      direction of the mean unit vector of the `window` most recent headings,
      normalised into [0, 360). */
  function SmoothHeading(trig: Trig, headings: seq<real>, window: nat): (r: real)
    ensures headings == [] ==> r == 0.0
    ensures 0.0 <= r < 360.0
  {
    if headings == [] then 0.0
    else
      var recent := Last(headings, window);
      var meanSin := Mean(Sines(trig, recent));
      var meanCos := Mean(Cosines(trig, recent));
      NormalizeHeading(RadToDeg(trig.atan2(meanSin, meanCos)))
  }

  /** Headings older than the window do not affect the result. */
  lemma SmoothHeadingIgnoresOlder(trig: Trig, older: seq<real>, recent: seq<real>, window: nat)
    requires 0 < window <= |recent|
    ensures SmoothHeading(trig, older + recent, window) == SmoothHeading(trig, recent, window)
  {
    LastOfConcat(older, recent, window);
  }

  /** A window at least as long as the history is clamped to the history's length. */
  lemma SmoothHeadingWideWindow(trig: Trig, headings: seq<real>, window: nat)
    requires window >= |headings|
    ensures SmoothHeading(trig, headings, window) == SmoothHeading(trig, headings, |headings|)
  {
  }

  /** The given sine and cosine repeat exactly every full turn of degrees. This
      idealises the trigonometry: with `PI` the decimal `math.pi` rather than pi
      itself, the mathematical sine of `DegToRad(a + 360.0)` differs slightly from
      that of `DegToRad(a)`, so the hypothesis holds of exact trigonometry in
      degrees, not of `math.sin` applied to the converted angle. */
  ghost predicate TurnInvariant(trig: Trig)
  {
    forall a: real, b: real :: IsWhole((a - b) / 360.0) ==>
      trig.sin(DegToRad(a)) == trig.sin(DegToRad(b)) &&
      trig.cos(DegToRad(a)) == trig.cos(DegToRad(b))
  }

  /** Under such a sine and cosine, headings a whole number of turns apart have
      the same sines and cosines. */
  lemma TurnsKeepSinesAndCosines(trig: Trig, headings: seq<real>, shifted: seq<real>)
    requires TurnInvariant(trig)
    requires |shifted| == |headings|
    requires forall i :: 0 <= i < |headings| ==> IsWhole((shifted[i] - headings[i]) / 360.0)
    ensures Sines(trig, shifted) == Sines(trig, headings)
    ensures Cosines(trig, shifted) == Cosines(trig, headings)
  {
  }

  /** For such a sine and cosine, shifting each heading by whole turns does not
      change the circular average, so averaging normalised headings gives the same
      result as averaging the raw ones. */
  lemma SmoothHeadingTurnInvariant(trig: Trig, headings: seq<real>, shifted: seq<real>, window: nat)
    requires TurnInvariant(trig)
    requires |shifted| == |headings|
    requires forall i :: 0 <= i < |headings| ==> IsWhole((shifted[i] - headings[i]) / 360.0)
    ensures SmoothHeading(trig, shifted, window) == SmoothHeading(trig, headings, window)
  {
    if headings != [] {
      var recent, recentShifted := Last(headings, window), Last(shifted, window);
      var offset := |headings| - |recent|;
      assert recent == headings[offset..] && recentShifted == shifted[offset..];
      TurnsKeepSinesAndCosines(trig, recent, recentShifted);
    }
  }
}
