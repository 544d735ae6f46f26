/** Wheel geometry and the spin curve, over exact reals. */
module Wheel {
  type Ring = r: nat | r < 3

  type Digit = d: nat | d < 10

  /** Outer (hundreds), middle (tens), inner (units): digit order clockwise from the pointer. */
  const RING_ORDER: seq<seq<Digit>> :=
    [ [5, 0, 6, 4, 7, 3, 8, 2, 9, 1],
      [9, 1, 5, 0, 6, 4, 7, 3, 8, 2],
      [4, 7, 3, 8, 2, 9, 1, 5, 0, 6] ]

  const SEGMENT_DEG: real := 36.0

  function Direction(ring: Ring): real {
    if ring == 1 then 1.0 else -1.0
  }

  function Turns(ring: Ring): nat {
    5 + 2 * ring
  }

  // ---- angles ----

  /** JavaScript's remainder: the sign of the dividend, a quotient truncated toward zero. */
  function Remainder(x: real, m: real): real
    requires m > 0.0
  {
    if x >= 0.0 then x - m * (x / m).Floor as real else -(-x - m * (-x / m).Floor as real)
  }

  function Mod360(deg: real): real {
    Remainder(Remainder(deg, 360.0) + 360.0, 360.0)
  }

  /** Where `digit` sits on the ring, counted clockwise from the pointer at rest. */
  function SegmentOf(ring: Ring, digit: Digit): (i: nat)
    ensures i < 10 && RING_ORDER[ring][i] == digit
  {
    IndexOf(RING_ORDER[ring], digit)
  }

  function IndexOf(order: seq<Digit>, digit: Digit): (i: nat)
    requires digit in order
    ensures i < |order| && order[i] == digit
  {
    if order[0] == digit then 0 else 1 + IndexOf(order[1..], digit)
  }

  function RestAngle(ring: Ring, digit: Digit): real {
    Mod360(-(SegmentOf(ring, digit) as real) * SEGMENT_DEG)
  }

  /** `Math.round` is floor(x + 1/2). */
  function SegmentAtPointer(angle: real): (segment: int)
    ensures 0 <= segment < 10
  {
    (Mod360(-angle) / SEGMENT_DEG + 0.5).Floor % 10
  }

  function DigitAtPointer(ring: Ring, angle: real): Digit {
    RING_ORDER[ring][SegmentAtPointer(angle)]
  }

  // ---- reducing angles ----

  lemma FloorIs(x: real, k: int)
    requires k as real <= x < k as real + 1.0
    ensures x.Floor == k
  {
  }

  /** `mod360` is the representative in [0, 360). */
  lemma Mod360Is(deg: real, k: int, r: real)
    requires deg == 360.0 * k as real + r && 0.0 <= r < 360.0
    ensures Mod360(deg) == r
  {
    if deg >= 0.0 {
      FloorIs(deg / 360.0, k);
      FloorIs((r + 360.0) / 360.0, 1);
    } else if r == 0.0 {
      FloorIs(-deg / 360.0, -k);
      FloorIs(360.0 / 360.0, 1);
    } else {
      FloorIs(-deg / 360.0, -k - 1);
      FloorIs(r / 360.0, 0);
    }
  }

  /** Every angle is some number of full turns plus its reduction. */
  lemma Mod360Turns(deg: real) returns (k: int)
    ensures deg == 360.0 * k as real + Mod360(deg) && 0.0 <= Mod360(deg) < 360.0
  {
    k := (deg / 360.0).Floor;
    var r := deg - 360.0 * k as real;
    Mod360Is(deg, k, r);
  }

  lemma RestAngleIs(ring: Ring, digit: Digit)
    ensures var i := SegmentOf(ring, digit); RestAngle(ring, digit) == if i == 0 then 0.0 else 360.0 - 36.0 * i as real
  {
    hide Mod360, IndexOf;
    var i := SegmentOf(ring, digit);
    if i == 0 {
      Mod360Is(-(i as real) * SEGMENT_DEG, 0, 0.0);
    } else {
      Mod360Is(-(i as real) * SEGMENT_DEG, -1, 360.0 - 36.0 * i as real);
    }
  }

  // ---- reading the pointer ----

  /** The angle is `k` turns and at most half a segment from `rest`. */
  predicate WithinHalfSegment(angle: real, rest: real, k: int) {
    -18.0 < angle - rest - 360.0 * k as real <= 18.0
  }

  /** Segment `i` is the one read exactly for reduced angles within half a segment of it. */
  lemma SegmentReads(angle: real, m: real, i: nat)
    requires m == Mod360(-angle) && 0.0 <= m < 360.0 && i < 10
    ensures SegmentAtPointer(angle) == i <==>
            (36.0 * i as real - 18.0 <= m < 36.0 * i as real + 18.0) || (i == 0 && m >= 342.0)
  {
    var n := (m / SEGMENT_DEG + 0.5).Floor;
    assert n as real <= m / 36.0 + 0.5 < n as real + 1.0;
    assert 0 <= n <= 10;
    assert 36.0 * n as real - 18.0 <= m < 36.0 * n as real + 18.0;
  }

  lemma RingsAreInjective(ring: Ring, i: nat, j: nat)
    requires i < 10 && j < 10 && RING_ORDER[ring][i] == RING_ORDER[ring][j]
    ensures i == j
  {
  }

  /**
   * The pointer reads `d` exactly when the ring stands, up to whole turns, within half a segment of d's
   * rest angle (the far edge, 18 degrees ahead, included; the near edge excluded).
   */
  lemma PointerReadsExactly(ring: Ring, angle: real, d: Digit)
    ensures DigitAtPointer(ring, angle) == d <==> exists k: int :: WithinHalfSegment(angle, RestAngle(ring, d), k)
  {
    hide Mod360, RestAngle, SegmentAtPointer, IndexOf;
    var i := SegmentOf(ring, d);
    var a := Mod360Turns(-angle);
    var m := Mod360(-angle);
    SegmentReads(angle, m, i);
    RestAngleIs(ring, d);
    if DigitAtPointer(ring, angle) == d {
      RingsAreInjective(ring, i, SegmentAtPointer(angle));
      var k := if i == 0 then (if m >= 342.0 then -a - 1 else -a) else -a - 1;
      assert WithinHalfSegment(angle, RestAngle(ring, d), k);
    }
    if k: int :| WithinHalfSegment(angle, RestAngle(ring, d), k) {
      // m lies within half a segment of 36 i, up to j turns
      var j := -a - k - (if i == 0 then 0 else 1);
      assert -18.0 < 36.0 * i as real - m + 360.0 * j as real <= 18.0;
      assert j == 0 || j == 1;
    }
  }

  /** Turned back segment by segment from rest, the rings show these digits. */
  lemma ReadsClockwise(ring: Ring, i: nat)
    requires i < 10
    ensures DigitAtPointer(ring, -36.0 * i as real) ==
            [[5, 0, 6, 4, 7, 3, 8, 2, 9, 1], [9, 1, 5, 0, 6, 4, 7, 3, 8, 2], [4, 7, 3, 8, 2, 9, 1, 5, 0, 6]][ring][i]
  {
    hide Mod360, SegmentAtPointer;
    var angle := -36.0 * i as real;
    Mod360Is(-angle, 0, 36.0 * i as real);
    SegmentReads(angle, 36.0 * i as real, i);
  }

  // ---- the spin curve ----

  function CruiseSpeed(t0: real): real
    requires 0.0 < t0 < 1.0
  {
    1.0 / (t0 + (1.0 - t0) / 3.0)
  }

  function SpinProgress(p: real, t0: real): real
    requires 0.0 < t0 < 1.0
  {
    if p <= 0.0 then 0.0
    else if p >= 1.0 then 1.0
    else
      var D := 1.0 - t0;
      var v0 := CruiseSpeed(t0);
      if p <= t0 then v0 * p
      else
        var u := (1.0 - p) / D;
        1.0 - (v0 * D / 3.0) * (u * u * u)
  }

  /** How far into the deceleration `p` is: 1 at `t0`, 0 at the end. */
  function Remaining(p: real, t0: real): real
    requires 0.0 < t0 < 1.0
  {
    (1.0 - p) / (1.0 - t0)
  }

  /** The secant slope of the cubic phase between remaining parts `a` and `b`. */
  function CubicSlope(a: real, b: real, t0: real): real
    requires 0.0 < t0 < 1.0
  {
    CruiseSpeed(t0) / 3.0 * (a * a + a * b + b * b)
  }

  lemma SpeedFacts(t0: real)
    requires 0.0 < t0 < 1.0
    ensures CruiseSpeed(t0) > 1.0
    ensures CruiseSpeed(t0) * t0 + CruiseSpeed(t0) * (1.0 - t0) / 3.0 == 1.0
  {
    var w := t0 + (1.0 - t0) / 3.0;
    var v := CruiseSpeed(t0);
    assert v * w == 1.0;
    assert v * w == v * t0 + v * (1.0 - t0) / 3.0;
    assert w < 1.0;
    if v <= 1.0 {
      Scale(v, 1.0, w);
    }
  }

  lemma Scale(x: real, y: real, w: real)
    requires x <= y && w >= 0.0
    ensures x * w <= y * w
  {
  }

  lemma CubeDifference(a: real, b: real)
    ensures a * a * a - b * b * b == (a - b) * (a * a + a * b + b * b)
  {
    var s := a * a + a * b + b * b;
    assert (a - b) * s == a * s - b * s;
    assert a * s == a * (a * a) + a * (a * b) + a * (b * b);
    assert b * s == b * (a * a) + b * (a * b) + b * (b * b);
    assert a * (a * b) == b * (a * a) && a * (b * b) == b * (a * b);
  }

  lemma ScaleStrict(x: real, y: real, w: real)
    requires x < y && w > 0.0
    ensures x * w < y * w
  {
  }

  lemma Ratio(x: real, w: real)
    requires 0.0 <= x <= w && w > 0.0
    ensures (x / w) * w == x && 0.0 <= x / w <= 1.0
    ensures (x == w ==> x / w == 1.0) && (x < w ==> x / w < 1.0) && (x == 0.0 <==> x / w == 0.0)
  {
    var u := x / w;
    if u < 0.0 { ScaleStrict(u, 0.0, w); }
    if u > 1.0 { ScaleStrict(1.0, u, w); }
    if u < 1.0 { ScaleStrict(u, 1.0, w); }
    if 0.0 < u { ScaleStrict(0.0, u, w); }
  }

  lemma Proportion(x: real, y: real, w: real)
    requires 0.0 <= x < y <= w
    ensures 0.0 <= x / w < y / w <= 1.0
    ensures (x == 0.0 ==> x / w == 0.0) && (y < w ==> y / w < 1.0)
  {
    Ratio(x, w);
    Ratio(y, w);
    if x / w >= y / w { Scale(y / w, x / w, w); }
  }

  /** On the deceleration [t0, 1] the curve is the cubic (at `t0` both formulas agree). */
  lemma CubicValue(p: real, t0: real)
    requires 0.0 < t0 < 1.0 && t0 <= p <= 1.0
    ensures var u := Remaining(p, t0);
      && 0.0 <= u <= 1.0 && u * (1.0 - t0) == 1.0 - p
      && SpinProgress(p, t0) == 1.0 - (CruiseSpeed(t0) * (1.0 - t0) / 3.0) * (u * u * u)
  {
    SpeedFacts(t0);
    Ratio(1.0 - p, 1.0 - t0);
    var u := Remaining(p, t0);
    if p == t0 {
      assert u == 1.0 && u * u * u == 1.0;
    } else if p == 1.0 {
      assert u == 0.0 && u * u * u == 0.0;
    }
  }

  /** On the deceleration, progress between two points is the cubic slope times the distance. */
  lemma CubicSecant(p: real, q: real, t0: real)
    requires 0.0 < t0 < 1.0 && t0 <= p <= q <= 1.0
    ensures SpinProgress(q, t0) - SpinProgress(p, t0) == (q - p) * CubicSlope(Remaining(p, t0), Remaining(q, t0), t0)
  {
    hide SpinProgress, CruiseSpeed, Remaining;
    CubicValue(p, t0);
    CubicValue(q, t0);
    Regroup(q - p, Remaining(p, t0), Remaining(q, t0), CruiseSpeed(t0), 1.0 - t0);
  }

  lemma Regroup(d: real, a: real, b: real, v: real, D: real)
    requires d == a * D - b * D
    ensures (v * D / 3.0) * (a * a * a) - (v * D / 3.0) * (b * b * b) == d * (v / 3.0 * (a * a + a * b + b * b))
  {
    CubeDifference(a, b);
    Regrouped(a - b, a * a + a * b + b * b, a * a * a, b * b * b, v, D);
  }

  lemma Regrouped(d: real, s: real, a3: real, b3: real, v: real, D: real)
    requires a3 - b3 == d * s
    ensures (v * D / 3.0) * a3 - (v * D / 3.0) * b3 == (d * D) * (v / 3.0 * s)
  {
    var w := v * D / 3.0;
    assert w * a3 - w * b3 == w * (a3 - b3) == w * (d * s);
    assert w * (d * s) == (v / 3.0 * D) * (d * s) == (d * D) * (v / 3.0 * s);
  }

  /** Multiplication by name: kept apart from the solver's own treatment of squares. */
  function Times(x: real, y: real): real {
    x * y
  }

  lemma TimesGrows(x: real, y: real, x': real, y': real)
    requires 0.0 <= x <= x' && 0.0 <= y <= y'
    ensures 0.0 <= Times(x, y) <= Times(x', y')
    ensures x > 0.0 && y > 0.0 ==> Times(x, y) > 0.0
  {
    Scale(x, x', y);
    Scale(y, y', x');
  }

  lemma TimesBounds(a: real, b: real, c: real)
    requires 0.0 <= c <= b <= a <= 1.0
    ensures var first, second := Times(a, a) + Times(a, b) + Times(b, b), Times(b, b) + Times(b, c) + Times(c, c);
      0.0 <= second <= first <= 3.0 && (a > 0.0 ==> first > 0.0)
  {
    assert Times(1.0, 1.0) == 1.0;
    hide Times;
    TimesGrows(c, c, b, c);
    TimesGrows(b, c, b, b);
    TimesGrows(b, b, a, b);
    TimesGrows(a, b, a, a);
    TimesGrows(a, a, 1.0, 1.0);
  }

  lemma SlopeIs(a: real, b: real, t0: real)
    requires 0.0 < t0 < 1.0
    ensures CubicSlope(a, b, t0) == Times(CruiseSpeed(t0) / 3.0, Times(a, a) + Times(a, b) + Times(b, b))
    ensures CruiseSpeed(t0) == Times(CruiseSpeed(t0) / 3.0, 3.0)
  {
    hide CruiseSpeed;
  }

  /** Slopes lie in [0, v0], shrink as the spin goes on, and vanish only at the very end. */
  lemma SlopeBounds(a: real, b: real, c: real, t0: real)
    requires 0.0 < t0 < 1.0 && 0.0 <= c <= b <= a <= 1.0
    ensures 0.0 <= CubicSlope(b, c, t0) <= CubicSlope(a, b, t0) <= CruiseSpeed(t0)
    ensures a > 0.0 ==> CubicSlope(a, b, t0) > 0.0
  {
    hide *;
    SpeedFacts(t0);
    SlopeIs(a, b, t0);
    SlopeIs(b, c, t0);
    TimesBounds(a, b, c);
    var third := CruiseSpeed(t0) / 3.0;
    var first, second := Times(a, a) + Times(a, b) + Times(b, b), Times(b, b) + Times(b, c) + Times(c, c);
    TimesGrows(third, second, third, first);
    TimesGrows(third, first, third, 3.0);
  }

  /** Between any two moments of the spin there is a speed that is not above v0. */
  lemma SecantBounds(p: real, q: real, t0: real)
    requires 0.0 < t0 < 1.0 && 0.0 <= p < q <= 1.0
    ensures 0.0 < SpinProgress(q, t0) - SpinProgress(p, t0) <= CruiseSpeed(t0) * (q - p)
  {
    SpeedFacts(t0);
    var v := CruiseSpeed(t0);
    if q <= t0 {
      CruiseValue(p, t0);
      CruiseValue(q, t0);
      assert v * q - v * p == v * (q - p) > 0.0;
    } else if p >= t0 {
      CubicPart(p, q, t0);
    } else {
      CruiseValue(p, t0);
      CruiseValue(t0, t0);
      CubicPart(t0, q, t0);
      assert v * t0 - v * p == v * (t0 - p) > 0.0;
      assert v * (t0 - p) + v * (q - t0) == v * (q - p);
    }
  }

  lemma CruiseValue(p: real, t0: real)
    requires 0.0 < t0 < 1.0 && 0.0 <= p <= t0
    ensures SpinProgress(p, t0) == CruiseSpeed(t0) * p
  {
  }

  /** The curve in closed form: linear up to `t0`, then the cube of what is left, meeting at `t0` at one speed. */
  lemma SpinCurveIs(p: real, t0: real)
    requires 0.0 < t0 < 1.0
    ensures p <= 0.0 ==> SpinProgress(p, t0) == 0.0
    ensures 0.0 <= p <= t0 ==> SpinProgress(p, t0) * (1.0 + 2.0 * t0) == 3.0 * p
    ensures t0 <= p <= 1.0 ==> (1.0 - SpinProgress(p, t0)) * (1.0 + 2.0 * t0) * ((1.0 - t0) * (1.0 - t0))
                                == (1.0 - p) * (1.0 - p) * (1.0 - p)
    ensures p >= 1.0 ==> SpinProgress(p, t0) == 1.0
  {
    var v, D := CruiseSpeed(t0), 1.0 - t0;
    assert v * (1.0 + 2.0 * t0) == 3.0;
    if 0.0 <= p <= t0 {
      CruiseValue(p, t0);
      assert v * p * (1.0 + 2.0 * t0) == v * (1.0 + 2.0 * t0) * p;
    }
    if t0 <= p <= 1.0 {
      CubicValue(p, t0);
      CubeLeft(1.0 - SpinProgress(p, t0), v, 1.0 + 2.0 * t0, D, Remaining(p, t0), 1.0 - p);
    }
  }

  lemma CubeLeft(left: real, v: real, w: real, D: real, u: real, x: real)
    requires left == (v * D / 3.0) * (u * u * u) && v * w == 3.0 && u * D == x
    ensures left * w * (D * D) == x * x * x
  {
    assert left * w == (v * w) * (D / 3.0) * (u * u * u) == D * (u * u * u);
    assert D * (u * u * u) * (D * D) == (u * D) * (u * D) * (u * D);
  }

  lemma CubicPart(p: real, q: real, t0: real)
    requires 0.0 < t0 < 1.0 && t0 <= p < q <= 1.0
    ensures 0.0 < SpinProgress(q, t0) - SpinProgress(p, t0) <= CruiseSpeed(t0) * (q - p)
  {
    hide *;
    var a, b := Remaining(p, t0), Remaining(q, t0);
    Decreasing(p, q, t0);
    CubicSecant(p, q, t0);
    SlopeBounds(a, b, b, t0);
    SlopeTimes(q - p, CubicSlope(a, b, t0), CruiseSpeed(t0));
  }

  lemma SlopeTimes(d: real, w: real, v: real)
    requires d > 0.0 && 0.0 < w <= v
    ensures 0.0 < d * w <= v * d
  {
    Scale(w, v, d);
    ScaleStrict(0.0, w, d);
  }

  lemma Decreasing(p: real, q: real, t0: real)
    requires 0.0 < t0 < 1.0 && t0 <= p < q <= 1.0
    ensures 0.0 <= Remaining(q, t0) < Remaining(p, t0) <= 1.0
  {
    Proportion(1.0 - q, 1.0 - p, 1.0 - t0);
  }

  /**
   * The curve stays in [0, 1], never moves backwards, and never faster than v0; being Lipschitz it is
   * continuous everywhere, the switch at t0 included. Within the spin it moves strictly forward.
   */
  lemma SpinIsMonotoneAndContinuous(p: real, q: real, t0: real)
    requires 0.0 < t0 < 1.0 && p <= q
    ensures 0.0 <= SpinProgress(p, t0) <= SpinProgress(q, t0) <= 1.0
    ensures SpinProgress(q, t0) - SpinProgress(p, t0) <= CruiseSpeed(t0) * (q - p)
    ensures 0.0 <= p < q <= 1.0 ==> SpinProgress(p, t0) < SpinProgress(q, t0)
  {
    hide SpinProgress, CruiseSpeed;
    SpeedFacts(t0);
    Clamped(p, t0);
    Clamped(q, t0);
    Scale(Clamp(q) - Clamp(p), q - p, CruiseSpeed(t0));
    if 0.0 < Clamp(p) { SecantBounds(0.0, Clamp(p), t0); }
    if Clamp(q) < 1.0 { SecantBounds(Clamp(q), 1.0, t0); }
    if Clamp(p) < Clamp(q) { SecantBounds(Clamp(p), Clamp(q), t0); }
  }

  lemma Clamped(p: real, t0: real)
    requires 0.0 < t0 < 1.0
    ensures SpinProgress(p, t0) == SpinProgress(Clamp(p), t0)
    ensures SpinProgress(0.0, t0) == 0.0 && SpinProgress(1.0, t0) == 1.0
  {
    hide CruiseSpeed;
  }

  function Clamp(p: real): real {
    if p < 0.0 then 0.0 else if p > 1.0 then 1.0 else p
  }

  /** A speed separates any two consecutive stretches of the spin. */
  lemma SeparatingSpeed(p: real, q: real, r: real, t0: real) returns (w: real)
    requires 0.0 < t0 < 1.0 && 0.0 <= p < q < r <= 1.0
    ensures SpinProgress(q, t0) - SpinProgress(p, t0) >= w * (q - p)
    ensures SpinProgress(r, t0) - SpinProgress(q, t0) <= w * (r - q)
  {
    hide *;
    if q <= t0 {
      w := CruiseSpeed(t0);
      CruiseValue(p, t0);
      CruiseValue(q, t0);
      SecantBounds(q, r, t0);
      Distribute(w, p, q);
    } else if p >= t0 {
      w := SeparatingSlope(p, q, r, t0);
    } else {
      w := SeparatingSlope(t0, q, r, t0);
      SpeedFacts(t0);
      CruiseValue(p, t0);
      CruiseValue(t0, t0);
      Distribute(CruiseSpeed(t0), p, t0);
      Scale(w, CruiseSpeed(t0), t0 - p);
      Distribute(w, p, t0);
      Distribute(w, t0, q);
      Distribute(w, p, q);
    }
  }

  lemma Distribute(w: real, p: real, q: real)
    ensures w * (q - p) == w * q - w * p
  {
  }

  /** Within the deceleration the slope before `q` separates. */
  lemma SeparatingSlope(p: real, q: real, r: real, t0: real) returns (w: real)
    requires 0.0 < t0 < 1.0 && t0 <= p < q < r <= 1.0
    ensures w <= CruiseSpeed(t0)
    ensures SpinProgress(q, t0) - SpinProgress(p, t0) == w * (q - p)
    ensures SpinProgress(r, t0) - SpinProgress(q, t0) <= w * (r - q)
  {
    hide *;
    var a, b, c := Remaining(p, t0), Remaining(q, t0), Remaining(r, t0);
    w := CubicSlope(a, b, t0);
    CubicSecant(p, q, t0);
    CubicSecant(q, r, t0);
    Decreasing(p, q, t0);
    Decreasing(q, r, t0);
    SlopeBounds(a, b, c, t0);
    Scale(CubicSlope(b, c, t0), w, r - q);
  }

  /** The spin only slows down: its secant slopes never increase. */
  lemma SpinDecelerates(p: real, q: real, r: real, t0: real)
    requires 0.0 < t0 < 1.0 && 0.0 <= p < q < r <= 1.0
    ensures (SpinProgress(q, t0) - SpinProgress(p, t0)) * (r - q)
              >= (SpinProgress(r, t0) - SpinProgress(q, t0)) * (q - p)
  {
    hide *;
    var w := SeparatingSpeed(p, q, r, t0);
    CrossMultiply(SpinProgress(q, t0) - SpinProgress(p, t0), SpinProgress(r, t0) - SpinProgress(q, t0), w, q - p,
        r - q);
  }

  lemma CrossMultiply(x: real, y: real, w: real, d: real, e: real)
    requires x >= w * d && y <= w * e && d > 0.0 && e > 0.0
    ensures x * e >= y * d
  {
    Scale(w * d, x, e);
    Scale(y, w * e, d);
    assert (w * d) * e == (w * e) * d;
  }

  // ---- a ring's angle over time ----

  const SPIN_T0: real := 0.65

  /** The whole signed travel of a spin. */
  function Travel(ring: Ring, fromDigit: Digit, toDigit: Digit): real {
    var start, end := RestAngle(ring, fromDigit), RestAngle(ring, toDigit);
    var dir := Direction(ring);
    var delta := if dir > 0.0 then Mod360(end - start) else -Mod360(start - end);
    dir * Turns(ring) as real * 360.0 + delta
  }

  function RingAngleAt(ring: Ring, fromDigit: Digit, toDigit: Digit, elapsed: real, stop: real): real
    requires stop > 0.0
  {
    if elapsed <= 0.0 then RestAngle(ring, fromDigit)
    else if elapsed >= stop then RestAngle(ring, toDigit)
    else RestAngle(ring, fromDigit) + Travel(ring, fromDigit, toDigit) * SpinProgress(elapsed / stop, SPIN_T0)
  }

  /**
   * A spin makes its stated whole turns and less than one more, in its ring's direction, and ends on the
   * target's rest angle.
   */
  lemma TravelEndsOnTarget(ring: Ring, fromDigit: Digit, toDigit: Digit)
    ensures var t := Direction(ring) * Travel(ring, fromDigit, toDigit);
      360.0 * Turns(ring) as real <= t < 360.0 * (Turns(ring) as real + 1.0)
    ensures Mod360(RestAngle(ring, fromDigit) + Travel(ring, fromDigit, toDigit)) == RestAngle(ring, toDigit)
  {
    hide RestAngle, Mod360, Travel, Direction;
    var start, end := RestAngle(ring, fromDigit), RestAngle(ring, toDigit);
    RestAngleInRange(ring, toDigit);
    TravelIs(ring, fromDigit, toDigit);
    Signed(Direction(ring), Travel(ring, fromDigit, toDigit));
    if ring == 1 {
      ForwardTurn(start, end, Turns(ring));
    } else {
      BackwardTurn(start, end, Turns(ring));
    }
  }

  /**
   * In numbers: the outer ring turns back by 5 to 6 turns, the middle one
   * forward by 7 to 8, the inner back by 9 to 10.
   */
  lemma TravelNumbers(fromDigit: Digit, toDigit: Digit)
    ensures -2160.0 < Travel(0, fromDigit, toDigit) <= -1800.0
    ensures 2520.0 <= Travel(1, fromDigit, toDigit) < 2880.0
    ensures -3600.0 < Travel(2, fromDigit, toDigit) <= -3240.0
  {
    hide Travel, RestAngle, Mod360;
    TravelEndsOnTarget(0, fromDigit, toDigit);
    TravelEndsOnTarget(1, fromDigit, toDigit);
    TravelEndsOnTarget(2, fromDigit, toDigit);
  }

  /** For its first 65 per cent of the time a ring turns at one speed, 30/23 of its average. */
  lemma RingCruises(ring: Ring, fromDigit: Digit, toDigit: Digit, elapsed: real, stop: real)
    requires stop > 0.0 && 0.0 <= elapsed && 100.0 * elapsed <= 65.0 * stop
    ensures 23.0 * stop * (RingAngleAt(ring, fromDigit, toDigit, elapsed, stop) - RestAngle(ring, fromDigit))
            == 30.0 * elapsed * Travel(ring, fromDigit, toDigit)
  {
    hide RestAngle, Travel, SpinProgress;
    var p := elapsed / stop;
    assert p * stop == elapsed;
    Ratio65(p, elapsed, stop);
    SpinCurveIs(p, SPIN_T0);
    var f, t := SpinProgress(p, SPIN_T0), Travel(ring, fromDigit, toDigit);
    assert f * 2.3 == 3.0 * p;
    Cruised(f, p, t, elapsed, stop);
  }

  lemma Ratio65(p: real, elapsed: real, stop: real)
    requires stop > 0.0 && p * stop == elapsed && 0.0 <= elapsed && 100.0 * elapsed <= 65.0 * stop
    ensures 0.0 <= p <= 0.65
  {
    if p > 0.65 {
      ScaleStrict(0.65, p, stop);
    }
    if p < 0.0 {
      ScaleStrict(p, 0.0, stop);
    }
  }

  lemma Cruised(f: real, p: real, t: real, elapsed: real, stop: real)
    requires f * 2.3 == 3.0 * p && p * stop == elapsed
    ensures 23.0 * stop * (t * f) == 30.0 * elapsed * t
  {
    assert 23.0 * f == 30.0 * p;
    assert 23.0 * stop * (t * f) == (23.0 * f) * stop * t == 30.0 * (p * stop) * t;
  }

  lemma RestAngleInRange(ring: Ring, digit: Digit)
    ensures 0.0 <= RestAngle(ring, digit) < 360.0
  {
    hide RestAngle;
    RestAngleIs(ring, digit);
  }

  lemma TravelIs(ring: Ring, fromDigit: Digit, toDigit: Digit)
    ensures var start, end := RestAngle(ring, fromDigit), RestAngle(ring, toDigit);
              var turns := Turns(ring) as real * 360.0;
      && Direction(ring) == (if ring == 1 then 1.0 else -1.0)
      && Travel(ring, fromDigit, toDigit) == if ring == 1 then turns + Mod360(end - start)
           else -turns - Mod360(start - end)
  {
    hide RestAngle, Mod360;
    if ring == 1 {
      assert Direction(ring) * Turns(ring) as real == Turns(ring) as real;
    } else {
      assert Direction(ring) * Turns(ring) as real == -(Turns(ring) as real);
    }
  }

  lemma Signed(dir: real, x: real)
    requires dir == 1.0 || dir == -1.0
    ensures dir * x == if dir == 1.0 then x else -x
  {
  }

  lemma ForwardTurn(start: real, end: real, n: nat)
    requires 0.0 <= end < 360.0
    ensures 0.0 <= Mod360(end - start) < 360.0
    ensures Mod360(start + (n as real * 360.0 + Mod360(end - start))) == end
  {
    hide Mod360;
    var k := Mod360Turns(end - start);
    Mod360Is(start + (n as real * 360.0 + Mod360(end - start)), n - k, end);
  }

  lemma BackwardTurn(start: real, end: real, n: nat)
    requires 0.0 <= end < 360.0
    ensures 0.0 <= Mod360(start - end) < 360.0
    ensures Mod360(start + (-(n as real * 360.0) - Mod360(start - end))) == end
  {
    hide Mod360;
    var k := Mod360Turns(start - end);
    Mod360Is(start + (-(n as real * 360.0) - Mod360(start - end)), k - n, end);
  }

  /** While it spins, a ring moves strictly in its direction and stays between its start and the end of its travel. */
  lemma RingMovesOneWay(ring: Ring, fromDigit: Digit, toDigit: Digit, e1: real, e2: real, stop: real)
    requires 0.0 <= e1 < e2 < stop
    ensures var dir := Direction(ring); var start := RestAngle(ring, fromDigit);
      var a1, a2 := RingAngleAt(ring, fromDigit, toDigit, e1, stop), RingAngleAt(ring, fromDigit, toDigit, e2, stop);
      0.0 <= dir * (a1 - start) < dir * (a2 - start) < dir * Travel(ring, fromDigit, toDigit)
  {
    hide *;
    TravelIsForward(ring, fromDigit, toDigit);
    var f1, f2 := RingAngles(ring, fromDigit, toDigit, e1, e2, stop);
    SignedTravel(Direction(ring), Travel(ring, fromDigit, toDigit), RestAngle(ring, fromDigit), f1, f2,
                 RingAngleAt(ring, fromDigit, toDigit, e1, stop), RingAngleAt(ring, fromDigit, toDigit, e2, stop));
  }

  lemma RingAngles(ring: Ring, fromDigit: Digit, toDigit: Digit, e1: real, e2: real, stop: real)
      returns (f1: real, f2: real)
    requires 0.0 <= e1 < e2 < stop
    ensures 0.0 <= f1 < f2 < 1.0
    ensures RingAngleAt(ring, fromDigit, toDigit, e1, stop) ==
              RestAngle(ring, fromDigit) + Travel(ring, fromDigit, toDigit) * f1
    ensures RingAngleAt(ring, fromDigit, toDigit, e2, stop) ==
              RestAngle(ring, fromDigit) + Travel(ring, fromDigit, toDigit) * f2
  {
    hide SpinProgress, Travel, RestAngle, RingAngleAt;
    f1, f2 := SpinProgress(e1 / stop, SPIN_T0), SpinProgress(e2 / stop, SPIN_T0);
    ProgressGrows(e1, e2, stop);
    RingAngleIs(ring, fromDigit, toDigit, e1, stop);
    RingAngleIs(ring, fromDigit, toDigit, e2, stop);
  }

  lemma TravelIsForward(ring: Ring, fromDigit: Digit, toDigit: Digit)
    ensures Direction(ring) * Travel(ring, fromDigit, toDigit) > 0.0
  {
    hide Travel, Mod360, RestAngle;
    TravelEndsOnTarget(ring, fromDigit, toDigit);
  }

  lemma ProgressGrows(e1: real, e2: real, stop: real)
    requires 0.0 <= e1 < e2 < stop
    ensures 0.0 <= SpinProgress(e1 / stop, SPIN_T0) < SpinProgress(e2 / stop, SPIN_T0) < 1.0
  {
    hide SpinProgress;
    Proportion(e1, e2, stop);
    SpinIsMonotoneAndContinuous(e1 / stop, e2 / stop, SPIN_T0);
    SpinIsMonotoneAndContinuous(e2 / stop, 1.0, SPIN_T0);
  }

  lemma RingAngleIs(ring: Ring, fromDigit: Digit, toDigit: Digit, elapsed: real, stop: real)
    requires 0.0 <= elapsed < stop
    ensures RingAngleAt(ring, fromDigit, toDigit, elapsed, stop) ==
            RestAngle(ring, fromDigit) + Travel(ring, fromDigit, toDigit) * SpinProgress(elapsed / stop, SPIN_T0)
  {
    hide Travel, RestAngle;
    if elapsed == 0.0 {
      assert SpinProgress(0.0 / stop, SPIN_T0) == 0.0;
    }
  }

  lemma SignedTravel(dir: real, total: real, start: real, f1: real, f2: real, a1: real, a2: real)
    requires dir * total > 0.0 && 0.0 <= f1 < f2 < 1.0
    requires a1 == start + total * f1 && a2 == start + total * f2
    ensures 0.0 <= dir * (a1 - start) < dir * (a2 - start) < dir * total
  {
    var m := dir * total;
    assert a1 - start == total * f1 && a2 - start == total * f2;
    assert dir * (total * f1) == f1 * m && dir * (total * f2) == f2 * m;
    ScaleStrict(f1, f2, m);
    ScaleStrict(f2, 1.0, m);
    Scale(0.0, f1, m);
  }

  /** A stopped ring shows the digit it was spun to, wherever it came from. */
  lemma StoppedRingReads(ring: Ring, fromDigit: Digit, toDigit: Digit, elapsed: real, stop: real)
    requires stop > 0.0 && elapsed >= stop
    ensures DigitAtPointer(ring, RingAngleAt(ring, fromDigit, toDigit, elapsed, stop)) == toDigit
  {
    hide RestAngle, Mod360, SegmentAtPointer, Travel, SpinProgress, DigitAtPointer;
    assert WithinHalfSegment(RestAngle(ring, toDigit), RestAngle(ring, toDigit), 0);
    PointerReadsExactly(ring, RestAngle(ring, toDigit), toDigit);
  }

  /** The per-ring digits of a drawn number: hundreds, tens, units. */
  function DigitsOf(triple: nat): (digits: seq<Digit>)
    ensures |digits| == 3
  {
    [triple / 100 % 10, triple / 10 % 10, triple % 10]
  }

  // ---- revealing digits ----

  ghost predicate Increasing(stops: seq<int>) {
    forall i, j :: 0 <= i < j < |stops| ==> stops[i] < stops[j]
  }

  /** Among the first `k` stops, exactly the first `n` are reached. */
  ghost predicate FirstReached(stops: seq<int>, k: int, n: int, elapsed: int)
    requires 0 <= k <= |stops|
  {
    forall i :: 0 <= i < k ==> (i < n <==> stops[i] <= elapsed)
  }

  ghost function Reached(stops: seq<int>, k: int, elapsed: int): set<int>
    requires 0 <= k <= |stops|
  {
    set i | 0 <= i < k && stops[i] <= elapsed
  }

  lemma ReachedNext(stops: seq<int>, k: int, elapsed: int)
    requires 0 <= k < |stops|
    ensures |Reached(stops, k + 1, elapsed)| == |Reached(stops, k, elapsed)| + if stops[k] <= elapsed then 1 else 0
  {
    if stops[k] <= elapsed {
      assert Reached(stops, k + 1, elapsed) == Reached(stops, k, elapsed) + {k};
    } else {
      assert Reached(stops, k + 1, elapsed) == Reached(stops, k, elapsed);
    }
  }

  lemma FirstReachedNext(stops: seq<int>, k: int, n: int, elapsed: int)
    requires 0 <= n <= k < |stops| && Increasing(stops) && FirstReached(stops, k, n, elapsed)
    ensures FirstReached(stops, k + 1, if stops[k] <= elapsed then n + 1 else n, elapsed)
  {
    if stops[k] <= elapsed && k > 0 {
      assert stops[k - 1] < stops[k];
    }
  }

  /** How many result digits are shown: the stops already reached, which for increasing stops are the first ones. */
  method RevealedDigitCount(elapsed: int, stops: seq<int>) returns (n: nat)
    ensures n <= |stops|
    ensures n == |Reached(stops, |stops|, elapsed)|
    ensures Increasing(stops) ==> FirstReached(stops, |stops|, n, elapsed)
  {
    n := 0;
    for k := 0 to |stops|
      invariant n <= k
      invariant n == |Reached(stops, k, elapsed)|
      invariant Increasing(stops) ==> FirstReached(stops, k, n, elapsed)
    {
      ReachedNext(stops, k, elapsed);
      if Increasing(stops) {
        FirstReachedNext(stops, k, n, elapsed);
      }
      if elapsed >= stops[k] {
        n := n + 1;
      }
    }
  }
}
