/** The geometry of gcode.c on exact reals: arcs given by their radius, quadratic splines handed on as
    cubic ones, and rotary axes brought home the short way. A square root is a non-negative number
    with the given square. */
module Geometry {
  import opened GcTypes

  function Abs(x: real): real {
    if x < 0.0 then -x else x
  }

  ghost predicate IsRoot(s: real, x: real) {
    s >= 0.0 && s * s == x
  }

  lemma RootUnique(s: real, t: real, x: real)
    requires IsRoot(s, x) && IsRoot(t, x)
    ensures s == t
  {
    if s < t {
      SquareGrows(s, t);
    } else if t < s {
      SquareGrows(t, s);
    }
  }

  lemma SquareGrows(s: real, t: real)
    requires 0.0 <= s < t
    ensures s * s < t * t
  {
    assert t * t - s * s == (t - s) * (t + s);
    Positive(t - s, t + s, t * t - s * s);
  }

  lemma Positive(a: real, b: real, p: real)
    requires a > 0.0 && b > 0.0 && p == a * b
    ensures p > 0.0
  {
  }

  // ---------------------------------------------------------------- arcs by radius

  /** Four times the square of the distance from the chord to the centre. */
  function FourHSquared(x: real, y: real, r: real): real {
    4.0 * r * r - x * x - y * y
  }

  /** h_x2_div_d: the signed offset of the centre, for the roots `s` of 4h^2 and `d` of the chord. */
  function CentreOffset(s: real, d: real, counterClockwise: bool, r: real): real
    requires d != 0.0
  {
    var h := -s / d;
    var turned := if counterClockwise then -h else h;
    if r < 0.0 then -turned else turned
  }

  function CentreI(x: real, y: real, h: real): real {
    0.5 * (x - y * h)
  }

  function CentreJ(x: real, y: real, h: real): real {
    0.5 * (y + x * h)
  }

  /** Twice the signed area of travel and centre: positive on the left of the travel. */
  function Side(x: real, y: real, i: real, j: real): real {
    x * j - y * i
  }

  lemma OffsetSquare(s: real, d: real, ccw: bool, r: real)
    requires d > 0.0
    ensures var h := CentreOffset(s, d, ccw, r); (h * d) * (h * d) == s * s
  {
    var q := s / d;
    var h := CentreOffset(s, d, ccw, r);
    assert q * d == s;
    assert h == q || h == -q;
    assert h * d == s || h * d == -s;
  }

  lemma CentreFromStart(x: real, y: real, h: real)
    ensures CentreI(x, y, h) * CentreI(x, y, h) + CentreJ(x, y, h) * CentreJ(x, y, h)
            == 0.25 * (x * x + y * y) * (1.0 + h * h)
  {
    Expand(x, y, h);
  }

  lemma Expand(x: real, y: real, h: real)
    ensures (x - y * h) * (x - y * h) + (y + x * h) * (y + x * h) == (x * x + y * y) * (1.0 + h * h)
  {
    var a, b := y * h, x * h;
    assert (x - a) * (x - a) == x * x - 2.0 * (x * a) + a * a;
    assert (y + b) * (y + b) == y * y + 2.0 * (y * b) + b * b;
    assert x * a == y * b;
    assert a * a == (y * y) * (h * h) && b * b == (x * x) * (h * h);
  }

  lemma CentreFromTarget(x: real, y: real, h: real)
    ensures var i, j := CentreI(x, y, h), CentreJ(x, y, h);
            (x - i) * (x - i) + (y - j) * (y - j) == 0.25 * (x * x + y * y) * (1.0 + h * h)
  {
    Expand(x, y, -h);
    var i, j := CentreI(x, y, h), CentreJ(x, y, h);
    assert x - i == 0.5 * (x - y * (-h)) && y - j == 0.5 * (y + x * (-h));
  }

  lemma CentreSide(x: real, y: real, h: real)
    ensures Side(x, y, CentreI(x, y, h), CentreJ(x, y, h)) == 0.5 * (x * x + y * y) * h
  {
    var a, b := y * h, x * h;
    assert x * (0.5 * (y + b)) == 0.5 * (x * y) + 0.5 * (x * b);
    assert y * (0.5 * (x - a)) == 0.5 * (x * y) - 0.5 * (y * a);
    assert x * b == (x * x) * h && y * a == (y * y) * h;
  }

  /** The centre lies at distance |r| from both ends of the arc. */
  lemma RadiusArcOnCircle(x: real, y: real, r: real, s: real, d: real, ccw: bool)
    requires IsRoot(s, FourHSquared(x, y, r)) && IsRoot(d, x * x + y * y) && d > 0.0
    ensures var h := CentreOffset(s, d, ccw, r);
            var i, j := CentreI(x, y, h), CentreJ(x, y, h);
            && i * i + j * j == r * r
            && (x - i) * (x - i) + (y - j) * (y - j) == r * r
  {
    var h := CentreOffset(s, d, ccw, r);
    CentreFromStart(x, y, h);
    CentreFromTarget(x, y, h);
    OffsetSquare(s, d, ccw, r);
    assert (h * d) * (h * d) == (d * d) * (h * h);
    assert (x * x + y * y) * (1.0 + h * h) == d * d + (d * d) * (h * h);
  }

  /** Right of the travel for G2 with R > 0 and left for G3; the other way round for R < 0; on the
      chord itself exactly for a half circle. */
  lemma RadiusArcSide(x: real, y: real, r: real, s: real, d: real, ccw: bool)
    requires IsRoot(s, FourHSquared(x, y, r)) && IsRoot(d, x * x + y * y) && d > 0.0
    ensures var h := CentreOffset(s, d, ccw, r);
            var side := Side(x, y, CentreI(x, y, h), CentreJ(x, y, h));
            && (side == 0.0 <==> s == 0.0)
            && (s > 0.0 ==> (side > 0.0 <==> ccw == (r >= 0.0)))
  {
    var h := CentreOffset(s, d, ccw, r);
    CentreSide(x, y, h);
    var q := s / d;
    assert q * d == s;
    assert s > 0.0 ==> q > 0.0;
    assert s == 0.0 ==> q == 0.0;
    var dd := 0.5 * (x * x + y * y);
    Positive(d, d, x * x + y * y);
    ProductSign(dd, h);
  }

  lemma ProductSign(a: real, h: real)
    requires a > 0.0
    ensures (a * h > 0.0 <==> h > 0.0) && (a * h == 0.0 <==> h == 0.0)
  {
    if h > 0.0 {
      assert a * h > 0.0;
    } else if h < 0.0 {
      assert a * (-h) > 0.0;
    }
  }

  /** No other point at that distance from both ends lies on that side of the travel. */
  lemma RadiusArcUnique(x: real, y: real, r: real, s: real, d: real, ccw: bool, i: real, j: real)
    requires IsRoot(s, FourHSquared(x, y, r)) && IsRoot(d, x * x + y * y) && d > 0.0
    requires i * i + j * j == r * r && (x - i) * (x - i) + (y - j) * (y - j) == r * r
    requires s > 0.0 ==> (Side(x, y, i, j) > 0.0 <==> ccw == (r >= 0.0))
    ensures var h := CentreOffset(s, d, ccw, r); i == CentreI(x, y, h) && j == CentreJ(x, y, h)
  {
    hide Side, CentreOffset, CentreI, CentreJ, FourHSquared, IsRoot;
    var h := CentreOffset(s, d, ccw, r);
    var i0, j0 := CentreI(x, y, h), CentreJ(x, y, h);
    RadiusArcOnCircle(x, y, r, s, d, ccw);
    RadiusArcSide(x, y, r, s, d, ccw);
    ChordProduct(x, y, i, j, r);
    ChordProduct(x, y, i0, j0, r);
    SideSquare(x, y, i, j, r);
    SideSquare(x, y, i0, j0, r);
    if s == 0.0 {
      SquaresOfZero(Side(x, y, i, j), Side(x, y, i0, j0));
    }
    RootNonNegative(s, FourHSquared(x, y, r));
    SameSquareSameSign(Side(x, y, i, j), Side(x, y, i0, j0));
    SamePoint(x, y, d, i, j, i0, j0, 0.5 * (x * x + y * y));
  }

  lemma SamePoint(x: real, y: real, d: real, i: real, j: real, i0: real, j0: real, p: real)
    requires IsRoot(d, x * x + y * y) && d > 0.0
    requires x * i + y * j == p && x * i0 + y * j0 == p && Side(x, y, i, j) == Side(x, y, i0, j0)
    ensures i == i0 && j == j0
  {
    hide Side, IsRoot;
    SideOfDifference(x, y, i, j, i0, j0);
    var a, b, dd := i - i0, j - j0, d * d;
    ChordPositive(x, y, d, dd);
    NothingAlongOrAcross(x, y, a, b, x * a + y * b, Side(x, y, a, b), dd, a * a + b * b);
  }

  lemma SideOfDifference(x: real, y: real, i: real, j: real, i0: real, j0: real)
    ensures Side(x, y, i - i0, j - j0) == Side(x, y, i, j) - Side(x, y, i0, j0)
    ensures x * (i - i0) + y * (j - j0) == (x * i + y * j) - (x * i0 + y * j0)
  {
  }

  /** A vector with no part along the chord and no part across it is zero. */
  lemma NothingAlongOrAcross(x: real, y: real, a: real, b: real, p: real, s: real, dd: real, q: real)
    requires p == x * a + y * b && s == Side(x, y, a, b) && dd == x * x + y * y && q == a * a + b * b
    requires p == 0.0 && s == 0.0 && dd > 0.0
    ensures a == 0.0 && b == 0.0
  {
    Lagrange(x, y, a, b);
    assert p * p + s * s == dd * q;
    ZeroSum(p, s, dd, q);
    SumOfSquares(a, b, a * a, b * b);
  }

  lemma ZeroSum(p: real, s: real, dd: real, q: real)
    requires p == 0.0 && s == 0.0 && dd > 0.0 && p * p + s * s == dd * q
    ensures q == 0.0
  {
    ZeroFactor(dd, q);
  }

  lemma ZeroFactor(p: real, q: real)
    requires p > 0.0 && p * q == 0.0
    ensures q == 0.0
  {
  }

  lemma SumOfSquares(a: real, b: real, p: real, q: real)
    requires p == a * a && q == b * b && p + q == 0.0
    ensures a == 0.0 && b == 0.0
  {
    SquareSign(a, p);
    SquareSign(b, q);
  }

  lemma SquareSign(a: real, p: real)
    requires p == a * a
    ensures p >= 0.0 && (p == 0.0 <==> a == 0.0)
  {
    if a > 0.0 {
      Positive(a, a, p);
    } else if a < 0.0 {
      Positive(-a, -a, p);
    }
  }

  lemma RootNonNegative(s: real, x: real)
    requires IsRoot(s, x)
    ensures s >= 0.0
  {
  }

  lemma ChordPositive(x: real, y: real, d: real, dd: real)
    requires IsRoot(d, x * x + y * y) && d > 0.0 && dd == d * d
    ensures dd > 0.0 && dd == x * x + y * y
  {
    Positive(d, d, dd);
  }

  lemma SquaresOfZero(c: real, c0: real)
    requires c * c == c0 * c0 && c0 == 0.0
    ensures c == 0.0
  {
    SquareSign(c, c0 * c0);
  }

  lemma SameSquareSameSign(c: real, c0: real)
    requires c * c == c0 * c0 && (c > 0.0 <==> c0 > 0.0)
    ensures c == c0
  {
    if c > 0.0 {
      RootUnique(c, c0, c * c);
    } else {
      assert (-c) * (-c) == c * c && (-c0) * (-c0) == c0 * c0;
      RootUnique(-c, -c0, c * c);
    }
  }

  lemma ChordProduct(x: real, y: real, i: real, j: real, r: real)
    requires i * i + j * j == r * r && (x - i) * (x - i) + (y - j) * (y - j) == r * r
    ensures x * i + y * j == 0.5 * (x * x + y * y)
  {
    assert (x - i) * (x - i) == x * x - 2.0 * (x * i) + i * i;
    assert (y - j) * (y - j) == y * y - 2.0 * (y * j) + j * j;
  }

  lemma SideSquare(x: real, y: real, i: real, j: real, r: real)
    requires i * i + j * j == r * r && x * i + y * j == 0.5 * (x * x + y * y)
    ensures var dd := x * x + y * y; Side(x, y, i, j) * Side(x, y, i, j) == dd * (r * r) - 0.25 * (dd * dd)
  {
    Lagrange(x, y, i, j);
    var dd, p, c := x * x + y * y, x * i + y * j, Side(x, y, i, j);
    assert p == 0.5 * dd;
    assert p * p == 0.25 * (dd * dd);
  }

  lemma Lagrange(x: real, y: real, i: real, j: real)
    ensures (x * i + y * j) * (x * i + y * j) + Side(x, y, i, j) * Side(x, y, i, j)
            == (x * x + y * y) * (i * i + j * j)
  {
    var a, b, p, q := x * i, y * j, x * j, y * i;
    assert (a + b) * (a + b) == a * a + 2.0 * (a * b) + b * b;
    assert (p - q) * (p - q) == p * p - 2.0 * (p * q) + q * q;
    assert a * b == p * q;
    assert a * a == (x * x) * (i * i) && b * b == (y * y) * (j * j);
    assert p * p == (x * x) * (j * j) && q * q == (y * y) * (i * i);
  }

  // ---------------------------------------------------------------- G5.1 as a cubic spline

  /** One coordinate of the inner control points. */
  function FirstControl(start: real, offset: real): real {
    start + (offset * 2.0) / 3.0
  }

  function SecondControl(start: real, offset: real, target: real): real {
    target + ((start + offset - target) * 2.0) / 3.0
  }

  function Interp(a: real, b: real, t: real): real {
    (1.0 - t) * a + t * b
  }

  /** eval_bezier: de Casteljau's construction of a cubic. */
  function EvalCubic(a: real, b: real, c: real, d: real, t: real): real {
    var ab, bc, cd := Interp(a, b, t), Interp(b, c, t), Interp(c, d, t);
    Interp(Interp(ab, bc, t), Interp(bc, cd, t), t)
  }

  function EvalQuadratic(a: real, b: real, c: real, t: real): real {
    Interp(Interp(a, b, t), Interp(b, c, t), t)
  }

  lemma CubicPolynomial(a: real, b: real, c: real, d: real, t: real)
    ensures var u := 1.0 - t;
            EvalCubic(a, b, c, d, t)
            == (u * u * u) * a + 3.0 * ((u * u * t) * b) + 3.0 * ((u * t * t) * c) + (t * t * t) * d
  {
    var u := 1.0 - t;
    var ab, bc, cd := u * a + t * b, u * b + t * c, u * c + t * d;
    assert u * ab + t * bc == (u * u) * a + 2.0 * ((u * t) * b) + (t * t) * c;
    assert u * bc + t * cd == (u * u) * b + 2.0 * ((u * t) * c) + (t * t) * d;
    var l, r := (u * u) * a + 2.0 * ((u * t) * b) + (t * t) * c, (u * u) * b + 2.0 * ((u * t) * c) + (t * t) * d;
    assert u * l == (u * u * u) * a + 2.0 * ((u * u * t) * b) + (u * t * t) * c;
    assert t * r == (u * u * t) * b + 2.0 * ((u * t * t) * c) + (t * t * t) * d;
  }

  lemma QuadraticPolynomial(a: real, b: real, c: real, t: real)
    ensures var u := 1.0 - t; EvalQuadratic(a, b, c, t) == (u * u) * a + 2.0 * ((u * t) * b) + (t * t) * c
  {
    var u := 1.0 - t;
    assert u * (u * a + t * b) == (u * u) * a + (u * t) * b;
    assert t * (u * b + t * c) == (u * t) * b + (t * t) * c;
  }

  /** Degree elevation: the cubic that is handed to the planner is the quadratic that was programmed. */
  lemma ElevationKeepsCurve(start: real, offset: real, target: real, t: real)
    ensures EvalCubic(start, FirstControl(start, offset), SecondControl(start, offset, target), target, t)
            == EvalQuadratic(start, start + offset, target, t)
  {
    hide EvalCubic, EvalQuadratic;
    var u, m := 1.0 - t, start + offset;
    var c1, c2 := FirstControl(start, offset), SecondControl(start, offset, target);
    CubicPolynomial(start, c1, c2, target, t);
    QuadraticPolynomial(start, m, target, t);
    assert 3.0 * c1 == start + 2.0 * m && 3.0 * c2 == target + 2.0 * m;
    var uut, utt := u * u * t, u * t * t;
    assert 3.0 * (uut * c1) == uut * start + 2.0 * (uut * m);
    assert 3.0 * (utt * c2) == utt * target + 2.0 * (utt * m);
    Weights(u, t);
    Gather(u, t, start, m, target);
  }

  lemma Weights(u: real, t: real)
    requires u + t == 1.0
    ensures u * u * u + u * u * t == u * u && t * t * t + u * t * t == t * t && u * u * t + u * t * t == u * t
  {
    assert u * u * u + u * u * t == (u * u) * (u + t);
    assert t * t * t + u * t * t == (t * t) * (t + u);
    assert u * u * t + u * t * t == (u * t) * (u + t);
  }

  lemma Gather(u: real, t: real, a: real, m: real, c: real)
    requires u * u * u + u * u * t == u * u && t * t * t + u * t * t == t * t && u * u * t + u * t * t == u * t
    ensures (u * u * u) * a + ((u * u * t) * a + 2.0 * ((u * u * t) * m)) + ((u * t * t) * c + 2.0 * ((u * t * t) * m)) + (t * t * t) * c
            == (u * u) * a + 2.0 * ((u * t) * m) + (t * t) * c
  {
    var p, q, r, s := u * u * u, u * u * t, u * t * t, t * t * t;
    assert p * a + q * a == (p + q) * a;
    assert s * c + r * c == (s + r) * c;
    assert q * m + r * m == (q + r) * m;
  }

  // ---------------------------------------------------------------- rotary axes

  /** fmodf(x, 360): the remainder takes the sign of x. */
  function FMod(x: real): real {
    x - 360.0 * (Trunc(x / 360.0) as real)
  }

  function Turned(x: real): real {
    if FMod(x) < 0.0 then 360.0 + FMod(x) else FMod(x)
  }

  /** The position that a wrapped axis is relabelled with, given its target within one turn. */
  function NearTarget(position: real, target: real): real {
    var p := Turned(position);
    if p - target < -180.0 then p + 360.0 else if p - target > 180.0 then p - 360.0 else p
  }

  function Turns(k: int): real {
    360.0 * (k as real)
  }

  ghost predicate Congruent(a: real, b: real) {
    exists k: int :: a == b + Turns(k)
  }

  lemma TurnedIsCongruent(x: real)
    ensures 0.0 <= Turned(x) < 360.0 && Congruent(Turned(x), x)
  {
    var q := x / 360.0;
    var n := Trunc(q);
    assert q * 360.0 == x;
    if FMod(x) < 0.0 {
      assert Turned(x) == x + Turns(1 - n);
    } else {
      assert Turned(x) == x + Turns(-n);
    }
  }

  /** The relabelled position is the same angle, at most half a turn from the target, and no other
      label of that angle is nearer. */
  lemma WrapIsShortest(position: real, home: real, k: int)
    ensures var target := Turned(home);
            var p := NearTarget(position, target);
            && 0.0 <= target < 360.0 && Congruent(target, home)
            && Congruent(p, position)
            && Abs(p - target) <= 180.0
            && Abs(p - target) <= Abs(p + Turns(k) - target)
  {
    TurnedIsCongruent(home);
    TurnedIsCongruent(position);
    var target, p0 := Turned(home), Turned(position);
    var p := NearTarget(position, target);
    var n: int :| p0 == position + Turns(n);
    if p0 - target < -180.0 {
      assert p == position + Turns(n + 1);
    } else if p0 - target > 180.0 {
      assert p == position + Turns(n - 1);
    }
    if k >= 1 {
      assert Turns(k) >= 360.0;
    } else if k <= -1 {
      assert Turns(k) <= -360.0;
    }
  }

  // ---------------------------------------------------------------- the loops over rotary axes

  /** The axes that G28 wraps in G91: rotary ones that the settings let wrap, named in the block, and not moved by the
      intermediate move. `eligible` are those that meet the first three conditions. */
  function WrapSet(incremental: bool, eligible: set<nat>, via: seq<real>, position: seq<real>): set<nat>
    requires |via| == |position|
  {
    set i | i in eligible && 3 <= i < |position| && incremental && via[i] == position[i]
  }

  /** The axis positions after the first loop, and the target of the move that follows it. */
  function Relabelled(machine: seq<real>, position: seq<real>, home: seq<real>, wrap: set<nat>): (r: seq<real>)
    requires |machine| == |position| == |home|
    ensures |r| == |position|
  {
    seq(|position|, i requires 0 <= i < |position| =>
      if 3 <= i && i in wrap then NearTarget(position[i], Turned(home[i])) else machine[i])
  }

  function WrapTarget(home: seq<real>, wrap: set<nat>): (r: seq<real>)
    ensures |r| == |home|
  {
    seq(|home|, i requires 0 <= i < |home| => if 3 <= i && i in wrap then Turned(home[i]) else home[i])
  }

  /** The loop that finds the wrapped axes. */
  method FindWrapped(incremental: bool, eligible: set<nat>, via: seq<real>, position: seq<real>) returns (wrap: set<nat>)
    requires |via| == |position|
    ensures wrap == WrapSet(incremental, eligible, via, position)
  {
    wrap := {};
    if incremental && eligible != {} {
      var i := 3;
      while i < |position|
        invariant 3 <= i
        invariant forall k :: k in wrap <==> k in eligible && 3 <= k < i && k < |position| && via[k] == position[k]
      {
        if i in eligible && via[i] == position[i] {
          wrap := wrap + {i};
        }
        i := i + 1;
      }
    }
  }

  /** The homing move of a G28 behind its intermediate move to `via`. `machine` is sys.position in millimetres or degrees
      and `position` the position of the parser; the planner leaves the machine at the target of a move. */
  method WrapHome(machine: array<real>, position: array<real>, via: seq<real>, home: seq<real>, incremental: bool, eligible: set<nat>)
    returns (from: seq<real>, moved: seq<real>)
    requires machine.Length == position.Length == |via| == |home| && machine != position
    modifies machine, position
    ensures var wrap := WrapSet(incremental, eligible, via, old(position[..]));
            from == Relabelled(old(machine[..]), old(position[..]), home, wrap) && moved == WrapTarget(home, wrap)
    ensures machine[..] == home && position[..] == home
  {
    var wrap := FindWrapped(incremental, eligible, via, position[..]);
    var target := home;
    if wrap != {} {
      var i := 3;
      while i < machine.Length
        invariant 3 <= i
        invariant |target| == |home|
        invariant position[..] == old(position[..])
        invariant forall k :: 0 <= k < |home| ==> target[k] == if 3 <= k < i && k in wrap then Turned(home[k]) else home[k]
        invariant forall k :: 0 <= k < |home| ==>
          machine[k] == if 3 <= k < i && k in wrap then NearTarget(position[k], Turned(home[k])) else old(machine[k])
      {
        if i in wrap {
          target := target[i := Turned(home[i])];
          var near := Turned(position[i]);
          var delta := near - target[i];
          if delta < -180.0 {
            near := near + 360.0;
          } else if delta > 180.0 {
            near := near - 360.0;
          }
          machine[i] := near;
        }
        i := i + 1;
      }
    }
    from := machine[..];
    moved := target;
    forall k | 0 <= k < machine.Length {
      machine[k] := target[k];
    }
    if wrap != {} {
      var j := 3;
      while j < machine.Length
        invariant 3 <= j
        invariant position[..] == old(position[..])
        invariant forall k :: 0 <= k < |home| ==> machine[k] == if 3 <= k < j && k in wrap then home[k] else target[k]
      {
        if j in wrap {
          machine[j] := home[j];
        }
        j := j + 1;
      }
    }
    forall k | 0 <= k < position.Length {
      position[k] := home[k];
    }
  }
}
