/** Plane geometry (`api/app/sim/geometry.py`) over exact reals: the square root is the
    mathematical one, handed in rather than computed. */
module Geometry {
  import opened Common

  datatype Plane = Plane(sqrt: real -> real)

  ghost predicate ValidPlane(plane: Plane) {
    forall x: real {:trigger plane.sqrt(x)} ::
      x >= 0.0 ==> plane.sqrt(x) >= 0.0 && plane.sqrt(x) * plane.sqrt(x) == x
  }

  function Times(x: real, y: real): (product: real)
    ensures x > 0.0 && y > 0.0 ==> product > 0.0
    ensures x < 0.0 && y < 0.0 ==> product > 0.0
    ensures x == 0.0 || y == 0.0 ==> product == 0.0
  {
    x * y
  }

  function Square(x: real): (square: real)
    ensures square >= 0.0
    ensures square == 0.0 <==> x == 0.0
  {
    Times(x, x)
  }

  function SquaredGap(a: Vec2, b: Vec2): real {
    Square(b.x - a.x) + Square(b.y - a.y)
  }

  function Distance(plane: Plane, a: Vec2, b: Vec2): real {
    plane.sqrt(SquaredGap(a, b))
  }

  /** The point a share `scale` of the way from `origin` to `target`. */
  function Partway(origin: Vec2, target: Vec2, scale: real): Vec2 {
    Vec2(origin.x + (target.x - origin.x) * scale, origin.y + (target.y - origin.y) * scale)
  }

  /** `move_toward`: at most `step` of the way, stopping exactly on the target. */
  function MoveToward(plane: Plane, origin: Vec2, target: Vec2, step: real): Vec2 {
    var gap := Distance(plane, origin, target);
    if gap == 0.0 || step >= gap then target else Partway(origin, target, step / gap)
  }

  /** `point_along`: `move_toward` without the clamp. */
  function PointAlong(plane: Plane, origin: Vec2, bearing: Vec2, reach: real): Vec2 {
    var gap := Distance(plane, origin, bearing);
    if gap == 0.0 then origin else Partway(origin, bearing, reach / gap)
  }

  function Abs(x: real): real { if x < 0.0 then -x else x }

  // ---- what a distance is ----

  lemma DifferenceOfSquares(a: real, b: real)
    ensures Square(b) - Square(a) == (b - a) * (b + a)
  {
  }

  lemma SquaresOrder(a: real, b: real)
    requires a >= 0.0 && b >= 0.0
    ensures a <= b <==> Square(a) <= Square(b)
    ensures a == b <==> Square(a) == Square(b)
    ensures a < b <==> Square(a) < Square(b)
  {
    if a < b {
      DifferenceOfSquares(a, b);
      assert Times(b - a, b + a) > 0.0;
    } else if b < a {
      DifferenceOfSquares(b, a);
      assert Times(a - b, a + b) > 0.0;
    }
    hide Square;
  }

  lemma SumOfSquares(x: real, y: real, d: real)
    requires Square(d) == Square(x) + Square(y)
    ensures d == 0.0 <==> x == 0.0 && y == 0.0
  {
    hide Square;
  }

  lemma DistanceFacts(plane: Plane, a: Vec2, b: Vec2)
    requires ValidPlane(plane)
    ensures Distance(plane, a, b) >= 0.0
    ensures Square(Distance(plane, a, b)) == SquaredGap(a, b)
    ensures Distance(plane, a, b) == Distance(plane, b, a)
    ensures Distance(plane, a, b) == 0.0 <==> a == b
  {
    assert SquaredGap(a, b) == SquaredGap(b, a);
    SumOfSquares(b.x - a.x, b.y - a.y, Distance(plane, a, b));
  }

  /** The only nonnegative number with the right square. */
  lemma DistanceIs(plane: Plane, a: Vec2, b: Vec2, d: real)
    requires ValidPlane(plane) && d >= 0.0 && Square(d) == SquaredGap(a, b)
    ensures Distance(plane, a, b) == d
  {
    DistanceFacts(plane, a, b);
    SquaresOrder(Distance(plane, a, b), d);
  }

  lemma Lagrange(ux: real, uy: real, vx: real, vy: real)
    ensures (Square(ux) + Square(uy)) * (Square(vx) + Square(vy))
         == Square(ux * vx + uy * vy) + Square(ux * vy - uy * vx)
  {
    var a, b, c, d := ux * vx, uy * vy, ux * vy, uy * vx;
    assert a * b == c * d;
    assert Square(a + b) == Square(a) + Square(b) + 2.0 * (a * b);
    assert Square(c - d) == Square(c) + Square(d) - 2.0 * (c * d);
    SquareOfProduct(ux, vx);
    SquareOfProduct(uy, vy);
    SquareOfProduct(ux, vy);
    SquareOfProduct(uy, vx);
  }

  lemma SquareOfProduct(x: real, y: real)
    ensures Square(x * y) == Times(Square(x), Square(y))
    ensures Square(Times(x, y)) == Times(Square(x), Square(y))
  {
  }

  lemma DotWithinLengths(ux: real, uy: real, vx: real, vy: real, u: real, v: real)
    requires u >= 0.0 && v >= 0.0
    requires Square(u) == Square(ux) + Square(uy) && Square(v) == Square(vx) + Square(vy)
    ensures ux * vx + uy * vy <= u * v
  {
    var dot, cross := ux * vx + uy * vy, ux * vy - uy * vx;
    if dot > 0.0 {
      SquareOfProduct(u, v);
      Lagrange(ux, uy, vx, vy);
      assert Square(u) * Square(v) == Square(dot) + Square(cross);
      assert Square(dot) <= Square(u * v);
      SquaresOrder(dot, u * v);
    }
  }

  lemma SquareOfSum(x: real, y: real)
    ensures Square(x + y) == Square(x) + Square(y) + 2.0 * (x * y)
  {
  }

  lemma Triangle(plane: Plane, a: Vec2, b: Vec2, c: Vec2)
    requires ValidPlane(plane)
    ensures Distance(plane, a, c) <= Distance(plane, a, b) + Distance(plane, b, c)
  {
    var u, v := Distance(plane, a, b), Distance(plane, b, c);
    DistanceFacts(plane, a, b);
    DistanceFacts(plane, b, c);
    DistanceFacts(plane, a, c);
    var ux, uy, vx, vy := b.x - a.x, b.y - a.y, c.x - b.x, c.y - b.y;
    DotWithinLengths(ux, uy, vx, vy, u, v);
    SquareOfSum(ux, vx);
    SquareOfSum(uy, vy);
    SquareOfSum(u, v);
    SquaresOrder(Distance(plane, a, c), u + v);
  }

  // ---- what a step is ----

  lemma SquareOfOpposite(x: real)
    ensures Square(-x) == Square(x)
  {
  }

  lemma SquaresWithin(a: real, b: real)
    requires Abs(a) <= Abs(b)
    ensures Square(a) <= Square(b)
  {
    SquareOfOpposite(a);
    SquareOfOpposite(b);
    SquaresOrder(Abs(a), Abs(b));
  }

  lemma SquareScales(x: real, y: real, scale: real, sx: real, sy: real)
    requires sx == x * scale && sy == y * scale
    ensures Square(sx) + Square(sy) == Times(Square(scale), Square(x) + Square(y))
  {
    SquareOfProduct(x, scale);
    SquareOfProduct(y, scale);
    SameSquare(sx, x * scale);
    SameSquare(sy, y * scale);
    hide Square;
  }

  lemma SameSquare(x: real, y: real)
    requires x == y
    ensures Square(x) == Square(y)
  {
  }

  lemma RestOfStep(a: real, b: real, scale: real, p: real)
    requires p == a + (b - a) * scale
    ensures p - a == (b - a) * scale && b - p == (b - a) * (1.0 - scale)
  {
  }

  lemma ScaledGap(a: Vec2, b: Vec2, scale: real)
    ensures SquaredGap(a, Partway(a, b, scale)) == Times(Square(scale), SquaredGap(a, b))
    ensures SquaredGap(Partway(a, b, scale), b) == Times(Square(1.0 - scale), SquaredGap(a, b))
  {
    hide Square, Times;
    var p := Partway(a, b, scale);
    RestOfStep(a.x, b.x, scale, p.x);
    RestOfStep(a.y, b.y, scale, p.y);
    SquareScales(b.x - a.x, b.y - a.y, scale, p.x - a.x, p.y - a.y);
    SquareScales(b.x - a.x, b.y - a.y, 1.0 - scale, b.x - p.x, b.y - p.y);
  }

  lemma ScaledLength(plane: Plane, a: Vec2, b: Vec2, c: Vec2, d: Vec2, scale: real)
    requires ValidPlane(plane) && SquaredGap(c, d) == Times(Square(scale), SquaredGap(a, b))
    ensures Distance(plane, c, d) == Abs(scale) * Distance(plane, a, b)
  {
    hide ValidPlane, SquaredGap, Distance, Square;
    var gap := Distance(plane, a, b);
    DistanceFacts(plane, a, b);
    SquareOfProduct(Abs(scale), gap);
    SquareOfOpposite(scale);
    assert Abs(scale) * gap == Times(Abs(scale), gap) && Times(Abs(scale), gap) >= 0.0;
    assert Square(Abs(scale)) == Square(scale);
    DistanceIs(plane, c, d, Times(Abs(scale), gap));
  }

  lemma ScaledDistance(plane: Plane, a: Vec2, b: Vec2, scale: real)
    requires ValidPlane(plane)
    ensures Distance(plane, a, Partway(a, b, scale)) == Abs(scale) * Distance(plane, a, b)
    ensures Distance(plane, Partway(a, b, scale), b) == Abs(1.0 - scale) * Distance(plane, a, b)
  {
    ScaledGap(a, b, scale);
    hide ValidPlane, SquaredGap, Distance, Partway, Square;
    ScaledLength(plane, a, b, a, Partway(a, b, scale), scale);
    ScaledLength(plane, a, b, Partway(a, b, scale), b, 1.0 - scale);
  }

  /** A share of a length, and what is left of it. */
  lemma Shares(part: real, whole: real, share: real)
    requires whole > 0.0 && share == part / whole
    ensures share * whole == part && (1.0 - share) * whole == whole - part
    ensures part >= 0.0 ==> share >= 0.0
    ensures part < whole <==> share < 1.0
    ensures Abs(1.0 - share) * whole == Abs(whole - part)
  {
    assert share * whole == part;
    var left := 1.0 - share;
    assert left * whole == whole - part;
    if left > 0.0 { assert Times(left, whole) > 0.0; }
    if left < 0.0 { assert Times(-left, whole) > 0.0; }
    if share < 0.0 { assert Times(-share, whole) > 0.0; }
  }

  /** A walk never overshoots, and covers exactly the ground it was given short of arriving. */
  lemma WalkCovers(plane: Plane, origin: Vec2, target: Vec2, step: real)
    requires ValidPlane(plane) && step >= 0.0
    ensures var gap, end := Distance(plane, origin, target), MoveToward(plane, origin, target, step);
      && Distance(plane, origin, end) == Min(step, gap)
      && Distance(plane, end, target) == gap - Min(step, gap)
  {
    hide ValidPlane, SquaredGap, Distance, Partway, Square;
    DistanceFacts(plane, origin, target);
    DistanceFacts(plane, target, target);
    var gap := Distance(plane, origin, target);
    if gap != 0.0 && step < gap {
      ScaledDistance(plane, origin, target, step / gap);
      Shares(step, gap, step / gap);
    }
  }

  /** A planted point stands exactly `reach` from its origin, on the bearing's line. */
  lemma PointStands(plane: Plane, origin: Vec2, bearing: Vec2, reach: real)
    requires ValidPlane(plane) && reach >= 0.0 && origin != bearing
    ensures var gap, end := Distance(plane, origin, bearing), PointAlong(plane, origin, bearing, reach);
      && Distance(plane, origin, end) == reach
      && Distance(plane, end, bearing) == Abs(gap - reach)
  {
    hide ValidPlane, SquaredGap, Distance, Partway, Square;
    DistanceFacts(plane, origin, bearing);
    var gap := Distance(plane, origin, bearing);
    ScaledDistance(plane, origin, bearing, reach / gap);
    Shares(reach, gap, reach / gap);
  }

  /** Comparing a distance with a length is comparing their squares. */
  lemma DistanceCompares(plane: Plane, a: Vec2, b: Vec2, dx: real, dy: real, length: real)
    requires ValidPlane(plane) && length >= 0.0
    requires dx == b.x - a.x && dy == b.y - a.y
    ensures Distance(plane, a, b) < length <==> dx * dx + dy * dy < length * length
  {
    hide ValidPlane, Distance;
    DistanceFacts(plane, a, b);
    SquaresOrder(length, Distance(plane, a, b));
  }

  lemma DistanceAcross(plane: Plane, a: Vec2, b: Vec2, length: real)
    requires ValidPlane(plane) && length >= 0.0
    requires b.x - a.x == length && a.y == b.y
    ensures Distance(plane, a, b) == length
  {
    hide ValidPlane, Distance;
    DistanceIs(plane, a, b, length);
  }
}
