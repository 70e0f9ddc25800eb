/** Whether a barricade can be stepped over (`api/app/sim/blocking.py`): the clamp looks only
    at where a step ends, so a disc between its ends is met exactly on a grazing chord. */
module Tunnelling {
  import opened Common
  import opened BattleWorld
  import opened Geometry
  import opened Blocking

  /** A step that starts and ends outside a disc and passes through it. */
  ghost predicate Tunnels(plane: Plane, start: Vec2, destination: Vec2, wall: Unit) {
    && !Inside(plane, start, wall) && !Inside(plane, destination, wall)
    && exists t: real :: 0.0 <= t <= 1.0 && Inside(plane, Partway(start, destination, t), wall)
  }

  /** The disc's centre lies beside the step, nearer its line than the radius. */
  predicate Beside(start: Vec2, destination: Vec2, wall: Unit) {
    var length, along := SquaredGap(start, destination), Along(start, destination, wall.position);
    && wall.blockRadius > 0.0
    && 0.0 < along < length
    && Square(Off(start, destination, wall.position)) < Times(Square(wall.blockRadius), length)
  }

  /** A point of the step is in the disc just when this much of the radius is left for it. */
  predicate Reaches(length: real, walked: real, along: real, off: real, radius: real) {
    radius > 0.0 && Square(walked - along) + Square(off) < Times(Square(radius), length)
  }

  lemma InsideReaches(plane: Plane, start: Vec2, destination: Vec2, wall: Unit, t: real)
    requires ValidPlane(plane) && start != destination
    ensures SquaredGap(start, destination) > 0.0
    ensures Inside(plane, Partway(start, destination, t), wall)
       <==> Reaches(SquaredGap(start, destination), Times(t, SquaredGap(start, destination)),
                    Along(start, destination, wall.position), Off(start, destination, wall.position), wall.blockRadius)
  {
    hide ValidPlane, Distance, Partway, SquaredGap, Along, Off, Square, Times;
    var p, c, r := Partway(start, destination, t), wall.position, wall.blockRadius;
    DistanceFacts(plane, start, destination);
    DistanceFacts(plane, p, c);
    GapOfPoint(start, destination, c, t);
    PositiveSquare(Distance(plane, start, destination));
    if r > 0.0 {
      SquaresOrder(Distance(plane, p, c), r);
      ScaleCompares(SquaredGap(start, destination), SquaredGap(p, c), Square(r));
    }
  }

  lemma PositiveSquare(x: real)
    requires x != 0.0
    ensures Square(x) > 0.0
  {
  }

  lemma EndsOfStep(start: Vec2, destination: Vec2)
    ensures Partway(start, destination, 0.0) == start && Partway(start, destination, 1.0) == destination
  {
  }

  lemma ShareOf(t: real, length: real)
    requires length > 0.0 && 0.0 <= t <= 1.0
    ensures 0.0 <= Times(t, length) <= length
  {
    assert Times(1.0 - t, length) == length - Times(t, length);
  }

  /** A point inside, with neither end inside, puts the centre beside the step. */
  lemma ReachedMidway(length: real, walked: real, along: real, off: real, radius: real)
    requires 0.0 <= walked <= length && Reaches(length, walked, along, off, radius)
    requires !Reaches(length, 0.0, along, off, radius) && !Reaches(length, length, along, off, radius)
    ensures 0.0 < along < length
    ensures Square(off) < Times(Square(radius), length)
  {
    hide Square, Times;
    if along <= 0.0 { SquaresWithin(0.0 - along, walked - along); }
    if along >= length { SquaresWithin(length - along, walked - along); }
  }

  /** Exactly when a step goes through a disc it neither starts nor ends in: when the centre
      is beside the step and nearer its line than the radius. No such disc ever stops it. */
  lemma TunnelsExactlyBeside(plane: Plane, start: Vec2, destination: Vec2, wall: Unit)
    requires ValidPlane(plane)
    ensures Tunnels(plane, start, destination, wall)
       <==> !Inside(plane, start, wall) && !Inside(plane, destination, wall) && Beside(start, destination, wall)
    ensures Tunnels(plane, start, destination, wall) ==> !Stops(plane, start, destination, wall)
  {
    hide ValidPlane, Inside, Partway, SquaredGap, Along, Off, Square, Times, Reaches;
    if start == destination {
      StandingStill(start, wall);
      forall t: real ensures Partway(start, destination, t) == start { StaysPut(start, t); }
    } else if !Inside(plane, start, wall) && !Inside(plane, destination, wall) {
      var length, along, off := SquaredGap(start, destination), Along(start, destination, wall.position), Off(start, destination, wall.position);
      EndsOfStep(start, destination);
      InsideReaches(plane, start, destination, wall, 0.0);
      InsideReaches(plane, start, destination, wall, 1.0);
      ShareOf(0.0, length);
      WholeShare(length);
      if Beside(start, destination, wall) {
        var t := along / length;
        Shares(along, length, t);
        InsideReaches(plane, start, destination, wall, t);
        Midpoint(length, t, along, off, wall.blockRadius);
        assert Inside(plane, Partway(start, destination, t), wall);
      }
      if t: real :| 0.0 <= t <= 1.0 && Inside(plane, Partway(start, destination, t), wall) {
        InsideReaches(plane, start, destination, wall, t);
        ShareOf(t, length);
        ReachedMidway(length, Times(t, length), along, off, wall.blockRadius);
        assert wall.blockRadius > 0.0 by { ReachNeedsRadius(length, Times(t, length), along, off, wall.blockRadius); }
      }
    }
  }

  lemma ReachNeedsRadius(length: real, walked: real, along: real, off: real, radius: real)
    requires Reaches(length, walked, along, off, radius)
    ensures radius > 0.0
  {
  }

  lemma StandingStill(start: Vec2, wall: Unit)
    ensures !Beside(start, start, wall)
  {
    assert Along(start, start, wall.position) == 0.0;
  }

  lemma StaysPut(start: Vec2, t: real)
    ensures Partway(start, start, t) == start
  {
  }

  lemma WholeShare(length: real)
    ensures Times(1.0, length) == length && Times(0.0, length) == 0.0
  {
  }

  lemma Midpoint(length: real, t: real, along: real, off: real, radius: real)
    requires t * length == along && radius > 0.0 && Square(off) < Times(Square(radius), length)
    ensures Reaches(length, Times(t, length), along, off, radius)
  {
    assert Times(t, length) - along == 0.0;
  }

  /** What is left of the claim: a step of length `d` that goes through a disc of radius `r`
      comes no nearer its centre than the square root of r * r - d * d / 4. */
  lemma TunnellingIsShallow(plane: Plane, start: Vec2, destination: Vec2, wall: Unit, t: real)
    requires ValidPlane(plane) && Tunnels(plane, start, destination, wall)
    ensures SquaredGap(Partway(start, destination, t), wall.position)
         >= Square(wall.blockRadius) - SquaredGap(start, destination) / 4.0
  {
    hide ValidPlane, Tunnels, Inside, Partway, SquaredGap, Along, Off, Square, Times;
    TunnelsExactlyBeside(plane, start, destination, wall);
    assert start != destination by { StandingStill(start, wall); }
    var length, along, off := SquaredGap(start, destination), Along(start, destination, wall.position), Off(start, destination, wall.position);
    EndsOfStep(start, destination);
    InsideReaches(plane, start, destination, wall, 0.0);
    InsideReaches(plane, start, destination, wall, 1.0);
    WholeShare(length);
    GapOfPoint(start, destination, wall.position, t);
    NoDeeper(length, along, off, wall.blockRadius);
    DividesBack(length, SquaredGap(Partway(start, destination, t), wall.position), Square(wall.blockRadius));
  }

  lemma NoDeeper(length: real, along: real, off: real, radius: real)
    requires radius > 0.0 && 0.0 < along < length
    requires !Reaches(length, 0.0, along, off, radius) && !Reaches(length, length, along, off, radius)
    ensures Square(off) >= Times(Square(radius), length) - Square(length) / 4.0
  {
    HalfSquared(length);
    hide Square, Times;
    if along <= length / 2.0 { SquaresWithin(0.0 - along, length / 2.0); } else { SquaresWithin(length - along, length / 2.0); }
  }

  lemma HalfSquared(length: real)
    ensures Square(length / 2.0) == Square(length) / 4.0
  {
  }

  lemma DividesBack(length: real, gap: real, radius: real)
    requires length > 0.0 && Times(length, gap) >= Times(radius, length) - Square(length) / 4.0
    ensures gap >= radius - length / 4.0
  {
    var short := radius - length / 4.0 - gap;
    assert Times(short, length) == Times(radius, length) - Square(length) / 4.0 - Times(length, gap);
    assert short > 0.0 ==> Times(short, length) > 0.0;
  }

  // ---- at any speed ----

  /** A centre beside the middle of a step, `tilt` step-lengths off its line. */
  function BesideMiddle(start: Vec2, destination: Vec2, tilt: real): Vec2 {
    var dx, dy := destination.x - start.x, destination.y - start.y;
    Vec2(start.x + dx / 2.0 - tilt * dy, start.y + dy / 2.0 + tilt * dx)
  }

  lemma BesideMiddleMeasures(start: Vec2, destination: Vec2, tilt: real)
    ensures Along(start, destination, BesideMiddle(start, destination, tilt)) == SquaredGap(start, destination) / 2.0
    ensures Off(start, destination, BesideMiddle(start, destination, tilt)) == Times(tilt, SquaredGap(start, destination))
  {
    var dx, dy := destination.x - start.x, destination.y - start.y;
    CrossTerms(dx, dy, dx / 2.0 - tilt * dy, dy / 2.0 + tilt * dx, tilt);
  }

  lemma CrossTerms(dx: real, dy: real, ex: real, ey: real, tilt: real)
    requires ex == dx / 2.0 - tilt * dy && ey == dy / 2.0 + tilt * dx
    ensures dx * ex + dy * ey == (Square(dx) + Square(dy)) / 2.0
    ensures dx * ey - dy * ex == Times(tilt, Square(dx) + Square(dy))
  {
    assert dx * (tilt * dy) == dy * (tilt * dx);
  }

  /** How far off the line a disc must stand to be cleared at both ends and still be met. */
  lemma TiltExists(plane: Plane, length: real, radius: real) returns (tilt: real)
    requires ValidPlane(plane) && length > 0.0 && radius > 0.0
    ensures Square(Times(tilt, length)) < Times(Square(radius), length)
    ensures Square(length / 2.0) + Square(Times(tilt, length)) >= Times(Square(radius), length)
  {
    var share := Square(radius) / length - 1.0 / 4.0;
    var total := Times(Square(radius), length);
    tilt := if share >= 0.0 then plane.sqrt(share) else 0.0;
    assert share >= 0.0 ==> Square(tilt) == share;
    HalfSquared(length);
    ScaledShare(length, Square(radius), share);
    SquareOfProduct(tilt, length);
    PositiveSquare(length);
    PositiveSquare(radius);
    hide Square;
    if share < 0.0 { assert Times(0.0 - share, Square(length)) > 0.0; Negated(share, Square(length)); }
  }

  lemma Negated(x: real, y: real)
    ensures Times(0.0 - x, y) == 0.0 - Times(x, y)
  {
  }

  lemma ScaledShare(length: real, squared: real, share: real)
    requires length > 0.0 && share == squared / length - 1.0 / 4.0
    ensures Times(share, Square(length)) == Times(squared, length) - Square(length) / 4.0
  {
    var q := squared / length;
    assert q * length == squared;
    assert Times(q, Square(length)) == (q * length) * length;
  }

  /** However short the step and however wide the disc, some disc that wide is gone through:
      the clamp leaves the step as it was. */
  lemma EveryStepTunnelsSomeDisc(plane: Plane, start: Vec2, destination: Vec2, radius: real)
    requires ValidPlane(plane) && start != destination && radius > 0.0
    ensures exists centre: Vec2 :: Tunnels(plane, start, destination, Wall(centre, radius))
                                   && Clamped(plane, start, destination, [Wall(centre, radius)]) == destination
  {
    hide ValidPlane, Inside, Partway, SquaredGap, Along, Off, Square, Times, Clamped, BesideMiddle;
    var length := SquaredGap(start, destination);
    InsideReaches(plane, start, destination, Wall(start, radius), 0.0);
    var tilt := TiltExists(plane, length, radius);
    var centre := BesideMiddle(start, destination, tilt);
    var wall := Wall(centre, radius);
    BesideMiddleMeasures(start, destination, tilt);
    EndsOfStep(start, destination);
    InsideReaches(plane, start, destination, wall, 0.0);
    InsideReaches(plane, start, destination, wall, 1.0);
    WholeShare(length);
    SquareOfOpposite(length / 2.0);
    TunnelsExactlyBeside(plane, start, destination, wall);
    ClampShortensOnly(plane, start, destination, [wall]);
    assert Tunnels(plane, start, destination, Wall(centre, radius));
  }

  /** What stops a step is never entered at all: every point of the walk that is left stays a
      radius away, not only its end. */
  lemma WalkStaysClear(plane: Plane, start: Vec2, destination: Vec2, blockers: seq<Unit>, blocker: Unit, t: real)
    requires ValidPlane(plane) && blocker in blockers && 0.0 <= t <= 1.0
    requires Stops(plane, start, destination, blocker)
    ensures !Inside(plane, Partway(start, Clamped(plane, start, destination, blockers), t), blocker)
  {
    var end := Clamped(plane, start, destination, blockers);
    ClampShortensOnly(plane, start, destination, blockers);
    AllowanceIs(plane, start, destination, blockers);
    hide ValidPlane, Distance, Partway, Clamped, Allowance, Square, SquaredGap;
    var p := Partway(start, end, t);
    ScaledDistance(plane, start, end, t);
    DistanceFacts(plane, start, end);
    ShareBelow(t, Distance(plane, start, end));
    assert Distance(plane, start, p) <= Allowance(plane, start, destination, blockers);
    assert Allowance(plane, start, destination, blockers) <= Cap(plane, start, blocker);
    Triangle(plane, start, p, blocker.position);
  }

  lemma ShareBelow(t: real, length: real)
    requires 0.0 <= t <= 1.0 && length >= 0.0
    ensures Abs(t) * length <= length
  {
    if length > 0.0 { ShareOf(t, length); }
  }
}
