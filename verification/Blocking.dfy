/** Barricades (`api/app/sim/blocking.py`): a step into a disc is cut short at its edge. */
module Blocking {
  import opened Common
  import opened Ordering
  import opened BattleWorld
  import opened Geometry

  predicate Blocks(unit: Unit, other: Unit) {
    other.blocksMovement && other.side != unit.side && IsAlive(other) && other.id != unit.id
  }

  /** `blockers_against`, in world order. */
  function BlockersAgainst(units: seq<Unit>, unit: Unit): seq<Unit> {
    Filter((other: Unit) => Blocks(unit, other), units)
  }

  /** The barricades a unit has to respect: living, of the other side, and not itself. */
  lemma BlockersExactly(units: seq<Unit>, unit: Unit, b: Unit)
    ensures b in BlockersAgainst(units, unit) <==> b in units && b.blocksMovement && b.side == Opposing(unit.side) && b.hp > 0.0 && b.id != unit.id
  {
    FilterMembers((other: Unit) => Blocks(unit, other), units);
  }

  predicate Inside(plane: Plane, point: Vec2, blocker: Unit) {
    Distance(plane, point, blocker.position) < blocker.blockRadius
  }

  /** Whether a blocker stops this step: it holds the destination and not the start. */
  predicate Stops(plane: Plane, start: Vec2, destination: Vec2, blocker: Unit) {
    Inside(plane, destination, blocker) && !Inside(plane, start, blocker)
  }

  /** How far toward a blocker a unit may go before standing on its edge. */
  function Cap(plane: Plane, start: Vec2, blocker: Unit): real {
    Distance(plane, start, blocker.position) - blocker.blockRadius
  }

  /** The tightest cap among the blockers that stop the step, or the whole step. */
  ghost predicate IsAllowance(plane: Plane, start: Vec2, destination: Vec2, blockers: seq<Unit>, allowed: real) {
    && allowed <= Distance(plane, start, destination)
    && (forall b :: b in blockers && Stops(plane, start, destination, b) ==> allowed <= Cap(plane, start, b))
    && (allowed == Distance(plane, start, destination)
        || exists b :: b in blockers && Stops(plane, start, destination, b) && allowed == Cap(plane, start, b))
  }

  function Allowance(plane: Plane, start: Vec2, destination: Vec2, blockers: seq<Unit>): real {
    if blockers == [] then Distance(plane, start, destination)
    else
      var rest, last := Allowance(plane, start, destination, blockers[..|blockers| - 1]), blockers[|blockers| - 1];
      if Stops(plane, start, destination, last) then Min(rest, Cap(plane, start, last)) else rest
  }

  lemma {:induction false} AllowanceIs(plane: Plane, start: Vec2, destination: Vec2, blockers: seq<Unit>)
    ensures IsAllowance(plane, start, destination, blockers, Allowance(plane, start, destination, blockers))
  {
    if blockers != [] {
      AllowanceIs(plane, start, destination, blockers[..|blockers| - 1]);
      assert blockers == blockers[..|blockers| - 1] + [blockers[|blockers| - 1]];
    }
  }

  lemma AllowanceUnique(plane: Plane, start: Vec2, destination: Vec2, a: seq<Unit>, b: seq<Unit>, x: real, y: real)
    requires forall u :: u in a <==> u in b
    requires IsAllowance(plane, start, destination, a, x) && IsAllowance(plane, start, destination, b, y)
    ensures x == y
  {
  }

  /** `clamp_to_blockers`. */
  function Clamped(plane: Plane, start: Vec2, destination: Vec2, blockers: seq<Unit>): Vec2 {
    if Distance(plane, start, destination) == 0.0 then destination
    else
      var allowed := Allowance(plane, start, destination, blockers);
      if allowed >= Distance(plane, start, destination) then destination
      else MoveToward(plane, start, destination, allowed)
  }

  /** The step as the server takes it, one blocker at a time. */
  method ClampToBlockers(plane: Plane, units: seq<Unit>, unit: Unit, destination: Vec2) returns (end: Vec2)
    ensures end == Clamped(plane, unit.position, destination, BlockersAgainst(units, unit))
  {
    var step := Distance(plane, unit.position, destination);
    if step == 0.0 { return destination; }
    var blockers := BlockersAgainst(units, unit);
    var allowed := step;
    for i := 0 to |blockers|
      invariant allowed == Allowance(plane, unit.position, destination, blockers[..i])
    {
      assert blockers[..i + 1][..i] == blockers[..i];
      var blocker := blockers[i];
      if Distance(plane, destination, blocker.position) >= blocker.blockRadius { continue; }
      var startGap := Distance(plane, unit.position, blocker.position);
      if startGap < blocker.blockRadius { continue; }
      allowed := Min(allowed, startGap - blocker.blockRadius);
    }
    assert blockers[..|blockers|] == blockers;
    end := if allowed >= step then destination else MoveToward(plane, unit.position, destination, allowed);
  }

  /** The server's clamp never asks the walker to step backwards. */
  lemma AllowanceNotNegative(plane: Plane, start: Vec2, destination: Vec2, blockers: seq<Unit>)
    requires ValidPlane(plane)
    ensures 0.0 <= Allowance(plane, start, destination, blockers) <= Distance(plane, start, destination)
  {
    AllowanceIs(plane, start, destination, blockers);
    DistanceFacts(plane, start, destination);
  }

  /** A blocker that stops a step always stops it short. */
  lemma CapsBite(plane: Plane, start: Vec2, destination: Vec2, blocker: Unit)
    requires ValidPlane(plane) && Stops(plane, start, destination, blocker)
    ensures Cap(plane, start, blocker) < Distance(plane, start, destination)
  {
    Triangle(plane, start, destination, blocker.position);
  }

  /** Only ever shortened, never turned: the end lies on the segment, exactly as far along
      it as allowed, and is the destination just when no blocker stops the step. */
  lemma ClampShortensOnly(plane: Plane, start: Vec2, destination: Vec2, blockers: seq<Unit>)
    requires ValidPlane(plane)
    ensures var end := Clamped(plane, start, destination, blockers);
      && Distance(plane, start, end) == Allowance(plane, start, destination, blockers)
      && Distance(plane, start, end) + Distance(plane, end, destination) == Distance(plane, start, destination)
      && (end == destination <==>
            start == destination || forall b :: b in blockers ==> !Stops(plane, start, destination, b))
  {
    var step, allowed := Distance(plane, start, destination), Allowance(plane, start, destination, blockers);
    DistanceFacts(plane, start, destination);
    DistanceFacts(plane, destination, destination);
    AllowanceNotNegative(plane, start, destination, blockers);
    AllowanceIs(plane, start, destination, blockers);
    WalkCovers(plane, start, destination, allowed);
    forall b | b in blockers && Stops(plane, start, destination, b)
      ensures allowed < step
    {
      CapsBite(plane, start, destination, b);
    }
    var end := Clamped(plane, start, destination, blockers);
    DistanceFacts(plane, end, destination);
  }

  /** The unit ends at least a radius from every barricade that would have swallowed it. */
  lemma ClampKeepsClear(plane: Plane, start: Vec2, destination: Vec2, blockers: seq<Unit>, blocker: Unit)
    requires ValidPlane(plane) && blocker in blockers
    requires Stops(plane, start, destination, blocker)
    ensures Distance(plane, Clamped(plane, start, destination, blockers), blocker.position) >= blocker.blockRadius
  {
    var end := Clamped(plane, start, destination, blockers);
    ClampShortensOnly(plane, start, destination, blockers);
    AllowanceIs(plane, start, destination, blockers);
    Triangle(plane, start, end, blocker.position);
  }

  /** How the world lists its barricades does not matter. */
  lemma ClampForgetsOrder(plane: Plane, a: seq<Unit>, b: seq<Unit>, unit: Unit, destination: Vec2)
    requires multiset(a) == multiset(b)
    ensures Clamped(plane, unit.position, destination, BlockersAgainst(a, unit))
         == Clamped(plane, unit.position, destination, BlockersAgainst(b, unit))
  {
    var keep := (other: Unit) => Blocks(unit, other);
    FilterForgetsOrder(keep, a, b);
    var x, y := Filter(keep, a), Filter(keep, b);
    SameElements(x, y);
    AllowanceIs(plane, unit.position, destination, x);
    AllowanceIs(plane, unit.position, destination, y);
    AllowanceUnique(plane, unit.position, destination, x, y,
                    Allowance(plane, unit.position, destination, x), Allowance(plane, unit.position, destination, y));
  }

  // ---- the discs a step crosses without being asked to stop in ----

  /** Twice-signed measures of a blocker against a step: how far along, and how far off. */
  function Along(start: Vec2, destination: Vec2, centre: Vec2): real {
    (destination.x - start.x) * (centre.x - start.x) + (destination.y - start.y) * (centre.y - start.y)
  }

  function Off(start: Vec2, destination: Vec2, centre: Vec2): real {
    (destination.x - start.x) * (centre.y - start.y) - (destination.y - start.y) * (centre.x - start.x)
  }

  /** Walking `walked` along a step of length `step` lands on the chord its line cuts from
      a disc `along` and `off` it. */
  predicate OnChord(step: real, walked: real, along: real, off: real, radius: real) {
    radius > 0.0 && Square(Times(walked, step) - along) < Square(Times(radius, step)) - Square(off)
  }

  lemma ChordIdentity(dx: real, dy: real, cx: real, cy: real, scale: real, vx: real, vy: real, l: real, along: real, off: real)
    requires vx == cx - dx * scale && vy == cy - dy * scale
    requires l == Square(dx) + Square(dy)
    requires along == dx * cx + dy * cy && off == dx * cy - dy * cx
    ensures Times(l, Square(vx) + Square(vy)) == Square(Times(scale, l) - along) + Square(off)
  {
    hide Square, Times;
    var dot, cross, rest := dx * vx + dy * vy, dx * vy - dy * vx, Times(scale, l) - along;
    ShiftedDot(dx, dy, cx, cy, scale, vx, vy, l, along, off);
    Lagrange(dx, dy, vx, vy);
    SquareOfOpposite(rest);
    SameSquare(dot, -rest);
    SameSquare(cross, off);
    PlainTimes(l, Square(vx) + Square(vy));
  }

  lemma PlainTimes(x: real, y: real)
    ensures Times(x, y) == x * y
  {
  }

  lemma ShiftedDot(dx: real, dy: real, cx: real, cy: real, scale: real, vx: real, vy: real, l: real, along: real, off: real)
    requires vx == cx - dx * scale && vy == cy - dy * scale
    requires l == Square(dx) + Square(dy)
    requires along == dx * cx + dy * cy && off == dx * cy - dy * cx
    ensures dx * vx + dy * vy == -(Times(scale, l) - along)
    ensures dx * vy - dy * vx == off
  {
    DotOfShifted(dx, dy, cx, cy, scale);
    hide Square;
  }

  lemma DotOfShifted(dx: real, dy: real, cx: real, cy: real, scale: real)
    ensures dx * (cx - dx * scale) + dy * (cy - dy * scale) == -(scale * (Square(dx) + Square(dy)) - (dx * cx + dy * cy))
    ensures dx * (cy - dy * scale) - dy * (cx - dx * scale) == dx * cy - dy * cx
  {
  }

  /** Where the walk along a step stands from a centre, scaled by the step's length. */
  lemma GapOfPoint(start: Vec2, destination: Vec2, centre: Vec2, scale: real)
    ensures var l := SquaredGap(start, destination);
      Times(l, SquaredGap(Partway(start, destination, scale), centre))
      == Square(Times(scale, l) - Along(start, destination, centre)) + Square(Off(start, destination, centre))
  {
    hide Square, Times;
    var l, p := SquaredGap(start, destination), Partway(start, destination, scale);
    ChordIdentity(destination.x - start.x, destination.y - start.y, centre.x - start.x, centre.y - start.y, scale,
                  centre.x - p.x, centre.y - p.y, l, Along(start, destination, centre), Off(start, destination, centre));
  }

  /** The chord condition, for lengths alone. */
  lemma ChordCompares(step: real, d: real, r: real, off: real, rest: real)
    requires step > 0.0 && d >= 0.0
    requires Times(Square(step), Square(d)) == Square(rest) + Square(off)
    ensures d < r <==> r > 0.0 && Square(rest) < Square(Times(r, step)) - Square(off)
  {
    hide Square;
    if r > 0.0 {
      SquaresOrder(d, r);
      SquareOfProduct(r, step);
      ScaleCompares(Square(step), Square(d), Square(r));
    }
  }

  lemma ScaleCompares(k: real, a: real, b: real)
    requires k > 0.0
    ensures Times(k, a) < Times(b, k) <==> a < b
  {
    assert Times(k, b - a) == Times(b, k) - Times(k, a);
  }

  lemma ScaledSquare(scale: real, step: real, walked: real)
    requires walked == scale * step
    ensures Times(scale, Square(step)) == Times(walked, step)
  {
  }

  lemma WalkedChord(step: real, walked: real, scale: real, d: real, gap: real, r: real, along: real, off: real)
    requires step > 0.0 && scale * step == walked
    requires d >= 0.0 && Square(d) == gap
    requires Times(Square(step), gap) == Square(Times(scale, Square(step)) - along) + Square(off)
    ensures d < r <==> OnChord(step, walked, along, off, r)
  {
    hide Square, Times;
    ScaledSquare(scale, step, walked);
    ChordCompares(step, d, r, off, Times(walked, step) - along);
  }

  lemma ClampedIsPartway(plane: Plane, start: Vec2, destination: Vec2, blockers: seq<Unit>) returns (scale: real)
    requires ValidPlane(plane) && start != destination
    ensures Clamped(plane, start, destination, blockers) == Partway(start, destination, scale)
    ensures scale * Distance(plane, start, destination) == Allowance(plane, start, destination, blockers)
  {
    DistanceFacts(plane, start, destination);
    AllowanceNotNegative(plane, start, destination, blockers);
    hide ValidPlane, Distance, Allowance;
    var step, walked := Distance(plane, start, destination), Allowance(plane, start, destination, blockers);
    scale := walked / step;
    Shares(walked, step, scale);
    if walked >= step { assert scale == 1.0; }
  }

  /** Exactly when a clamped step ends inside a disc: its end falls on the disc's chord.
      A disc holding neither end of the requested step can only be entered this way, and
      nothing in the clamp prevents it. */
  lemma EndsInsideExactlyOnChord(plane: Plane, start: Vec2, destination: Vec2, blockers: seq<Unit>, blocker: Unit)
    requires ValidPlane(plane) && start != destination
    ensures Inside(plane, Clamped(plane, start, destination, blockers), blocker)
       <==> OnChord(Distance(plane, start, destination), Allowance(plane, start, destination, blockers),
                    Along(start, destination, blocker.position), Off(start, destination, blocker.position), blocker.blockRadius)
  {
    hide OnChord, ValidPlane, Distance, Allowance, Clamped, Partway, SquaredGap, Along, Off, Square, Times;
    var c := blocker.position;
    var scale := ClampedIsPartway(plane, start, destination, blockers);
    var end := Partway(start, destination, scale);
    DistanceFacts(plane, start, destination);
    DistanceFacts(plane, end, c);
    GapOfPoint(start, destination, c, scale);
    WalkedChord(Distance(plane, start, destination), Allowance(plane, start, destination, blockers), scale,
                Distance(plane, end, c), SquaredGap(end, c),
                blocker.blockRadius, Along(start, destination, c), Off(start, destination, c));
  }

  function Wall(centre: Vec2, radius: real): Unit {
    Unit("wall", "wall", Summon, North, "t", 1.0, 0.0, 0.0, 0.0, 1.0, centre, true, radius)
  }

  /** So a step cut short at one barricade can end inside another it only grazed. */
  lemma ShortenedStepCanEndInsideAnother(plane: Plane)
    requires ValidPlane(plane)
    ensures var start, destination, walls := Vec2(0.0, 0.0), Vec2(10.0, 0.0), [Wall(Vec2(15.0, 0.0), 10.0), Wall(Vec2(5.0, 5.0), 5.1)];
      && !Inside(plane, start, walls[1]) && !Inside(plane, destination, walls[1])
      && Inside(plane, Clamped(plane, start, destination, walls), walls[1])
  {
    hide ValidPlane, Distance, Square, SquaredGap;
    var start, destination, a, b := Vec2(0.0, 0.0), Vec2(10.0, 0.0), Wall(Vec2(15.0, 0.0), 10.0), Wall(Vec2(5.0, 5.0), 5.1);
    DistanceAcross(plane, start, destination, 10.0);
    DistanceAcross(plane, start, a.position, 15.0);
    DistanceAcross(plane, destination, a.position, 5.0);
    DistanceCompares(plane, start, b.position, 5.0, 5.0, 5.1);
    DistanceCompares(plane, destination, b.position, -5.0, 5.0, 5.1);
    DistanceCompares(plane, Vec2(5.0, 0.0), b.position, 0.0, 5.0, 5.1);
    assert [a, b][..1] == [a] && [a][..0] == [];
    assert Allowance(plane, start, destination, [a]) == 5.0;
    assert Allowance(plane, start, destination, [a, b]) == 5.0;
    assert MoveToward(plane, start, destination, 5.0) == Vec2(5.0, 0.0);
  }

  lemma GrazingDistances(plane: Plane, wall: Vec2)
    requires ValidPlane(plane) && wall == Vec2(1.5, 25.98)
    ensures Distance(plane, Vec2(0.0, 0.0), wall) >= 26.0 && Distance(plane, Vec2(3.0, 0.0), wall) >= 26.0
    ensures Distance(plane, Vec2(1.5, 0.0), wall) < 26.0
  {
    hide ValidPlane, Distance;
    DistanceCompares(plane, Vec2(0.0, 0.0), wall, 1.5, 25.98, 26.0);
    DistanceCompares(plane, Vec2(3.0, 0.0), wall, -1.5, 25.98, 26.0);
    DistanceCompares(plane, Vec2(1.5, 0.0), wall, 0.0, 25.98, 26.0);
  }

  /** And a step of three units, which the fastest card takes in a tick, crosses the shipped
      26-unit disc from outside to outside: grazing chords can be tunnelled. */
  lemma GrazingStepCrossesDisc(plane: Plane)
    requires ValidPlane(plane)
    ensures var start, destination, wall := Vec2(0.0, 0.0), Vec2(3.0, 0.0), Wall(Vec2(1.5, 25.98), 26.0);
      && Clamped(plane, start, destination, [wall]) == destination
      && !Inside(plane, start, wall) && !Inside(plane, destination, wall)
      && Inside(plane, Partway(start, destination, 0.5), wall)
  {
    hide ValidPlane, Distance, Clamped;
    var wall := Wall(Vec2(1.5, 25.98), 26.0);
    GrazingDistances(plane, wall.position);
    ClampShortensOnly(plane, Vec2(0.0, 0.0), Vec2(3.0, 0.0), [wall]);
    assert Partway(Vec2(0.0, 0.0), Vec2(3.0, 0.0), 0.5) == Vec2(1.5, 0.0);
  }
}
