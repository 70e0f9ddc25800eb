/** Chasing something, and every reason to stop (`api/app/sim/ai/pursuit.py`). */
module Pursuit {
  import opened Common
  import opened Ordering
  import opened BattleWorld
  import opened Geometry
  import opened Coordination
  import opened Observing

  const PURSUIT_LEASH: real := 96.0
  const PURSUIT_TIMEOUT_SECONDS: real := 3.0
  const PURSUIT_PATIENCE_SECONDS: real := 1.0
  const PURSUIT_PROGRESS_FRACTION: real := 0.1
  const PURSUIT_RECOVERY_SECONDS: real := 2.0
  const TARGET_SWITCH_MARGIN: real := 0.02
  const USEFUL_RANGE_FRACTION: real := 0.9

  function UsefulRange(unit: Unit): real {
    unit.range * USEFUL_RANGE_FRACTION
  }

  predicate CanEngage(unit: Unit, gap: real) {
    gap <= unit.range
  }

  function GapTo(plane: Plane, o: Observation, target: Unit): real {
    Distance(plane, o.unit.position, target.position)
  }

  predicate InReach(plane: Plane, o: Observation, target: Unit) {
    CanEngage(o.unit, GapTo(plane, o, target))
  }

  /** Where the leash is tied: the chase's origin, or here if none has begun. */
  function Anchor(o: Observation): Vec2 {
    if o.mind.commitment.Some? then o.mind.commitment.value.origin else o.unit.position
  }

  function StandoffPosition(plane: Plane, position: Vec2, target: Vec2, gap: real): Vec2 {
    PointAlong(plane, target, position, gap)
  }

  function ApproachTo(plane: Plane, o: Observation, target: Unit): Vec2 {
    StandoffPosition(plane, o.unit.position, target.position, UsefulRange(o.unit))
  }

  /** In reach already, or reachable without roaming past the leash. */
  predicate WorthChasing(plane: Plane, o: Observation, target: Unit) {
    || InReach(plane, o, target)
    || (CanMove(o.unit) && Distance(plane, Anchor(o), ApproachTo(plane, o, target)) <= PURSUIT_LEASH)
  }

  /** Recovery suppresses only what the unit would have to travel to. */
  predicate MayAnswer(plane: Plane, o: Observation, enemy: Unit) {
    WorthChasing(plane, o, enemy) && (o.mind.recovery > 0 ==> InReach(plane, o, enemy))
  }

  function EligibleTargets(plane: Plane, o: Observation): set<string> {
    set e | e in o.enemies && MayAnswer(plane, o, e) :: e.id
  }

  function Elapsed(o: Observation, c: Commitment): real {
    (o.tick - c.startedTick) as real * o.secondsPerTick
  }

  /** Why the chase in progress must end, asked in the order the server asks. */
  function ReleaseReason(plane: Plane, o: Observation): Option<Reason> {
    match o.mind.commitment
    case None => None
    case Some(c) =>
      match FindUnit(o.enemies, c.targetId)
      case None => Some(AbandonedInvalid)
      case Some(target) =>
        var gap := GapTo(plane, o, target);
        if !CanEngage(o.unit, gap) && Distance(plane, c.origin, o.unit.position) > PURSUIT_LEASH then Some(AbandonedLeash)
        else if !CanEngage(o.unit, gap) && Elapsed(o, c) >= PURSUIT_PATIENCE_SECONDS
                && c.openingGap - gap < c.openingGap * PURSUIT_PROGRESS_FRACTION then Some(AbandonedUnreachable)
        else if Elapsed(o, c) >= PURSUIT_TIMEOUT_SECONDS then Some(AbandonedTimeout)
        else None
  }

  function Begin(plane: Plane, o: Observation, targetId: string): Commitment {
    var target := FindUnit(o.enemies, targetId);
    Commitment(targetId, o.tick, o.unit.position, if target.Some? then GapTo(plane, o, target.value) else 0.0)
  }

  function RecoveryTicks(secondsPerTick: real): (ticks: nat)
    ensures secondsPerTick > 0.0 ==> ticks >= 1
  {
    if secondsPerTick <= 0.0 then 0
    else
      var ticks := Round(PURSUIT_RECOVERY_SECONDS / secondsPerTick);
      if ticks > 1 then ticks else 1
  }
}
