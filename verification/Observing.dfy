/** What one unit sees when it decides (`api/app/sim/ai/observe.py`), and the chase and
    intent it carries between decisions (`api/app/sim/ai/intent.py`). */
module Observing {
  import opened Common
  import opened Ordering
  import opened BattleWorld
  import opened Coordination
  import opened Allocation

  /** Declared in the order ties break in. */
  datatype ActionKind = Advance | Attack | SpendAbility | Withdraw | Retreat | Hold

  function Declared(kind: ActionKind): nat {
    match kind
    case Advance => 0
    case Attack => 1
    case SpendAbility => 2
    case Withdraw => 3
    case Retreat => 4
    case Hold => 5
  }

  predicate Moves(kind: ActionKind) {
    kind == Advance || kind == Withdraw || kind == Retreat
  }

  datatype Reason =
    | Engaging | PressingObjective | HoldingStation | MaintainingRange | Screening | ScreeningInferred
    | Intercepting | PursuitStarted | Pursuing | AbandonedLeash | AbandonedTimeout | AbandonedUnreachable
    | AbandonedInvalid | TargetSwitched | Retreating | ReturnedToStation

  /** A chase: whom, since when, from where, and how far off they were then. */
  datatype Commitment = Commitment(targetId: string, startedTick: int, origin: Vec2, openingGap: real)

  datatype Intent = Intent(kind: ActionKind, targetId: Option<string>)

  datatype Ability = Ability(id: string, energyCost: real, onSelf: bool, range: Option<real>)

  /** What outlives a decision: the last intent, the chase, and ticks left of recovery. */
  datatype Mind = Mind(intent: Option<Intent>, commitment: Option<Commitment>, recovery: nat)

  const BLANK_MIND: Mind := Mind(None, None, 0)

  /** The unit's orders: its post, and whether the enemy base is a place it may head for. */
  datatype Orders = Orders(station: Vec2, mayAttackBase: bool, enemyBase: Vec2)

  datatype Observation = Observation(
    unit: Unit,
    orders: Orders,
    enemies: seq<Unit>,
    allies: seq<Unit>,
    energy: real,
    ability: Option<Ability>,
    tick: int,
    secondsPerTick: real,
    assignment: Option<Assignment>,
    mind: Mind)

  predicate CanMove(unit: Unit) { unit.speed > 0.0 }

  predicate CanAttack(unit: Unit) { unit.damage > 0.0 }

  function LivingEnemies(units: seq<Unit>, unit: Unit): seq<Unit> {
    Sort(IdLeq, Filter((u: Unit) => IsAlive(u) && u.side != unit.side, units))
  }

  function LivingAllies(units: seq<Unit>, unit: Unit): seq<Unit> {
    Sort(IdLeq, Filter((u: Unit) => IsAlive(u) && u.side == unit.side && u.id != unit.id, units))
  }

  function Observe(units: seq<Unit>, unit: Unit, orders: Orders, energy: real, ability: Option<Ability>,
                   tick: int, secondsPerTick: real, assignment: Option<Assignment>, mind: Mind): Observation
  {
    Observation(unit, orders, LivingEnemies(units, unit), LivingAllies(units, unit), energy, ability,
                tick, secondsPerTick, assignment, mind)
  }

  /** With unit ids distinct, what a unit sees does not depend on how the world lists its
      units; so nothing decided from it does either. */
  lemma ObservationForgetsOrder(a: seq<Unit>, b: seq<Unit>, unit: Unit, orders: Orders, energy: real, ability: Option<Ability>,
                                tick: int, secondsPerTick: real, assignment: Option<Assignment>, mind: Mind)
    requires multiset(a) == multiset(b) && DistinctUnits(a)
    ensures Observe(a, unit, orders, energy, ability, tick, secondsPerTick, assignment, mind)
         == Observe(b, unit, orders, energy, ability, tick, secondsPerTick, assignment, mind)
  {
    RosterForgetsOrder((u: Unit) => IsAlive(u) && u.side != unit.side, a, b);
    RosterForgetsOrder((u: Unit) => IsAlive(u) && u.side == unit.side && u.id != unit.id, a, b);
  }

  /** Each enemy is seen once, under its own id. */
  lemma EnemiesStayDistinct(units: seq<Unit>, unit: Unit)
    requires DistinctUnits(units)
    ensures DistinctUnits(LivingEnemies(units, unit))
    ensures forall e :: e in LivingEnemies(units, unit) <==> e in units && IsAlive(e) && e.side != unit.side
  {
    var keep := (u: Unit) => IsAlive(u) && u.side != unit.side;
    IdsAreTotal();
    FilterMembers(keep, units);
    SortKeeps(IdLeq, Filter(keep, units));
  }
}
