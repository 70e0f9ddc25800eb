/** What an effect does to the units, bases and ground it reaches
    (`api/app/sim/resolution.py`, `effects.py`), as a function of the scene before. */
module Effects {
  import opened Common
  import opened Ordering
  import opened BattleWorld
  import opened Geometry

  // ---- the primitives a card is a list of ----

  datatype DamageProfile = DamageProfile(amount: real, bonusVsMage: real, bonusVsBase: real) {
    function AgainstUnit(kind: UnitKind): real {
      amount * if kind == Mage then bonusVsMage else 1.0
    }
    function AgainstBase(): real {
      amount * bonusVsBase
    }
  }

  datatype Effect =
    | DashToTarget(maxDistance: real, stopShort: real)
    | AreaDamage(radius: real, damage: DamageProfile, hitsBase: bool)
    | Burn(radius: real, damagePerSecond: real, durationSeconds: real, spreadRadius: real, bonusVsMage: real)
    | BurningGround(radius: real, damagePerSecond: real, durationSeconds: real, bonusVsMage: real)
    | Knockback(radius: real, distance: real)
    | EnergyRefill(radius: real, amount: real, includeSelf: bool)

  // ---- the scene it happens in ----

  datatype UnitRef = UnitRef(unitId: string, troopId: string, side: Side, typeId: string)

  datatype BurnStatus = BurnStatus(damagePerTick: real, ticksRemaining: int, bonusVsMage: real, source: Option<UnitRef>)

  datatype Hazard = Hazard(number: nat, side: Side, center: Vec2, radius: real, damagePerTick: real,
                           ticksRemaining: int, bonusVsMage: real, source: Option<UnitRef>)

  /** A unit as effects see it; `dealt` and `taken` are its two energy meters. */
  datatype Fighter = Fighter(
    ref: UnitRef,
    kind: UnitKind,
    emplacement: bool,
    hasAbility: bool,
    hp: real,
    position: Vec2,
    energy: real,
    dealt: real,
    taken: real,
    burn: Option<BurnStatus>)

  predicate Alive(f: Fighter) { f.hp > 0.0 }

  datatype Defeat = Defeat(tick: nat, position: Vec2, unit: UnitRef, killer: Option<UnitRef>)

  datatype Outcome = Outcome(damageDealt: real, removed: seq<UnitRef>, baseHp: map<Side, real>)

  datatype Scene = Scene(
    units: seq<Fighter>,
    bases: PerSide<real>,
    hazards: seq<Hazard>,
    nextHazard: nat,
    origin: Vec2,
    outcome: Outcome,
    defeats: seq<Defeat>)

  /** What one cast is resolved under: whose it is, by whom, at whom, and on what ground. */
  datatype Setting = Setting(
    plane: Plane,
    tick: nat,
    side: Side,
    caster: Option<nat>,
    target: Option<nat>,
    followsCaster: bool,
    basePositions: PerSide<Vec2>,
    width: real,
    height: real,
    tickRate: int,
    secondsPerTick: real)

  function DurationTicks(setting: Setting, seconds: real): int {
    var ticks := Round(seconds * setting.tickRate as real);
    if ticks > 1 then ticks else 1
  }

  function PerTick(setting: Setting, perSecond: real): real {
    perSecond * setting.secondsPerTick
  }

  function SourceOf(setting: Setting, units: seq<Fighter>): Option<UnitRef> {
    if setting.caster.Some? && setting.caster.value < |units| then Some(units[setting.caster.value].ref) else None
  }

  predicate EnemyWithin(setting: Setting, f: Fighter, center: Vec2, radius: real) {
    f.ref.side != setting.side && Alive(f) && Distance(setting.plane, center, f.position) <= radius
  }

  predicate AllyWithin(setting: Setting, f: Fighter, center: Vec2, radius: real) {
    f.ref.side == setting.side && Alive(f) && Distance(setting.plane, center, f.position) <= radius
  }

  /** The positions in the list, in world order, of the first `n` units that qualify. */
  function Where(qualifies: Fighter -> bool, units: seq<Fighter>, n: nat): (found: seq<nat>)
    requires n <= |units|
    ensures forall k: nat :: k in found <==> k < n && qualifies(units[k])
    ensures forall k :: 0 <= k < |found| ==> found[k] < n
    ensures forall j, k :: 0 <= j < k < |found| ==> found[j] < found[k]
  {
    if n == 0 then []
    else Where(qualifies, units, n - 1) + if qualifies(units[n - 1]) then [n - 1] else []
  }

  function EnemiesWithin(setting: Setting, units: seq<Fighter>, center: Vec2, radius: real): (found: seq<nat>)
    ensures forall k: nat :: k in found <==> k < |units| && EnemyWithin(setting, units[k], center, radius)
    ensures forall k :: 0 <= k < |found| ==> found[k] < |units|
    ensures forall j, k :: 0 <= j < k < |found| ==> found[j] < found[k]
  {
    Where((f: Fighter) => EnemyWithin(setting, f, center, radius), units, |units|)
  }

  function AlliesWithin(setting: Setting, units: seq<Fighter>, center: Vec2, radius: real): (found: seq<nat>)
    ensures forall k: nat :: k in found <==> k < |units| && AllyWithin(setting, units[k], center, radius)
    ensures forall k :: 0 <= k < |found| ==> found[k] < |units|
    ensures forall j, k :: 0 <= j < k < |found| ==> found[j] < found[k]
  {
    Where((f: Fighter) => AllyWithin(setting, f, center, radius), units, |units|)
  }

  // ---- damage ----

  /** The caster's meter, fed while the caster lives. */
  function Charged(setting: Setting, units: seq<Fighter>, amount: real): (charged: seq<Fighter>)
    ensures |charged| == |units|
  {
    if setting.caster.None? || setting.caster.value >= |units| || !Alive(units[setting.caster.value]) then units
    else
      var c := setting.caster.value;
      units[c := units[c].(dealt := units[c].dealt + amount)]
  }

  function Wounded(f: Fighter, amount: real): Fighter {
    f.(hp := f.hp - amount, taken := f.taken + amount)
  }

  /** Hit points off the victim, and both meters up by the whole blow. */
  function Hit(setting: Setting, s: Scene, i: nat, amount: real): (after: Scene)
    requires i < |s.units|
    ensures |after.units| == |s.units|
  {
    s.(units := Charged(setting, s.units[i := Wounded(s.units[i], amount)], amount),
       outcome := s.outcome.(damageDealt := s.outcome.damageDealt + amount))
  }

  /** `damage_unit`: the one path every blow takes. */
  function Struck(setting: Setting, s: Scene, i: nat, amount: real, source: Option<UnitRef>): (after: Scene)
    requires i < |s.units|
    ensures |after.units| == |s.units|
  {
    if amount <= 0.0 || !Alive(s.units[i]) then s
    else
      var hit := Hit(setting, s, i, amount);
      if hit.units[i].hp > 0.0 then hit else Felled(setting, hit, i, source)
  }

  /** A unit brought to zero: left on exactly zero, removed, and told. */
  function Felled(setting: Setting, s: Scene, i: nat, source: Option<UnitRef>): (after: Scene)
    requires i < |s.units|
    ensures |after.units| == |s.units|
  {
    s.(units := s.units[i := s.units[i].(hp := 0.0)],
       outcome := s.outcome.(removed := s.outcome.removed + [s.units[i].ref]),
       defeats := s.defeats + [Defeat(setting.tick, s.units[i].position, s.units[i].ref, source)])
  }

  function StruckEach(setting: Setting, s: Scene, victims: seq<nat>, damage: DamageProfile, source: Option<UnitRef>): (after: Scene)
    requires forall k :: 0 <= k < |victims| ==> victims[k] < |s.units|
    ensures |after.units| == |s.units|
  {
    if victims == [] then s
    else
      var before, i := StruckEach(setting, s, victims[..|victims| - 1], damage, source), victims[|victims| - 1];
      Struck(setting, before, i, damage.AgainstUnit(before.units[i].kind), source)
  }

  /** `_damage_base`: the enemy base chipped when the blast reaches it, never below zero. */
  function BaseStruck(setting: Setting, s: Scene, radius: real, damage: DamageProfile): Scene {
    var enemy := Opposing(setting.side);
    var dealt := Min(s.bases.At(enemy), damage.AgainstBase());
    if Distance(setting.plane, s.origin, setting.basePositions.At(enemy)) > radius || dealt <= 0.0 then s
    else
      var sofar := if enemy in s.outcome.baseHp then s.outcome.baseHp[enemy] else 0.0;
      s.(bases := s.bases.With(enemy, s.bases.At(enemy) - dealt),
         outcome := s.outcome.(baseHp := s.outcome.baseHp[enemy := sofar - dealt]))
  }

  // ---- burning ----

  /** `_apply_burn`: a second application refreshes each axis to the stronger. */
  function Merged(existing: Option<BurnStatus>, lit: BurnStatus): BurnStatus {
    match existing
    case None => lit
    case Some(was) =>
      BurnStatus(if lit.damagePerTick > was.damagePerTick then lit.damagePerTick else was.damagePerTick,
                 if lit.ticksRemaining > was.ticksRemaining then lit.ticksRemaining else was.ticksRemaining,
                 if lit.bonusVsMage > was.bonusVsMage then lit.bonusVsMage else was.bonusVsMage,
                 if lit.damagePerTick > was.damagePerTick then lit.source else was.source)
  }

  function Ignited(f: Fighter, lit: BurnStatus): Fighter {
    f.(burn := Some(Merged(f.burn, lit)))
  }

  function IgnitedEach(units: seq<Fighter>, victims: seq<nat>, lit: BurnStatus): (after: seq<Fighter>)
    requires forall k :: 0 <= k < |victims| ==> victims[k] < |units|
    ensures |after| == |units|
  {
    if victims == [] then units
    else
      var before, i := IgnitedEach(units, victims[..|victims| - 1], lit), victims[|victims| - 1];
      before[i := Ignited(before[i], lit)]
  }

  function Names(units: seq<Fighter>, at: seq<nat>): set<string>
    requires forall k :: 0 <= k < |at| ==> at[k] < |units|
  {
    set k | 0 <= k < |at| :: units[at[k]].ref.unitId
  }

  /** One victim's neighbours that were not already lit. */
  function Unlit(setting: Setting, units: seq<Fighter>, victim: nat, spread: real, lit: set<string>): (found: seq<nat>)
    requires victim < |units|
    ensures forall k: nat :: k in found <==>
      k < |units| && EnemyWithin(setting, units[k], units[victim].position, spread) && units[k].ref.unitId !in lit
    ensures forall k :: 0 <= k < |found| ==> found[k] < |units|
  {
    var near := (f: Fighter) => EnemyWithin(setting, f, units[victim].position, spread) && f.ref.unitId !in lit;
    Where(near, units, |units|)
  }

  /** The fire passed on from each of the caught in turn; what it lights is never a source. */
  function SpreadFrom(setting: Setting, units: seq<Fighter>, caught: seq<nat>, spread: real, names: set<string>, lit: BurnStatus)
    : (after: seq<Fighter>)
    requires forall k :: 0 <= k < |caught| ==> caught[k] < |units|
    ensures |after| == |units|
  {
    if caught == [] then units
    else
      var before := SpreadFrom(setting, units, caught[..|caught| - 1], spread, names, lit);
      IgnitedEach(before, Unlit(setting, before, caught[|caught| - 1], spread, names), lit)
  }

  function BurnOf(setting: Setting, units: seq<Fighter>, effect: Effect): BurnStatus
    requires effect.Burn?
  {
    BurnStatus(PerTick(setting, effect.damagePerSecond), DurationTicks(setting, effect.durationSeconds),
               effect.bonusVsMage, SourceOf(setting, units))
  }

  function Burnt(setting: Setting, s: Scene, effect: Effect): (after: Scene)
    requires effect.Burn?
    ensures |after.units| == |s.units|
  {
    var lit := BurnOf(setting, s.units, effect);
    var caught := EnemiesWithin(setting, s.units, s.origin, effect.radius);
    var first := IgnitedEach(s.units, caught, lit);
    if effect.spreadRadius <= 0.0 then s.(units := first)
    else s.(units := SpreadFrom(setting, first, caught, effect.spreadRadius, Names(first, caught), lit))
  }

  // ---- moving, refilling, and the ground ----

  function Dashed(setting: Setting, s: Scene, effect: Effect): (after: Scene)
    requires effect.DashToTarget?
    ensures |after.units| == |s.units|
  {
    if setting.caster.None? || setting.target.None? then s
    else if setting.caster.value >= |s.units| || setting.target.value >= |s.units| then s
    else
      var c, target := s.units[setting.caster.value], s.units[setting.target.value];
      var step := Min(effect.maxDistance, Distance(setting.plane, c.position, target.position) - effect.stopShort);
      if c.emplacement || step <= 0.0 then s
      else
        var landed := MoveToward(setting.plane, c.position, target.position, step);
        s.(units := s.units[setting.caster.value := c.(position := landed)],
           origin := if setting.followsCaster then landed else s.origin)
  }

  /** The place `scale` of the way again past `position`, straight on from `origin`. */
  function Away(origin: Vec2, position: Vec2, scale: real): Vec2 {
    Vec2(position.x + (position.x - origin.x) * scale, position.y + (position.y - origin.y) * scale)
  }

  /** `_push_away`: directly away from the origin, kept on the map; standing on it, nowhere. */
  function PushedAway(setting: Setting, origin: Vec2, position: Vec2, step: real): Vec2 {
    var gap := Distance(setting.plane, origin, position);
    if gap == 0.0 then position
    else
      var there := Away(origin, position, step / gap);
      Vec2(Min(setting.width, Max(0.0, there.x)), Min(setting.height, Max(0.0, there.y)))
  }

  function Pushed(setting: Setting, units: seq<Fighter>, victims: seq<nat>, origin: Vec2, step: real): (after: seq<Fighter>)
    requires forall k :: 0 <= k < |victims| ==> victims[k] < |units|
    ensures |after| == |units|
  {
    if victims == [] then units
    else
      var before, i := Pushed(setting, units, victims[..|victims| - 1], origin, step), victims[|victims| - 1];
      if before[i].emplacement then before
      else before[i := before[i].(position := PushedAway(setting, origin, before[i].position, step))]
  }

  predicate Refills(setting: Setting, units: seq<Fighter>, effect: Effect, i: nat)
    requires effect.EnergyRefill? && i < |units|
  {
    && units[i].hasAbility
    && (effect.includeSelf || setting.caster.None? || setting.caster.value >= |units|
        || units[i].ref.unitId != units[setting.caster.value].ref.unitId)
  }

  function Refilled(setting: Setting, units: seq<Fighter>, allies: seq<nat>, effect: Effect): (after: seq<Fighter>)
    requires effect.EnergyRefill?
    requires forall k :: 0 <= k < |allies| ==> allies[k] < |units|
    ensures |after| == |units|
  {
    if allies == [] then units
    else
      var before, i := Refilled(setting, units, allies[..|allies| - 1], effect), allies[|allies| - 1];
      if !Refills(setting, before, effect, i) then before
      else before[i := before[i].(energy := before[i].energy + effect.amount)]
  }

  function Grounded(setting: Setting, s: Scene, effect: Effect): Scene
    requires effect.BurningGround?
  {
    s.(hazards := s.hazards + [Hazard(s.nextHazard, setting.side, s.origin, effect.radius,
                                      PerTick(setting, effect.damagePerSecond),
                                      DurationTicks(setting, effect.durationSeconds), effect.bonusVsMage,
                                      SourceOf(setting, s.units))],
       nextHazard := s.nextHazard + 1)
  }

  function Blasted(setting: Setting, s: Scene, effect: Effect): (after: Scene)
    requires effect.AreaDamage?
    ensures |after.units| == |s.units|
  {
    var victims := EnemiesWithin(setting, s.units, s.origin, effect.radius);
    var struck := StruckEach(setting, s, victims, effect.damage, SourceOf(setting, s.units));
    if effect.hitsBase then BaseStruck(setting, struck, effect.radius, effect.damage) else struck
  }

  /** One row of the dispatch table. */
  function Resolved(setting: Setting, s: Scene, effect: Effect): (after: Scene)
    ensures |after.units| == |s.units|
  {
    match effect
    case DashToTarget(_, _) => Dashed(setting, s, effect)
    case AreaDamage(_, _, _) => Blasted(setting, s, effect)
    case Burn(_, _, _, _, _) => Burnt(setting, s, effect)
    case BurningGround(_, _, _, _) => Grounded(setting, s, effect)
    case Knockback(radius, distance) =>
      s.(units := Pushed(setting, s.units, EnemiesWithin(setting, s.units, s.origin, radius), s.origin, distance))
    case EnergyRefill(radius, _, _) =>
      s.(units := Refilled(setting, s.units, AlliesWithin(setting, s.units, s.origin, radius), effect))
  }

  /** `apply_effects`: a card's effects in the order it declares them. */
  function Applied(setting: Setting, s: Scene, effects: seq<Effect>): (after: Scene)
    ensures |after.units| == |s.units|
  {
    if effects == [] then s
    else Resolved(setting, Applied(setting, s, effects[..|effects| - 1]), effects[|effects| - 1])
  }
}
