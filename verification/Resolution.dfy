/** Effects applied in place (`api/app/sim/resolution.py`): the cast, the arena and its units
    as mutable objects, each method proved to do what `Effects` says. */
module Resolution {
  import opened Common
  import opened BattleWorld
  import opened Geometry
  import opened Effects

  /** A unit on the field. */
  class Body {
    const ref: UnitRef
    const kind: UnitKind
    const emplacement: bool
    const hasAbility: bool
    var hp: real
    var position: Vec2
    var energy: real
    var dealt: real
    var taken: real
    var burn: Option<BurnStatus>

    function View(): Fighter
      reads this
    {
      Fighter(ref, kind, emplacement, hasAbility, hp, position, energy, dealt, taken, burn)
    }

    constructor (f: Fighter)
      ensures View() == f
    {
      ref, kind, emplacement, hasAbility := f.ref, f.kind, f.emplacement, f.hasAbility;
      hp, position, energy, dealt, taken, burn := f.hp, f.position, f.energy, f.dealt, f.taken, f.burn;
    }

    /** `_apply_burn` */
    method Ignite(lit: BurnStatus)
      modifies `burn
      ensures View() == Ignited(old(View()), lit)
    {
      if burn.None? {
        burn := Some(lit);
        return;
      }
      var existing := burn.value;
      if lit.damagePerTick > existing.damagePerTick {
        existing := existing.(damagePerTick := lit.damagePerTick, source := lit.source);
      }
      if lit.ticksRemaining > existing.ticksRemaining { existing := existing.(ticksRemaining := lit.ticksRemaining); }
      if lit.bonusVsMage > existing.bonusVsMage { existing := existing.(bonusVsMage := lit.bonusVsMage); }
      burn := Some(existing);
    }
  }

  /** The part of the world effects change. */
  class Arena {
    const bodies: seq<Body>
    var bases: PerSide<real>
    var hazards: seq<Hazard>
    var nextHazard: nat
    var defeats: seq<Defeat>

    constructor (bodies: seq<Body>, bases: PerSide<real>)
      ensures this.bodies == bodies && this.bases == bases && hazards == [] && nextHazard == 0 && defeats == []
    {
      this.bodies, this.bases := bodies, bases;
      hazards, nextHazard, defeats := [], 0, [];
    }
  }

  function Views(bodies: seq<Body>): (views: seq<Fighter>)
    reads bodies
    ensures |views| == |bodies| && forall i :: 0 <= i < |bodies| ==> views[i] == bodies[i].View()
  {
    seq(|bodies|, i requires 0 <= i < |bodies| reads bodies => bodies[i].View())
  }

  /** One unit changed, the rest as they were. */
  lemma OnlyOneChanged(bodies: seq<Body>, units: seq<Fighter>, i: nat, f: Fighter)
    requires |units| == |bodies| && i < |bodies| && bodies[i].View() == f
    requires forall j :: 0 <= j < |bodies| && j != i ==> bodies[j].View() == units[j]
    ensures Views(bodies) == units[i := f]
  {
  }

  ghost predicate AllDifferent(bodies: seq<Body>) {
    forall i, j :: 0 <= i < j < |bodies| ==> bodies[i] != bodies[j]
  }

  /** One resolution of one bundle of effects. */
  class Cast {
    const setting: Setting
    const arena: Arena
    var origin: Vec2
    var outcome: Outcome

    ghost function Footprint(): set<object> {
      {this, arena} + set b | b in arena.bodies
    }

    ghost predicate Valid() {
      && AllDifferent(arena.bodies)
      && (setting.caster.Some? ==> setting.caster.value < |arena.bodies|)
      && (setting.target.Some? ==> setting.target.value < |arena.bodies|)
    }

    function View(): Scene
      reads this, arena, arena.bodies
    {
      Scene(Views(arena.bodies), arena.bases, arena.hazards, arena.nextHazard, origin, outcome, arena.defeats)
    }

    constructor (setting: Setting, arena: Arena, origin: Vec2)
      requires AllDifferent(arena.bodies)
      requires setting.caster.Some? ==> setting.caster.value < |arena.bodies|
      requires setting.target.Some? ==> setting.target.value < |arena.bodies|
      ensures Valid() && this.setting == setting && this.arena == arena
      ensures this.origin == origin && outcome == Outcome(0.0, [], map[])
    {
      this.setting, this.arena, this.origin := setting, arena, origin;
      outcome := Outcome(0.0, [], map[]);
    }

    /** The living caster's meter fed. */
    method FeedCaster(amount: real)
      requires Valid()
      modifies arena.bodies
      ensures Views(arena.bodies) == Charged(setting, old(Views(arena.bodies)), amount)
    {
      if setting.caster.None? { return; }
      var caster := arena.bodies[setting.caster.value];
      if !(caster.hp > 0.0) { return; }
      ghost var units := Views(arena.bodies);
      caster.dealt := caster.dealt + amount;
      OnlyOneChanged(arena.bodies, units, setting.caster.value, units[setting.caster.value].(dealt := caster.dealt));
    }

    method Wound(i: nat, amount: real)
      requires Valid() && i < |arena.bodies|
      modifies arena.bodies
      ensures var units := old(Views(arena.bodies)); Views(arena.bodies) == units[i := Wounded(units[i], amount)]
    {
      ghost var units := Views(arena.bodies);
      var victim := arena.bodies[i];
      victim.hp := victim.hp - amount;
      victim.taken := victim.taken + amount;
      OnlyOneChanged(arena.bodies, units, i, Wounded(units[i], amount));
    }

    method Fell(i: nat, source: Option<UnitRef>)
      requires Valid() && i < |arena.bodies|
      modifies Footprint()
      ensures View() == Felled(setting, old(View()), i, source)
    {
      ghost var units := Views(arena.bodies);
      var victim := arena.bodies[i];
      victim.hp := 0.0;
      outcome := outcome.(removed := outcome.removed + [victim.ref]);
      arena.defeats := arena.defeats + [Defeat(setting.tick, victim.position, victim.ref, source)];
      OnlyOneChanged(arena.bodies, units, i, units[i].(hp := 0.0));
    }

    method Strike(i: nat, amount: real)
      requires Valid() && i < |arena.bodies|
      modifies Footprint()
      ensures View() == Hit(setting, old(View()), i, amount)
    {
      hide Charged, Wounded;
      Wound(i, amount);
      outcome := outcome.(damageDealt := outcome.damageDealt + amount);
      FeedCaster(amount);
    }

    /** `damage_unit` */
    method DamageUnit(i: nat, amount: real, source: Option<UnitRef>)
      requires Valid() && i < |arena.bodies|
      modifies Footprint()
      ensures View() == Struck(setting, old(View()), i, amount, source)
    {
      hide Hit, Felled;
      var victim := arena.bodies[i];
      if amount <= 0.0 || !(victim.hp > 0.0) { return; }
      Strike(i, amount);
      if victim.hp <= 0.0 { Fell(i, source); }
    }

    /** `_damage_base` */
    method DamageBase(radius: real, damage: DamageProfile)
      requires Valid()
      modifies this, arena
      ensures View() == BaseStruck(setting, old(View()), radius, damage)
    {
      var enemy := Opposing(setting.side);
      if Distance(setting.plane, origin, setting.basePositions.At(enemy)) > radius { return; }
      var dealt := Min(arena.bases.At(enemy), damage.AgainstBase());
      if dealt <= 0.0 { return; }
      arena.bases := arena.bases.With(enemy, arena.bases.At(enemy) - dealt);
      var sofar := if enemy in outcome.baseHp then outcome.baseHp[enemy] else 0.0;
      outcome := outcome.(baseHp := outcome.baseHp[enemy := sofar - dealt]);
    }

    method Blast(effect: Effect)
      requires Valid() && effect.AreaDamage?
      modifies Footprint()
      ensures View() == Blasted(setting, old(View()), effect)
    {
      hide EnemiesWithin, Struck;
      ghost var before := View();
      var source := SourceOf(setting, Views(arena.bodies));
      var victims := EnemiesWithin(setting, Views(arena.bodies), origin, effect.radius);
      for k := 0 to |victims|
        invariant View() == StruckEach(setting, before, victims[..k], effect.damage, source)
      {
        assert victims[..k + 1][..k] == victims[..k];
        DamageUnit(victims[k], effect.damage.AgainstUnit(arena.bodies[victims[k]].kind), source);
      }
      assert victims[..|victims|] == victims;
      if effect.hitsBase { DamageBase(effect.radius, effect.damage); }
    }

    method IgniteEach(victims: seq<nat>, lit: BurnStatus)
      requires Valid() && forall k :: 0 <= k < |victims| ==> victims[k] < |arena.bodies|
      modifies arena.bodies
      ensures View() == old(View()).(units := IgnitedEach(old(View()).units, victims, lit))
    {
      hide Ignited;
      ghost var before := View();
      for k := 0 to |victims|
        invariant View() == before.(units := IgnitedEach(before.units, victims[..k], lit))
      {
        assert victims[..k + 1][..k] == victims[..k];
        ghost var units := Views(arena.bodies);
        arena.bodies[victims[k]].Ignite(lit);
        OnlyOneChanged(arena.bodies, units, victims[k], Ignited(units[victims[k]], lit));
      }
      assert victims[..|victims|] == victims;
    }

    /** The fire passed on, one of the caught at a time. */
    method Spread(caught: seq<nat>, spread: real, alreadyLit: set<string>, lit: BurnStatus)
      requires Valid() && forall k :: 0 <= k < |caught| ==> caught[k] < |arena.bodies|
      modifies arena.bodies
      ensures View() == old(View()).(units := SpreadFrom(setting, old(View()).units, caught, spread, alreadyLit, lit))
    {
      hide IgnitedEach, Unlit;
      ghost var first := View();
      for k := 0 to |caught|
        invariant View() == first.(units := SpreadFrom(setting, first.units, caught[..k], spread, alreadyLit, lit))
      {
        assert caught[..k + 1][..k] == caught[..k];
        var neighbours := Unlit(setting, Views(arena.bodies), caught[k], spread, alreadyLit);
        IgniteEach(neighbours, lit);
      }
      assert caught[..|caught|] == caught;
    }

    method Kindle(effect: Effect)
      requires Valid() && effect.Burn?
      modifies Footprint()
      ensures View() == Burnt(setting, old(View()), effect)
    {
      hide EnemiesWithin, IgnitedEach, SpreadFrom, BurnOf;
      var lit := BurnOf(setting, Views(arena.bodies), effect);
      var caught := EnemiesWithin(setting, Views(arena.bodies), origin, effect.radius);
      IgniteEach(caught, lit);
      if effect.spreadRadius <= 0.0 { return; }
      Spread(caught, effect.spreadRadius, Names(Views(arena.bodies), caught), lit);
    }

    method Dash(effect: Effect)
      requires Valid() && effect.DashToTarget?
      modifies Footprint()
      ensures View() == Dashed(setting, old(View()), effect)
    {
      hide Distance, MoveToward;
      if setting.caster.None? || setting.target.None? { return; }
      var caster, target := arena.bodies[setting.caster.value], arena.bodies[setting.target.value];
      if caster.emplacement { return; }
      var gap := Distance(setting.plane, caster.position, target.position);
      var step := Min(effect.maxDistance, gap - effect.stopShort);
      if step <= 0.0 { return; }
      ghost var units := Views(arena.bodies);
      caster.position := MoveToward(setting.plane, caster.position, target.position, step);
      OnlyOneChanged(arena.bodies, units, setting.caster.value, units[setting.caster.value].(position := caster.position));
      if setting.followsCaster { origin := caster.position; }
    }

    method ScorchGround(effect: Effect)
      requires Valid() && effect.BurningGround?
      modifies arena
      ensures View() == Grounded(setting, old(View()), effect)
    {
      hide PerTick, DurationTicks;
      var source := SourceOf(setting, Views(arena.bodies));
      ghost var units := Views(arena.bodies);
      arena.hazards := arena.hazards + [Hazard(arena.nextHazard, setting.side, origin, effect.radius,
                                               PerTick(setting, effect.damagePerSecond),
                                               DurationTicks(setting, effect.durationSeconds), effect.bonusVsMage, source)];
      arena.nextHazard := arena.nextHazard + 1;
      assert Views(arena.bodies) == units;
    }

    method Shove(radius: real, distance: real)
      requires Valid()
      modifies arena.bodies
      ensures View() == old(View()).(units := Pushed(setting, old(View()).units,
        EnemiesWithin(setting, old(View()).units, old(View()).origin, radius), old(View()).origin, distance))
    {
      hide EnemiesWithin, PushedAway;
      ghost var before := View();
      var victims := EnemiesWithin(setting, Views(arena.bodies), origin, radius);
      for k := 0 to |victims|
        invariant View() == before.(units := Pushed(setting, before.units, victims[..k], origin, distance))
      {
        assert victims[..k + 1][..k] == victims[..k];
        ghost var units := Views(arena.bodies);
        var victim := arena.bodies[victims[k]];
        if victim.emplacement { continue; }
        victim.position := PushedAway(setting, origin, victim.position, distance);
        OnlyOneChanged(arena.bodies, units, victims[k], units[victims[k]].(position := victim.position));
      }
      assert victims[..|victims|] == victims;
    }

    function MayRefill(effect: Effect, i: nat): (may: bool)
      requires Valid() && effect.EnergyRefill? && i < |arena.bodies|
      reads arena.bodies
      ensures may == Refills(setting, Views(arena.bodies), effect, i)
    {
      && arena.bodies[i].hasAbility
      && (effect.includeSelf || setting.caster.None?
          || arena.bodies[i].ref.unitId != arena.bodies[setting.caster.value].ref.unitId)
    }

    method Refill(effect: Effect)
      requires Valid() && effect.EnergyRefill?
      modifies arena.bodies
      ensures View() == old(View()).(units := Refilled(setting, old(View()).units,
        AlliesWithin(setting, old(View()).units, old(View()).origin, effect.radius), effect))
    {
      hide AlliesWithin, Refills;
      ghost var before := View();
      var allies := AlliesWithin(setting, Views(arena.bodies), origin, effect.radius);
      for k := 0 to |allies|
        invariant View() == before.(units := Refilled(setting, before.units, allies[..k], effect))
      {
        assert allies[..k + 1][..k] == allies[..k];
        ghost var units := Views(arena.bodies);
        var ally := arena.bodies[allies[k]];
        if !MayRefill(effect, allies[k]) { continue; }
        ally.energy := ally.energy + effect.amount;
        OnlyOneChanged(arena.bodies, units, allies[k], units[allies[k]].(energy := ally.energy));
      }
      assert allies[..|allies|] == allies;
    }

    /** `apply_effects`: the whole card, each effect on the field the last one left. */
    method Apply(effects: seq<Effect>)
      requires Valid()
      modifies Footprint()
      ensures View() == Applied(setting, old(View()), effects)
    {
      hide Blasted, Burnt, Dashed, Grounded, Pushed, Refilled, EnemiesWithin, AlliesWithin;
      ghost var before := View();
      for k := 0 to |effects|
        invariant View() == Applied(setting, before, effects[..k])
      {
        assert effects[..k + 1][..k] == effects[..k];
        var effect := effects[k];
        match effect
        case DashToTarget(_, _) => Dash(effect);
        case AreaDamage(_, _, _) => Blast(effect);
        case Burn(_, _, _, _, _) => Kindle(effect);
        case BurningGround(_, _, _, _) => ScorchGround(effect);
        case Knockback(radius, distance) => Shove(radius, distance);
        case EnergyRefill(_, _, _) => Refill(effect);
      }
      assert effects[..|effects|] == effects;
    }
  }
}
