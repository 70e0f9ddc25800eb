/** What each effect does, unit by unit and read off the fields: who is hit and for how much,
    who burns, who is carried where, who is refilled, what is left on the ground. */
module CardFacts {
  import opened Common
  import opened Ordering
  import opened BattleWorld
  import opened Geometry
  import opened Effects
  import opened EffectLaws
  import opened Burning

  /** An enemy of the cast, living, no further from a point than a radius. */
  predicate FoeNear(setting: Setting, f: Fighter, center: Vec2, radius: real) {
    f.ref.side == Opposing(setting.side) && f.hp > 0.0 && Distance(setting.plane, center, f.position) <= radius
  }

  predicate FriendNear(setting: Setting, f: Fighter, center: Vec2, radius: real) {
    f.ref.side == setting.side && f.hp > 0.0 && Distance(setting.plane, center, f.position) <= radius
  }

  lemma NearMeansWithin(setting: Setting, f: Fighter, center: Vec2, radius: real)
    ensures EnemyWithin(setting, f, center, radius) <==> FoeNear(setting, f, center, radius)
    ensures AllyWithin(setting, f, center, radius) <==> FriendNear(setting, f, center, radius)
  {
  }

  // ---- area damage ----

  /** What a profile takes off a unit: more off a mage. */
  function BlowOn(damage: DamageProfile, f: Fighter): real {
    if f.kind == Mage then damage.amount * damage.bonusVsMage else damage.amount
  }

  /** One unit before and after losing `blow`: its hit points down to zero and no lower, its
      meter up by all of it, and nothing else but its credit for what it dealt. */
  predicate Lost(before: Fighter, after: Fighter, blow: real) {
    && after.hp == Max(0.0, before.hp - blow) && after.taken == before.taken + blow
    && after == before.(hp := after.hp, taken := after.taken, dealt := after.dealt)
  }

  predicate Spared(before: Fighter, after: Fighter) {
    after == before.(dealt := after.dealt)
  }

  lemma StruckFields(setting: Setting, s: Scene, i: nat, amount: real, source: Option<UnitRef>, j: nat)
    requires i < |s.units| && j < |s.units|
    ensures var t := Struck(setting, s, i, amount, source);
      && (j == i && amount > 0.0 && s.units[i].hp > 0.0 ==> Lost(s.units[j], t.units[j], amount))
      && (!(j == i && amount > 0.0 && s.units[i].hp > 0.0) ==> Spared(s.units[j], t.units[j]))
      && t.bases == s.bases && t.hazards == s.hazards && t.nextHazard == s.nextHazard && t.origin == s.origin
  {
  }

  /** What becomes of a unit: the whole blow if it is hit and alive, or nothing. */
  predicate Fate(damage: DamageProfile, hit: bool, before: Fighter, after: Fighter) {
    if hit && BlowOn(damage, before) > 0.0 && before.hp > 0.0 then Lost(before, after, BlowOn(damage, before)) else Spared(before, after)
  }

  lemma FateOfStruck(setting: Setting, s: Scene, i: nat, damage: DamageProfile, source: Option<UnitRef>, j: nat)
    requires i < |s.units| && j < |s.units|
    ensures var t := Struck(setting, s, i, damage.AgainstUnit(s.units[i].kind), source);
      Fate(damage, i == j, s.units[j], t.units[j]) && SameGround(s, t)
  {
    hide Struck, Lost, Spared;
    assert damage.AgainstUnit(s.units[i].kind) == BlowOn(damage, s.units[i]);
    StruckFields(setting, s, i, damage.AgainstUnit(s.units[i].kind), source, j);
  }

  predicate SameGround(s: Scene, t: Scene) {
    t.bases == s.bases && t.hazards == s.hazards && t.nextHazard == s.nextHazard && t.origin == s.origin
  }

  lemma FateStays(damage: DamageProfile, hit: bool, a: Fighter, b: Fighter, c: Fighter)
    ensures Fate(damage, hit, a, b) && Fate(damage, false, b, c) ==> Fate(damage, hit, a, c)
    ensures Fate(damage, false, a, b) && Fate(damage, hit, b, c) ==> Fate(damage, hit, a, c)
  {
  }

  lemma {:induction false} StruckEachFields(setting: Setting, s: Scene, victims: seq<nat>, damage: DamageProfile, source: Option<UnitRef>, j: nat)
    requires j < |s.units| && forall k :: 0 <= k < |victims| ==> victims[k] < |s.units|
    requires forall k, l :: 0 <= k < l < |victims| ==> victims[k] < victims[l]
    ensures var t := StruckEach(setting, s, victims, damage, source);
      Fate(damage, j in victims, s.units[j], t.units[j]) && SameGround(s, t)
  {
    if victims == [] { return; }
    hide Struck, Fate;
    var front, last := victims[..|victims| - 1], victims[|victims| - 1];
    assert victims == front + [last];
    StruckEachFields(setting, s, front, damage, source, j);
    var before := StruckEach(setting, s, front, damage, source);
    assert last !in front by { forall k | 0 <= k < |front| ensures front[k] != last { assert front[k] == victims[k]; } }
    FateOfStruck(setting, before, last, damage, source, j);
    FateStays(damage, j in victims, s.units[j], before.units[j], StruckEach(setting, s, victims, damage, source).units[j]);
  }

  /** A blast, unit by unit. A living enemy in the radius loses the whole blow, down to zero;
      everyone else keeps every hit point. The enemy base is chipped exactly when the blast
      counts bases and reaches it, by what it has left at most; the other base never. */
  lemma BlastHitsExactly(setting: Setting, s: Scene, effect: Effect, i: nat)
    requires effect.AreaDamage? && i < |s.units|
    ensures var t := Resolved(setting, s, effect);
            var f, g, blow, foe := s.units[i], t.units[i], BlowOn(effect.damage, s.units[i]), Opposing(setting.side);
            var chip := Min(s.bases.At(foe), effect.damage.amount * effect.damage.bonusVsBase);
      && (if FoeNear(setting, f, s.origin, effect.radius) && blow > 0.0 then Lost(f, g, blow) else Spared(f, g))
      && t.bases.At(setting.side) == s.bases.At(setting.side)
      && t.bases.At(foe) == s.bases.At(foe)
           - (if effect.hitsBase && Distance(setting.plane, s.origin, setting.basePositions.At(foe)) <= effect.radius && chip > 0.0
              then chip else 0.0)
      && t.origin == s.origin && t.hazards == s.hazards
  {
    hide Distance, StruckEach;
    var victims := EnemiesWithin(setting, s.units, s.origin, effect.radius);
    assert i in victims <==> EnemyWithin(setting, s.units[i], s.origin, effect.radius);
    NearMeansWithin(setting, s.units[i], s.origin, effect.radius);
    StruckEachFields(setting, s, victims, effect.damage, SourceOf(setting, s.units), i);
  }

  // ---- burning ----

  /** Fire applied to whatever burn there was: the stronger of each, and the credit with the strength. */
  predicate BurnsWith(was: Option<BurnStatus>, lit: BurnStatus, now: BurnStatus) {
    && now.damagePerTick == (if was.Some? then Max(was.value.damagePerTick, lit.damagePerTick) else lit.damagePerTick)
    && now.ticksRemaining == (if was.Some? && was.value.ticksRemaining >= lit.ticksRemaining then was.value.ticksRemaining else lit.ticksRemaining)
    && now.bonusVsMage == (if was.Some? then Max(was.value.bonusVsMage, lit.bonusVsMage) else lit.bonusVsMage)
    && now.source == (if was.Some? && was.value.damagePerTick >= lit.damagePerTick then was.value.source else lit.source)
  }

  /** In the radius, or in the spread of somebody who is. */
  ghost predicate InFlames(setting: Setting, s: Scene, effect: Effect, i: nat)
    requires effect.Burn? && i < |s.units|
  {
    || FoeNear(setting, s.units[i], s.origin, effect.radius)
    || (effect.spreadRadius > 0.0
        && exists v: nat :: v < |s.units| && FoeNear(setting, s.units[v], s.origin, effect.radius)
                            && FoeNear(setting, s.units[i], s.units[v].position, effect.spreadRadius))
  }

  /** A duration in whole ticks: rounded, and never less than one. */
  ghost predicate LastsFor(setting: Setting, seconds: real, ticks: int) {
    && ticks >= 1
    && (ticks > 1 ==> ticks as real - 0.5 <= seconds * setting.tickRate as real <= ticks as real + 0.5)
    && (ticks == 1 ==> seconds * setting.tickRate as real <= 1.5)
  }

  lemma DurationLasts(setting: Setting, seconds: real)
    ensures LastsFor(setting, seconds, DurationTicks(setting, seconds))
  {
    hide Round;
    var x := seconds * setting.tickRate as real;
    assert Round(x) as real - 0.5 <= x <= Round(x) as real + 0.5;
  }

  lemma LitMeansInFlames(setting: Setting, s: Scene, effect: Effect, i: nat)
    requires effect.Burn? && i < |s.units|
    ensures Lit(setting, s, effect, i) <==> InFlames(setting, s, effect, i)
  {
    hide EnemyWithin, FoeNear;
    NearMeansWithin(setting, s.units[i], s.origin, effect.radius);
    forall v: nat | v < |s.units|
      ensures EnemyWithin(setting, s.units[v], s.origin, effect.radius) <==> FoeNear(setting, s.units[v], s.origin, effect.radius)
      ensures EnemyWithin(setting, s.units[i], s.units[v].position, effect.spreadRadius)
         <==> FoeNear(setting, s.units[i], s.units[v].position, effect.spreadRadius)
    {
      NearMeansWithin(setting, s.units[v], s.origin, effect.radius);
      NearMeansWithin(setting, s.units[i], s.units[v].position, effect.spreadRadius);
    }
  }

  /** A burn, unit by unit: those in its flames burn with the stronger of old and new on every
      axis, at the card's own strength and length; nobody else's burn changes, and nothing else does. */
  lemma BurnLightsExactly(setting: Setting, s: Scene, effect: Effect, i: nat)
    requires effect.Burn? && i < |s.units| && DistinctNames(s.units)
    ensures var t := Resolved(setting, s, effect);
            var f, g := s.units[i], t.units[i];
      && g == f.(burn := g.burn) && t == s.(units := t.units)
      && (if InFlames(setting, s, effect, i) then
            g.burn.Some? && exists lit: BurnStatus ::
              && lit.damagePerTick == effect.damagePerSecond * setting.secondsPerTick
              && LastsFor(setting, effect.durationSeconds, lit.ticksRemaining)
              && lit.bonusVsMage == effect.bonusVsMage && lit.source == SourceOf(setting, s.units)
              && BurnsWith(f.burn, lit, g.burn.value)
          else g.burn == f.burn)
  {
    hide Burnt, Lit, InFlames, DurationTicks, LastsFor;
    BurnSpreadsOneHop(setting, s, effect, i);
    LitMeansInFlames(setting, s, effect, i);
    DurationLasts(setting, effect.durationSeconds);
    var lit := BurnOf(setting, s.units, effect);
    BurntOnlyBurns(setting, s, effect);
    if Lit(setting, s, effect, i) { assert BurnsWith(s.units[i].burn, lit, Ignited(s.units[i], lit).burn.value); }
  }

  lemma BurntOnlyBurns(setting: Setting, s: Scene, effect: Effect)
    requires effect.Burn?
    ensures Burnt(setting, s, effect) == s.(units := Burnt(setting, s, effect).units)
  {
  }

  // ---- ground ----

  /** Ground left burning: one patch more, under a number of its own, where the effect was
      centred and with the card's own strength, length and bonus; the rest as it was. */
  lemma GroundLeftBurning(setting: Setting, s: Scene, effect: Effect)
    requires effect.BurningGround? && OwnCaster(setting, s.units)
    requires forall h :: h in s.hazards ==> h.number < s.nextHazard
    ensures var t := Resolved(setting, s, effect);
            |t.hazards| == |s.hazards| + 1 && t.hazards[..|s.hazards|] == s.hazards
            && t == s.(hazards := t.hazards, nextHazard := t.nextHazard)
    ensures var t := Resolved(setting, s, effect);
            var patch := t.hazards[|s.hazards|];
      && (forall h :: h in s.hazards ==> h.number != patch.number)
      && (forall h :: h in t.hazards ==> h.number < t.nextHazard)
      && patch.side == setting.side && patch.center == s.origin && patch.radius == effect.radius
      && patch.damagePerTick == effect.damagePerSecond * setting.secondsPerTick
      && LastsFor(setting, effect.durationSeconds, patch.ticksRemaining)
      && patch.bonusVsMage == effect.bonusVsMage
      && patch.source == (if setting.caster.Some? then Some(s.units[setting.caster.value].ref) else None)
  {
    hide DurationTicks, LastsFor;
    DurationLasts(setting, effect.durationSeconds);
  }

  // ---- refilling ----

  lemma {:induction false} RefilledAt(setting: Setting, units: seq<Fighter>, allies: seq<nat>, effect: Effect, i: nat)
    requires effect.EnergyRefill? && i < |units|
    requires forall k :: 0 <= k < |allies| ==> allies[k] < |units|
    requires forall k, l :: 0 <= k < l < |allies| ==> allies[k] < allies[l]
    ensures Refilled(setting, units, allies, effect)[i]
         == if i in allies && Refills(setting, units, effect, i) then units[i].(energy := units[i].energy + effect.amount) else units[i]
  {
    hide Refills;
    if allies != [] {
      var front, last := allies[..|allies| - 1], allies[|allies| - 1];
      assert allies == front + [last];
      var before := Refilled(setting, units, front, effect);
      RefilledAt(setting, units, front, effect, i);
      RefilledAt(setting, units, front, effect, last);
      assert last !in front by { forall k | 0 <= k < |front| ensures front[k] != last { assert front[k] == allies[k]; } }
      RefillsTheSame(setting, units, front, effect, last);
    }
  }

  lemma RefillsTheSame(setting: Setting, units: seq<Fighter>, allies: seq<nat>, effect: Effect, i: nat)
    requires effect.EnergyRefill? && i < |units| && forall k :: 0 <= k < |allies| ==> allies[k] < |units|
    ensures Refills(setting, Refilled(setting, units, allies, effect), effect, i) <==> Refills(setting, units, effect, i)
  {
    RefilledUnhurt(setting, units, allies, effect);
    hide Refilled;
  }

  /** A refill, unit by unit: each living friend in the radius that has an ability to charge
      gains the amount once, the caster only when the card includes it; nobody else gains. */
  lemma RefillFeedsExactly(setting: Setting, s: Scene, effect: Effect, i: nat)
    requires effect.EnergyRefill? && i < |s.units| && DistinctNames(s.units) && OwnCaster(setting, s.units)
    ensures var t := Resolved(setting, s, effect);
            var f := s.units[i];
      && t == s.(units := t.units)
      && t.units[i] == f.(energy := f.energy
           + (if FriendNear(setting, f, s.origin, effect.radius) && f.hasAbility && (effect.includeSelf || setting.caster != Some(i))
              then effect.amount else 0.0))
  {
    hide Distance;
    var allies := AlliesWithin(setting, s.units, s.origin, effect.radius);
    assert i in allies <==> AllyWithin(setting, s.units[i], s.origin, effect.radius);
    NearMeansWithin(setting, s.units[i], s.origin, effect.radius);
    RefilledAt(setting, s.units, allies, effect, i);
  }

  // ---- being shoved ----

  /** Straight on from `origin` through `position`, `step` further. */
  ghost predicate StraightOn(plane: Plane, origin: Vec2, position: Vec2, step: real, there: Vec2) {
    && Distance(plane, origin, there) == Distance(plane, origin, position) + step
    && Distance(plane, position, there) == step
  }

  function OntoMap(setting: Setting, there: Vec2): Vec2 {
    Vec2(Min(setting.width, Max(0.0, there.x)), Min(setting.height, Max(0.0, there.y)))
  }

  lemma AwayIsStraightOn(plane: Plane, origin: Vec2, position: Vec2, step: real)
    requires ValidPlane(plane) && origin != position && step >= 0.0
    ensures StraightOn(plane, origin, position, step, Away(origin, position, step / Distance(plane, origin, position)))
  {
    hide ValidPlane, Distance, Partway, Away;
    DistanceFacts(plane, origin, position);
    var gap := Distance(plane, origin, position);
    var scale := step / gap;
    var there := Away(origin, position, scale);
    Shares(step, gap, scale);
    AwayIsPartway(origin, position, scale);
    ScaledDistance(plane, origin, position, 1.0 + scale);
    DistanceFacts(plane, position, there);
    assert (1.0 + scale) * gap == gap + step;
    assert Abs(1.0 - (1.0 + scale)) * gap == step;
  }

  lemma AwayIsPartway(origin: Vec2, position: Vec2, scale: real)
    ensures Away(origin, position, scale) == Partway(origin, position, 1.0 + scale)
  {
    OneMoreOf(origin.x, position.x, position.x - origin.x, scale);
    OneMoreOf(origin.y, position.y, position.y - origin.y, scale);
  }

  lemma OneMoreOf(from: real, to: real, d: real, scale: real)
    requires d == to - from
    ensures to + d * scale == from + d * (1.0 + scale)
  {
    assert d * (1.0 + scale) == d + d * scale;
  }

  lemma ShovedOntoMap(setting: Setting, origin: Vec2, position: Vec2, step: real)
    requires ValidPlane(setting.plane) && origin != position
    ensures PushedAway(setting, origin, position, step) == OntoMap(setting, Away(origin, position, step / Distance(setting.plane, origin, position)))
  {
    hide ValidPlane, Distance;
    DistanceFacts(setting.plane, origin, position);
    hide Away;
  }

  lemma {:induction false} PushedAt(setting: Setting, units: seq<Fighter>, victims: seq<nat>, origin: Vec2, step: real, i: nat)
    requires i < |units| && forall k :: 0 <= k < |victims| ==> victims[k] < |units|
    requires forall k, l :: 0 <= k < l < |victims| ==> victims[k] < victims[l]
    ensures Pushed(setting, units, victims, origin, step)[i]
         == if i in victims && !units[i].emplacement then units[i].(position := PushedAway(setting, origin, units[i].position, step)) else units[i]
  {
    hide PushedAway;
    if victims != [] {
      var front, last := victims[..|victims| - 1], victims[|victims| - 1];
      assert victims == front + [last];
      PushedAt(setting, units, front, origin, step, i);
      PushedAt(setting, units, front, origin, step, last);
      assert last !in front by { forall k | 0 <= k < |front| ensures front[k] != last { assert front[k] == victims[k]; } }
    }
  }

  lemma NotShoved(setting: Setting, position: Vec2, step: real)
    requires ValidPlane(setting.plane)
    ensures PushedAway(setting, position, position, step) == position
  {
    hide ValidPlane, Distance;
    DistanceFacts(setting.plane, position, position);
  }

  /** A shove, unit by unit: a living enemy in the radius, if it can be moved and is not on the
      origin itself, is carried straight away from the origin by the card's distance and brought
      back onto the map; nobody else moves, and nothing but positions changes. */
  lemma ShoveCarriesExactly(setting: Setting, s: Scene, effect: Effect, i: nat)
    requires ValidPlane(setting.plane) && effect.Knockback? && effect.distance >= 0.0 && i < |s.units|
    ensures var t := Resolved(setting, s, effect);
            var f, g := s.units[i], t.units[i];
      && t == s.(units := t.units) && g == f.(position := g.position)
      && (if FoeNear(setting, f, s.origin, effect.radius) && !f.emplacement && f.position != s.origin then
            exists there :: StraightOn(setting.plane, s.origin, f.position, effect.distance, there) && g.position == OntoMap(setting, there)
          else g.position == f.position)
  {
    hide ValidPlane, Distance, PushedAway, StraightOn, OntoMap, Away, EnemyWithin, FoeNear;
    var f := s.units[i];
    var victims := EnemiesWithin(setting, s.units, s.origin, effect.radius);
    assert i in victims <==> EnemyWithin(setting, f, s.origin, effect.radius);
    NearMeansWithin(setting, f, s.origin, effect.radius);
    PushedAt(setting, s.units, victims, s.origin, effect.distance, i);
    if f.position != s.origin {
      AwayIsStraightOn(setting.plane, s.origin, f.position, effect.distance);
      ShovedOntoMap(setting, s.origin, f.position, effect.distance);
    } else {
      NotShoved(setting, s.origin, effect.distance);
    }
  }

  // ---- dashing ----

  /** Whether a dash goes anywhere: a caster that can move, a target, and ground left between
      them beyond where the caster means to stop. */
  predicate Dashes(setting: Setting, s: Scene, effect: Effect)
    requires effect.DashToTarget? && (setting.caster.Some? ==> setting.caster.value < |s.units|)
    requires setting.target.Some? ==> setting.target.value < |s.units|
  {
    && setting.caster.Some? && setting.target.Some? && !s.units[setting.caster.value].emplacement
    && effect.maxDistance > 0.0
    && Distance(setting.plane, s.units[setting.caster.value].position, s.units[setting.target.value].position) > effect.stopShort
  }

  /** A dash: exactly its reach or up to where it means to stop, whichever is less, and straight
      at the target; the effect's origin goes along when it follows the caster. Otherwise nothing. */
  lemma DashCoversExactly(setting: Setting, s: Scene, effect: Effect)
    requires ValidPlane(setting.plane) && effect.DashToTarget? && effect.stopShort >= 0.0
    requires setting.caster.Some? ==> setting.caster.value < |s.units|
    requires setting.target.Some? ==> setting.target.value < |s.units|
    ensures var t := Resolved(setting, s, effect);
      if Dashes(setting, s, effect) then
        var c := setting.caster.value;
        var from, at, landed := s.units[c].position, s.units[setting.target.value].position, t.units[c].position;
        var gap := Distance(setting.plane, from, at);
        && t.units == s.units[c := s.units[c].(position := landed)]
        && Distance(setting.plane, from, landed) == Min(effect.maxDistance, gap - effect.stopShort)
        && Distance(setting.plane, landed, at) == gap - Min(effect.maxDistance, gap - effect.stopShort)
        && t == s.(units := t.units, origin := if setting.followsCaster then landed else s.origin)
      else t == s
  {
    hide ValidPlane, Distance, MoveToward;
    if Dashes(setting, s, effect) {
      var from, at := s.units[setting.caster.value].position, s.units[setting.target.value].position;
      var step := Min(effect.maxDistance, Distance(setting.plane, from, at) - effect.stopShort);
      WalkCovers(setting.plane, from, at, step);
      DistanceFacts(setting.plane, from, at);
    }
  }

  // ---- a whole card ----

  /** Effects happen in the order the card declares them: the first, then the rest of the card
      on the scene it left. */
  lemma {:induction false} DeclaredOrder(setting: Setting, s: Scene, first: Effect, rest: seq<Effect>)
    ensures Applied(setting, s, [first] + rest) == Applied(setting, Resolved(setting, s, first), rest)
  {
    hide Resolved;
    var all := [first] + rest;
    if rest == [] {
      assert all[..0] == [] && all == [first];
    } else {
      var last := |rest| - 1;
      assert all[..|all| - 1] == [first] + rest[..last];
      DeclaredOrder(setting, s, first, rest[..last]);
    }
  }

  // ---- whose kill it is ----

  ghost predicate Credited(s: Scene, t: Scene, killer: Option<UnitRef>) {
    s.defeats <= t.defeats && forall k :: |s.defeats| <= k < |t.defeats| ==> t.defeats[k].killer == killer
  }

  lemma {:induction false} StruckEachCredits(setting: Setting, s: Scene, victims: seq<nat>, damage: DamageProfile, source: Option<UnitRef>)
    requires forall k :: 0 <= k < |victims| ==> victims[k] < |s.units|
    ensures Credited(s, StruckEach(setting, s, victims, damage, source), source)
  {
    if victims != [] {
      var front, last := victims[..|victims| - 1], victims[|victims| - 1];
      StruckEachCredits(setting, s, front, damage, source);
      var before := StruckEach(setting, s, front, damage, source);
      StruckCredits(setting, before, last, damage.AgainstUnit(before.units[last].kind), source);
    }
  }

  lemma StruckCredits(setting: Setting, s: Scene, i: nat, amount: real, source: Option<UnitRef>)
    requires i < |s.units|
    ensures Credited(s, Struck(setting, s, i, amount, source), source)
  {
  }

  /** Every unit a card fells falls to its caster, or to nobody where the card has none. */
  lemma {:induction false} KillsGoToTheCaster(setting: Setting, s: Scene, effects: seq<Effect>)
    requires OwnCaster(setting, s.units) && DistinctNames(s.units)
    ensures Credited(s, Applied(setting, s, effects), if setting.caster.Some? then Some(s.units[setting.caster.value].ref) else None)
  {
    if effects != [] {
      var front, last := effects[..|effects| - 1], effects[|effects| - 1];
      var before := Applied(setting, s, front);
      KillsGoToTheCaster(setting, s, front);
      CardIsLawful(setting, s, front);
      LawsKeepSetting(setting, s, before);
      hide Lawful, Applied, Resolved, DistinctNames;
      if setting.caster.Some? { SidesKept(setting, s, before, setting.caster.value); }
      EffectCredits(setting, before, last);
    }
  }

  lemma EffectCredits(setting: Setting, s: Scene, effect: Effect)
    requires OwnCaster(setting, s.units)
    ensures Credited(s, Resolved(setting, s, effect), if setting.caster.Some? then Some(s.units[setting.caster.value].ref) else None)
  {
    hide StruckEach, Burnt, Pushed, Refilled;
    if effect.AreaDamage? {
      var victims := EnemiesWithin(setting, s.units, s.origin, effect.radius);
      StruckEachCredits(setting, s, victims, effect.damage, SourceOf(setting, s.units));
    } else if effect.Burn? {
      BurntOnlyBurns(setting, s, effect);
    }
  }
}
