/** How far a burn travels and how burns combine; how far a dash or a shove can carry. */
module Burning {
  import opened Common
  import opened BattleWorld
  import opened Geometry
  import opened Effects
  import opened EffectLaws

  // ---- one hop ----

  lemma MergeAgainChangesNothing(existing: Option<BurnStatus>, lit: BurnStatus)
    ensures Merged(Some(Merged(existing, lit)), lit) == Merged(existing, lit)
  {
  }

  lemma IgniteAgainChangesNothing(f: Fighter, lit: BurnStatus)
    ensures Ignited(Ignited(f, lit), lit) == Ignited(f, lit)
  {
    MergeAgainChangesNothing(f.burn, lit);
  }

  /** However often a unit is listed, it is lit once. */
  lemma {:induction false} IgnitedEachAt(units: seq<Fighter>, victims: seq<nat>, lit: BurnStatus, i: nat)
    requires i < |units| && forall k :: 0 <= k < |victims| ==> victims[k] < |units|
    ensures IgnitedEach(units, victims, lit)[i] == if i in victims then Ignited(units[i], lit) else units[i]
  {
    hide Ignited;
    if victims != [] {
      var front, last := victims[..|victims| - 1], victims[|victims| - 1];
      assert victims == front + [last];
      IgnitedEachAt(units, front, lit, i);
      IgniteAgainChangesNothing(units[i], lit);
    }
  }

  /** Whether some unit of the caught stands within the spread of unit `i`, and `i` is not already lit. */
  ghost predicate Reached(setting: Setting, units: seq<Fighter>, caught: seq<nat>, spread: real, names: set<string>, i: nat)
    requires i < |units| && forall k :: 0 <= k < |caught| ==> caught[k] < |units|
  {
    && units[i].ref.unitId !in names
    && exists k :: 0 <= k < |caught| && EnemyWithin(setting, units[i], units[caught[k]].position, spread)
  }

  lemma IgnitingMovesNobody(setting: Setting, f: Fighter, lit: BurnStatus, center: Vec2, radius: real)
    ensures EnemyWithin(setting, Ignited(f, lit), center, radius) == EnemyWithin(setting, f, center, radius)
    ensures Ignited(f, lit).position == f.position && Ignited(f, lit).ref == f.ref
  {
  }

  lemma {:induction false} SpreadAt(setting: Setting, units: seq<Fighter>, caught: seq<nat>, spread: real, names: set<string>, lit: BurnStatus, i: nat)
    requires i < |units| && forall k :: 0 <= k < |caught| ==> caught[k] < |units|
    ensures SpreadFrom(setting, units, caught, spread, names, lit)[i]
         == if Reached(setting, units, caught, spread, names, i) then Ignited(units[i], lit) else units[i]
  {
    hide Ignited, EnemyWithin;
    if caught != [] {
      var front, last := caught[..|caught| - 1], caught[|caught| - 1];
      var before := SpreadFrom(setting, units, front, spread, names, lit);
      SpreadAt(setting, units, front, spread, names, lit, i);
      SpreadAt(setting, units, front, spread, names, lit, last);
      var near := Unlit(setting, before, last, spread, names);
      IgnitedEachAt(before, near, lit, i);
      IgniteAgainChangesNothing(units[i], lit);
      IgnitingMovesNobody(setting, units[last], lit, units[last].position, spread);
      IgnitingMovesNobody(setting, units[i], lit, units[last].position, spread);
      assert i in near <==> EnemyWithin(setting, units[i], units[last].position, spread) && units[i].ref.unitId !in names;
      OneMoreSource(setting, units, caught, spread, names, i);
    }
  }

  lemma OneMoreSource(setting: Setting, units: seq<Fighter>, caught: seq<nat>, spread: real, names: set<string>, i: nat)
    requires caught != [] && i < |units| && forall k :: 0 <= k < |caught| ==> caught[k] < |units|
    ensures Reached(setting, units, caught, spread, names, i)
      <==> Reached(setting, units, caught[..|caught| - 1], spread, names, i)
           || (units[i].ref.unitId !in names && EnemyWithin(setting, units[i], units[caught[|caught| - 1]].position, spread))
  {
    hide EnemyWithin;
    var front := caught[..|caught| - 1];
    if Reached(setting, units, front, spread, names, i) {
      var k :| 0 <= k < |front| && EnemyWithin(setting, units[i], units[front[k]].position, spread);
      assert caught[k] == front[k];
    }
    if Reached(setting, units, caught, spread, names, i) {
      var k :| 0 <= k < |caught| && EnemyWithin(setting, units[i], units[caught[k]].position, spread);
      if k < |front| { assert front[k] == caught[k]; }
    }
  }

  /** Caught by the burn itself. */
  predicate Caught(setting: Setting, s: Scene, effect: Effect, f: Fighter)
    requires effect.Burn?
  {
    EnemyWithin(setting, f, s.origin, effect.radius)
  }

  /** Lit: caught, or an enemy within the spread of one that was. */
  ghost predicate Lit(setting: Setting, s: Scene, effect: Effect, i: nat)
    requires effect.Burn? && i < |s.units|
  {
    || Caught(setting, s, effect, s.units[i])
    || (effect.spreadRadius > 0.0
        && exists v: nat :: v < |s.units| && Caught(setting, s, effect, s.units[v])
                            && EnemyWithin(setting, s.units[i], s.units[v].position, effect.spreadRadius))
  }

  lemma NamedMeansCaught(setting: Setting, s: Scene, effect: Effect, first: seq<Fighter>, i: nat)
    requires effect.Burn? && i < |s.units| && DistinctNames(s.units)
    requires |first| == |s.units| && forall k :: 0 <= k < |first| ==> first[k].ref == s.units[k].ref
    ensures var caught := EnemiesWithin(setting, s.units, s.origin, effect.radius);
      first[i].ref.unitId in Effects.Names(first, caught) <==> Caught(setting, s, effect, s.units[i])
  {
    hide EnemyWithin;
    var caught := EnemiesWithin(setting, s.units, s.origin, effect.radius);
    if Caught(setting, s, effect, s.units[i]) {
      assert i in caught;
      var k :| 0 <= k < |caught| && caught[k] == i;
      assert first[caught[k]].ref.unitId in Effects.Names(first, caught);
    }
    if first[i].ref.unitId in Effects.Names(first, caught) {
      var k :| 0 <= k < |caught| && first[caught[k]].ref.unitId == first[i].ref.unitId;
      assert caught[k] in caught && caught[k] == i;
    }
  }

  lemma ReachedMeansNear(setting: Setting, s: Scene, effect: Effect, first: seq<Fighter>, i: nat)
    requires effect.Burn? && i < |s.units| && |first| == |s.units|
    requires forall k :: 0 <= k < |first| ==> first[k] == s.units[k].(burn := first[k].burn)
    ensures (exists v: nat :: v < |s.units| && Caught(setting, s, effect, s.units[v])
                              && EnemyWithin(setting, s.units[i], s.units[v].position, effect.spreadRadius))
       <==> (exists k :: 0 <= k < |EnemiesWithin(setting, s.units, s.origin, effect.radius)|
                         && EnemyWithin(setting, first[i], first[EnemiesWithin(setting, s.units, s.origin, effect.radius)[k]].position, effect.spreadRadius))
  {
    hide Distance;
    var caught := EnemiesWithin(setting, s.units, s.origin, effect.radius);
    forall v: nat | v < |s.units| && Caught(setting, s, effect, s.units[v]) ensures exists k :: 0 <= k < |caught| && caught[k] == v {
      assert v in caught;
    }
    forall k | 0 <= k < |caught| ensures Caught(setting, s, effect, s.units[caught[k]]) { assert caught[k] in caught; }
  }

  /** A burn spreads exactly one hop: lit are just the enemies in its radius and the enemies
      within the spread of one of those, each refreshed once; every other unit is untouched. */
  lemma BurnSpreadsOneHop(setting: Setting, s: Scene, effect: Effect, i: nat)
    requires effect.Burn? && i < |s.units| && DistinctNames(s.units)
    ensures Burnt(setting, s, effect).units[i]
         == if Lit(setting, s, effect, i) then Ignited(s.units[i], BurnOf(setting, s.units, effect)) else s.units[i]
  {
    hide Ignited, EnemyWithin, BurnOf, DistinctNames;
    var lit := BurnOf(setting, s.units, effect);
    var caught := EnemiesWithin(setting, s.units, s.origin, effect.radius);
    var first := IgnitedEach(s.units, caught, lit);
    forall k: nat | k < |first| ensures first[k] == s.units[k].(burn := first[k].burn) {
      IgnitedEachAt(s.units, caught, lit, k);
      IgnitedOnlyBurns(s.units[k], lit);
    }
    IgnitedEachAt(s.units, caught, lit, i);
    if effect.spreadRadius > 0.0 {
      SpreadAt(setting, first, caught, effect.spreadRadius, Effects.Names(first, caught), lit, i);
      NamedMeansCaught(setting, s, effect, first, i);
      ReachedMeansNear(setting, s, effect, first, i);
    }
  }

  lemma IgnitedOnlyBurns(f: Fighter, lit: BurnStatus)
    ensures Ignited(f, lit) == f.(burn := Ignited(f, lit).burn)
  {
  }

  // ---- how burns combine ----

  function MergedAll(existing: Option<BurnStatus>, burns: seq<BurnStatus>): Option<BurnStatus> {
    if burns == [] then existing
    else Some(Merged(MergedAll(existing, burns[..|burns| - 1]), burns[|burns| - 1]))
  }

  predicate AmongThem(existing: Option<BurnStatus>, burns: seq<BurnStatus>, b: BurnStatus) {
    b in burns || existing == Some(b)
  }

  /** On each axis the strongest of all there ever were, and the credit to one of the strongest. */
  ghost predicate Strongest(existing: Option<BurnStatus>, burns: seq<BurnStatus>, total: BurnStatus) {
    && (forall b :: AmongThem(existing, burns, b) ==>
          b.damagePerTick <= total.damagePerTick && b.ticksRemaining <= total.ticksRemaining && b.bonusVsMage <= total.bonusVsMage)
    && (exists b :: AmongThem(existing, burns, b) && b.damagePerTick == total.damagePerTick && b.source == total.source)
    && (exists b :: AmongThem(existing, burns, b) && b.ticksRemaining == total.ticksRemaining)
    && (exists b :: AmongThem(existing, burns, b) && b.bonusVsMage == total.bonusVsMage)
  }

  lemma {:induction false} MergedAllIsStrongest(existing: Option<BurnStatus>, burns: seq<BurnStatus>)
    requires existing.Some? || burns != []
    ensures MergedAll(existing, burns).Some? && Strongest(existing, burns, MergedAll(existing, burns).value)
  {
    if burns == [] {
      assert AmongThem(existing, burns, existing.value);
    } else {
      var front, last := burns[..|burns| - 1], burns[|burns| - 1];
      assert burns == front + [last];
      assert AmongThem(existing, burns, last);
      if existing.Some? || front != [] {
        MergedAllIsStrongest(existing, front);
        OneMoreBurn(existing, front, last, MergedAll(existing, front).value);
      } else {
        assert burns == [last] && MergedAll(existing, front) == None;
      }
    }
  }

  lemma OneMoreBurn(existing: Option<BurnStatus>, front: seq<BurnStatus>, last: BurnStatus, total: BurnStatus)
    requires Strongest(existing, front, total)
    ensures Strongest(existing, front + [last], Merged(Some(total), last))
  {
    var all, after := front + [last], Merged(Some(total), last);
    assert AmongThem(existing, all, last);
    var x :| AmongThem(existing, front, x) && x.damagePerTick == total.damagePerTick && x.source == total.source;
    var y :| AmongThem(existing, front, y) && y.ticksRemaining == total.ticksRemaining;
    var z :| AmongThem(existing, front, z) && z.bonusVsMage == total.bonusVsMage;
    assert AmongThem(existing, all, x) && AmongThem(existing, all, y) && AmongThem(existing, all, z);
    forall b | AmongThem(existing, all, b)
      ensures b.damagePerTick <= after.damagePerTick && b.ticksRemaining <= after.ticksRemaining && b.bonusVsMage <= after.bonusVsMage
    {
      assert b == last || AmongThem(existing, front, b);
    }
  }

  /** So neither the order burns land in nor how often each does changes what a unit burns
      with: strength, length and bonus are the same for any two lists with the same members. */
  lemma BurnsForgetOrder(existing: Option<BurnStatus>, a: seq<BurnStatus>, b: seq<BurnStatus>)
    requires existing.Some? || a != []
    requires forall x :: x in a <==> x in b
    ensures var x, y := MergedAll(existing, a), MergedAll(existing, b);
      && x.Some? && y.Some?
      && x.value.damagePerTick == y.value.damagePerTick
      && x.value.ticksRemaining == y.value.ticksRemaining
      && x.value.bonusVsMage == y.value.bonusVsMage
  {
    if a != [] { assert a[0] in b; }
    hide Merged;
    MergedAllIsStrongest(existing, a);
    MergedAllIsStrongest(existing, b);
    hide MergedAll;
    assert forall x :: AmongThem(existing, a, x) <==> AmongThem(existing, b, x);
  }

  // ---- being carried ----

  /** A dash covers at most its reach and never ends nearer its target than it means to stop;
      an emplacement never moves. */
  lemma DashStopsShort(setting: Setting, s: Scene, effect: Effect)
    requires effect.DashToTarget? && ValidPlane(setting.plane)
    requires setting.caster.Some? && setting.target.Some?
    requires setting.caster.value < |s.units| && setting.target.value < |s.units| && setting.caster != setting.target
    ensures var t := Dashed(setting, s, effect);
            var before, after, quarry := s.units[setting.caster.value], t.units[setting.caster.value], s.units[setting.target.value];
      && (after.position == before.position
          || (&& Distance(setting.plane, before.position, after.position) <= effect.maxDistance
              && Distance(setting.plane, after.position, quarry.position) >= effect.stopShort
              && t.units == s.units[setting.caster.value := before.(position := after.position)]))
      && (before.emplacement ==> t == s)
      && (setting.followsCaster && after.position != before.position ==> t.origin == after.position)
  {
    hide ValidPlane, Distance, MoveToward;
    var before, quarry := s.units[setting.caster.value], s.units[setting.target.value];
    var step := Min(effect.maxDistance, Distance(setting.plane, before.position, quarry.position) - effect.stopShort);
    if !before.emplacement && step > 0.0 {
      WalkCovers(setting.plane, before.position, quarry.position, step);
      DistanceFacts(setting.plane, before.position, quarry.position);
    }
  }

  lemma SmallerSquare(x: real, y: real)
    requires Abs(x) <= Abs(y)
    ensures Square(x) <= Square(y)
  {
    SquareOfOpposite(x);
    SquareOfOpposite(y);
    SquaresOrder(Abs(x), Abs(y));
    hide Square;
  }

  lemma EdgeOnlyShortens(p: real, d: real, limit: real, moved: real)
    requires 0.0 <= p <= limit && moved == Min(limit, Max(0.0, p + d)) - p
    ensures Square(moved) <= Square(d)
  {
    SmallerSquare(moved, d);
  }

  lemma ShoveLength(plane: Plane, origin: Vec2, position: Vec2, step: real, scale: real, dx: real, dy: real)
    requires ValidPlane(plane) && origin != position && step >= 0.0
    requires scale == step / Distance(plane, origin, position)
    requires dx == (position.x - origin.x) * scale && dy == (position.y - origin.y) * scale
    ensures Square(dx) + Square(dy) == Square(step)
  {
    hide ValidPlane, Distance, Square;
    var gap := Distance(plane, origin, position);
    DistanceFacts(plane, origin, position);
    SquareScales(position.x - origin.x, position.y - origin.y, scale, dx, dy);
    Shares(step, gap, scale);
    SquareOfProduct(scale, gap);
    SameSquare(scale * gap, step);
  }

  /** A shove keeps its victim on the map and carries it no further than it says; one standing
      on the origin stays put. */
  lemma ShoveStaysOnMap(setting: Setting, origin: Vec2, position: Vec2, step: real)
    requires ValidPlane(setting.plane) && step >= 0.0
    requires 0.0 <= position.x <= setting.width && 0.0 <= position.y <= setting.height
    ensures var landed := PushedAway(setting, origin, position, step);
      && 0.0 <= landed.x <= setting.width && 0.0 <= landed.y <= setting.height
      && Distance(setting.plane, position, landed) <= step
      && (origin == position ==> landed == position)
  {
    hide ValidPlane, Distance, Square;
    DistanceFacts(setting.plane, origin, position);
    var landed := PushedAway(setting, origin, position, step);
    DistanceFacts(setting.plane, position, landed);
    if origin != position {
      var scale := step / Distance(setting.plane, origin, position);
      var dx, dy := (position.x - origin.x) * scale, (position.y - origin.y) * scale;
      ShoveLength(setting.plane, origin, position, step, scale, dx, dy);
      EdgeOnlyShortens(position.x, dx, setting.width, landed.x - position.x);
      EdgeOnlyShortens(position.y, dy, setting.height, landed.y - position.y);
      SquaresOrder(Distance(setting.plane, position, landed), step);
    }
  }
}
