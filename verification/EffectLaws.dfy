/** What holds of any card whatever: damage is conserved, every defeat is told once, bases
    are chipped by exactly what is reported, friends are never hurt. */
module EffectLaws {
  import opened Common
  import opened BattleWorld
  import opened Geometry
  import opened Effects

  // ---- the laws, each a relation between a scene before and a scene after ----

  /** The caster, if there is one, is among the units and on its own side. */
  predicate OwnCaster(setting: Setting, units: seq<Fighter>) {
    setting.caster.Some? ==> setting.caster.value < |units| && units[setting.caster.value].ref.side == setting.side
  }

  ghost predicate DistinctNames(units: seq<Fighter>) {
    forall i, j :: 0 <= i < j < |units| ==> units[i].ref.unitId != units[j].ref.unitId
  }

  predicate SameBeing(a: Fighter, b: Fighter) {
    a.ref == b.ref && a.kind == b.kind && a.emplacement == b.emplacement && a.hasAbility == b.hasAbility
  }

  /** What one unit has lost against what its meter says it took: equal while it lives, and at
      least its last hit points when it falls; nothing happens to the dead or to friends. */
  predicate Worn(side: Side, a: Fighter, b: Fighter) {
    && b.hp <= a.hp
    && (Alive(b) ==> a.hp + a.taken == b.hp + b.taken)
    && (Alive(a) && !Alive(b) ==> b.hp == 0.0 && b.taken - a.taken >= a.hp)
    && (!Alive(a) || a.ref.side == side ==> b.hp == a.hp && b.taken == a.taken)
  }

  ghost predicate AllWorn(side: Side, a: seq<Fighter>, b: seq<Fighter>) {
    |a| == |b| && forall i :: 0 <= i < |a| ==> SameBeing(a[i], b[i]) && Worn(side, a[i], b[i])
  }

  function TakenBy(units: seq<Fighter>): real {
    if units == [] then 0.0 else TakenBy(units[..|units| - 1]) + units[|units| - 1].taken
  }

  predicate LivingCaster(setting: Setting, units: seq<Fighter>, i: nat)
    requires i < |units|
  {
    setting.caster == Some(i) && Alive(units[i])
  }

  /** Only a living caster's dealt meter moves, and by the whole damage. */
  ghost predicate CasterCharged(setting: Setting, a: seq<Fighter>, b: seq<Fighter>, amount: real) {
    |a| == |b| && forall i: nat :: i < |a| ==> b[i].dealt == a[i].dealt + if LivingCaster(setting, a, i) then amount else 0.0
  }

  predicate Fell(a: Fighter, b: Fighter) {
    Alive(a) && !Alive(b)
  }

  /** One event for each unit removed, in the same order. */
  predicate Tells(tick: nat, defeats: seq<Defeat>, removed: seq<UnitRef>) {
    |defeats| == |removed| && forall k :: 0 <= k < |defeats| ==> defeats[k].unit == removed[k] && defeats[k].tick == tick
  }

  /** Exactly the fallen are in the list, each once. */
  ghost predicate Names(a: seq<Fighter>, b: seq<Fighter>, removed: seq<UnitRef>) {
    && |a| == |b|
    && (forall i :: 0 <= i < |a| ==> multiset(removed)[a[i].ref] == if Fell(a[i], b[i]) then 1 else 0)
    && (forall ref :: ref in removed ==> exists i :: 0 <= i < |a| && a[i].ref == ref)
  }

  /** The newly removed are exactly the newly fallen, each once, each with its own event. */
  ghost predicate FallsTold(setting: Setting, s: Scene, t: Scene) {
    && s.outcome.removed <= t.outcome.removed && s.defeats <= t.defeats
    && Tells(setting.tick, t.defeats[|s.defeats|..], t.outcome.removed[|s.outcome.removed|..])
    && Names(s.units, t.units, t.outcome.removed[|s.outcome.removed|..])
  }

  function Reported(s: Scene, side: Side): real {
    if side in s.outcome.baseHp then s.outcome.baseHp[side] else 0.0
  }

  /** The reported base change is the real one; only the enemy base moves, down, never past zero. */
  predicate BaseKept(side: Side, s: Scene, t: Scene) {
    && t.bases.At(side) == s.bases.At(side) && Reported(t, side) == Reported(s, side)
    && t.bases.At(Opposing(side)) <= s.bases.At(Opposing(side))
    && (s.bases.At(Opposing(side)) >= 0.0 ==> t.bases.At(Opposing(side)) >= 0.0)
    && Reported(t, Opposing(side)) - Reported(s, Opposing(side)) == t.bases.At(Opposing(side)) - s.bases.At(Opposing(side))
  }

  ghost predicate Lawful(setting: Setting, s: Scene, t: Scene) {
    && AllWorn(setting.side, s.units, t.units)
    && TakenBy(t.units) - TakenBy(s.units) == t.outcome.damageDealt - s.outcome.damageDealt
    && CasterCharged(setting, s.units, t.units, t.outcome.damageDealt - s.outcome.damageDealt)
    && FallsTold(setting, s, t)
    && BaseKept(setting.side, s, t)
  }

  // ---- the laws chain ----

  lemma WornChains(side: Side, a: seq<Fighter>, b: seq<Fighter>, c: seq<Fighter>)
    requires AllWorn(side, a, b) && AllWorn(side, b, c)
    ensures AllWorn(side, a, c)
  {
    forall i | 0 <= i < |a| ensures SameBeing(a[i], c[i]) && Worn(side, a[i], c[i]) {
      assert Worn(side, a[i], b[i]) && Worn(side, b[i], c[i]) && SameBeing(a[i], b[i]) && SameBeing(b[i], c[i]);
    }
  }

  lemma ChargesChain(setting: Setting, a: seq<Fighter>, b: seq<Fighter>, c: seq<Fighter>, x: real, y: real)
    requires OwnCaster(setting, a) && AllWorn(setting.side, a, b)
    requires CasterCharged(setting, a, b, x) && CasterCharged(setting, b, c, y)
    ensures CasterCharged(setting, a, c, x + y)
  {
    forall i: nat | i < |a| ensures c[i].dealt == a[i].dealt + if LivingCaster(setting, a, i) then x + y else 0.0 {
      assert Worn(setting.side, a[i], b[i]) && SameBeing(a[i], b[i]);
      assert LivingCaster(setting, a, i) <==> LivingCaster(setting, b, i);
    }
  }

  lemma SuffixesAdd<T>(a: seq<T>, b: seq<T>, c: seq<T>)
    requires a <= b && b <= c
    ensures a <= c && c[|a|..] == b[|a|..] + c[|b|..]
    ensures multiset(c[|a|..]) == multiset(b[|a|..]) + multiset(c[|b|..])
  {
    assert c[|a|..] == b[|a|..] + c[|b|..];
  }

  lemma TalesAdd(tick: nat, d: seq<Defeat>, r: seq<UnitRef>, e: seq<Defeat>, q: seq<UnitRef>)
    requires Tells(tick, d, r) && Tells(tick, e, q)
    ensures Tells(tick, d + e, r + q)
  {
  }

  lemma NamesAdd(side: Side, a: seq<Fighter>, b: seq<Fighter>, c: seq<Fighter>, early: seq<UnitRef>, late: seq<UnitRef>)
    requires Names(a, b, early) && Names(b, c, late)
    requires AllWorn(side, a, b) && AllWorn(side, b, c)
    ensures Names(a, c, early + late)
  {
    assert multiset(early + late) == multiset(early) + multiset(late);
    forall i | 0 <= i < |a| ensures multiset(early + late)[a[i].ref] == if Fell(a[i], c[i]) then 1 else 0 {
      assert SameBeing(a[i], b[i]) && Worn(side, a[i], b[i]) && Worn(side, b[i], c[i]);
      assert multiset(early)[a[i].ref] == if Fell(a[i], b[i]) then 1 else 0;
      assert multiset(late)[b[i].ref] == if Fell(b[i], c[i]) then 1 else 0;
    }
    forall ref | ref in early + late ensures exists i :: 0 <= i < |a| && a[i].ref == ref {
      if ref !in early {
        var i :| 0 <= i < |b| && b[i].ref == ref;
        assert SameBeing(a[i], b[i]);
      }
    }
  }

  lemma FallsChain(setting: Setting, s: Scene, t: Scene, u: Scene)
    requires FallsTold(setting, s, t) && FallsTold(setting, t, u)
    requires AllWorn(setting.side, s.units, t.units) && AllWorn(setting.side, t.units, u.units)
    ensures FallsTold(setting, s, u)
  {
    hide Tells, Names, AllWorn;
    SuffixesAdd(s.outcome.removed, t.outcome.removed, u.outcome.removed);
    SuffixesAdd(s.defeats, t.defeats, u.defeats);
    var early, late := t.outcome.removed[|s.outcome.removed|..], u.outcome.removed[|t.outcome.removed|..];
    TalesAdd(setting.tick, t.defeats[|s.defeats|..], early, u.defeats[|t.defeats|..], late);
    NamesAdd(setting.side, s.units, t.units, u.units, early, late);
  }

  lemma LawsChain(setting: Setting, s: Scene, t: Scene, u: Scene)
    requires OwnCaster(setting, s.units) && Lawful(setting, s, t) && Lawful(setting, t, u)
    ensures Lawful(setting, s, u)
  {
    hide AllWorn, CasterCharged, FallsTold, OwnCaster, TakenBy;
    WornChains(setting.side, s.units, t.units, u.units);
    ChargesChain(setting, s.units, t.units, u.units, t.outcome.damageDealt - s.outcome.damageDealt,
                 u.outcome.damageDealt - t.outcome.damageDealt);
    FallsChain(setting, s, t, u);
  }

  // ---- every effect keeps them ----

  /** Two lists of units that differ in nothing the laws speak of. */
  ghost predicate Unhurt(a: seq<Fighter>, b: seq<Fighter>) {
    |a| == |b| && forall i :: 0 <= i < |a| ==>
      SameBeing(a[i], b[i]) && a[i].hp == b[i].hp && a[i].taken == b[i].taken && a[i].dealt == b[i].dealt
  }

  lemma {:induction false} UnhurtTakesNothing(a: seq<Fighter>, b: seq<Fighter>)
    requires Unhurt(a, b)
    ensures TakenBy(a) == TakenBy(b)
  {
    if a != [] { UnhurtTakesNothing(a[..|a| - 1], b[..|b| - 1]); }
  }

  lemma NothingFell(setting: Setting, s: Scene, t: Scene)
    requires Unhurt(s.units, t.units) && s.outcome.removed == t.outcome.removed && s.defeats == t.defeats
    ensures FallsTold(setting, s, t)
  {
    assert t.outcome.removed[|s.outcome.removed|..] == [] && t.defeats[|s.defeats|..] == [];
  }

  lemma QuietIsLawful(setting: Setting, s: Scene, t: Scene)
    requires Unhurt(s.units, t.units) && s.outcome == t.outcome && s.defeats == t.defeats && s.bases == t.bases
    ensures Lawful(setting, s, t)
  {
    UnhurtTakesNothing(s.units, t.units);
    NothingFell(setting, s, t);
    hide FallsTold, TakenBy;
  }

  /** A blow, seen unit by unit. */
  lemma StruckUnits(setting: Setting, s: Scene, i: nat, amount: real, source: Option<UnitRef>)
    requires i < |s.units| && s.units[i].ref.side != setting.side && OwnCaster(setting, s.units)
    requires amount > 0.0 && Alive(s.units[i])
    ensures var t := Struck(setting, s, i, amount, source);
      && t.units[i] == s.units[i].(hp := if s.units[i].hp > amount then s.units[i].hp - amount else 0.0, taken := s.units[i].taken + amount)
      && (forall j: nat :: j < |s.units| && j != i ==>
            t.units[j] == if LivingCaster(setting, s.units, j) then s.units[j].(dealt := s.units[j].dealt + amount) else s.units[j])
      && t.outcome.damageDealt == s.outcome.damageDealt + amount
  {
  }

  lemma {:induction false} TakenOnlyAt(a: seq<Fighter>, b: seq<Fighter>, i: nat)
    requires |a| == |b| && i < |a| && forall j :: 0 <= j < |a| && j != i ==> a[j].taken == b[j].taken
    ensures TakenBy(b) == TakenBy(a) + b[i].taken - a[i].taken
  {
    var last := |a| - 1;
    if i < last {
      TakenOnlyAt(a[..last], b[..last], i);
    } else {
      SameTaken(a[..last], b[..last]);
    }
  }

  lemma {:induction false} SameTaken(a: seq<Fighter>, b: seq<Fighter>)
    requires |a| == |b| && forall j :: 0 <= j < |a| ==> a[j].taken == b[j].taken
    ensures TakenBy(a) == TakenBy(b)
  {
    if a != [] { SameTaken(a[..|a| - 1], b[..|b| - 1]); }
  }

  lemma StruckTold(setting: Setting, s: Scene, i: nat, amount: real, source: Option<UnitRef>)
    requires i < |s.units| && s.units[i].ref.side != setting.side && OwnCaster(setting, s.units)
    requires amount > 0.0 && Alive(s.units[i]) && DistinctNames(s.units)
    ensures FallsTold(setting, s, Struck(setting, s, i, amount, source))
  {
    var t := Struck(setting, s, i, amount, source);
    StruckUnits(setting, s, i, amount, source);
    var told := if s.units[i].hp > amount then [] else [s.units[i].ref];
    assert t.outcome.removed[|s.outcome.removed|..] == told;
    assert t.defeats[|s.defeats|..] == if s.units[i].hp > amount then [] else [Defeat(setting.tick, s.units[i].position, s.units[i].ref, source)];
    forall j | 0 <= j < |s.units| ensures multiset(told)[s.units[j].ref] == if Fell(s.units[j], t.units[j]) then 1 else 0 {
      if j != i { assert s.units[j].ref != s.units[i].ref; }
    }
  }

  lemma StruckWears(setting: Setting, s: Scene, i: nat, amount: real, source: Option<UnitRef>)
    requires i < |s.units| && s.units[i].ref.side != setting.side && OwnCaster(setting, s.units)
    requires amount > 0.0 && Alive(s.units[i])
    ensures var t := Struck(setting, s, i, amount, source);
      AllWorn(setting.side, s.units, t.units) && CasterCharged(setting, s.units, t.units, amount)
  {
    hide Struck;
    StruckUnits(setting, s, i, amount, source);
  }

  lemma StruckIsLawful(setting: Setting, s: Scene, i: nat, amount: real, source: Option<UnitRef>)
    requires i < |s.units| && s.units[i].ref.side != setting.side && OwnCaster(setting, s.units) && DistinctNames(s.units)
    ensures Lawful(setting, s, Struck(setting, s, i, amount, source))
  {
    hide FallsTold, TakenBy, AllWorn, CasterCharged, OwnCaster, DistinctNames;
    var t := Struck(setting, s, i, amount, source);
    if amount <= 0.0 || !Alive(s.units[i]) {
      QuietIsLawful(setting, s, t);
    } else {
      StruckUnits(setting, s, i, amount, source);
      StruckWears(setting, s, i, amount, source);
      StruckTold(setting, s, i, amount, source);
      TakenOnlyAt(s.units, t.units, i);
    }
  }

  lemma LawsKeepSetting(setting: Setting, s: Scene, t: Scene)
    requires Lawful(setting, s, t) && OwnCaster(setting, s.units) && DistinctNames(s.units)
    ensures OwnCaster(setting, t.units) && DistinctNames(t.units)
  {
    forall i | 0 <= i < |s.units| ensures s.units[i].ref == t.units[i].ref { assert SameBeing(s.units[i], t.units[i]); }
  }

  lemma {:induction false} StruckEachIsLawful(setting: Setting, s: Scene, victims: seq<nat>, damage: DamageProfile, source: Option<UnitRef>)
    requires forall k :: 0 <= k < |victims| ==> victims[k] < |s.units| && s.units[victims[k]].ref.side != setting.side
    requires OwnCaster(setting, s.units) && DistinctNames(s.units)
    ensures Lawful(setting, s, StruckEach(setting, s, victims, damage, source))
  {
    hide Lawful, Struck, OwnCaster, DistinctNames;
    if victims == [] {
      LawsReflexive(setting, s);
    } else {
      var front, i := victims[..|victims| - 1], victims[|victims| - 1];
      var before := StruckEach(setting, s, front, damage, source);
      StruckEachIsLawful(setting, s, front, damage, source);
      LawsKeepSetting(setting, s, before);
      SidesKept(setting, s, before, i);
      var amount := damage.AgainstUnit(before.units[i].kind);
      StruckIsLawful(setting, before, i, amount, source);
      LawsChain(setting, s, before, Struck(setting, before, i, amount, source));
    }
  }

  lemma LawsReflexive(setting: Setting, s: Scene)
    ensures Lawful(setting, s, s)
  {
    QuietIsLawful(setting, s, s);
  }

  lemma SidesKept(setting: Setting, s: Scene, t: Scene, i: nat)
    requires Lawful(setting, s, t) && i < |s.units|
    ensures t.units[i].ref == s.units[i].ref
  {
    assert SameBeing(s.units[i], t.units[i]);
  }

  lemma BaseStruckIsLawful(setting: Setting, s: Scene, radius: real, damage: DamageProfile)
    ensures Lawful(setting, s, BaseStruck(setting, s, radius, damage))
  {
    var t := BaseStruck(setting, s, radius, damage);
    UnhurtTakesNothing(s.units, t.units);
    NothingFell(setting, s, t);
    hide FallsTold, TakenBy, Distance;
  }

  lemma {:induction false} IgnitedUnhurt(units: seq<Fighter>, victims: seq<nat>, lit: BurnStatus)
    requires forall k :: 0 <= k < |victims| ==> victims[k] < |units|
    ensures Unhurt(units, IgnitedEach(units, victims, lit))
  {
    if victims != [] { IgnitedUnhurt(units, victims[..|victims| - 1], lit); }
  }

  lemma {:induction false} SpreadUnhurt(setting: Setting, units: seq<Fighter>, caught: seq<nat>, spread: real, names: set<string>, lit: BurnStatus)
    requires forall k :: 0 <= k < |caught| ==> caught[k] < |units|
    ensures Unhurt(units, SpreadFrom(setting, units, caught, spread, names, lit))
  {
    if caught != [] {
      hide Merged;
      var front := caught[..|caught| - 1];
      SpreadUnhurt(setting, units, front, spread, names, lit);
      var before := SpreadFrom(setting, units, front, spread, names, lit);
      IgnitedUnhurt(before, Unlit(setting, before, caught[|caught| - 1], spread, names), lit);
    }
  }

  lemma {:induction false} PushedUnhurt(setting: Setting, units: seq<Fighter>, victims: seq<nat>, origin: Vec2, step: real)
    requires forall k :: 0 <= k < |victims| ==> victims[k] < |units|
    ensures Unhurt(units, Pushed(setting, units, victims, origin, step))
  {
    hide PushedAway;
    if victims != [] { PushedUnhurt(setting, units, victims[..|victims| - 1], origin, step); }
  }

  lemma {:induction false} RefilledUnhurt(setting: Setting, units: seq<Fighter>, allies: seq<nat>, effect: Effect)
    requires effect.EnergyRefill? && forall k :: 0 <= k < |allies| ==> allies[k] < |units|
    ensures Unhurt(units, Refilled(setting, units, allies, effect))
  {
    hide Refills;
    if allies != [] { RefilledUnhurt(setting, units, allies[..|allies| - 1], effect); }
  }

  lemma BlastIsLawful(setting: Setting, s: Scene, effect: Effect)
    requires effect.AreaDamage? && OwnCaster(setting, s.units) && DistinctNames(s.units)
    ensures Lawful(setting, s, Blasted(setting, s, effect))
  {
    hide Lawful, StruckEach, BaseStruck, OwnCaster, DistinctNames, Distance;
    var victims := EnemiesWithin(setting, s.units, s.origin, effect.radius);
    forall k | 0 <= k < |victims| ensures s.units[victims[k]].ref.side != setting.side { assert victims[k] in victims; }
    var struck := StruckEach(setting, s, victims, effect.damage, SourceOf(setting, s.units));
    StruckEachIsLawful(setting, s, victims, effect.damage, SourceOf(setting, s.units));
    BaseStruckIsLawful(setting, struck, effect.radius, effect.damage);
    LawsChain(setting, s, struck, BaseStruck(setting, struck, effect.radius, effect.damage));
  }

  lemma DashIsLawful(setting: Setting, s: Scene, effect: Effect)
    requires effect.DashToTarget?
    ensures Lawful(setting, s, Dashed(setting, s, effect))
  {
    hide Lawful, Distance, MoveToward;
    QuietIsLawful(setting, s, Dashed(setting, s, effect));
  }

  lemma BurnIsLawful(setting: Setting, s: Scene, effect: Effect)
    requires effect.Burn?
    ensures Lawful(setting, s, Burnt(setting, s, effect))
  {
    hide Lawful, Distance, Merged, BurnOf, IgnitedEach, SpreadFrom, EnemiesWithin;
    var caught := EnemiesWithin(setting, s.units, s.origin, effect.radius);
    var lit := BurnOf(setting, s.units, effect);
    var first := IgnitedEach(s.units, caught, lit);
    IgnitedUnhurt(s.units, caught, lit);
    SpreadUnhurt(setting, first, caught, effect.spreadRadius, Effects.Names(first, caught), lit);
    QuietIsLawful(setting, s, Burnt(setting, s, effect));
  }

  lemma EffectIsLawful(setting: Setting, s: Scene, effect: Effect)
    requires OwnCaster(setting, s.units) && DistinctNames(s.units)
    ensures Lawful(setting, s, Resolved(setting, s, effect))
  {
    hide Lawful, Dashed, Blasted, Burnt, Distance, DurationTicks, OwnCaster, DistinctNames, SourceOf, Pushed, Refilled, EnemiesWithin, AlliesWithin;
    match effect
    case DashToTarget(_, _) => DashIsLawful(setting, s, effect);
    case AreaDamage(_, _, _) => BlastIsLawful(setting, s, effect);
    case Burn(_, _, _, _, _) => BurnIsLawful(setting, s, effect);
    case BurningGround(_, _, _, _) => QuietIsLawful(setting, s, Grounded(setting, s, effect));
    case Knockback(radius, distance) =>
      PushedUnhurt(setting, s.units, EnemiesWithin(setting, s.units, s.origin, radius), s.origin, distance);
      QuietIsLawful(setting, s, Resolved(setting, s, effect));
    case EnergyRefill(radius, _, _) =>
      RefilledUnhurt(setting, s.units, AlliesWithin(setting, s.units, s.origin, radius), effect);
      QuietIsLawful(setting, s, Resolved(setting, s, effect));
  }

  /** Any card, any field: the laws hold from before its first effect to after its last. */
  lemma {:induction false} CardIsLawful(setting: Setting, s: Scene, effects: seq<Effect>)
    requires OwnCaster(setting, s.units) && DistinctNames(s.units)
    ensures Lawful(setting, s, Applied(setting, s, effects))
  {
    hide Lawful, Resolved, OwnCaster, DistinctNames;
    if effects == [] {
      LawsReflexive(setting, s);
    } else {
      var front := effects[..|effects| - 1];
      var before := Applied(setting, s, front);
      CardIsLawful(setting, s, front);
      LawsKeepSetting(setting, s, before);
      EffectIsLawful(setting, before, effects[|effects| - 1]);
      LawsChain(setting, s, before, Resolved(setting, before, effects[|effects| - 1]));
    }
  }

  // ---- what the laws say, in the reader's words ----

  /** Conservation: what the victims' meters rose by is what the card reports dealing, and what
      a living caster's own meter rose by. A unit that lives through it lost exactly what it took. */
  lemma DamageIsConserved(setting: Setting, s: Scene, effects: seq<Effect>)
    requires OwnCaster(setting, s.units) && DistinctNames(s.units)
    ensures var t := Applied(setting, s, effects);
      && TakenBy(t.units) - TakenBy(s.units) == t.outcome.damageDealt - s.outcome.damageDealt
      && (forall i: nat :: i < |s.units| ==>
            t.units[i].dealt - s.units[i].dealt
            == if setting.caster == Some(i) && Alive(s.units[i]) then t.outcome.damageDealt - s.outcome.damageDealt else 0.0)
      && (forall i :: 0 <= i < |s.units| && Alive(t.units[i]) ==>
            s.units[i].hp - t.units[i].hp == t.units[i].taken - s.units[i].taken)
      && (forall i :: 0 <= i < |s.units| && s.units[i].ref.side == setting.side ==> t.units[i].hp == s.units[i].hp)
  {
    hide Applied, TakenBy;
    CardIsLawful(setting, s, effects);
    var t := Applied(setting, s, effects);
    assert AllWorn(setting.side, s.units, t.units);
    forall i | 0 <= i < |s.units| ensures Worn(setting.side, s.units[i], t.units[i]) {}
  }

  /** Every unit brought from alive to zero is reported and emitted exactly once, nobody else
      is, and it is left on exactly zero. */
  lemma EveryDefeatToldOnce(setting: Setting, s: Scene, effects: seq<Effect>)
    requires OwnCaster(setting, s.units) && DistinctNames(s.units)
    ensures var t := Applied(setting, s, effects);
      && FallsTold(setting, s, t)
      && (forall i :: 0 <= i < |s.units| && Fell(s.units[i], t.units[i]) ==> t.units[i].hp == 0.0)
  {
    hide Applied, TakenBy, FallsTold;
    CardIsLawful(setting, s, effects);
    forall i | 0 <= i < |s.units| ensures Worn(setting.side, s.units[i], Applied(setting, s, effects).units[i]) {
      assert AllWorn(setting.side, s.units, Applied(setting, s, effects).units);
    }
  }

  /** The base change reported is the change there was; a base is never healed, never driven
      below zero, and never one's own. */
  lemma BaseChangeIsReported(setting: Setting, s: Scene, effects: seq<Effect>, side: Side)
    requires OwnCaster(setting, s.units) && DistinctNames(s.units)
    ensures var t := Applied(setting, s, effects);
      && Reported(t, side) - Reported(s, side) == t.bases.At(side) - s.bases.At(side)
      && t.bases.At(side) <= s.bases.At(side)
      && (s.bases.At(side) >= 0.0 ==> t.bases.At(side) >= 0.0)
      && (side == setting.side ==> t.bases.At(side) == s.bases.At(side))
  {
    hide Applied, TakenBy, AllWorn, FallsTold;
    CardIsLawful(setting, s, effects);
  }
}
