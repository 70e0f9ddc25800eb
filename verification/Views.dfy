/** What a snapshot shows: the match's own numbers, the units on the field, and of the plan
    screen only what is the seat's. */
module Views {
  import opened Common
  import opened Ordering
  import opened JsonText
  import opened BattleMap
  import opened BattleWorld
  import opened Battle
  import opened Plan
  import opened Energy
  import opened Round
  import opened Opening
  import opened Recording
  import opened Session
  import opened Allocation
  import opened Zones
  import opened Wire

  predicate Shows(v: UnitView, u: Unit) {
    && v.id == u.id && v.kind == u.kind && v.side == u.side && v.typeName == u.typeId
    && v.position == u.position && v.hp == u.hp && v.maxHp == u.maxHp
  }

  /** Every living unit once, under its own numbers, in order of id, and nobody else. */
  ghost predicate ShowsLiving(views: seq<UnitView>, units: seq<Unit>) {
    && (forall u :: u in units && u.hp > 0.0 ==> exists v :: v in views && Shows(v, u))
    && (forall v :: v in views ==> exists u :: u in units && u.hp > 0.0 && Shows(v, u))
    && (forall i, j :: 0 <= i < j < |views| ==> TextLeq(views[i].id, views[j].id))
  }

  lemma {:induction false} MappedMembers<A(!new), B(!new)>(f: A -> B, s: seq<A>)
    ensures forall x :: x in s ==> f(x) in MapSeq(f, s)
    ensures forall y :: y in MapSeq(f, s) ==> exists x :: x in s && f(x) == y
  {
    if s != [] { MappedMembers(f, s[1..]); }
  }

  lemma UnitsByIdTotal()
    ensures TotalPreorder(UnitIdLeq)
  {
    forall a, b ensures UnitIdLeq(a, b) || UnitIdLeq(b, a) { TextTotal(a.id, b.id); }
    forall a, b, c | UnitIdLeq(a, b) && UnitIdLeq(b, c) ensures UnitIdLeq(a, c) { TextTransitive(a.id, b.id, c.id); }
  }

  lemma UnitsShown(world: World)
    ensures ShowsLiving(BattleUnits(world), world.units)
    ensures |BattleUnits(world)| == |Filter(IsAlive, world.units)|
  {
    var living := Filter(IsAlive, world.units);
    var sorted := Sort(UnitIdLeq, living);
    UnitsByIdTotal();
    SortKeeps(UnitIdLeq, living);
    FilterMembers(IsAlive, world.units);
    MappedMembers(ViewOf, sorted);
    var views := BattleUnits(world);
    forall u | u in world.units && u.hp > 0.0 ensures exists v :: v in views && Shows(v, u) { assert ViewOf(u) in views && Shows(ViewOf(u), u); }
    forall v | v in views ensures exists u :: u in world.units && u.hp > 0.0 && Shows(v, u) {
      var u :| u in sorted && ViewOf(u) == v;
      assert u in living;
    }
  }

  /** Above every phase: whose view it is, and the match's own round, score and bases, live ones
      while a round stands. */
  lemma SnapshotCarries(env: Env, s: SessionState, side: Side)
    requires Inv(env, s)
    ensures var shot := SnapshotFor(env, s, side);
      && shot.you == side && shot.round == s.roundNumber && shot.roundsWon == s.roundsWon
      && shot.bases == (if s.round.Some? then s.round.value.runner.world.bases else s.baseHp)
      && shot.runId == env.runId && shot.testProfile == env.testProfile
      && (shot.phase.PlanningView? <==> s.phase == Planning) && (shot.phase.FightingView? <==> s.phase == InBattle)
      && (shot.phase.RoundOverView? <==> s.phase == BetweenRounds) && (shot.phase.MatchOverView? <==> s.phase == MatchOver)
      && (s.phase == BetweenRounds ==> shot.phase.roundResult == s.lastRound.value)
      && (s.phase == MatchOver ==> shot.phase.matchResult == s.result.value)
  {
    hide DeploymentPreview, PlanScreen, BattleSnapshot;
  }

  /** In battle: the clock, everyone alive on both sides, the lanes and who is alone on each, the
      score, every accepted cast, and of energy and spells the seat's own. */
  lemma BattleShown(env: Env, s: SessionState, side: Side)
    requires Inv(env, s) && s.phase == InBattle
    ensures SnapshotFor(env, s, side).phase.FightingView?
    ensures var r := s.round.value;
            var view := SnapshotFor(env, s, side).phase.battle;
      && view.tick == r.runner.world.tick && view.zoneScore == r.runner.world.zoneScore && view.casts == r.casts
      && ShowsLiving(view.units, r.runner.world.units)
      && view.energy == r.energy.At(side).Current() && view.loadout == r.loadouts.At(side)
      && |view.zones| == |env.rules.map_.zones|
      && (forall k :: 0 <= k < |view.zones| ==> view.zones[k].0 == env.rules.map_.zones[k].id)
  {
    hide BattleUnits, ZoneStates, ShowsLiving;
    UnitsShown(s.round.value.World());
    ZonesNamed(env, s.round.value.World());
  }

  lemma ZonesNamed(env: Env, world: World)
    ensures |ZoneStates(env, world)| == |env.rules.map_.zones|
    ensures forall k :: 0 <= k < |env.rules.map_.zones| ==> ZoneStates(env, world)[k].0 == env.rules.map_.zones[k].id
  {
  }

  /** A living mage of a side in the square about the middle of a lane: from half its size short
      of the middle up to, and not at, half past it, both ways. */
  predicate Scores(config: MapConfig, zone: ZoneConfig, u: Unit, side: Side) {
    var across := u.position.x - (zone.extent.start + zone.extent.end) / 2.0;
    var along := u.position.y - (zone.lane.start + zone.lane.end) / 2.0;
    && u.side == side && u.kind == Mage && u.hp > 0.0
    && -config.hotspotSize / 2.0 <= across < config.hotspotSize / 2.0
    && -config.hotspotSize / 2.0 <= along < config.hotspotSize / 2.0
  }

  lemma ScoresOnHotspot(config: MapConfig, zone: ZoneConfig, u: Unit, side: Side)
    ensures OnHotspot(config, zone, side, u) <==> Scores(config, zone, u, side)
  {
  }

  /** A lane is shown as held by a side exactly when that side alone has a living mage on its
      hotspot. */
  lemma LanesShown(env: Env, world: World, k: nat, side: Side)
    requires k < |env.rules.map_.zones|
    ensures ZoneStates(env, world)[k].1 == Some(side)
       <==> (exists u :: u in world.units && Scores(env.rules.map_, env.rules.map_.zones[k], u, side))
            && !(exists u :: u in world.units && Scores(env.rules.map_, env.rules.map_.zones[k], u, Opposing(side)))
  {
    var config, zone := env.rules.map_, env.rules.map_.zones[k];
    HeldMeansAloneOnHotspot(config, zone, world.units, side);
    forall u, who ensures OnHotspot(config, zone, who, u) <==> Scores(config, zone, u, who) { ScoresOnHotspot(config, zone, u, who); }
    hide OnHotspot, Scores, OccupancyOf;
  }

  /** A battle about to open, with one side's units on it as that side would field them. */
  ghost predicate OpensAsShown(env: Env, plan: SubmittedPlan, hp: PerSide<real>, seed: int, side: Side, view: BattleView) {
    && (forall v :: v in view.units ==> v.side == side) && view.tick == 0 && view.casts == []
    && exists world :: OpeningOf(env, Both(plan), hp, seed) == Ok(world)
         && forall u :: u in world.units && u.side == side && u.hp > 0.0 ==> exists v :: v in view.units && Shows(v, u)
  }

  lemma PreviewShown(env: Env, s: SessionState, side: Side)
    requires ValidEnv(env) && Inv(env, s) && s.phase == Planning && s.locked.At(side)
    ensures s.plans.At(side).Some? && DeploymentPreview(env, s, side).Some?
    ensures OpensAsShown(env, s.plans.At(side).value, s.baseHp, env.seed + s.roundNumber, side, DeploymentPreview(env, s, side).value)
  {
    hide OpeningOf, Inv, ValidEnv, ZoneStates, BattleUnits, LoadoutOf;
    PlansOfLocked(env, s, side);
    StandingInPlanning(env, s);
    var plan := s.plans.At(side).value;
    var world := OpeningAlwaysBuilds(env, PerSide(plan, plan), s.baseHp, env.seed + s.roundNumber);
    OwnUnitsShown(world, side);
  }

  /** On the plan screen: nothing of the seat's own until it locks in, and then its own troops and
      no one else's, as its own plan would open on both sides. */
  lemma PlanningShown(env: Env, s: SessionState, side: Side)
    requires ValidEnv(env) && Inv(env, s) && s.phase == Planning
    ensures SnapshotFor(env, s, side).phase.PlanningView?
    ensures var view := SnapshotFor(env, s, side).phase;
      && view.locked == s.locked.At(side) && view.energy == env.startingEnergy
      && view.loadout == (if s.loadouts.At(side).Some? then s.loadouts.At(side).value else [])
      && (view.deployment.Some? <==> s.locked.At(side))
      && (view.deployment.Some? ==>
            s.plans.At(side).Some?
            && OpensAsShown(env, s.plans.At(side).value, s.baseHp, env.seed + s.roundNumber, side, view.deployment.value))
  {
    if s.locked.At(side) { PreviewShown(env, s, side); }
    hide PlanScreen, ValidEnv, Inv, OpensAsShown;
    if !s.locked.At(side) { assert DeploymentPreview(env, s, side).None?; }
    hide DeploymentPreview;
  }

  lemma PlansOfLocked(env: Env, s: SessionState, side: Side)
    requires Inv(env, s)
    ensures s.locked.At(side) ==> s.plans.At(side).Some? && Legal(env.cat, env.rules.map_, s.plans.At(side).value)
  {
    hide Legal;
  }

  lemma StandingInPlanning(env: Env, s: SessionState)
    requires Inv(env, s) && s.phase == Planning
    ensures Standing(env, s.baseHp)
  {
  }

  lemma OwnUnitsShown(world: World, side: Side)
    ensures var own := Filter((u: UnitView) => u.side == side, BattleUnits(world));
      && (forall v :: v in own ==> v.side == side)
      && (forall u :: u in world.units && u.side == side && u.hp > 0.0 ==> exists v :: v in own && Shows(v, u))
  {
    UnitsShown(world);
    hide BattleUnits;
    FilterMembers((u: UnitView) => u.side == side, BattleUnits(world));
  }

  /** The plan it shows is the suggestion, with the seat's own plan over it once there is one. */
  lemma PlanShown(env: Env, round: nat, submitted: Option<SubmittedPlan>, key: string)
    requires env.cat.opening(round, env.rules.map_).JObject?
    ensures var shown, suggested := PlanScreen(env, round, submitted), env.cat.opening(round, env.rules.map_);
      && shown.JObject?
      && (submitted.None? ==> shown == suggested)
      && (submitted.Some? && key in PlanToJson(submitted.value).fields ==> Get(shown.fields, key) == PlanToJson(submitted.value).fields[key])
      && (submitted.Some? && key !in PlanToJson(submitted.value).fields ==> Get(shown.fields, key) == Get(suggested.fields, key))
  {
    hide PlanToJson;
  }
}
