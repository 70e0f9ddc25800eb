/** What one seat is sent (`snapshot_for` in `api/app/match/session.py` and the
    projections of `api/app/match/wire.py`). */
module Wire {
  import opened Common
  import opened Ordering
  import opened JsonText
  import opened BattleMap
  import opened BattleWorld
  import opened Battle
  import opened Plan
  import opened Energy
  import opened Round
  import opened Opening
  import opened Recording
  import opened Session

  datatype UnitView = UnitView(id: string, kind: UnitKind, side: Side, typeName: string, position: Vec2, hp: real, maxHp: real)

  datatype BattleView = BattleView(
    tick: nat, units: seq<UnitView>, zones: seq<(string, Option<Side>)>, zoneScore: PerSide<real>,
    energy: real, loadout: seq<LoadoutSpell>, casts: seq<ResolvedCast>)

  datatype PhaseView =
    | PlanningView(plan: Json, locked: bool, deployment: Option<BattleView>, loadout: seq<LoadoutSpell>, energy: real)
    | FightingView(battle: BattleView)
    | RoundOverView(roundResult: RoundResult)
    | MatchOverView(matchResult: MatchResult)

  datatype Snapshot = Snapshot(
    runId: string, you: Side, round: nat, roundsWon: PerSide<nat>, bases: PerSide<real>, phase: PhaseView, testProfile: bool)

  predicate UnitIdLeq(a: Unit, b: Unit) {
    TextLeq(a.id, b.id)
  }

  function ViewOf(u: Unit): UnitView {
    UnitView(u.id, u.kind, u.side, u.typeId, u.position, u.hp, u.maxHp)
  }

  /** `battle_units`: every living unit, by id. */
  function BattleUnits(world: World): seq<UnitView> {
    MapSeq(ViewOf, Sort(UnitIdLeq, Filter(IsAlive, world.units)))
  }

  function BattleSnapshot(env: Env, world: World, you: Side, energy: real, loadout: seq<LoadoutSpell>,
                          casts: seq<ResolvedCast>, onlyYours: bool): BattleView {
    var units := BattleUnits(world);
    BattleView(world.tick, if onlyYours then Filter((u: UnitView) => u.side == you, units) else units,
               ZoneStates(env, world), world.zoneScore, energy, loadout, casts)
  }

  /** `_plan_json`: the suggestion, overlaid by what the seat locked in. */
  function PlanScreen(env: Env, round: nat, submitted: Option<SubmittedPlan>): Json {
    var screen := env.cat.opening(round, env.rules.map_);
    if submitted.None? || !screen.JObject? then screen
    else JObject(screen.fields + PlanToJson(submitted.value).fields)
  }

  /** `_deployment_preview`: the seat's own troops, from a round stood up with its own plan on both sides. */
  function DeploymentPreview(env: Env, s: SessionState, side: Side): Option<BattleView> {
    if !s.locked.At(side) || s.plans.At(side).None? then None
    else
      var plan := s.plans.At(side).value;
      match OpeningOf(env, PerSide(plan, plan), s.baseHp, env.seed + s.roundNumber)
      case Err(_) => None
      case Ok(world) =>
        Some(BattleSnapshot(env, world, side, env.startingEnergy, LoadoutOf(s, side), [], true))
  }

  function LoadoutOf(s: SessionState, side: Side): seq<LoadoutSpell> {
    if s.loadouts.At(side).Some? then s.loadouts.At(side).value else []
  }

  function PhaseFor(env: Env, s: SessionState, side: Side): PhaseView
    requires s.phase == InBattle ==> s.round.Some?
    requires s.phase == BetweenRounds ==> s.lastRound.Some?
    requires s.phase == MatchOver ==> s.result.Some?
  {
    match s.phase
    case Planning =>
      PlanningView(PlanScreen(env, s.roundNumber, s.plans.At(side)), s.locked.At(side),
                   DeploymentPreview(env, s, side), LoadoutOf(s, side), env.startingEnergy)
    case InBattle =>
      var r := s.round.value;
      FightingView(BattleSnapshot(env, r.World(), side, r.energy.At(side).Current(), r.loadouts.At(side), r.casts, false))
    case BetweenRounds => RoundOverView(s.lastRound.value)
    case MatchOver => MatchOverView(s.result.value)
  }

  /** `snapshot_for`: the whole of what one seat may know. */
  function SnapshotFor(env: Env, s: SessionState, side: Side): Snapshot
    requires s.phase == InBattle ==> s.round.Some?
    requires s.phase == BetweenRounds ==> s.lastRound.Some?
    requires s.phase == MatchOver ==> s.result.Some?
  {
    Snapshot(env.runId, side, s.roundNumber, s.roundsWon, CurrentBases(s), PhaseFor(env, s, side), env.testProfile)
  }
}
