/** One authoritative round (`api/app/match/round.py`): a battle under seat commands,
    each seat's energy, and how the round stops. */
module Round {
  import opened Common
  import opened Ordering
  import opened SpellQueue
  import opened BattleMap
  import opened BattleWorld
  import opened Battle
  import opened Plan
  import opened Ledger
  import opened Energy

  const SCORE_THRESHOLD: real := 240.0
  const STALE_COMMAND_TICKS: int := 40

  /** What a server runs rounds under. */
  datatype Rules = Rules(sim: Sim, map_: MapConfig, config: SimConfig, simSpells: set<string>)

  ghost predicate ValidRules(rules: Rules) {
    ValidSim(rules.sim) && ValidSimConfig(rules.config)
  }

  datatype CastCommand = CastCommand(commandId: string, spellId: string, at: Vec2, tick: int)

  datatype ResolvedCast = ResolvedCast(
    commandId: string, spellId: string, spellName: string, castBy: Side, at: Vec2, tick: nat, order: nat)

  datatype RoundReason = ZoneControl | Annihilated | ClockRanOut

  datatype RoundEnding =
    | RoundComplete(winner: Option<Side>, reason: RoundReason)
    | BaseDestroyed(winner: Option<Side>)

  datatype CastAnswer = Accepted(tick: nat, order: nat) | Refused(reason: Rejection)

  datatype RoundState = RoundState(
    runner: RunnerState,
    energy: PerSide<Pool>,
    loadouts: PerSide<seq<LoadoutSpell>>,
    casts: seq<ResolvedCast>,
    nextOrder: nat,
    ending: Option<RoundEnding>)
  {
    function World(): World { runner.world }
    predicate Over() { ending.Some? }
  }

  function OpenRound(world: World, loadouts: PerSide<seq<LoadoutSpell>>, startingEnergy: real): RoundState {
    RoundState(Opened(world), Both(Pool(Min(startingEnergy, ENERGY_CAP), ENERGY_CAP, 0.0, 0.0)), loadouts, [], 1, None)
  }

  // ---- how a round stops ----

  predicate HasLiving(units: seq<Unit>, side: Side) {
    exists u :: u in units && u.side == side && IsAlive(u)
  }

  function ScoreLeader(world: World): Option<Side> {
    if world.zoneScore.north > world.zoneScore.south then Some(North)
    else if world.zoneScore.south > world.zoneScore.north then Some(South)
    else None
  }

  /** Zone score, then the base each side has left, then a draw. */
  function OutcomeOnScore(world: World): Option<Side> {
    if ScoreLeader(world).Some? then ScoreLeader(world)
    else if world.bases.north > world.bases.south then Some(North)
    else if world.bases.south > world.bases.north then Some(South)
    else None
  }

  function DecideEnding(world: World, limit: int): Option<RoundEnding> {
    var northFell, southFell := world.bases.north <= 0.0, world.bases.south <= 0.0;
    if northFell && southFell then Some(BaseDestroyed(None))
    else if northFell then Some(BaseDestroyed(Some(South)))
    else if southFell then Some(BaseDestroyed(Some(North)))
    else
      var northLives, southLives := HasLiving(world.units, North), HasLiving(world.units, South);
      if !northLives || !southLives then
        Some(RoundComplete(if northLives then Some(North) else if southLives then Some(South) else None, Annihilated))
      else
        var leader := ScoreLeader(world);
        if leader.Some? && world.zoneScore.At(leader.value) >= SCORE_THRESHOLD then
          Some(RoundComplete(leader, ZoneControl))
        else if world.tick >= limit then Some(RoundComplete(OutcomeOnScore(world), ClockRanOut))
        else None
  }

  function TickGain(rules: Rules): real {
    ENERGY_PER_SECOND * SecondsPerTick(rules.config)
  }

  /** `AuthoritativeRound.step`: nothing once over; otherwise step, accrue, decide. */
  function RoundStep(rules: Rules, r: RoundState): RoundState {
    if r.Over() then r
    else
      var runner := RunnerStep(rules.sim, rules.config, r.runner);
      r.(runner := runner,
         energy := PerSide(r.energy.north.Accrued(TickGain(rules)), r.energy.south.Accrued(TickGain(rules))),
         ending := DecideEnding(runner.world, MaxTicks(rules.config)))
  }

  // ---- casting ----

  predicate IsStale(world: World, clientTick: int) {
    clientTick > 0 && (world.tick - clientTick > STALE_COMMAND_TICKS || clientTick - world.tick > STALE_COMMAND_TICKS)
  }

  predicate OnMap(config: MapConfig, at: Vec2) {
    0.0 <= at.x <= config.width && 0.0 <= at.y <= config.height
  }

  function Equipped(loadout: seq<LoadoutSpell>, spellId: string): (found: Option<LoadoutSpell>)
    ensures found.Some? ==> found.value in loadout && found.value.spellId == spellId
  {
    if loadout == [] then None
    else if loadout[0].spellId == spellId then Some(loadout[0])
    else Equipped(loadout[1..], spellId)
  }

  /** Why a cast is refused, or None: asked in the order the server asks. */
  function Refusal(rules: Rules, r: RoundState, side: Side, command: CastCommand): Option<Rejection> {
    if r.Over() then Some(RoundOver)
    else if IsStale(r.World(), command.tick) then Some(Stale)
    else
      var spell := Equipped(r.loadouts.At(side), command.spellId);
      if spell.None? then Some(NotEquipped)
      else if !OnMap(rules.map_, command.at) then Some(OutOfBounds)
      else if !r.energy.At(side).CanAfford(spell.value.cost) then Some(NotEnoughEnergy)
      else None
  }

  function InjectionOf(r: RoundState, side: Side, command: CastCommand): SpellInjection {
    SpellInjection(r.World().tick + 1, command.spellId, command.at, side)
  }

  /** `AuthoritativeRound.cast` on a cast nothing refuses. */
  function Take(r: RoundState, side: Side, command: CastCommand): RoundState
    requires Equipped(r.loadouts.At(side), command.spellId).Some?
  {
    var spell := Equipped(r.loadouts.At(side), command.spellId).value;
    r.(runner := WithPending(r.runner, InjectionOf(r, side, command)),
       energy := r.energy.With(side, r.energy.At(side).Spend(spell.cost)),
       casts := r.casts + [ResolvedCast(command.commandId, spell.spellId, spell.name, side, command.at,
                                        r.World().tick + 1, r.nextOrder)],
       nextOrder := r.nextOrder + 1)
  }

  function RoundCast(rules: Rules, r: RoundState, side: Side, command: CastCommand): (RoundState, CastAnswer) {
    var refusal := Refusal(rules, r, side, command);
    if refusal.Some? then (r, Refused(refusal.value))
    else (Take(r, side, command), Accepted(r.World().tick + 1, r.nextOrder))
  }

  // ---- invariants of a running round ----

  /** The opening world a round is built on. */
  ghost predicate Opens(world: World) {
    world.tick == 0 && world.pending == [] && world.bases.north > 0.0 && world.bases.south > 0.0
  }

  ghost predicate RoundInvariant(rules: Rules, r: RoundState) {
    && Sorted(OrderLeq, r.World().pending)
    && r.nextOrder == |r.casts| + 1
    && (forall k :: 0 <= k < |r.casts| ==> r.casts[k].order == k + 1 && r.casts[k].tick <= r.World().tick + 1)
    && (forall j, k :: 0 <= j < k < |r.casts| ==> r.casts[j].tick <= r.casts[k].tick)
    && (!r.Over() ==> !Finished(rules.config, r.runner) && r.World().bases.north > 0.0 && r.World().bases.south > 0.0)
  }

  lemma OpenRoundInvariant(rules: Rules, world: World, loadouts: PerSide<seq<LoadoutSpell>>, startingEnergy: real)
    requires ValidRules(rules) && Opens(world)
    ensures RoundInvariant(rules, OpenRound(world, loadouts, startingEnergy))
  {
  }

  /** A stopped runner always means a decided round, so a round can never run dry undecided. */
  lemma RoundStepInvariant(rules: Rules, r: RoundState)
    requires ValidRules(rules) && RoundInvariant(rules, r)
    ensures RoundInvariant(rules, RoundStep(rules, r))
    ensures !r.Over() ==> RoundStep(rules, r).World().tick == r.World().tick + 1
    ensures NoneRises(r.World().bases, RoundStep(rules, r).World().bases)
  {
    StepBattleContract(rules.sim, r.World());
    RunnerStepKeepsQueue(rules.sim, rules.config, r.runner);
  }

  lemma RoundCastInvariant(rules: Rules, r: RoundState, side: Side, command: CastCommand)
    requires ValidRules(rules) && RoundInvariant(rules, r)
    ensures RoundInvariant(rules, RoundCast(rules, r, side, command).0)
    ensures RoundCast(rules, r, side, command).0.World().tick == r.World().tick
    ensures RoundCast(rules, r, side, command).0.World().bases == r.World().bases
    ensures RoundCast(rules, r, side, command).0.ending == r.ending
  {
    if Refusal(rules, r, side, command).None? {
      OrderIsTotal();
      InsertKeeps(OrderLeq, InjectionOf(r, side, command), r.World().pending);
    }
  }

  ghost function RoundSteps(rules: Rules, r: RoundState, n: nat): RoundState
    decreases n
  {
    if n == 0 then r else RoundSteps(rules, RoundStep(rules, r), n - 1)
  }

  /** Left alone, a round is over by the time its clock allows. */
  lemma {:induction false} RoundEndsWithinLimit(rules: Rules, r: RoundState, n: nat)
    requires ValidRules(rules) && RoundInvariant(rules, r)
    requires r.World().tick + n >= MaxTicks(rules.config)
    ensures RoundSteps(rules, r, n).Over()
    decreases n
  {
    if r.Over() {
      OverStaysOver(rules, r, n);
    } else if n > 0 {
      RoundStepInvariant(rules, r);
      RoundEndsWithinLimit(rules, RoundStep(rules, r), n - 1);
    }
  }

  lemma {:induction false} OverStaysOver(rules: Rules, r: RoundState, n: nat)
    requires r.Over()
    ensures RoundSteps(rules, r, n) == r
  {
    if n > 0 { OverStaysOver(rules, r, n - 1); }
  }

  // ---- fairness of the ending ----

  function SwappedUnit(u: Unit): Unit { u.(side := Opposing(u.side)) }

  function SwappedUnits(units: seq<Unit>): (swapped: seq<Unit>)
    ensures |swapped| == |units| && forall k :: 0 <= k < |units| ==> swapped[k] == SwappedUnit(units[k])
  {
    if units == [] then [] else [SwappedUnit(units[0])] + SwappedUnits(units[1..])
  }

  function SwappedWorld(w: World): World {
    w.(units := SwappedUnits(w.units), bases := w.bases.Swapped(), zoneScore := w.zoneScore.Swapped())
  }

  function SwappedSide(side: Option<Side>): Option<Side> {
    if side.None? then None else Some(Opposing(side.value))
  }

  function SwappedEnding(ending: Option<RoundEnding>): Option<RoundEnding> {
    match ending
    case None => None
    case Some(RoundComplete(winner, reason)) => Some(RoundComplete(SwappedSide(winner), reason))
    case Some(BaseDestroyed(winner)) => Some(BaseDestroyed(SwappedSide(winner)))
  }

  lemma LivingSwaps(units: seq<Unit>, side: Side)
    ensures HasLiving(SwappedUnits(units), side) == HasLiving(units, Opposing(side))
  {
    hide SwappedUnits;
    var swapped := SwappedUnits(units);
    if HasLiving(units, Opposing(side)) {
      var u :| u in units && u.side == Opposing(side) && IsAlive(u);
      var k :| 0 <= k < |units| && units[k] == u;
      assert swapped[k] in swapped && swapped[k].side == side && IsAlive(swapped[k]);
    }
    if HasLiving(swapped, side) {
      var v :| v in swapped && v.side == side && IsAlive(v);
      var k :| 0 <= k < |swapped| && swapped[k] == v;
      assert units[k] in units && units[k].side == Opposing(side) && IsAlive(units[k]);
    }
  }

  lemma ScoresSwap(world: World)
    ensures ScoreLeader(SwappedWorld(world)) == SwappedSide(ScoreLeader(world))
    ensures OutcomeOnScore(SwappedWorld(world)) == SwappedSide(OutcomeOnScore(world))
    ensures ScoreLeader(world).Some? ==>
      SwappedWorld(world).zoneScore.At(Opposing(ScoreLeader(world).value)) == world.zoneScore.At(ScoreLeader(world).value)
  {
  }

  /** Trading places trades the result: no ending depends on which side is asked first. */
  lemma EndingIsImpartial(world: World, limit: int)
    ensures DecideEnding(SwappedWorld(world), limit) == SwappedEnding(DecideEnding(world, limit))
  {
    var swapped := SwappedWorld(world);
    assert swapped.bases == PerSide(world.bases.south, world.bases.north) && swapped.tick == world.tick;
    if world.bases.north > 0.0 && world.bases.south > 0.0 {
      LivingSwaps(world.units, North);
      LivingSwaps(world.units, South);
      assert Opposing(North) == South && Opposing(South) == North;
      assert HasLiving(swapped.units, North) == HasLiving(world.units, South);
      assert HasLiving(swapped.units, South) == HasLiving(world.units, North);
      ScoresSwap(world);
    }
  }

  function Winner(ending: RoundEnding): Option<Side> { ending.winner }

  /** No side wins on the tick its own base stands at zero, whatever else happened on it,
      and a base at zero always ends the match. */
  lemma FallenBaseNeverWins(world: World, limit: int, side: Side)
    requires world.bases.At(side) <= 0.0
    ensures DecideEnding(world, limit).Some?
    ensures DecideEnding(world, limit).value.BaseDestroyed?
    ensures Winner(DecideEnding(world, limit).value) != Some(side)
    ensures Winner(DecideEnding(world, limit).value).None? <==> world.bases.At(Opposing(side)) <= 0.0
  {
  }

  // ---- the round as the server holds it ----

  class AuthoritativeRound {
    const rules: Rules
    const number: nat
    const loadouts: PerSide<seq<LoadoutSpell>>
    const runner: BattleRunner
    const north: SeatEnergy
    const south: SeatEnergy
    var casts: seq<ResolvedCast>
    var nextOrder: nat
    var ending: Option<RoundEnding>

    ghost function Repr(): set<object> {
      {this, runner, north, south}
    }

    /** Every equipped spell is one the battle can fire. */
    static ghost predicate Fireable(rules: Rules, loadouts: PerSide<seq<LoadoutSpell>>) {
      forall side: Side, s :: s in loadouts.At(side) ==> s.spellId in rules.simSpells
    }

    ghost predicate Valid()
      reads this, runner, north, south
    {
      && ValidRules(rules) && runner.Valid() && north != south
      && runner.sim == rules.sim && runner.config == rules.config && runner.catalog == rules.simSpells
      && Fireable(rules, loadouts)
    }

    function View(): RoundState
      reads this, runner, north, south
    {
      RoundState(runner.View(), PerSide(north.View(), south.View()), loadouts, casts, nextOrder, ending)
    }

    constructor (rules: Rules, number: nat, world: World, loadouts: PerSide<seq<LoadoutSpell>>, startingEnergy: real)
      requires ValidRules(rules) && Opens(world) && Fireable(rules, loadouts)
      ensures Valid() && fresh(Repr())
      ensures this.rules == rules && this.number == number
      ensures View() == OpenRound(world, loadouts, startingEnergy)
    {
      this.rules, this.number, this.loadouts := rules, number, loadouts;
      runner := new BattleRunner(rules.sim, rules.config, rules.simSpells, world);
      north := new SeatEnergy(Min(startingEnergy, ENERGY_CAP), ENERGY_CAP);
      south := new SeatEnergy(Min(startingEnergy, ENERGY_CAP), ENERGY_CAP);
      casts, nextOrder, ending := [], 1, None;
    }

    method Step()
      requires Valid()
      modifies Repr()
      ensures Valid() && View() == RoundStep(rules, old(View()))
    {
      if ending.Some? { return; }
      runner.Step();
      var gain := TickGain(rules);
      north.Accrue(gain);
      south.Accrue(gain);
      ending := DecideEnding(runner.world, MaxTicks(rules.config));
    }

    method Cast(side: Side, command: CastCommand) returns (answer: CastAnswer)
      requires Valid()
      modifies Repr()
      ensures Valid()
      ensures (View(), answer) == RoundCast(rules, old(View()), side, command)
      ensures answer.Refused? ==> View() == old(View())
    {
      if ending.Some? { return Refused(RoundOver); }
      if IsStale(runner.world, command.tick) { return Refused(Stale); }
      var spell := Equipped(loadouts.At(side), command.spellId);
      if spell.None? { return Refused(NotEquipped); }
      if !OnMap(rules.map_, command.at) { return Refused(OutOfBounds); }
      var energy := if side == North then north else south;
      if energy.Current() < spell.value.cost { return Refused(NotEnoughEnergy); }
      var target := runner.world.tick + 1;
      var fault := runner.Inject(SpellInjection(target, spell.value.spellId, command.at, side));
      assert fault.None?;
      energy.Spend(spell.value.cost);
      var order := nextOrder;
      nextOrder := nextOrder + 1;
      casts := casts + [ResolvedCast(command.commandId, spell.value.spellId, spell.value.name, side, command.at, target, order)];
      answer := Accepted(target, order);
    }
  }
}
