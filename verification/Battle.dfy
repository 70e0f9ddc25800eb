/** One battle advanced a tick at a time (`api/app/sim/run_battle.py`). The phases the
    match layer never looks into are functions of the world; the spells phase, which
    owns the queue, is spelled out. */
module Battle {
  import opened Common
  import opened Ordering
  import opened SpellQueue
  import opened BattleMap
  import opened BattleWorld
  import opened Plan

  /** The part of the simulation taken as given: where units open, what is dealt into
      the hidden state, and the phases before and after the spells phase. */
  datatype Sim = Sim(
    spot: (MapConfig, PerSide<seq<TroopSetup>>, int, nat) -> Vec2,
    deal: (MapConfig, PerSide<seq<TroopSetup>>, int, SimConfig) -> SimState,
    early: World -> (World, seq<Event>),
    land: (World, SpellInjection) -> (World, seq<Event>),
    late: World -> (World, seq<Event>))

  /** What a phase may not do: move the clock, touch the queue, or mend a base. */
  ghost predicate Steady(before: World, after: World) {
    after.tick == before.tick && after.pending == before.pending && NoneRises(before.bases, after.bases)
  }

  ghost predicate ValidSim(sim: Sim) {
    && (forall w :: Steady(w, sim.early(w).0))
    && (forall w, x :: Steady(w, sim.land(w, x).0))
    && (forall w :: Steady(w, sim.late(w).0))
  }

  function LandAll(sim: Sim, world: World, landing: seq<SpellInjection>): (World, seq<Event>)
    decreases |landing|
  {
    if landing == [] then (world, [])
    else
      var (after, first) := sim.land(world, landing[0]);
      var (end, rest) := LandAll(sim, after, landing[1..]);
      (end, first + rest)
  }

  /** `step_battle`: one tick and the events it produced. */
  function StepBattle(sim: Sim, world: World): (World, seq<Event>) {
    var (w1, e1) := sim.early(world.(tick := world.tick + 1));
    var due := DueCount(w1.pending, w1.tick);
    var (w2, e2) := LandAll(sim, w1.(pending := w1.pending[due..]), w1.pending[..due]);
    var (w3, e3) := sim.late(w2);
    (w3, e1 + e2 + e3)
  }

  lemma {:induction false} LandAllIsSteady(sim: Sim, world: World, landing: seq<SpellInjection>)
    requires ValidSim(sim)
    ensures Steady(world, LandAll(sim, world, landing).0)
    decreases |landing|
  {
    if landing != [] { LandAllIsSteady(sim, sim.land(world, landing[0]).0, landing[1..]); }
  }

  /** One tick: the clock advances by one, exactly the due spells leave the queue, no base mends. */
  lemma StepBattleContract(sim: Sim, world: World)
    requires ValidSim(sim)
    ensures var after := StepBattle(sim, world).0;
            && after.tick == world.tick + 1
            && after.pending == world.pending[DueCount(world.pending, world.tick + 1)..]
            && NoneRises(world.bases, after.bases)
  {
    var w1 := sim.early(world.(tick := world.tick + 1)).0;
    assert Steady(world.(tick := world.tick + 1), w1);
    var due := DueCount(w1.pending, w1.tick);
    LandAllIsSteady(sim, w1.(pending := w1.pending[due..]), w1.pending[..due]);
  }

  datatype BattleTick = BattleTick(tick: nat, state: World, events: seq<Event>)
  datatype BattleOutcome = Annihilation | TimeUp | BaseFell

  datatype RunnerState = RunnerState(
    world: World,
    ticks: seq<BattleTick>,
    events: seq<Event>,
    outcome: BattleOutcome,
    destroyedBase: Option<Side>,
    stopped: bool)

  function Opened(world: World): RunnerState {
    RunnerState(world, [BattleTick(0, world, [])], [], TimeUp, None, false)
  }

  predicate HasUnits(units: seq<Unit>, side: Side) {
    exists u :: u in units && u.side == side
  }

  predicate SideIsWipedOut(world: World) {
    !HasUnits(world.units, North) || !HasUnits(world.units, South)
  }

  /** Whose base has fallen, north asked first. */
  function BaseDestroyedIn(world: World): Option<Side> {
    if world.bases.north <= 0.0 then Some(North)
    else if world.bases.south <= 0.0 then Some(South)
    else None
  }

  predicate Finished(config: SimConfig, s: RunnerState) {
    s.stopped || s.world.tick >= MaxTicks(config)
  }

  function Settled(s: RunnerState): RunnerState {
    var fallen := BaseDestroyedIn(s.world);
    if fallen.Some? then s.(destroyedBase := fallen, outcome := BaseFell, stopped := true)
    else if SideIsWipedOut(s.world) then s.(destroyedBase := None, outcome := Annihilation, stopped := true)
    else s.(destroyedBase := None)
  }

  /** `BattleRunner.step`: nothing once the battle is over, otherwise one tick. */
  function RunnerStep(sim: Sim, config: SimConfig, s: RunnerState): RunnerState {
    if Finished(config, s) then s
    else
      var (after, happened) := StepBattle(sim, s.world);
      Settled(s.(world := after,
                 ticks := s.ticks + [BattleTick(after.tick, after, happened)],
                 events := s.events + happened))
  }

  function WithPending(s: RunnerState, x: SpellInjection): RunnerState {
    s.(world := s.world.(pending := InsertRight(OrderLeq, x, s.world.pending)))
  }

  datatype InjectFault = UnknownSpellId | TickNotAhead

  lemma RunnerStepKeepsQueue(sim: Sim, config: SimConfig, s: RunnerState)
    requires ValidSim(sim) && Sorted(OrderLeq, s.world.pending)
    ensures Sorted(OrderLeq, RunnerStep(sim, config, s).world.pending)
  {
    StepBattleContract(sim, s.world);
  }

  class BattleRunner {
    const sim: Sim
    const config: SimConfig
    const catalog: set<string>
    var world: World
    var ticks: seq<BattleTick>
    var events: seq<Event>
    var outcome: BattleOutcome
    var destroyedBase: Option<Side>
    var stopped: bool

    ghost predicate Valid()
      reads this
    {
      ValidSim(sim) && Sorted(OrderLeq, world.pending)
    }

    function View(): RunnerState
      reads this
    {
      RunnerState(world, ticks, events, outcome, destroyedBase, stopped)
    }

    constructor (sim: Sim, config: SimConfig, catalog: set<string>, world: World)
      requires ValidSim(sim) && world.pending == []
      ensures Valid() && View() == Opened(world)
      ensures this.sim == sim && this.config == config && this.catalog == catalog
    {
      this.sim, this.config, this.catalog := sim, config, catalog;
      this.world := world;
      ticks, events := [BattleTick(0, world, [])], [];
      outcome, destroyedBase, stopped := TimeUp, None, false;
    }

    method Step()
      requires Valid()
      modifies this
      ensures Valid() && View() == RunnerStep(sim, config, old(View()))
    {
      RunnerStepKeepsQueue(sim, config, View());
      if stopped || world.tick >= MaxTicks(config) { return; }
      var (after, happened) := StepBattle(sim, world);
      world := after;
      events := events + happened;
      ticks := ticks + [BattleTick(after.tick, after, happened)];
      destroyedBase := BaseDestroyedIn(world);
      if destroyedBase.Some? {
        outcome, stopped := BaseFell, true;
      } else if SideIsWipedOut(world) {
        outcome, stopped := Annihilation, true;
      }
    }

    /** Runs what is left of the battle. */
    method RunToEnd()
      requires Valid()
      modifies this
      ensures Valid() && Finished(config, View())
      ensures exists n: nat :: View() == RunnerSteps(sim, config, old(View()), n)
    {
      ghost var n: nat := 0;
      while !(stopped || world.tick >= MaxTicks(config))
        invariant Valid() && View() == RunnerSteps(sim, config, old(View()), n)
        decreases MaxTicks(config) - world.tick
      {
        StepBattleContract(sim, world);
        Step();
        n := n + 1;
      }
    }

    /** Schedules a cast accepted after the battle started, or refuses it untouched. */
    method Inject(injection: SpellInjection) returns (fault: Option<InjectFault>)
      requires Valid()
      modifies this
      ensures Valid()
      ensures fault.None? <==> Admissible(injection, old(world).tick, catalog)
      ensures fault.Some? ==> View() == old(View())
      ensures fault.None? ==> View() == WithPending(old(View()), injection)
    {
      if injection.spellId !in catalog { return Some(UnknownSpellId); }
      if injection.tick <= world.tick { return Some(TickNotAhead); }
      var at := BisectRight(world.pending, injection);
      InsertAtIsInsertRight(world.pending, injection, at);
      OrderIsTotal();
      InsertKeeps(OrderLeq, injection, world.pending);
      world := world.(pending := world.pending[..at] + [injection] + world.pending[at..]);
      return None;
    }
  }

  ghost function RunnerSteps(sim: Sim, config: SimConfig, s: RunnerState, n: nat): RunnerState {
    if n == 0 then s else RunnerStep(sim, config, RunnerSteps(sim, config, s, n - 1))
  }
}
