/** A battle's state as the match layer and the troop AI read it
    (`api/app/sim/world.py`, `api/app/sim/config.py`). */
module BattleWorld {
  import opened Common
  import opened SpellQueue

  datatype UnitKind = Mage | Summon

  datatype Unit = Unit(
    id: string,
    typeId: string,
    kind: UnitKind,
    side: Side,
    troopId: string,
    maxHp: real,
    damage: real,
    range: real,
    speed: real,
    hp: real,
    position: Vec2,
    blocksMovement: bool,
    blockRadius: real)

  predicate IsAlive(unit: Unit) {
    unit.hp > 0.0
  }

  /** Everything a battle carries that the match layer never reads: unit gauges and
      intents, troops, hazards, the tick context and the random generator. */
  type SimState(!new)

  type Event(!new)

  datatype World = World(
    tick: nat,
    units: seq<Unit>,
    bases: PerSide<real>,
    zoneScore: PerSide<real>,
    pending: seq<SpellInjection>,
    hidden: SimState)

  datatype SimConfig = SimConfig(tickRate: int, maxBattleSeconds: real)

  predicate ValidSimConfig(config: SimConfig) {
    config.tickRate > 0 && config.maxBattleSeconds > 0.0
  }

  function Ceiling(x: real): int {
    -((-x).Floor)
  }

  /** `max_ticks`: the tick a battle stops at whatever else happens. */
  function MaxTicks(config: SimConfig): (limit: int)
    ensures ValidSimConfig(config) ==> limit >= 1
    ensures limit as real >= config.maxBattleSeconds * config.tickRate as real
  {
    var exact := config.maxBattleSeconds * config.tickRate as real;
    assert ValidSimConfig(config) ==> exact > 0.0;
    Ceiling(exact)
  }

  function SecondsPerTick(config: SimConfig): real {
    if config.tickRate == 0 then 0.0 else 1.0 / config.tickRate as real
  }
}
