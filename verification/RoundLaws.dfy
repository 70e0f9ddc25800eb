/** How a round is decided and what a cast does to it, read off the world's own fields. */
module RoundLaws {
  import opened Common
  import opened Ordering
  import opened SpellQueue
  import opened BattleMap
  import opened BattleWorld
  import opened Battle
  import opened Plan
  import opened Ledger
  import opened Energy
  import opened Round
  import opened MatchFacts
  import Runs

  // ---- the verdict ----

  predicate BothStand(world: World) {
    world.bases.north > 0.0 && world.bases.south > 0.0
  }

  predicate Fields(world: World, side: Side) {
    exists u :: u in world.units && u.side == side && u.hp > 0.0
  }

  /** Both bases up and both sides alive: only score and clock are left to decide. */
  predicate Contested(world: World) {
    BothStand(world) && Fields(world, North) && Fields(world, South)
  }

  predicate Outscores(world: World, side: Side) {
    world.zoneScore.At(side) > world.zoneScore.At(Opposing(side))
  }

  predicate TakesTheZones(world: World, side: Side) {
    Outscores(world, side) && world.zoneScore.At(side) >= 240.0
  }

  /** Ahead when time is called: on zone score, or level on it and ahead on what is left of the base. */
  predicate AheadAtTheEnd(world: World, side: Side) {
    || Outscores(world, side)
    || (!Outscores(world, Opposing(side)) && world.bases.At(side) > world.bases.At(Opposing(side)))
  }

  /** Every verdict and exactly when it is given. */
  lemma VerdictsExactly(world: World, limit: int, w: Side)
    ensures var verdict := DecideEnding(world, limit);
            var l := Opposing(w);
      && (verdict == Some(BaseDestroyed(Some(w))) <==> world.bases.At(l) <= 0.0 < world.bases.At(w))
      && (verdict == Some(BaseDestroyed(None)) <==> world.bases.north <= 0.0 && world.bases.south <= 0.0)
      && (verdict == Some(RoundComplete(Some(w), Annihilated)) <==> BothStand(world) && Fields(world, w) && !Fields(world, l))
      && (verdict == Some(RoundComplete(None, Annihilated)) <==> BothStand(world) && !Fields(world, w) && !Fields(world, l))
      && (verdict == Some(RoundComplete(Some(w), ZoneControl)) <==> Contested(world) && TakesTheZones(world, w))
      && verdict != Some(RoundComplete(None, ZoneControl))
  {
    FieldsLives(world, North);
    FieldsLives(world, South);
    hide Fields, HasLiving;
  }

  /** The same of what is decided when time is called, and of going on. */
  lemma ClockVerdictsExactly(world: World, limit: int, w: Side)
    ensures var verdict := DecideEnding(world, limit);
            var undecided := Contested(world) && !TakesTheZones(world, North) && !TakesTheZones(world, South);
      && (verdict == Some(RoundComplete(Some(w), ClockRanOut)) <==> undecided && world.tick >= limit && AheadAtTheEnd(world, w))
      && (verdict == Some(RoundComplete(None, ClockRanOut)) <==>
            undecided && world.tick >= limit && world.zoneScore.north == world.zoneScore.south && world.bases.north == world.bases.south)
      && (verdict == None <==> undecided && world.tick < limit)
  {
    FieldsLives(world, North);
    FieldsLives(world, South);
    hide Fields, HasLiving;
  }

  lemma FieldsLives(world: World, side: Side)
    ensures Fields(world, side) <==> HasLiving(world.units, side)
  {
  }

  /** When a battle stops of itself and what it says of it: a base at nothing, north asked
      first, then a side with no unit left on the field. */
  lemma RunnerStopsExactly(sim: Sim, config: SimConfig, s: RunnerState)
    requires !s.stopped && s.world.tick < MaxTicks(config)
    ensures var t := RunnerStep(sim, config, s);
            var northDown, southDown := t.world.bases.north <= 0.0, t.world.bases.south <= 0.0;
            var empty := (forall u :: u in t.world.units ==> u.side == South) || (forall u :: u in t.world.units ==> u.side == North);
      && t.world == StepBattle(sim, s.world).0
      && (t.stopped <==> northDown || southDown || empty)
      && t.destroyedBase == (if northDown then Some(North) else if southDown then Some(South) else None)
      && (northDown || southDown ==> t.outcome == BaseFell)
      && (!northDown && !southDown ==> t.outcome == if empty then Annihilation else s.outcome)
      && t.events == s.events + StepBattle(sim, s.world).1
      && t.ticks == s.ticks + [BattleTick(t.world.tick, t.world, StepBattle(sim, s.world).1)]
  {
    hide StepBattle;
    var after := StepBattle(sim, s.world).0;
    EmptyField(after.units);
  }

  lemma EmptyField(units: seq<Unit>)
    ensures !HasUnits(units, North) <==> forall u :: u in units ==> u.side == South
    ensures !HasUnits(units, South) <==> forall u :: u in units ==> u.side == North
  {
  }

  // ---- a cast ----

  /** The spell a seat would cast by that id: the first it holds. */
  ghost predicate HoldsAt(loadout: seq<LoadoutSpell>, spellId: string, k: nat) {
    k < |loadout| && loadout[k].spellId == spellId && forall j :: 0 <= j < k ==> loadout[j].spellId != spellId
  }

  lemma {:induction false} EquippedIsFirst(loadout: seq<LoadoutSpell>, spellId: string)
    ensures Equipped(loadout, spellId).Some? <==> exists k: nat :: HoldsAt(loadout, spellId, k)
    ensures forall k: nat :: HoldsAt(loadout, spellId, k) ==> Equipped(loadout, spellId) == Some(loadout[k])
  {
    if loadout != [] {
      var rest := loadout[1..];
      EquippedIsFirst(rest, spellId);
      if loadout[0].spellId == spellId {
        assert HoldsAt(loadout, spellId, 0);
      } else {
        forall k: nat ensures HoldsAt(rest, spellId, k) <==> HoldsAt(loadout, spellId, k + 1) { OneFurther(loadout, spellId, k); }
        forall k: nat | HoldsAt(loadout, spellId, k) ensures k > 0 && HoldsAt(rest, spellId, k - 1) { OneFurther(loadout, spellId, if k > 0 then k - 1 else 0); }
      }
    }
  }

  lemma OneFurther(loadout: seq<LoadoutSpell>, spellId: string, k: nat)
    requires loadout != [] && loadout[0].spellId != spellId
    ensures HoldsAt(loadout[1..], spellId, k) <==> HoldsAt(loadout, spellId, k + 1)
  {
    var rest := loadout[1..];
    if HoldsAt(rest, spellId, k) {
      forall j | 0 <= j < k + 1 ensures loadout[j].spellId != spellId { if j > 0 { assert rest[j - 1] == loadout[j]; } }
    }
    if HoldsAt(loadout, spellId, k + 1) {
      forall j | 0 <= j < k ensures rest[j].spellId != spellId { assert rest[j] == loadout[j + 1]; }
    }
  }

  /** What a cast has against it, short of the price: too late or too early, off the map. */
  predicate Timely(r: RoundState, command: CastCommand) {
    command.tick <= 0 || -40 <= r.World().tick - command.tick <= 40
  }

  predicate OnTheMap(rules: Rules, at: Vec2) {
    0.0 <= at.x <= rules.map_.width && 0.0 <= at.y <= rules.map_.height
  }

  ghost predicate Affords(r: RoundState, side: Side, command: CastCommand) {
    exists k: nat :: HoldsAt(r.loadouts.At(side), command.spellId, k)
      && r.energy.At(side).Current() >= r.loadouts.At(side)[k].cost
  }

  ghost predicate Holds(r: RoundState, side: Side, command: CastCommand) {
    exists k: nat :: HoldsAt(r.loadouts.At(side), command.spellId, k)
  }

  /** A cast is taken exactly when the round is on, the tap is recent or undated, the seat holds
      the spell, the place is on the map and the pool covers it; refused, for the first of those
      that fails, it changes nothing. */
  lemma CastTakenExactly(rules: Rules, r: RoundState, side: Side, command: CastCommand)
    ensures var after := RoundCast(rules, r, side, command).0;
            var answer := RoundCast(rules, r, side, command).1;
      && (answer.Accepted? <==> r.ending.None? && Timely(r, command) && OnTheMap(rules, command.at) && Affords(r, side, command))
      && (answer == Refused(RoundOver) <==> r.ending.Some?)
      && (answer == Refused(Stale) <==> r.ending.None? && !Timely(r, command))
      && (answer == Refused(NotEquipped) <==> r.ending.None? && Timely(r, command) && !Holds(r, side, command))
      && (answer == Refused(OutOfBounds) <==> r.ending.None? && Timely(r, command) && Holds(r, side, command) && !OnTheMap(rules, command.at))
      && (answer == Refused(NotEnoughEnergy) <==>
            r.ending.None? && Timely(r, command) && Holds(r, side, command) && OnTheMap(rules, command.at) && !Affords(r, side, command))
      && (answer.Refused? ==> after == r)
  {
    EquippedIsFirst(r.loadouts.At(side), command.spellId);
    hide HoldsAt, Equipped, Take;
  }

  /** What an accepted cast does: one injection more in the queue, for the next tick, the spell
      and place asked for and the seat that asked; its price off that seat's pool and nothing off
      the other's; one line more on the round's list of casts; and the battle otherwise as it was. */
  lemma CastDoesExactly(rules: Rules, r: RoundState, side: Side, command: CastCommand, k: nat)
    requires RoundCast(rules, r, side, command).1.Accepted? && HoldsAt(r.loadouts.At(side), command.spellId, k)
    ensures var after := RoundCast(rules, r, side, command).0;
            var spell, now := r.loadouts.At(side)[k], r.World().tick;
      && RoundCast(rules, r, side, command).1 == Accepted(now + 1, r.nextOrder)
      && multiset(after.World().pending) == multiset(r.World().pending) + multiset{SpellInjection(now + 1, command.spellId, command.at, side)}
      && after.runner == r.runner.(world := r.World().(pending := after.World().pending))
      && after.energy.At(side).Current() == r.energy.At(side).Current() - spell.cost
      && after.energy.At(Opposing(side)) == r.energy.At(Opposing(side))
      && after.casts == r.casts + [ResolvedCast(command.commandId, command.spellId, spell.name, side, command.at, now + 1, r.nextOrder)]
      && after.nextOrder == r.nextOrder + 1 && after.ending == r.ending && after.loadouts == r.loadouts
  {
    EquippedIsFirst(r.loadouts.At(side), command.spellId);
    InsertCounts(OrderLeq, SpellInjection(r.World().tick + 1, command.spellId, command.at, side), r.World().pending);
    hide HoldsAt, Equipped, InsertRight, OrderLeq;
  }

  /** A tick of the round pays both seats alike: four a second, and never past the cap. */
  lemma TickPaysExactly(rules: Rules, r: RoundState, side: Side)
    requires r.ending.None? && ValidSimConfig(rules.config) && r.energy.At(side).InRange()
    ensures RoundStep(rules, r).energy.At(side).Current()
         == Min(r.energy.At(side).cap, r.energy.At(side).Current() + 4.0 / rules.config.tickRate as real)
    ensures RoundStep(rules, r).casts == r.casts && RoundStep(rules, r).loadouts == r.loadouts
  {
    hide RunnerStep, DecideEnding;
    var rate := rules.config.tickRate as real;
    assert TickGain(rules) == 4.0 * (1.0 / rate);
    assert 4.0 * (1.0 / rate) == 4.0 / rate;
  }

  // ---- what is in the queue, over any course of a round ----

  function AsQueued(c: ResolvedCast): SpellInjection {
    SpellInjection(c.tick, c.spellId, c.at, c.castBy)
  }

  /** The casts of a round that are for a tick after `now`, as the queue would hold them. */
  function QueuedAfter(casts: seq<ResolvedCast>, now: int): seq<SpellInjection> {
    if casts == [] then []
    else QueuedAfter(casts[..|casts| - 1], now) + if casts[|casts| - 1].tick > now then [AsQueued(casts[|casts| - 1])] else []
  }

  /** The queue is exactly the casts still to come. */
  ghost predicate QueueIsCasts(r: RoundState) {
    QueueMatches(r.World().pending, r.casts, r.World().tick)
  }

  ghost predicate QueueMatches(pending: seq<SpellInjection>, casts: seq<ResolvedCast>, now: int) {
    multiset(pending) == multiset(QueuedAfter(casts, now))
  }

  /** What of `all` is for a tick after `now`, whatever its order. */
  ghost predicate LaterOf(all: seq<SpellInjection>, left: seq<SpellInjection>, now: int) {
    forall x :: multiset(left)[x] == if x.tick > now then multiset(all)[x] else 0
  }

  lemma {:induction false} QueuedLater(casts: seq<ResolvedCast>, now: int, later: int)
    requires now <= later
    ensures LaterOf(QueuedAfter(casts, now), QueuedAfter(casts, later), later)
  {
    if casts != [] { QueuedLater(casts[..|casts| - 1], now, later); }
  }

  lemma LeftAfterDue(pending: seq<SpellInjection>, now: int)
    requires Sorted(OrderLeq, pending)
    ensures LaterOf(pending, pending[DueCount(pending, now)..], now)
  {
    hide Sorted, OrderLeq;
    BeyondDue(pending, now);
    var due := DueCount(pending, now);
    var front, back := pending[..due], pending[due..];
    assert pending == front + back;
    forall x: SpellInjection | x.tick <= now ensures multiset(back)[x] == 0 { assert x !in back; }
    forall x: SpellInjection | x.tick > now ensures multiset(front)[x] == 0 { assert x !in front; }
  }

  lemma StepKeepsQueue(rules: Rules, r: RoundState)
    requires ValidRules(rules) && RoundInvariant(rules, r) && QueueIsCasts(r) && !r.Over()
    ensures QueueIsCasts(RoundStep(rules, r))
  {
    hide ValidRules, RoundInvariant, RoundStep, QueueMatches, DueCount, Sorted;
    TickTakesDue(rules, r);
    QueueSorted(rules, r);
    MatchesLater(r.World().pending, r.casts, r.World().tick);
  }

  lemma QueueSorted(rules: Rules, r: RoundState)
    requires RoundInvariant(rules, r)
    ensures Sorted(OrderLeq, r.World().pending)
  {
  }

  lemma MatchesLater(pending: seq<SpellInjection>, casts: seq<ResolvedCast>, now: int)
    requires Sorted(OrderLeq, pending) && QueueMatches(pending, casts, now)
    ensures QueueMatches(pending[DueCount(pending, now + 1)..], casts, now + 1)
  {
    hide OrderLeq, QueuedAfter, Sorted, DueCount, LaterOf;
    LeftAfterDue(pending, now + 1);
    QueuedLater(casts, now, now + 1);
    KeptAlike(pending, QueuedAfter(casts, now), pending[DueCount(pending, now + 1)..], QueuedAfter(casts, now + 1), now + 1);
  }

  lemma KeptAlike(a: seq<SpellInjection>, b: seq<SpellInjection>, left: seq<SpellInjection>, right: seq<SpellInjection>, now: int)
    requires multiset(a) == multiset(b)
    requires LaterOf(a, left, now) && LaterOf(b, right, now)
    ensures multiset(left) == multiset(right)
  {
  }

  lemma TickTakesDue(rules: Rules, r: RoundState)
    requires ValidRules(rules) && RoundInvariant(rules, r) && !r.Over()
    ensures var after, now := RoundStep(rules, r), r.World().tick + 1;
      && after.World().tick == now && after.casts == r.casts
      && after.World().pending == r.World().pending[DueCount(r.World().pending, now)..]
  {
    hide DecideEnding, Sorted, StepBattle;
    StepBattleContract(rules.sim, r.World());
  }

  lemma AskKeepsQueue(rules: Rules, r: RoundState, side: Side, command: CastCommand)
    requires QueueIsCasts(r)
    ensures QueueIsCasts(RoundCast(rules, r, side, command).0)
  {
    hide Refusal, Equipped, QueueIsCasts;
    if Refusal(rules, r, side, command).None? {
      assert Equipped(r.loadouts.At(side), command.spellId).Some? by { TakenIsEquipped(rules, r, side, command); }
      TakeKeepsQueue(r, side, command);
    }
  }

  lemma TakenIsEquipped(rules: Rules, r: RoundState, side: Side, command: CastCommand)
    requires Refusal(rules, r, side, command).None?
    ensures Equipped(r.loadouts.At(side), command.spellId).Some?
  {
  }

  lemma TakeKeepsQueue(r: RoundState, side: Side, command: CastCommand)
    requires Equipped(r.loadouts.At(side), command.spellId).Some? && QueueIsCasts(r)
    ensures QueueIsCasts(Take(r, side, command))
  {
    var after := Take(r, side, command);
    InsertCounts(OrderLeq, InjectionOf(r, side, command), r.World().pending);
    hide InsertRight, OrderLeq, Equipped;
    assert after.casts[..|after.casts| - 1] == r.casts;
    assert QueuedAfter(after.casts, r.World().tick) == QueuedAfter(r.casts, r.World().tick) + [AsQueued(after.casts[|r.casts|])];
    assert AsQueued(after.casts[|r.casts|]) == InjectionOf(r, side, command);
  }

  lemma RoundActKeepsQueue(rules: Rules, r: RoundState, action: RoundAction)
    requires ValidRules(rules) && RoundInvariant(rules, r) && QueueIsCasts(r)
    ensures RoundInvariant(rules, RoundAct(rules, r, action)) && QueueIsCasts(RoundAct(rules, r, action))
  {
    hide ValidRules, RoundInvariant, QueueIsCasts, RoundStep, RoundCast;
    match action
    case Advance =>
      RoundStepInvariant(rules, r);
      if r.Over() { StaysOver(rules, r); } else { StepKeepsQueue(rules, r); }
    case Ask(side, command) =>
      RoundCastInvariant(rules, r, side, command);
      AskKeepsQueue(rules, r, side, command);
  }

  lemma StaysOver(rules: Rules, r: RoundState)
    requires r.Over()
    ensures RoundStep(rules, r) == r
  {
  }

  /** Over any course of a round, whatever is asked and refused and however often it ticks, the
      battle's queue holds exactly the accepted casts whose tick has not come: each once, as the
      tick, spell, place and side it was accepted under. */
  lemma QueueHoldsCastsToCome(rules: Rules, world: World, loadouts: PerSide<seq<LoadoutSpell>>, startingEnergy: real, actions: seq<RoundAction>)
    requires ValidRules(rules) && Opens(world)
    ensures QueueIsCasts(Runs.Fold((r: RoundState, a: RoundAction) => RoundAct(rules, r, a), OpenRound(world, loadouts, startingEnergy), actions))
  {
    var next := (r: RoundState, a: RoundAction) => RoundAct(rules, r, a);
    var start := OpenRound(world, loadouts, startingEnergy);
    OpenRoundInvariant(rules, world, loadouts, startingEnergy);
    var holds := (r: RoundState) => RoundInvariant(rules, r) && QueueIsCasts(r);
    assert holds(start);
    hide ValidRules, RoundInvariant, QueueIsCasts, RoundAct;
    forall r, a | holds(r) ensures holds(next(r, a)) { RoundActKeepsQueue(rules, r, a); }
    Runs.FoldKeeps(next, holds, start, actions);
  }

  /** So what lands on a tick is exactly what was accepted for it. */
  lemma LandsOnItsTick(r: RoundState)
    requires Sorted(OrderLeq, r.World().pending) && QueueIsCasts(r)
    ensures var now := r.World().tick + 1;
            var pending := r.World().pending;
      forall x :: multiset(pending[..DueCount(pending, now)])[x]
               == if x.tick == now then multiset(QueuedAfter(r.casts, now - 1))[x] else 0
  {
    hide Sorted, OrderLeq;
    var now, pending := r.World().tick + 1, r.World().pending;
    LeftAfterDue(pending, now);
    QueuedLater(r.casts, now - 1, now - 1);
    var due := DueCount(pending, now);
    assert pending == pending[..due] + pending[due..];
  }
}
