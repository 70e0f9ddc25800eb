/** What every match does, from its first tick to its last: bases only fall and are
    carried as they are, energy is kept honestly, and rounds and matches end as ruled. */
module MatchFacts {
  import opened Common
  import opened Ordering
  import opened SpellQueue
  import opened JsonText
  import opened BattleWorld
  import opened Battle
  import opened Plan
  import opened Ledger
  import opened Energy
  import opened Round
  import opened Recording
  import opened Session
  import opened Replay
  import opened ReplayProof
  import opened Runs

  // ---- bases ----

  lemma TickNeverMends(env: Env, s: SessionState, seated: bool)
    requires ValidRules(env.rules) && Inv(env, s)
    ensures NoneRises(CurrentBases(s), CurrentBases(Tick(env, s, seated)))
  {
    hide ValidRules, StartInputs, RoundStep, RoundInvariant, PlanKept, LedgerKept, Earned, MatchEndingOf;
    if s.phase == InBattle { RoundStepInvariant(env.rules, s.round.value); }
    if s.phase == Planning { StartInputsKeepBases(env, s.plans, s.baseHp, env.seed + s.roundNumber); }
    if s.phase == BetweenRounds { RestingBases(env, s); }
  }

  lemma LockInNeverMends(env: Env, s: SessionState, side: Side, raw: Json)
    requires LockIn(env, s, side, raw).Ok? && s.round.None?
    ensures CurrentBases(LockIn(env, s, side, raw).value) == CurrentBases(s)
  {
    hide StartInputs, Legal, ParsedPlan;
    var kept := Locked(env, s, side, ParsedPlan(raw, env.cat.spellSlots).value);
    StartInputsKeepBases(env, kept.plans, s.baseHp, env.seed + s.roundNumber);
  }

  lemma ActNeverMends(env: Env, s: SessionState, action: Action)
    requires ValidRules(env.rules) && Inv(env, s)
    ensures NoneRises(CurrentBases(s), CurrentBases(Act(env, s, action)))
  {
    PhaseFacts(env, s);
    hide ValidRules, Inv, Tick, Refusal, LockIn;
    match action
    case DoTick(seated) => TickNeverMends(env, s, seated);
    case DoLockIn(side, raw) =>
      if LockIn(env, s, side, raw).Ok? {
        LockInOnlyPlanning(env, s, side, raw);
        LockInNeverMends(env, s, side, raw);
      }
    case DoCast(side, command) =>
    case DoAbandon(winner) =>
  }

  lemma LockInOnlyPlanning(env: Env, s: SessionState, side: Side, raw: Json)
    requires LockIn(env, s, side, raw).Ok?
    ensures s.phase == Planning
  {
  }

  lemma StartInputsKeepBases(env: Env, plans: PerSide<Option<SubmittedPlan>>, hp: PerSide<real>, seed: int)
    ensures var inputs := StartInputs(env, plans, hp, seed);
            inputs.Some? ==> inputs.value.1.bases == hp
  {
  }

  lemma RestingBases(env: Env, s: SessionState)
    requires Inv(env, s) && s.phase == BetweenRounds
    ensures CurrentBases(s) == s.baseHp
  {
  }

  /** No base ever recovers, within a round or between rounds, however the match goes. */
  lemma BasesNeverRecover(env: Env, h: History, actions: seq<Action>)
    requires ValidEnv(env) && Inv(env, h.now)
    ensures NoneRises(CurrentBases(h.now), CurrentBases(RunFrom(env, h, actions).now))
  {
    hide ValidEnv, ValidRules, Inv, Act, CurrentBases, FinishedBy;
    var start := CurrentBases(h.now);
    var holds := (t: History) => Inv(env, t.now) && NoneRises(start, CurrentBases(t.now));
    forall t, a | holds(t) ensures holds(Next(env)(t, a)) {
      ActInv(env, t.now, a);
      RulesOfValidEnv(env);
      ActNeverMends(env, t.now, a);
    }
    FoldKeeps(Next(env), holds, h, actions);
  }

  /** Each recorded round opened on exactly what the one before it left. */
  ghost predicate CarryKept(env: Env, s: SessionState) {
    var rounds := s.recorder.record.rounds;
    && (rounds != [] ==> rounds[0].baseHpAtStart == MaxHp(env))
    && (forall k :: 0 < k < |rounds| ==> rounds[k - 1].baseHpAtEnd == Some(rounds[k].baseHpAtStart))
    && (s.phase == Planning || s.phase == BetweenRounds ==>
          if rounds == [] then s.baseHp == MaxHp(env) else rounds[|rounds| - 1].baseHpAtEnd == Some(s.baseHp))
  }

  lemma StartCarries(env: Env, s: SessionState)
    requires CarryKept(env, s) && s.phase == Planning && StartBattle(env, s).Some?
    ensures CarryKept(env, StartBattle(env, s).value)
  {
    hide StartInputs;
  }

  lemma ActCarries(env: Env, s: SessionState, action: Action)
    requires Inv(env, s) && CarryKept(env, s)
    ensures CarryKept(env, Act(env, s, action))
  {
    hide StartBattle, RoundStep, RoundCast, RoundInvariant, PlanKept, LedgerKept, Earned, CarryKept;
    match action
    case DoTick(seated) => TickCarries(env, s, seated);
    case DoLockIn(side, raw) =>
      if LockIn(env, s, side, raw).Ok? {
        var kept := Locked(env, s, side, ParsedPlan(raw, env.cat.spellSlots).value);
        assert CarryKept(env, kept) by { CarriesByRounds(env, s, kept); }
        if kept.locked.north && kept.locked.south { StartCarries(env, kept); }
      }
    case DoCast(side, command) => CastCarries(env, s, side, command);
    case DoAbandon(winner) => CarriesByRounds(env, s, Abandon(env, s, winner));
  }

  /** Carrying is about the recorded rounds, the phase and the base HP, and nothing else. */
  lemma CarriesByRounds(env: Env, s: SessionState, t: SessionState)
    requires CarryKept(env, s)
    requires t.recorder.record.rounds == s.recorder.record.rounds && t.baseHp == s.baseHp
    requires t.phase == s.phase || t.phase == MatchOver || (s.phase == BetweenRounds && t.phase == Planning)
    ensures CarryKept(env, t)
  {
  }

  lemma CastCarries(env: Env, s: SessionState, side: Side, command: CastCommand)
    requires Inv(env, s) && CarryKept(env, s)
    ensures CarryKept(env, Cast(env, s, side, command).0)
  {
    hide RoundCast, RoundInvariant, PlanKept, LedgerKept, Earned;
  }

  lemma TickCarries(env: Env, s: SessionState, seated: bool)
    requires Inv(env, s) && CarryKept(env, s)
    ensures CarryKept(env, Tick(env, s, seated))
  {
    hide StartBattle, RoundStep, FinishRound, NextRound, Inv, CarryKept;
    PhaseFacts(env, s);
    var counted := s.(phaseTicks := s.phaseTicks + 1);
    CarriesByRounds(env, s, counted);
    if s.phase == Planning && StartBattle(env, counted).Some? {
      StartCarries(env, counted);
    } else if s.phase == InBattle {
      CarriesByRounds(env, s, Stepped(env, s));
      if RoundStep(env.rules, s.round.value).Over() { FinishCarries(env, s); }
    } else if s.phase == BetweenRounds {
      NextCarries(env, counted);
    }
  }

  lemma NextCarries(env: Env, s: SessionState)
    requires CarryKept(env, s) && s.phase == BetweenRounds
    ensures CarryKept(env, NextRound(s))
  {
    hide CarryKept;
    CarriesByRounds(env, s, NextRound(s));
  }

  lemma FinishCarries(env: Env, s: SessionState)
    requires Inv(env, s) && CarryKept(env, s) && s.phase == InBattle
    requires RoundStep(env.rules, s.round.value).Over()
    ensures CarryKept(env, FinishRound(env, Stepped(env, s)))
  {
    hide RoundStep, RoundInvariant, PlanKept, LedgerKept, Earned, MatchEndingOf, ZoneStates, Running;
  }

  /** The no-recovery rule, readable off any record: the first round opened on full bases,
      and every later one on exactly what the round before it left. */
  lemma RoundsOpenOnWhatWasLeft(env: Env, actions: seq<Action>, k: nat)
    requires ValidEnv(env)
    ensures var rounds := Run(env, actions).now.recorder.record.rounds;
            k < |rounds| ==>
              if k == 0 then rounds[k].baseHpAtStart == MaxHp(env)
              else rounds[k - 1].baseHpAtEnd == Some(rounds[k].baseHpAtStart)
  {
    OpenSessionInv(env);
    assert CarryKept(env, OpenSession(env));
    hide ValidEnv, Inv, Act, FinishedBy;
    var holds := (t: History) => Inv(env, t.now) && CarryKept(env, t.now);
    forall t, a | holds(t) ensures holds(Next(env)(t, a)) {
      ActInv(env, t.now, a);
      ActCarries(env, t.now, a);
    }
    FoldKeeps(Next(env), holds, History(OpenSession(env), []), actions);
  }

  // ---- how many rounds ----

  /** A test profile finishes at most its number of rounds, win, lose or draw. */
  lemma TestProfileStops(env: Env, actions: seq<Action>)
    requires ValidEnv(env) && env.testProfile
    ensures |Run(env, actions).finals| <= env.roundsToWin
  {
    OpenSessionInv(env);
    RunFromInv(env, History(OpenSession(env), []), actions);
    RunIsFaithful(env, actions);
  }

  /** Any other match still going has nobody with rounds enough to have won it; and a match
      that is over ended for the reason its result gives. */
  lemma MatchesEndAsRuled(env: Env, actions: seq<Action>)
    requires ValidEnv(env)
    ensures var now := Run(env, actions).now;
      && (now.phase != MatchOver && !env.testProfile ==>
            now.roundsWon.north < env.roundsToWin && now.roundsWon.south < env.roundsToWin)
      && (now.phase != MatchOver ==> Standing(env, now.baseHp))
      && (now.phase == MatchOver ==>
            && now.result.Some?
            && Earned(env, now.roundNumber, now.roundsWon, now.result.value)
            && now.recorder.record.ending == Some(now.result.value.ending))
  {
    OpenSessionInv(env);
    RunFromInv(env, History(OpenSession(env), []), actions);
  }

  // ---- what a cast costs ----

  function CostOf(loadout: seq<LoadoutSpell>, spellId: string): real {
    if Equipped(loadout, spellId).Some? then Equipped(loadout, spellId).value.cost else 0.0
  }

  /** What a seat's accepted casts cost, all told. */
  function SpentOn(casts: seq<ResolvedCast>, side: Side, loadout: seq<LoadoutSpell>): real {
    if casts == [] then 0.0
    else SpentOn(casts[..|casts| - 1], side, loadout)
         + if casts[|casts| - 1].castBy == side then CostOf(loadout, casts[|casts| - 1].spellId) else 0.0
  }

  ghost predicate PaidFor(r: RoundState, side: Side) {
    && r.energy.At(side).cap == ENERGY_CAP
    && r.energy.At(side).InRange()
    && r.energy.At(side).spent == SpentOn(r.casts, side, r.loadouts.At(side))
  }

  ghost predicate Priced(r: RoundState) {
    forall side: Side, s :: s in r.loadouts.At(side) ==> s.cost >= 0.0
  }

  datatype RoundAction = Advance | Ask(side: Side, command: CastCommand)

  function RoundAct(rules: Rules, r: RoundState, action: RoundAction): RoundState {
    match action
    case Advance => RoundStep(rules, r)
    case Ask(side, command) => RoundCast(rules, r, side, command).0
  }

  lemma TakePays(r: RoundState, side: Side, command: CastCommand, seat: Side)
    requires Equipped(r.loadouts.At(side), command.spellId).Some?
    requires PaidFor(r, seat)
    requires var cost := Equipped(r.loadouts.At(side), command.spellId).value.cost;
             cost >= 0.0 && r.energy.At(side).CanAfford(cost)
    ensures PaidFor(Take(r, side, command), seat)
  {
    hide WithPending;
    var after := Take(r, side, command);
    assert after.casts[..|after.casts| - 1] == r.casts;
    if side == seat {
      PoolRefinesBalance(r.energy.At(side), 0.0, Equipped(r.loadouts.At(side), command.spellId).value.cost);
    }
  }

  lemma StepPays(rules: Rules, r: RoundState, seat: Side)
    requires ValidSimConfig(rules.config) && PaidFor(r, seat)
    ensures PaidFor(RoundStep(rules, r), seat)
  {
    hide RunnerStep, DecideEnding;
    PoolRefinesBalance(r.energy.At(seat), TickGain(rules), 0.0);
  }

  lemma RoundActPays(rules: Rules, r: RoundState, action: RoundAction, seat: Side)
    requires ValidSimConfig(rules.config) && Priced(r) && PaidFor(r, seat)
    ensures PaidFor(RoundAct(rules, r, action), seat)
    ensures RoundAct(rules, r, action).loadouts == r.loadouts
  {
    hide RunnerStep, DecideEnding, PaidFor, WithPending;
    match action
    case Advance => StepPays(rules, r, seat);
    case Ask(side, command) =>
      if Refusal(rules, r, side, command).None? { TakePays(r, side, command, seat); }
  }

  /** Over any course of a round a seat's pool stays within `[0, cap]`, and what it has
      spent is exactly what its accepted casts cost: no refusal ever charges it. */
  lemma SeatsPayForWhatTheyCast(rules: Rules, world: World, loadouts: PerSide<seq<LoadoutSpell>>, startingEnergy: real,
                                actions: seq<RoundAction>, seat: Side)
    requires ValidSimConfig(rules.config) && startingEnergy >= 0.0
    requires Priced(OpenRound(world, loadouts, startingEnergy))
    ensures PaidFor(Fold((r: RoundState, a: RoundAction) => RoundAct(rules, r, a),
                         OpenRound(world, loadouts, startingEnergy), actions), seat)
  {
    var next := (r: RoundState, a: RoundAction) => RoundAct(rules, r, a);
    var start := OpenRound(world, loadouts, startingEnergy);
    var holds := (r: RoundState) => Priced(r) && PaidFor(r, seat);
    forall r, a | holds(r) ensures holds(next(r, a)) { RoundActPays(rules, r, a, seat); }
    FoldKeeps(next, holds, start, actions);
  }
}
