/** The record of a run is complete: replaying it reproduces every finished round. */
module ReplayProof {
  import opened Common
  import opened Ordering
  import opened SpellQueue
  import opened JsonText
  import opened BattleMap
  import opened BattleWorld
  import opened Battle
  import opened Plan
  import opened Ledger
  import opened Energy
  import opened Round
  import opened Opening
  import opened Recording
  import opened Storage
  import opened Session
  import opened Replay
  import opened Runs

  // ---- one round's entry ----

  /** A finished entry: it says how the round really ended, and replays to that very state. */
  ghost predicate EntryReplays(env: Env, entry: RecordedRound, number: nat, final: RoundState) {
    && ValidSim(env.rules.sim)
    && final.Over()
    && entry.ending == final.ending
    && entry.baseHpAtEnd == Some(final.World().bases)
    && entry.casts == AllRecorded(final.casts)
    && ReplayRound(ServerOf(env), env.rules.config, entry) == Ok(ReplayedRound(number, final, |final.casts|))
  }

  /** The entry being written: a replay of it would stand where the live round stands. */
  ghost predicate EntryMirrors(env: Env, entry: RecordedRound, number: nat, live: RoundState) {
    && ValidSimConfig(env.rules.config)
    && entry.number == number
    && entry.ending.None?
    && entry.casts == AllRecorded(live.casts)
    && Reopen(ServerOf(env), env.rules.config, entry).Ok?
    && exists n: nat :: Mirrors(env.rules, Reopen(ServerOf(env), env.rules.config, entry).value, entry.casts, n, live)
  }

  lemma OpenedMirrors(env: Env, number: nat, hp: PerSide<real>, plans: PerSide<SubmittedPlan>, world: World)
    requires ValidRules(env.rules)
    requires Tidy(plans.north, env.cat.spellSlots) && Tidy(plans.south, env.cat.spellSlots)
    requires OpeningOf(env, plans, hp, env.seed + number) == Ok(world)
    ensures EntryMirrors(env, EntryFor(env, number, hp, plans), number,
      OpenRound(world, PricedLoadouts(env, plans), env.startingEnergy))
  {
    hide Tidy, ResolveLoadout, CreateWorld, ToArmySetup, PlanToJson, ParsedPlan, ValidSim;
    var entry := EntryFor(env, number, hp, plans);
    TidyPlanReadsBack(plans.north, env.cat.spellSlots);
    TidyPlanReadsBack(plans.south, env.cat.spellSlots);
    var live := OpenRound(world, PricedLoadouts(env, plans), env.startingEnergy);
    assert Reopen(ServerOf(env), env.rules.config, entry) == Ok(live);
    assert Mirrors(env.rules, live, [], 0, live);
    assert AllRecorded(live.casts) == [];
  }

  /** What a round reopens on does not depend on what was cast in it or how it ended. */
  lemma ReopensTheSame(env: Env, entry: RecordedRound, other: RecordedRound)
    requires other.(casts := entry.casts, ending := entry.ending, baseHpAtEnd := entry.baseHpAtEnd) == entry
    ensures Reopen(ServerOf(env), env.rules.config, other) == Reopen(ServerOf(env), env.rules.config, entry)
  {
  }

  lemma RecordedGrows(r: RoundState, side: Side, command: CastCommand)
    requires Equipped(r.loadouts.At(side), command.spellId).Some?
    ensures AllRecorded(Take(r, side, command).casts)
         == AllRecorded(r.casts) + [RecordedCast(r.nextOrder, r.World().tick + 1, side, command.commandId, command.spellId, command.at)]
  {
  }

  lemma AcceptedMirrors(env: Env, entry: RecordedRound, number: nat, live: RoundState, side: Side, command: CastCommand)
    requires ValidRules(env.rules) && EntryMirrors(env, entry, number, live)
    requires RoundCast(env.rules, live, side, command).1.Accepted?
    ensures var cast := RecordedCast(live.nextOrder, live.World().tick + 1, side, command.commandId, command.spellId, command.at);
            EntryMirrors(env, entry.(casts := entry.casts + [cast]), number, RoundCast(env.rules, live, side, command).0)
  {
    var cast := RecordedCast(live.nextOrder, live.World().tick + 1, side, command.commandId, command.spellId, command.at);
    var start := Reopen(ServerOf(env), env.rules.config, entry).value;
    ReopensTheSame(env, entry, entry.(casts := entry.casts + [cast]));
    ReopenedInvariant(ServerOf(env), env.rules.config, entry);
    var n: nat :| Mirrors(env.rules, start, entry.casts, n, live);
    MirrorsCast(env.rules, start, entry.casts, n, live, side, command);
    RecordedGrows(live, side, command);
  }

  lemma SteppedMirrors(env: Env, entry: RecordedRound, number: nat, live: RoundState)
    requires ValidRules(env.rules) && EntryMirrors(env, entry, number, live) && RoundInvariant(env.rules, live)
    requires !live.Over() && !RoundStep(env.rules, live).Over()
    ensures EntryMirrors(env, entry, number, RoundStep(env.rules, live))
  {
    var start := Reopen(ServerOf(env), env.rules.config, entry).value;
    ReopenedInvariant(ServerOf(env), env.rules.config, entry);
    var n: nat :| Mirrors(env.rules, start, entry.casts, n, live);
    MirrorsStep(env.rules, start, entry.casts, n, live);
  }

  lemma RecordedCastsSorted(rules: Rules, live: RoundState)
    requires RoundInvariant(rules, live)
    ensures Sort(CastLeq, AllRecorded(live.casts)) == AllRecorded(live.casts)
  {
    SortOfSorted(CastLeq, AllRecorded(live.casts));
  }

  lemma FinishedReplays(env: Env, entry: RecordedRound, number: nat, live: RoundState)
    requires ValidRules(env.rules) && EntryMirrors(env, entry, number, live) && RoundInvariant(env.rules, live)
    requires !live.Over() && RoundStep(env.rules, live).Over()
    ensures var final := RoundStep(env.rules, live);
            EntryReplays(env, entry.(ending := final.ending, baseHpAtEnd := Some(final.World().bases)), number, final)
  {
    var server, config := ServerOf(env), env.rules.config;
    var final := RoundStep(env.rules, live);
    var closed := entry.(ending := final.ending, baseHpAtEnd := Some(final.World().bases));
    var start := Reopen(server, config, entry).value;
    ReopenedInvariant(server, config, entry);
    ReopensTheSame(env, entry, closed);
    var n: nat :| Mirrors(env.rules, start, entry.casts, n, live);
    MirrorsFinish(env.rules, start, entry.casts, n, live);
    RecordedCastsSorted(env.rules, live);
    assert RulesFor(server, config) == env.rules;
  }

  // ---- the record as a whole, whatever "replays" and "mirrors" mean ----

  type EntryFact = (RecordedRound, nat, RoundState) -> bool

  /** Finished rounds replay; after them comes nothing, or one unfinished entry, which
      during a battle mirrors the live round. */
  ghost predicate Kept(replays: EntryFact, mirrors: EntryFact, rounds: seq<RecordedRound>, phase: Phase,
                       live: Option<RoundState>, finals: seq<RoundState>) {
    && |finals| <= |rounds| <= |finals| + 1
    && (forall k :: 0 <= k < |finals| ==> replays(rounds[k], k + 1, finals[k]))
    && (|rounds| == |finals| + 1 ==> rounds[|finals|].ending.None?)
    && (phase == InBattle ==>
          live.Some? && |rounds| == |finals| + 1 && mirrors(rounds[|finals|], |rounds|, live.value))
    && (phase == Planning || phase == BetweenRounds ==> |rounds| == |finals|)
  }

  lemma KeptStart(replays: EntryFact, mirrors: EntryFact, rounds: seq<RecordedRound>, finals: seq<RoundState>,
                  entry: RecordedRound, live: RoundState)
    requires Kept(replays, mirrors, rounds, Planning, None, finals)
    requires entry.ending.None? && mirrors(entry, |rounds| + 1, live)
    ensures Kept(replays, mirrors, rounds + [entry], InBattle, Some(live), finals)
  {
  }

  lemma KeptFinish(replays: EntryFact, mirrors: EntryFact, rounds: seq<RecordedRound>, live: Option<RoundState>,
                   finals: seq<RoundState>, entry: RecordedRound, final: RoundState, phase: Phase)
    requires Kept(replays, mirrors, rounds, InBattle, live, finals)
    requires replays(entry, |rounds|, final)
    requires phase == BetweenRounds || phase == MatchOver
    ensures Kept(replays, mirrors, rounds[|rounds| - 1 := entry], phase, Some(final), finals + [final])
  {
  }

  ghost predicate HeadKept(env: Env, record: RunRecord) {
    && record.mapId == env.rules.map_.id
    && record.tickRate == env.rules.config.tickRate
    && record.maxBattleSeconds == env.rules.config.maxBattleSeconds
    && record.rulesVersion == RULES_VERSION && record.contentVersion == CONTENT_VERSION
  }

  ghost predicate SessionKept(replays: EntryFact, mirrors: EntryFact, env: Env, s: SessionState, finals: seq<RoundState>) {
    && HeadKept(env, s.recorder.record)
    && Kept(replays, mirrors, s.recorder.record.rounds, s.phase, s.round, finals)
  }

  lemma StartKeeps(replays: EntryFact, mirrors: EntryFact, env: Env, s: SessionState, finals: seq<RoundState>,
                   plans: PerSide<SubmittedPlan>, world: World)
    requires s.phase == Planning && s.round.None? && |s.recorder.record.rounds| == s.roundNumber - 1
    requires SessionKept(replays, mirrors, env, s, finals)
    requires mirrors(EntryFor(env, s.roundNumber, s.baseHp, plans), s.roundNumber,
                     OpenRound(world, PricedLoadouts(env, plans), env.startingEnergy))
    ensures SessionKept(replays, mirrors, env, Started(env, s, plans, world), finals)
  {
    KeptStart(replays, mirrors, s.recorder.record.rounds, finals, EntryFor(env, s.roundNumber, s.baseHp, plans),
              OpenRound(world, PricedLoadouts(env, plans), env.startingEnergy));
  }

  lemma CastKeeps(replays: EntryFact, mirrors: EntryFact, env: Env, s: SessionState, finals: seq<RoundState>,
                  side: Side, command: CastCommand)
    requires Inv(env, s) && SessionKept(replays, mirrors, env, s, finals)
    requires var after := Evaluate(env, s, side, command).0;
             s.phase == InBattle ==>
               mirrors(after.recorder.record.rounds[|finals|], |s.recorder.record.rounds|, after.round.value)
               && after.recorder.record.rounds[|finals|].ending.None?
    ensures SessionKept(replays, mirrors, env, Cast(env, s, side, command).0, finals)
  {
    hide PlanKept, LedgerKept, RoundInvariant, RoundCast, Earned, Standing, StillToPlay;
  }

  lemma FinishKeeps(replays: EntryFact, mirrors: EntryFact, env: Env, s: SessionState, finals: seq<RoundState>)
    requires Inv(env, s) && s.phase == InBattle && SessionKept(replays, mirrors, env, s, finals)
    requires RoundStep(env.rules, s.round.value).Over()
    requires var final := RoundStep(env.rules, s.round.value);
             replays(s.recorder.record.rounds[|finals|].(ending := final.ending, baseHpAtEnd := Some(final.World().bases)),
                     |s.recorder.record.rounds|, final)
    ensures SessionKept(replays, mirrors, env, FinishRound(env, Stepped(env, s)), finals + [RoundStep(env.rules, s.round.value)])
  {
    var final := RoundStep(env.rules, s.round.value);
    var entry := s.recorder.record.rounds[|finals|].(ending := final.ending, baseHpAtEnd := Some(final.World().bases));
    KeptFinish(replays, mirrors, s.recorder.record.rounds, s.round, finals, entry, final,
               FinishRound(env, Stepped(env, s)).phase);
  }

  /** Everything the four kinds of progress have to show for one action. */
  ghost predicate Progress(replays: EntryFact, mirrors: EntryFact, env: Env) {
    && (forall number: nat, hp: PerSide<real>, plans: PerSide<SubmittedPlan>, world: World
          {:trigger StartShows(mirrors, env, number, hp, plans, world)} ::
          Fieldable(env, plans.north) && Fieldable(env, plans.south)
          && OpeningOf(env, plans, hp, env.seed + number) == Ok(world)
          ==> StartShows(mirrors, env, number, hp, plans, world))
    && (forall live: RoundState, entry, number, side, command
          {:trigger CastShows(mirrors, env, live, entry, number, side, command)} :: RoundInvariant(env.rules, live) && mirrors(entry, number, live) ==>
          CastShows(mirrors, env, live, entry, number, side, command))
    && (forall live: RoundState, entry, number
          {:trigger StepShows(replays, mirrors, env, live, entry, number)} :: RoundInvariant(env.rules, live) && !live.Over() && mirrors(entry, number, live) ==>
          StepShows(replays, mirrors, env, live, entry, number))
  }

  ghost predicate StartShows(mirrors: EntryFact, env: Env, number: nat, hp: PerSide<real>,
                             plans: PerSide<SubmittedPlan>, world: World) {
    mirrors(EntryFor(env, number, hp, plans), number, OpenRound(world, PricedLoadouts(env, plans), env.startingEnergy))
  }

  ghost predicate CastShows(mirrors: EntryFact, env: Env, live: RoundState, entry: RecordedRound, number: nat,
                            side: Side, command: CastCommand) {
    var (after, answer) := RoundCast(env.rules, live, side, command);
    match answer
    case Refused(_) => true
    case Accepted(tick, order) =>
      mirrors(entry.(casts := entry.casts + [RecordedCast(order, tick, side, command.commandId, command.spellId, command.at)]),
              number, after)
  }

  ghost predicate StepShows(replays: EntryFact, mirrors: EntryFact, env: Env, live: RoundState, entry: RecordedRound, number: nat) {
    var after := RoundStep(env.rules, live);
    if after.Over() then
      replays(entry.(ending := after.ending, baseHpAtEnd := Some(after.World().bases)), number, after)
    else mirrors(entry, number, after)
  }

  lemma StartedKeeps(replays: EntryFact, mirrors: EntryFact, env: Env, s: SessionState, finals: seq<RoundState>,
                     plans: PerSide<SubmittedPlan>, world: World)
    requires s.phase == Planning && s.round.None? && |s.recorder.record.rounds| == s.roundNumber - 1
    requires SessionKept(replays, mirrors, env, s, finals) && Progress(replays, mirrors, env)
    requires Fieldable(env, plans.north) && Fieldable(env, plans.south)
    requires OpeningOf(env, plans, s.baseHp, env.seed + s.roundNumber) == Ok(world)
    ensures SessionKept(replays, mirrors, env, Started(env, s, plans, world), finals)
  {
    hide OpeningOf, Fieldable, EntryFor, OpenRound, PricedLoadouts;
    assert StartShows(mirrors, env, s.roundNumber, s.baseHp, plans, world);
    StartKeeps(replays, mirrors, env, s, finals, plans, world);
  }

  lemma BattleTickKeeps(replays: EntryFact, mirrors: EntryFact, env: Env, s: SessionState, finals: seq<RoundState>, seated: bool)
    requires ValidRules(env.rules) && Inv(env, s) && SessionKept(replays, mirrors, env, s, finals) && Progress(replays, mirrors, env)
    requires s.phase == InBattle
    ensures SessionKept(replays, mirrors, env, Tick(env, s, seated), finals + FinishedBy(env, s, DoTick(seated)))
  {
    hide ValidRules, PlanKept, LedgerKept, RoundInvariant, Earned;
    assert StepShows(replays, mirrors, env, s.round.value, s.recorder.record.rounds[|finals|], |s.recorder.record.rounds|);
    if RoundStep(env.rules, s.round.value).Over() { FinishKeeps(replays, mirrors, env, s, finals); }
    else { assert finals + [] == finals; }
  }

  lemma PlanningTickKeeps(replays: EntryFact, mirrors: EntryFact, env: Env, s: SessionState, finals: seq<RoundState>, seated: bool)
    requires ValidEnv(env) && Inv(env, s) && SessionKept(replays, mirrors, env, s, finals) && Progress(replays, mirrors, env)
    requires s.phase == Planning
    ensures SessionKept(replays, mirrors, env, Tick(env, s, seated), finals)
  {
    hide ValidEnv, Inv, Fieldable, OpeningOf, StartInputs, Opens, Started, StartShows, StepShows;
    var counted := s.(phaseTicks := s.phaseTicks + 1);
    CountingInv(env, s, s.phaseTicks + 1);
    if seated && counted.phaseTicks >= PLANNING_BACKSTOP_TICKS {
      var plans, world := BattleAlwaysStarts(env, counted);
      StartedKeeps(replays, mirrors, env, counted, finals, plans, world);
    }
  }

  lemma RestTickKeeps(replays: EntryFact, mirrors: EntryFact, env: Env, s: SessionState, finals: seq<RoundState>, seated: bool)
    requires Inv(env, s) && SessionKept(replays, mirrors, env, s, finals)
    requires s.phase == BetweenRounds || s.phase == MatchOver
    ensures SessionKept(replays, mirrors, env, Tick(env, s, seated), finals)
  {
  }

  lemma TickKeeps(replays: EntryFact, mirrors: EntryFact, env: Env, s: SessionState, finals: seq<RoundState>, seated: bool)
    requires ValidEnv(env) && Inv(env, s) && SessionKept(replays, mirrors, env, s, finals) && Progress(replays, mirrors, env)
    ensures SessionKept(replays, mirrors, env, Tick(env, s, seated), finals + FinishedBy(env, s, DoTick(seated)))
  {
    assert ValidRules(env.rules) by { RulesOfValidEnv(env); }
    hide ValidEnv, ValidRules, Inv, SessionKept, Progress, Tick;
    assert finals + [] == finals;
    match s.phase
    case InBattle => BattleTickKeeps(replays, mirrors, env, s, finals, seated);
    case Planning => PlanningTickKeeps(replays, mirrors, env, s, finals, seated);
    case _ => RestTickKeeps(replays, mirrors, env, s, finals, seated);
  }

  lemma LockInKeeps(replays: EntryFact, mirrors: EntryFact, env: Env, s: SessionState, finals: seq<RoundState>,
                    side: Side, raw: Json)
    requires ValidEnv(env) && Inv(env, s) && SessionKept(replays, mirrors, env, s, finals) && Progress(replays, mirrors, env)
    requires LockIn(env, s, side, raw).Ok?
    ensures SessionKept(replays, mirrors, env, LockIn(env, s, side, raw).value, finals)
  {
    ParsedPlanIsTidy(raw, env.cat.spellSlots);
    var plan := ParsedPlan(raw, env.cat.spellSlots).value;
    LockedInv(env, s, side, plan);
    var kept := Locked(env, s, side, plan);
    if kept.locked.north && kept.locked.south {
      var plans, world := BattleAlwaysStarts(env, kept);
      StartedKeeps(replays, mirrors, env, kept, finals, plans, world);
    }
  }

  lemma EvaluateKeeps(replays: EntryFact, mirrors: EntryFact, env: Env, s: SessionState, finals: seq<RoundState>,
                      side: Side, command: CastCommand)
    requires Inv(env, s) && SessionKept(replays, mirrors, env, s, finals) && Progress(replays, mirrors, env)
    ensures SessionKept(replays, mirrors, env, Cast(env, s, side, command).0, finals)
  {
    if s.phase == InBattle {
      assert CastShows(mirrors, env, s.round.value, s.recorder.record.rounds[|finals|], |s.recorder.record.rounds|, side, command);
    }
    CastKeeps(replays, mirrors, env, s, finals, side, command);
  }

  lemma AbandonKeeps(replays: EntryFact, mirrors: EntryFact, env: Env, s: SessionState, finals: seq<RoundState>,
                     winner: Option<Side>)
    requires SessionKept(replays, mirrors, env, s, finals)
    ensures SessionKept(replays, mirrors, env, Abandon(env, s, winner), finals)
  {
  }

  lemma ActKeeps(replays: EntryFact, mirrors: EntryFact, env: Env, s: SessionState, finals: seq<RoundState>, action: Action)
    requires ValidEnv(env) && Inv(env, s) && SessionKept(replays, mirrors, env, s, finals) && Progress(replays, mirrors, env)
    ensures SessionKept(replays, mirrors, env, Act(env, s, action), finals + FinishedBy(env, s, action))
  {
    hide ValidEnv, Inv, LockIn, Cast, Tick, Progress, Kept;
    assert finals + [] == finals;
    match action
    case DoLockIn(side, raw) =>
      if LockIn(env, s, side, raw).Ok? { LockInKeeps(replays, mirrors, env, s, finals, side, raw); }
    case DoCast(side, command) => EvaluateKeeps(replays, mirrors, env, s, finals, side, command);
    case DoTick(seated) => TickKeeps(replays, mirrors, env, s, finals, seated);
    case DoAbandon(winner) => AbandonKeeps(replays, mirrors, env, s, finals, winner);
  }

  lemma RunKeeps(replays: EntryFact, mirrors: EntryFact, env: Env, h: History, actions: seq<Action>)
    requires ValidEnv(env) && Progress(replays, mirrors, env)
    requires Inv(env, h.now) && SessionKept(replays, mirrors, env, h.now, h.finals)
    ensures var end := RunFrom(env, h, actions);
            Inv(env, end.now) && SessionKept(replays, mirrors, env, end.now, end.finals)
  {
    hide ValidEnv, Inv, SessionKept, Progress, Act, FinishedBy;
    var holds := (h: History) => Inv(env, h.now) && SessionKept(replays, mirrors, env, h.now, h.finals);
    forall t, a | holds(t) ensures holds(Next(env)(t, a)) {
      ActInv(env, t.now, a);
      ActKeeps(replays, mirrors, env, t.now, t.finals, a);
    }
    FoldKeeps(Next(env), holds, h, actions);
  }

  // ---- what replaying and mirroring really are ----

  ghost function ReplaysOf(env: Env): EntryFact {
    (entry: RecordedRound, number: nat, final: RoundState) => EntryReplays(env, entry, number, final)
  }

  ghost function MirrorsOf(env: Env): EntryFact {
    (entry: RecordedRound, number: nat, live: RoundState) => EntryMirrors(env, entry, number, live)
  }

  lemma EntriesProgress(env: Env)
    requires ValidEnv(env)
    ensures Progress(ReplaysOf(env), MirrorsOf(env), env)
  {
    forall number: nat, hp: PerSide<real>, plans: PerSide<SubmittedPlan>, world: World |
      Fieldable(env, plans.north) && Fieldable(env, plans.south) && OpeningOf(env, plans, hp, env.seed + number) == Ok(world)
      ensures StartShows(MirrorsOf(env), env, number, hp, plans, world)
    {
      OpenedMirrors(env, number, hp, plans, world);
    }
    forall live: RoundState, entry, number, side, command | RoundInvariant(env.rules, live) && MirrorsOf(env)(entry, number, live)
      ensures CastShows(MirrorsOf(env), env, live, entry, number, side, command)
    {
      if RoundCast(env.rules, live, side, command).1.Accepted? { AcceptedMirrors(env, entry, number, live, side, command); }
    }
    forall live: RoundState, entry, number | RoundInvariant(env.rules, live) && !live.Over() && MirrorsOf(env)(entry, number, live)
      ensures StepShows(ReplaysOf(env), MirrorsOf(env), env, live, entry, number)
    {
      if RoundStep(env.rules, live).Over() { FinishedReplays(env, entry, number, live); }
      else { SteppedMirrors(env, entry, number, live); }
    }
  }

  lemma {:induction false} EachReplays(replay: RecordedRound -> Result<ReplayedRound, ReplayFault>,
                                       rounds: seq<RecordedRound>, results: seq<ReplayedRound>)
    requires |results| <= |rounds| <= |results| + 1
    requires forall k :: 0 <= k < |results| ==> rounds[k].ending.Some? && replay(rounds[k]) == Ok(results[k])
    requires |rounds| == |results| + 1 ==> rounds[|results|].ending.None?
    ensures ReplayEach(replay, rounds) == Ok(results)
  {
    if results != [] {
      EachReplays(replay, rounds[1..], results[1..]);
      assert results == [results[0]] + results[1..];
    }
  }

  /** What the replay of a run should find. */
  ghost function Expected(finals: seq<RoundState>): (results: seq<ReplayedRound>)
    ensures |results| == |finals|
    ensures forall k :: 0 <= k < |finals| ==> results[k] == ReplayedRound(k + 1, finals[k], |finals[k].casts|)
  {
    seq(|finals|, k requires 0 <= k < |finals| => ReplayedRound(k + 1, finals[k], |finals[k].casts|))
  }

  lemma KeptReplays(replays: EntryFact, mirrors: EntryFact, replay: RecordedRound -> Result<ReplayedRound, ReplayFault>,
                    rounds: seq<RecordedRound>, phase: Phase, live: Option<RoundState>, finals: seq<RoundState>)
    requires Kept(replays, mirrors, rounds, phase, live, finals)
    requires forall entry, number, final :: replays(entry, number, final) ==>
               entry.ending.Some? && replay(entry) == Ok(ReplayedRound(number, final, |final.casts|))
    ensures ReplayEach(replay, rounds) == Ok(Expected(finals))
  {
    forall k | 0 <= k < |finals| ensures rounds[k].ending.Some? && replay(rounds[k]) == Ok(Expected(finals)[k]) {
      assert replays(rounds[k], k + 1, finals[k]);
    }
    EachReplays(replay, rounds, Expected(finals));
  }

  lemma RunIsFaithful(env: Env, actions: seq<Action>)
    requires ValidEnv(env)
    ensures SessionKept(ReplaysOf(env), MirrorsOf(env), env, Run(env, actions).now, Run(env, actions).finals)
  {
    OpenSessionInv(env);
    EntriesProgress(env);
    RunKeeps(ReplaysOf(env), MirrorsOf(env), env, History(OpenSession(env), []), actions);
  }

  /** The central theorem. However a match went, with whatever interleaving of lock-ins,
      casts fresh, retried or refused, ticks and an abandonment, replaying its record
      raises nothing, and ends every finished round in the state it really ended in: the
      same world, tick history and events, ending, base HP, energy and casts. */
  lemma ReplayReproducesRun(env: Env, actions: seq<Action>)
    requires ValidEnv(env)
    ensures ReplayRun(ServerOf(env), Run(env, actions).now.recorder.record) == Ok(Expected(Run(env, actions).finals))
  {
    RunIsFaithful(env, actions);
    var s, finals := Run(env, actions).now, Run(env, actions).finals;
    forall entry, number, final | ReplaysOf(env)(entry, number, final)
      ensures entry.ending.Some?
      ensures Replayer(ServerOf(env), env.rules.config)(entry) == Ok(ReplayedRound(number, final, |final.casts|))
    {
    }
    KeptReplays(ReplaysOf(env), MirrorsOf(env), Replayer(ServerOf(env), env.rules.config),
                s.recorder.record.rounds, s.phase, s.round, finals);
    assert SimConfig(s.recorder.record.tickRate, s.recorder.record.maxBattleSeconds) == env.rules.config;
  }

  /** And so does the run that was written down and read back: storing a record loses nothing
      its replay needs. */
  lemma StoredRunReplays(env: Env, actions: seq<Action>)
    requires ValidEnv(env)
    ensures var stored := RecordFromJson(RecordToJson(Run(env, actions).now.recorder.record));
      stored.Some? && ReplayRun(ServerOf(env), stored.value) == Ok(Expected(Run(env, actions).finals))
  {
    hide ValidEnv, RecordFromJson, RecordToJson, ReplayRun, Run, Expected;
    StoredRecordReadsBack(Run(env, actions).now.recorder.record);
    ReplayReproducesRun(env, actions);
  }

  /** What the record itself says: each finished round's ending, remaining base HP and
      accepted casts are the live round's, in order; only a last entry can be unfinished. */
  lemma RecordTellsTheTruth(env: Env, actions: seq<Action>, k: nat)
    requires ValidEnv(env)
    ensures var rounds := Run(env, actions).now.recorder.record.rounds;
      var finals := Run(env, actions).finals;
      && (k < |rounds| && rounds[k].ending.None? ==> k == |rounds| - 1 == |finals|)
      && (k < |finals| ==>
            && k < |rounds|
            && rounds[k].ending == finals[k].ending && rounds[k].ending.Some?
            && rounds[k].casts == AllRecorded(finals[k].casts)
            && rounds[k].baseHpAtEnd == Some(finals[k].World().bases))
  {
    RunIsFaithful(env, actions);
    if k < |Run(env, actions).finals| {
      assert ReplaysOf(env)(Run(env, actions).now.recorder.record.rounds[k], k + 1, Run(env, actions).finals[k]);
    }
  }

  /** A recorded run is refused exactly by a server with other rules, other content or another map. */
  lemma ReplayRefusedExactlyElsewhere(env: Env, actions: seq<Action>, server: Server)
    requires ValidEnv(env)
    requires server.(rulesVersion := RULES_VERSION, contentVersion := CONTENT_VERSION, map_ := env.rules.map_) == ServerOf(env)
    requires server.map_.id == env.rules.map_.id ==> server.map_ == env.rules.map_
    ensures ValidSim(server.sim)
    ensures ReplayRun(server, Run(env, actions).now.recorder.record).Ok? <==>
        server.rulesVersion == RULES_VERSION && server.contentVersion == CONTENT_VERSION && server.map_.id == env.rules.map_.id
  {
    ReplayReproducesRun(env, actions);
    RunIsFaithful(env, actions);
    assert server.sim == env.rules.sim;
    assert HeadKept(env, Run(env, actions).now.recorder.record);
    if server.rulesVersion == RULES_VERSION && server.contentVersion == CONTENT_VERSION && server.map_.id == env.rules.map_.id {
      assert server == ServerOf(env);
    }
  }
}
