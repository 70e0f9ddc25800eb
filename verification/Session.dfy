/** The authoritative match (`api/app/match/session.py`): its phases, and what each
    thing that can happen to it does. */
module Session {
  import opened Common
  import opened Ordering
  import opened SpellQueue
  import opened JsonText
  import opened BattleMap
  import opened BattleWorld
  import opened Battle
  import opened Plan
  import opened Ledger
  import opened Energy
  import opened Round
  import opened Cards
  import opened Opening
  import opened Recording
  import opened Zones
  import opened Runs

  const ROUND_OVER_TICKS: nat := 60
  const PLANNING_BACKSTOP_TICKS: nat := 1200

  datatype Phase = Planning | InBattle | BetweenRounds | MatchOver

  /** Everything a match is played under, fixed when it opens. */
  datatype Env = Env(
    rules: Rules,
    cat: Catalog,
    types: UnitTypes,
    seed: int,
    startingEnergy: real,
    roundsToWin: nat,
    testProfile: bool,
    runId: string,
    matchId: string,
    gameMode: string)

  datatype RoundResult = RoundResult(
    number: nat, ending: RoundEnding, bases: PerSide<real>, zones: seq<(string, Option<Side>)>, zoneScore: PerSide<real>)

  datatype MatchResult = MatchResult(ending: MatchEnding, roundsWon: PerSide<nat>, bases: PerSide<real>, lastRound: RoundResult)

  datatype SessionState = SessionState(
    phase: Phase,
    roundNumber: nat,
    roundsWon: PerSide<nat>,
    baseHp: PerSide<real>,
    plans: PerSide<Option<SubmittedPlan>>,
    locked: PerSide<bool>,
    loadouts: PerSide<Option<seq<LoadoutSpell>>>,
    round: Option<RoundState>,
    lastRound: Option<RoundResult>,
    result: Option<MatchResult>,
    phaseTicks: nat,
    ledger: PerSide<SeatLog>,
    recorder: Recorder)

  /** A server set up coherently: its own suggestion is legal, and every spell it
      sells is one its battles can fire. */
  ghost predicate ValidEnv(env: Env) {
    && ValidRules(env.rules)
    && ValidMap(env.rules.map_)
    && Coherent(env.cat, env.types)
    && SuggestionLegal(env.cat, env.rules.map_)
    && (forall s :: s in env.cat.spells ==> s.id in env.rules.simSpells && s.cost >= 0.0)
    && env.startingEnergy >= 0.0
    && env.roundsToWin >= 1
  }

  lemma RulesOfValidEnv(env: Env)
    requires ValidEnv(env)
    ensures ValidRules(env.rules)
  {
  }

  function MaxHp(env: Env): PerSide<real> {
    PerSide(env.rules.map_.bases.north.maxHp, env.rules.map_.bases.south.maxHp)
  }

  function BlankRecord(env: Env): RunRecord {
    RunRecord(env.runId, env.matchId, env.gameMode, env.testProfile, env.rules.map_.id, env.rules.config.tickRate,
              env.rules.config.maxBattleSeconds, [], None, None, None, None, RECORD_VERSION, RULES_VERSION, CONTENT_VERSION)
  }

  function OpenSession(env: Env): SessionState {
    SessionState(Planning, 1, Both(0), MaxHp(env), Both(None), Both(false), Both(None), None, None, None, 0,
                 Both([]), Recorder(BlankRecord(env), None))
  }

  // ---- what holds of every match ----

  /** A seat's plan is one the server accepted, priced as the server priced it. */
  ghost predicate PlanKept(env: Env, plan: Option<SubmittedPlan>, locked: bool, loadout: Option<seq<LoadoutSpell>>) {
    match plan
    case None => loadout.None? && !locked
    case Some(p) =>
      && Fieldable(env, p)
      && loadout == Some(ResolveLoadout(env.cat, p))
  }

  ghost predicate LedgerKept(seat: SeatLog) {
    DistinctIds(seat) && |seat| <= MAX_ENTRIES_PER_SEAT
  }

  predicate Standing(env: Env, hp: PerSide<real>) {
    0.0 < hp.north <= MaxHp(env).north && 0.0 < hp.south <= MaxHp(env).south
  }

  /** The round count has not yet decided the match. */
  predicate StillToPlay(env: Env, s: SessionState) {
    if env.testProfile then s.roundNumber + (if s.phase == BetweenRounds then 1 else 0) <= env.roundsToWin
    else s.roundsWon.north < env.roundsToWin && s.roundsWon.south < env.roundsToWin
  }

  /** A round still being fought, on bases no healthier than it opened on. */
  ghost predicate Running(rules: Rules, r: RoundState, openedOn: PerSide<real>) {
    RoundInvariant(rules, r) && !r.Over() && NoneRises(openedOn, r.World().bases)
  }

  ghost predicate BattleKept(env: Env, s: SessionState) {
    && s.round.Some?
    && Running(env.rules, s.round.value, s.baseHp)
    && s.plans.north.Some? && s.plans.south.Some?
    && s.loadouts.north.Some? && s.loadouts.south.Some?
    && s.round.value.loadouts == PerSide(s.loadouts.north.value, s.loadouts.south.value)
    && s.recorder.current == Some(|s.recorder.record.rounds| - 1)
  }

  ghost predicate Inv(env: Env, s: SessionState) {
    && PlanKept(env, s.plans.north, s.locked.north, s.loadouts.north)
    && PlanKept(env, s.plans.south, s.locked.south, s.loadouts.south)
    && LedgerKept(s.ledger.north) && LedgerKept(s.ledger.south)
    && s.roundNumber >= 1
    && (env.testProfile ==> s.roundNumber <= env.roundsToWin)
    && s.recorder.WellFormed()
    && |s.recorder.record.rounds| <= s.roundNumber
    && (s.phase != MatchOver ==> Standing(env, s.baseHp) && StillToPlay(env, s))
    && (s.phase == Planning ==> s.round.None? && s.recorder.current.None? && |s.recorder.record.rounds| == s.roundNumber - 1)
    && (s.phase == InBattle ==> BattleKept(env, s) && |s.recorder.record.rounds| == s.roundNumber)
    && (s.phase == BetweenRounds ==>
          s.round.Some? && s.round.value.World().bases == s.baseHp && s.lastRound.Some? && s.recorder.current.None? && |s.recorder.record.rounds| == s.roundNumber)
    && (s.phase == MatchOver ==>
          && s.result.Some? && s.recorder.record.ending == Some(s.result.value.ending)
          && s.recorder.record.baseHp == Some(s.result.value.bases)
          && s.recorder.record.roundsWon == Some(s.result.value.roundsWon)
          && Earned(env, s.roundNumber, s.roundsWon, s.result.value))
  }

  /** A match ended the way its result says: a base fell under whoever lost, a side took
      its rounds, or a test profile played all of its own. */
  predicate Earned(env: Env, roundNumber: nat, won: PerSide<nat>, result: MatchResult) {
    match result.ending
    case MatchBaseDestroyed(winner) =>
      && (result.bases.north <= 0.0 || result.bases.south <= 0.0)
      && (winner == Some(North) <==> result.bases.north > 0.0)
      && (winner == Some(South) <==> result.bases.south > 0.0)
    case RoundsWon(side) =>
      !env.testProfile && won.At(side) >= env.roundsToWin && won.At(Opposing(side)) < env.roundsToWin
    case TestComplete(_) => env.testProfile && roundNumber == env.roundsToWin
    case Abandoned(_) => true
  }

  lemma OpenSessionInv(env: Env)
    requires ValidEnv(env)
    ensures Inv(env, OpenSession(env))
  {
    assert env.rules.map_.bases.At(North).maxHp > 0.0 && env.rules.map_.bases.At(South).maxHp > 0.0;
  }

  // ---- planning ----

  /** `plan_for`: what the seat locked in, or the suggestion. */
  function PlanOrDefault(env: Env, plan: Option<SubmittedPlan>): Result<SubmittedPlan, PlanError> {
    if plan.Some? then Ok(plan.value) else DefaultPlan(env.cat, env.rules.map_)
  }

  predicate Fieldable(env: Env, plan: SubmittedPlan) {
    Legal(env.cat, env.rules.map_, plan) && Tidy(plan, env.cat.spellSlots)
  }

  /** Both seats' plans for the round about to start, unless a suggestion is unfit. */
  function BothPlans(env: Env, plans: PerSide<Option<SubmittedPlan>>): Option<PerSide<SubmittedPlan>> {
    match PlanOrDefault(env, plans.north)
    case Err(_) => None
    case Ok(north) =>
      match PlanOrDefault(env, plans.south)
      case Err(_) => None
      case Ok(south) => Some(PerSide(north, south))
  }

  lemma PlansAlwaysFound(env: Env, plans: PerSide<Option<SubmittedPlan>>)
    requires ValidEnv(env)
    requires plans.north.Some? ==> Fieldable(env, plans.north.value)
    requires plans.south.Some? ==> Fieldable(env, plans.south.value)
    ensures var both := BothPlans(env, plans);
            both.Some? && Fieldable(env, both.value.north) && Fieldable(env, both.value.south)
  {
    if plans.north.None? || plans.south.None? {
      ParsedPlanIsTidy(env.cat.opening(1, env.rules.map_), env.cat.spellSlots);
    }
  }

  function OpeningOf(env: Env, plans: PerSide<SubmittedPlan>, hp: PerSide<real>, seed: int): Result<World, BuildFault> {
    CreateWorld(env.rules.sim, env.types, env.rules.map_, PerSide(ToArmySetup(plans.north), ToArmySetup(plans.south)),
                hp, seed, env.rules.config)
  }

  function EntryFor(env: Env, number: nat, hp: PerSide<real>, plans: PerSide<SubmittedPlan>): RecordedRound {
    RecordedRound(number, env.seed + number, env.startingEnergy, hp,
                  PerSide(PlanToJson(plans.north), PlanToJson(plans.south)),
                  PerSide(ResolveLoadout(env.cat, plans.north), ResolveLoadout(env.cat, plans.south)),
                  [], None, None)
  }

  lemma OpeningAlwaysBuilds(env: Env, plans: PerSide<SubmittedPlan>, hp: PerSide<real>, seed: int) returns (world: World)
    requires ValidEnv(env) && Standing(env, hp)
    requires Legal(env.cat, env.rules.map_, plans.north) && Legal(env.cat, env.rules.map_, plans.south)
    ensures OpeningOf(env, plans, hp, seed) == Ok(world)
    ensures Opens(world) && world.bases == hp
  {
    LegalPlansOpen(env.rules.sim, env.cat, env.types, env.rules.map_, plans, hp, seed, env.rules.config);
    world := OpeningOf(env, plans, hp, seed).value;
  }

  function Started(env: Env, s: SessionState, plans: PerSide<SubmittedPlan>, world: World): SessionState {
    var loadouts := PricedLoadouts(env, plans);
    s.(plans := PerSide(Some(plans.north), Some(plans.south)),
       loadouts := PerSide(Some(loadouts.north), Some(loadouts.south)),
       round := Some(OpenRound(world, loadouts, env.startingEnergy)),
       recorder := s.recorder.RoundStarted(EntryFor(env, s.roundNumber, s.baseHp, plans)),
       phase := InBattle,
       phaseTicks := 0)
  }

  function PricedLoadouts(env: Env, plans: PerSide<SubmittedPlan>): PerSide<seq<LoadoutSpell>> {
    PerSide(ResolveLoadout(env.cat, plans.north), ResolveLoadout(env.cat, plans.south))
  }

  /** What a battle starts from: both plans, missing ones suggested, and the world they
      open; or None, where the server would raise. */
  function StartInputs(env: Env, plans: PerSide<Option<SubmittedPlan>>, hp: PerSide<real>, seed: int)
    : Option<(PerSide<SubmittedPlan>, World)>
  {
    match BothPlans(env, plans)
    case None => None
    case Some(both) =>
      match OpeningOf(env, both, hp, seed)
      case Err(_) => None
      case Ok(world) => Some((both, world))
  }

  lemma StartInputsOpen(env: Env, plans: PerSide<Option<SubmittedPlan>>, hp: PerSide<real>, seed: int)
    ensures var inputs := StartInputs(env, plans, hp, seed);
            inputs.Some? ==> Opens(inputs.value.1)
  {
  }

  /** `_start_battle`: the round opened and recorded, or None where the server would raise. */
  function StartBattle(env: Env, s: SessionState): Option<SessionState> {
    match StartInputs(env, s.plans, s.baseHp, env.seed + s.roundNumber)
    case None => None
    case Some((plans, world)) => Some(Started(env, s, plans, world))
  }

  /** `lock_in`: a seat's plan, or the reason it is refused. */
  function LockIn(env: Env, s: SessionState, side: Side, raw: Json): Result<SessionState, PlanError> {
    if s.phase != Planning then Err(PlanningOver)
    else if s.locked.At(side) then Err(AlreadyLocked)
    else match ParsedPlan(raw, env.cat.spellSlots)
      case Err(e) => Err(e)
      case Ok(plan) =>
        if !Legal(env.cat, env.rules.map_, plan) then Err(IllegalPlan)
        else
          var kept := Locked(env, s, side, plan);
          if !(kept.locked.north && kept.locked.south) then Ok(kept)
          else match StartBattle(env, kept)
            case None => Err(CannotStart)
            case Some(started) => Ok(started)
  }

  function Locked(env: Env, s: SessionState, side: Side, plan: SubmittedPlan): SessionState {
    s.(plans := s.plans.With(side, Some(plan)),
       loadouts := s.loadouts.With(side, Some(ResolveLoadout(env.cat, plan))),
       locked := s.locked.With(side, true))
  }

  lemma StartedInv(env: Env, s: SessionState, plans: PerSide<SubmittedPlan>, world: World)
    requires ValidRules(env.rules) && Inv(env, s) && s.phase == Planning
    requires Opens(world) && world.bases == s.baseHp
    requires Fieldable(env, plans.north) && Fieldable(env, plans.south)
    ensures Inv(env, Started(env, s, plans, world))
  {
    OpenRoundInvariant(env.rules, world, PricedLoadouts(env, plans), env.startingEnergy);
    assert Running(env.rules, OpenRound(world, PricedLoadouts(env, plans), env.startingEnergy), s.baseHp);
  }

  /** On bases still standing a battle always starts: nothing raises. */
  lemma InputsAlwaysFound(env: Env, plans: PerSide<Option<SubmittedPlan>>, hp: PerSide<real>, seed: int)
    returns (both: PerSide<SubmittedPlan>, world: World)
    requires ValidEnv(env) && Standing(env, hp)
    requires plans.north.Some? ==> Fieldable(env, plans.north.value)
    requires plans.south.Some? ==> Fieldable(env, plans.south.value)
    ensures StartInputs(env, plans, hp, seed) == Some((both, world))
    ensures Fieldable(env, both.north) && Fieldable(env, both.south)
    ensures OpeningOf(env, both, hp, seed) == Ok(world) && Opens(world) && world.bases == hp
  {
    PlansAlwaysFound(env, plans);
    both := BothPlans(env, plans).value;
    world := OpeningAlwaysBuilds(env, both, hp, seed);
  }

  /** In every state a match can plan in, its battle starts. */
  lemma BattleAlwaysStarts(env: Env, s: SessionState) returns (plans: PerSide<SubmittedPlan>, world: World)
    requires ValidEnv(env) && Inv(env, s) && s.phase == Planning
    ensures StartBattle(env, s) == Some(Started(env, s, plans, world))
    ensures Fieldable(env, plans.north) && Fieldable(env, plans.south)
    ensures OpeningOf(env, plans, s.baseHp, env.seed + s.roundNumber) == Ok(world)
    ensures Opens(world) && world.bases == s.baseHp
  {
    hide StartInputs, OpeningOf, Fieldable, ValidEnv;
    plans, world := InputsAlwaysFound(env, s.plans, s.baseHp, env.seed + s.roundNumber);
  }

  lemma StartBattleInv(env: Env, s: SessionState)
    requires ValidEnv(env) && Inv(env, s) && s.phase == Planning
    ensures StartBattle(env, s).Some? && Inv(env, StartBattle(env, s).value)
  {
    hide OpeningOf, Fieldable, Inv, Started, Opens;
    var plans, world := BattleAlwaysStarts(env, s);
    StartedInv(env, s, plans, world);
  }

  /** What the phase says about the round object. */
  lemma PhaseFacts(env: Env, s: SessionState)
    requires Inv(env, s)
    ensures s.phase == Planning ==> s.round.None?
    ensures s.phase == InBattle ==> s.round.Some? && !s.round.value.Over()
  {
  }

  lemma LockedInv(env: Env, s: SessionState, side: Side, plan: SubmittedPlan)
    requires Inv(env, s) && s.phase == Planning
    requires Fieldable(env, plan)
    ensures Inv(env, Locked(env, s, side, plan))
  {
  }

  /** Locking in keeps everything in order, and the battle the second lock starts never fails to. */
  lemma LockInInv(env: Env, s: SessionState, side: Side, raw: Json)
    requires ValidEnv(env) && Inv(env, s)
    ensures LockIn(env, s, side, raw).Ok? ==> Inv(env, LockIn(env, s, side, raw).value)
    ensures LockIn(env, s, side, raw) != Err(CannotStart)
  {
    hide ValidEnv, StartBattle, Inv, Legal, Fieldable;
    var parsed := ParsedPlan(raw, env.cat.spellSlots);
    if s.phase == Planning && parsed.Ok? && Legal(env.cat, env.rules.map_, parsed.value) {
      ParsedPlanIsTidy(raw, env.cat.spellSlots);
      FieldableIf(env, parsed.value);
      LockedInv(env, s, side, parsed.value);
      StartBattleInv(env, Locked(env, s, side, parsed.value));
    }
    ParserNeverStarts(raw, env.cat.spellSlots);
  }

  lemma FieldableIf(env: Env, plan: SubmittedPlan)
    requires Legal(env.cat, env.rules.map_, plan) && Tidy(plan, env.cat.spellSlots)
    ensures Fieldable(env, plan)
  {
  }

  // ---- casting ----

  function Answer(s: SessionState, side: Side, entry: LedgerEntry): SessionState {
    s.(ledger := s.ledger.With(side, Recorded(MAX_ENTRIES_PER_SEAT, s.ledger.At(side), entry)))
  }

  function RefusedEntry(id: string, reason: Rejection, round: Option<int>): LedgerEntry {
    LedgerEntry(id, false, Some(reason), round, None, None)
  }

  function AcceptedEntry(id: string, round: int, tick: int, order: int): LedgerEntry {
    LedgerEntry(id, true, None, Some(round), Some(tick), Some(order))
  }

  /** What the server decides about an id it has not seen, and the state that leaves,
      before the answer is written down. */
  function Evaluate(env: Env, s: SessionState, side: Side, command: CastCommand): (SessionState, LedgerEntry) {
    if s.phase != InBattle || s.round.None? then
      (s, RefusedEntry(command.commandId, if s.phase == Planning then WrongPhase else RoundOver, None))
    else
      var (round, answer) := RoundCast(env.rules, s.round.value, side, command);
      match answer
      case Refused(reason) => (s.(round := Some(round)), RefusedEntry(command.commandId, reason, Some(s.roundNumber)))
      case Accepted(tick, order) =>
        (s.(round := Some(round),
            recorder := s.recorder.CastAccepted(
              RecordedCast(order, tick, side, command.commandId, command.spellId, command.at))),
         AcceptedEntry(command.commandId, s.roundNumber, tick, order))
  }

  /** `cast`: a known id is answered from the ledger; a new one is decided, recorded, answered. */
  function Cast(env: Env, s: SessionState, side: Side, command: CastCommand): (SessionState, Message) {
    var seen := Find(s.ledger.At(side), command.commandId);
    if seen.Some? then (s, ToMessage(seen.value))
    else
      var (after, entry) := Evaluate(env, s, side, command);
      (Answer(after, side, entry), ToMessage(entry))
  }

  lemma CastKeepsRunning(rules: Rules, r: RoundState, openedOn: PerSide<real>, side: Side, command: CastCommand)
    requires ValidRules(rules) && Running(rules, r, openedOn)
    ensures Running(rules, RoundCast(rules, r, side, command).0, openedOn)
    ensures RoundCast(rules, r, side, command).0.loadouts == r.loadouts
  {
    RoundCastInvariant(rules, r, side, command);
  }

  /** A session whose running round took a cast, and whose record says so, is still in order. */
  lemma CastTakenInv(env: Env, s: SessionState, round: RoundState, recorder: Recorder)
    requires Inv(env, s) && s.phase == InBattle
    requires Running(env.rules, round, s.baseHp) && round.loadouts == s.round.value.loadouts
    requires recorder.current == s.recorder.current && |recorder.record.rounds| == |s.recorder.record.rounds|
    ensures Inv(env, s.(round := Some(round), recorder := recorder))
  {
  }

  lemma EvaluateInv(env: Env, s: SessionState, side: Side, command: CastCommand)
    requires ValidRules(env.rules) && Inv(env, s)
    ensures Inv(env, Evaluate(env, s, side, command).0)
  {
    if s.phase == InBattle {
      CastKeepsRunning(env.rules, s.round.value, s.baseHp, side, command);
      var after := Evaluate(env, s, side, command).0;
      CastTakenInv(env, s, after.round.value, after.recorder);
      assert after == s.(round := after.round, recorder := after.recorder);
    }
  }

  lemma AnswerInv(env: Env, s: SessionState, side: Side, entry: LedgerEntry)
    requires Inv(env, s)
    ensures Inv(env, Answer(s, side, entry))
  {
    RecordedStaysDistinct(MAX_ENTRIES_PER_SEAT, s.ledger.At(side), entry);
  }

  lemma CastInv(env: Env, s: SessionState, side: Side, command: CastCommand)
    requires ValidRules(env.rules) && Inv(env, s)
    ensures Inv(env, Cast(env, s, side, command).0)
  {
    EvaluateInv(env, s, side, command);
    AnswerInv(env, Evaluate(env, s, side, command).0, side, Evaluate(env, s, side, command).1);
  }

  // ---- time ----

  function ZoneStates(env: Env, world: World): seq<(string, Option<Side>)> {
    seq(|env.rules.map_.zones|, k requires 0 <= k < |env.rules.map_.zones| =>
      (env.rules.map_.zones[k].id, OccupancyOf(env.rules.map_, env.rules.map_.zones[k], world.units).holder))
  }

  /** `_match_ending`: whether a round's ending also ends the match. */
  function MatchEndingOf(env: Env, roundNumber: nat, won: PerSide<nat>, ending: RoundEnding): Option<MatchEnding> {
    if ending.BaseDestroyed? then Some(MatchBaseDestroyed(ending.winner))
    else if env.testProfile then
      if roundNumber >= env.roundsToWin then Some(TestComplete(ending.winner)) else None
    else if won.north >= env.roundsToWin then Some(RoundsWon(North))
    else if won.south >= env.roundsToWin then Some(RoundsWon(South))
    else None
  }

  /** `_terminal_reason`: the match's own kind when that is terminal, else the round's. */
  function TerminalReasonOf(ending: MatchEnding, round: RoundEnding): TerminalReason {
    if ending.MatchBaseDestroyed? then BaseFellReason
    else if ending.Abandoned? then AbandonedReason
    else match round
      case RoundComplete(_, reason) => RoundStopped(reason)
      case BaseDestroyed(_) => BaseFellReason
  }

  function Credited(won: PerSide<nat>, ending: RoundEnding): PerSide<nat> {
    if ending.winner.Some? then won.With(ending.winner.value, won.At(ending.winner.value) + 1) else won
  }

  /** The decided round's score, bases and result taken down. */
  function Scored(env: Env, s: SessionState): (scored: SessionState)
    requires s.round.Some? && s.round.value.Over()
    ensures scored.lastRound.Some?
  {
    var world, ending := s.round.value.World(), s.round.value.ending.value;
    s.(baseHp := world.bases, roundsWon := Credited(s.roundsWon, ending),
       lastRound := Some(RoundResult(s.roundNumber, ending, world.bases, ZoneStates(env, world), world.zoneScore)),
       recorder := s.recorder.RoundFinished(ending, world.bases), phaseTicks := 0)
  }

  /** `_finish_round`: what a decided round leaves behind. */
  function FinishRound(env: Env, s: SessionState): SessionState
    requires s.round.Some? && s.round.value.Over()
  {
    var ending, scored := s.round.value.ending.value, Scored(env, s);
    match MatchEndingOf(env, s.roundNumber, scored.roundsWon, ending)
    case None => scored.(phase := BetweenRounds)
    case Some(over) =>
      scored.(result := Some(MatchResult(over, scored.roundsWon, scored.baseHp, scored.lastRound.value)),
              recorder := scored.recorder.MatchFinished(over, TerminalReasonOf(over, ending), scored.roundsWon, scored.baseHp),
              phase := MatchOver)
  }

  function NextRound(s: SessionState): SessionState {
    s.(roundNumber := s.roundNumber + 1, plans := Both(None), locked := Both(false), loadouts := Both(None),
       round := None, phase := Planning, phaseTicks := 0)
  }

  /** The same session with its round one tick on. */
  function Stepped(env: Env, s: SessionState): SessionState
    requires s.round.Some?
  {
    s.(phaseTicks := s.phaseTicks + 1, round := Some(RoundStep(env.rules, s.round.value)))
  }

  /** `tick`: the one place time passes. `seated` is whether every seat was ever claimed. */
  function Tick(env: Env, s: SessionState, seated: bool): SessionState {
    var counted := s.(phaseTicks := s.phaseTicks + 1);
    match s.phase
    case Planning =>
      if seated && counted.phaseTicks >= PLANNING_BACKSTOP_TICKS && StartBattle(env, counted).Some?
      then StartBattle(env, counted).value else counted
    case InBattle =>
      if s.round.None? then counted
      else
        var stepped := Stepped(env, s);
        if stepped.round.value.Over() then FinishRound(env, stepped) else stepped
    case BetweenRounds =>
      if counted.phaseTicks >= ROUND_OVER_TICKS then NextRound(counted) else counted
    case MatchOver => counted
  }

  lemma SteppedInv(env: Env, s: SessionState)
    requires ValidRules(env.rules) && Inv(env, s) && s.phase == InBattle
    requires !RoundStep(env.rules, s.round.value).Over()
    ensures Inv(env, Stepped(env, s))
  {
    RoundStepInvariant(env.rules, s.round.value);
  }

  /** A round that ended short of a base falling leaves both bases standing. */
  lemma BasesOutliveRound(env: Env, s: SessionState)
    requires ValidRules(env.rules) && Inv(env, s) && s.phase == InBattle
    requires RoundStep(env.rules, s.round.value).Over()
    requires RoundStep(env.rules, s.round.value).ending.value.RoundComplete?
    ensures Standing(env, RoundStep(env.rules, s.round.value).World().bases)
  {
    RoundStepInvariant(env.rules, s.round.value);
  }

  lemma EndingEarned(env: Env, s: SessionState, final: RoundState, over: MatchEnding)
    requires final.Over() && final.ending == DecideEnding(final.World(), MaxTicks(env.rules.config))
    requires StillToPlay(env, s) && s.phase == InBattle
    requires MatchEndingOf(env, s.roundNumber, Credited(s.roundsWon, final.ending.value), final.ending.value) == Some(over)
    ensures forall last :: Earned(env, s.roundNumber, Credited(s.roundsWon, final.ending.value),
                                  MatchResult(over, Credited(s.roundsWon, final.ending.value), final.World().bases, last))
  {
  }

  lemma FinishRoundInv(env: Env, s: SessionState)
    requires ValidRules(env.rules) && Inv(env, s) && s.phase == InBattle
    requires RoundStep(env.rules, s.round.value).Over()
    ensures Inv(env, FinishRound(env, Stepped(env, s)))
  {
    hide ValidRules, RoundInvariant, ZoneStates, PlanKept, LedgerKept, RunnerStep, DecideEnding, Earned;
    var final := RoundStep(env.rules, s.round.value);
    if final.ending.value.RoundComplete? { BasesOutliveRound(env, s); }
    var over := MatchEndingOf(env, s.roundNumber, Credited(s.roundsWon, final.ending.value), final.ending.value);
    if over.Some? { EndingEarned(env, s, final, over.value); }
  }

  lemma CountingInv(env: Env, s: SessionState, ticks: nat)
    requires Inv(env, s)
    ensures Inv(env, s.(phaseTicks := ticks))
  {
  }

  lemma NextRoundInv(env: Env, s: SessionState)
    requires Inv(env, s) && s.phase == BetweenRounds
    ensures Inv(env, NextRound(s))
  {
  }

  lemma TickInv(env: Env, s: SessionState, seated: bool)
    requires ValidEnv(env) && Inv(env, s)
    ensures Inv(env, Tick(env, s, seated))
  {
    hide ValidEnv, Inv, StartBattle, FinishRound, NextRound;
    PhaseFacts(env, s);
    assert ValidRules(env.rules) by { RulesOfValidEnv(env); }
    var counted := s.(phaseTicks := s.phaseTicks + 1);
    CountingInv(env, s, s.phaseTicks + 1);
    if s.phase == InBattle {
      if RoundStep(env.rules, s.round.value).Over() { FinishRoundInv(env, s); } else { SteppedInv(env, s); }
    } else if s.phase == Planning {
      if seated && counted.phaseTicks >= PLANNING_BACKSTOP_TICKS { StartBattleInv(env, counted); }
    } else if s.phase == BetweenRounds {
      NextRoundInv(env, counted);
    }
  }

  // ---- leaving early ----

  function CurrentBases(s: SessionState): PerSide<real> {
    if s.round.Some? then s.round.value.World().bases else s.baseHp
  }

  function Abandon(env: Env, s: SessionState, winner: Option<Side>): SessionState {
    if s.phase == MatchOver then s
    else
      var bases := CurrentBases(s);
      var last := if s.lastRound.Some? then s.lastRound.value
                  else RoundResult(s.roundNumber, RoundComplete(None, ClockRanOut), bases, [], Both(0.0));
      s.(result := Some(MatchResult(Abandoned(winner), s.roundsWon, bases, last)),
         recorder := s.recorder.MatchFinished(Abandoned(winner), AbandonedReason, s.roundsWon, bases),
         phase := MatchOver, phaseTicks := 0)
  }

  lemma AbandonInv(env: Env, s: SessionState, winner: Option<Side>)
    requires Inv(env, s)
    ensures Inv(env, Abandon(env, s, winner))
  {
  }

  // ---- runs ----

  datatype Action =
    | DoLockIn(lockSide: Side, raw: Json)
    | DoCast(castSide: Side, command: CastCommand)
    | DoTick(seated: bool)
    | DoAbandon(winner: Option<Side>)

  /** One thing happening; a refused lock-in changes nothing. */
  function Act(env: Env, s: SessionState, action: Action): SessionState {
    match action
    case DoLockIn(side, raw) => (match LockIn(env, s, side, raw) case Ok(after) => after case Err(_) => s)
    case DoCast(side, command) => Cast(env, s, side, command).0
    case DoTick(seated) => Tick(env, s, seated)
    case DoAbandon(winner) => Abandon(env, s, winner)
  }

  lemma ActInv(env: Env, s: SessionState, action: Action)
    requires ValidEnv(env) && Inv(env, s)
    ensures Inv(env, Act(env, s, action))
  {
    hide ValidEnv, Inv, LockIn, Cast, Tick, Abandon;
    assert ValidRules(env.rules) by { RulesOfValidEnv(env); }
    match action
    case DoLockIn(side, raw) => LockInInv(env, s, side, raw);
    case DoCast(side, command) => CastInv(env, s, side, command);
    case DoTick(seated) => TickInv(env, s, seated);
    case DoAbandon(winner) => AbandonInv(env, s, winner);
  }

  /** The round, if any, that an action finishes. */
  function FinishedBy(env: Env, s: SessionState, action: Action): seq<RoundState> {
    if action.DoTick? && s.phase == InBattle && s.round.Some? && RoundStep(env.rules, s.round.value).Over()
    then [RoundStep(env.rules, s.round.value)] else []
  }

  /** A match so far: where it stands, and how each round it finished really ended. */
  datatype History = History(now: SessionState, finals: seq<RoundState>)

  ghost function Next(env: Env): (History, Action) -> History {
    (h: History, action: Action) => History(Act(env, h.now, action), h.finals + FinishedBy(env, h.now, action))
  }

  ghost function RunFrom(env: Env, h: History, actions: seq<Action>): History {
    Fold(Next(env), h, actions)
  }

  /** A whole run: everything that happened since the match opened, in order. */
  ghost function Run(env: Env, actions: seq<Action>): History {
    RunFrom(env, History(OpenSession(env), []), actions)
  }

  lemma RunFromInv(env: Env, h: History, actions: seq<Action>)
    requires ValidEnv(env) && Inv(env, h.now)
    ensures Inv(env, RunFrom(env, h, actions).now)
  {
    var holds := (h: History) => Inv(env, h.now);
    forall t, a | holds(t) ensures holds(Next(env)(t, a)) { ActInv(env, t.now, a); }
    FoldKeeps(Next(env), holds, h, actions);
  }
}
