/** What locking in and waiting do to a match, phase by phase. */
module Phases {
  import opened Common
  import opened JsonText
  import opened BattleMap
  import opened BattleWorld
  import opened Battle
  import opened Plan
  import opened Energy
  import opened Ledger
  import opened Round
  import opened Opening
  import opened Recording
  import opened Session

  /** A lock-in is taken exactly on the plan screen, from a seat that has not locked, for a plan
      that parses and that this catalogue and map admit. */
  lemma LockInTakenExactly(env: Env, s: SessionState, side: Side, raw: Json)
    requires ValidEnv(env) && Inv(env, s)
    ensures var parsed := ParsedPlan(raw, env.cat.spellSlots);
      && (LockIn(env, s, side, raw).Ok? <==>
            s.phase == Planning && !s.locked.At(side) && parsed.Ok? && Legal(env.cat, env.rules.map_, parsed.value))
      && (LockIn(env, s, side, raw).Err? ==> Act(env, s, DoLockIn(side, raw)) == s)
      && (LockIn(env, s, side, raw) == Err(PlanningOver) <==> s.phase != Planning)
  {
    LockInInv(env, s, side, raw);
    ParserNeverStarts(raw, env.cat.spellSlots);
    hide ValidEnv, Inv, StartBattle, Legal;
  }

  /** What a lock-in taken leaves: that seat's plan kept, priced and locked. The other seat's is as
      it was, and while it has not locked the match is still planning. */
  lemma FirstLockKeepsPlan(env: Env, s: SessionState, side: Side, raw: Json)
    requires LockIn(env, s, side, raw).Ok? && !s.locked.At(Opposing(side))
    ensures var t, plan := LockIn(env, s, side, raw).value, ParsedPlan(raw, env.cat.spellSlots).value;
      && t.plans.At(side) == Some(plan) && t.locked.At(side) && t.loadouts.At(side) == Some(ResolveLoadout(env.cat, plan))
      && t.plans.At(Opposing(side)) == s.plans.At(Opposing(side)) && !t.locked.At(Opposing(side))
      && t.loadouts.At(Opposing(side)) == s.loadouts.At(Opposing(side))
      && t == s.(plans := t.plans, locked := t.locked, loadouts := t.loadouts)
  {
    hide StartBattle, Legal, ParsedPlan, ResolveLoadout;
  }

  /** A round just begun on both seats' plans: its world opened from them on the carried bases, its
      spells priced from them, both pools at the start, nothing cast, and the record saying so. */
  ghost predicate BegunOn(env: Env, s: SessionState, t: SessionState, plans: PerSide<SubmittedPlan>) {
    && t.phase == InBattle && t.phaseTicks == 0 && t.roundNumber == s.roundNumber && t.round.Some?
    && OpeningOf(env, plans, s.baseHp, env.seed + s.roundNumber) == Ok(t.round.value.runner.world)
    && t.round.value.loadouts == PerSide(ResolveLoadout(env.cat, plans.north), ResolveLoadout(env.cat, plans.south))
    && t.round.value.energy.north.Current() == Min(env.startingEnergy, 120.0)
    && t.round.value.energy.south.Current() == Min(env.startingEnergy, 120.0)
    && t.round.value.casts == [] && t.round.value.ending.None?
    && |t.recorder.record.rounds| == |s.recorder.record.rounds| + 1
    && t.recorder.record.rounds[..|s.recorder.record.rounds|] == s.recorder.record.rounds
    && var entry := t.recorder.record.rounds[|s.recorder.record.rounds|];
       && entry.number == s.roundNumber && entry.seed == env.seed + s.roundNumber
       && entry.startingEnergy == env.startingEnergy && entry.baseHpAtStart == s.baseHp
       && entry.plans == PerSide(PlanToJson(plans.north), PlanToJson(plans.south))
       && entry.loadouts == t.round.value.loadouts && entry.casts == [] && entry.ending.None?
  }

  /** The plans a battle is fought with: what a seat kept, or the suggestion where it kept none. */
  ghost predicate PlansInForce(env: Env, s: SessionState, plans: PerSide<SubmittedPlan>) {
    forall side: Side ::
      if s.plans.At(side).Some? then plans.At(side) == s.plans.At(side).value
      else ParsedPlan(env.cat.opening(1, env.rules.map_), env.cat.spellSlots) == Ok(plans.At(side))
  }

  lemma StartsOnPlansInForce(env: Env, s: SessionState) returns (plans: PerSide<SubmittedPlan>)
    requires StartBattle(env, s).Some?
    ensures PlansInForce(env, s, plans) && BegunOn(env, s, StartBattle(env, s).value, plans)
  {
    hide CreateWorld, ParsedPlan, Legal, ResolveLoadout, PlanToJson, ArmyTroops;
    plans := StartInputs(env, s.plans, s.baseHp, env.seed + s.roundNumber).value.0;
    var north, south := PlanOrDefault(env, s.plans.north), PlanOrDefault(env, s.plans.south);
    assert plans == PerSide(north.value, south.value);
  }

  /** The second lock-in starts the battle, on that plan and the one the other seat locked. */
  lemma SecondLockStarts(env: Env, s: SessionState, side: Side, raw: Json) returns (plans: PerSide<SubmittedPlan>)
    requires LockIn(env, s, side, raw).Ok? && s.locked.At(Opposing(side))
    ensures var t, plan := LockIn(env, s, side, raw).value, ParsedPlan(raw, env.cat.spellSlots).value;
      && plans.At(side) == plan
      && (s.plans.At(Opposing(side)).Some? ==> plans.At(Opposing(side)) == s.plans.At(Opposing(side)).value)
      && BegunOn(env, s, t, plans)
  {
    hide ParsedPlan, Legal, StartBattle, BegunOn;
    var plan := ParsedPlan(raw, env.cat.spellSlots).value;
    var kept := Locked(env, s, side, plan);
    plans := StartsOnPlansInForce(env, kept);
    BegunAlike(env, kept, s, StartBattle(env, kept).value, plans);
  }

  /** Beginning a round looks at no lock. */
  lemma BegunAlike(env: Env, s: SessionState, u: SessionState, t: SessionState, plans: PerSide<SubmittedPlan>)
    requires BegunOn(env, s, t, plans)
    requires s.roundNumber == u.roundNumber && s.baseHp == u.baseHp && s.recorder == u.recorder
    ensures BegunOn(env, u, t, plans)
  {
    hide OpeningOf, ResolveLoadout, PlanToJson;
  }

  /** How long each phase waits. Planning ends by itself exactly at its 1200th tick, and only once
      every seat has been claimed; a result is shown for exactly 60 ticks; a match over stays over. */
  lemma PhasesWaitExactly(env: Env, s: SessionState, seated: bool)
    requires ValidEnv(env) && Inv(env, s)
    ensures var t := Tick(env, s, seated);
      && (s.phase == Planning ==> (t.phase == InBattle <==> seated && s.phaseTicks + 1 >= 1200))
      && (s.phase == Planning && t.phase != InBattle ==> t == s.(phaseTicks := s.phaseTicks + 1))
      && (s.phase == BetweenRounds && s.phaseTicks + 1 < 60 ==> t == s.(phaseTicks := s.phaseTicks + 1))
      && (s.phase == BetweenRounds && s.phaseTicks + 1 >= 60 ==>
            && t.phase == Planning && t.phaseTicks == 0 && t.roundNumber == s.roundNumber + 1
            && t.plans == Both(None) && t.locked == Both(false) && t.loadouts == Both(None) && t.round.None?
            && t.baseHp == s.baseHp && t.roundsWon == s.roundsWon && t.ledger == s.ledger && t.recorder == s.recorder)
      && (s.phase == MatchOver ==> t == s.(phaseTicks := s.phaseTicks + 1))
      && (s.phase == InBattle && t.phase == InBattle ==>
            t == s.(phaseTicks := s.phaseTicks + 1, round := Some(RoundStep(env.rules, s.round.value))))
  {
    hide ValidEnv, Inv, StartBattle, FinishRound, RoundStep, NextRound;
    var counted := s.(phaseTicks := s.phaseTicks + 1);
    if s.phase == Planning {
      CountingInv(env, s, s.phaseTicks + 1);
      StartBattleInv(env, counted);
      StartFights(env, counted);
    } else if s.phase == BetweenRounds {
      NextIsBlank(counted);
    } else if s.phase == InBattle {
      PhaseFacts(env, s);
      if RoundStep(env.rules, s.round.value).Over() { FinishEndsBattle(env, Stepped(env, s)); }
    }
  }

  lemma NextIsBlank(s: SessionState)
    ensures var t := NextRound(s);
      && t.phase == Planning && t.phaseTicks == 0 && t.roundNumber == s.roundNumber + 1
      && t.plans == Both(None) && t.locked == Both(false) && t.loadouts == Both(None) && t.round.None?
      && t.baseHp == s.baseHp && t.roundsWon == s.roundsWon && t.ledger == s.ledger && t.recorder == s.recorder
  {
  }

  lemma FinishEndsBattle(env: Env, s: SessionState)
    requires s.round.Some? && s.round.value.Over()
    ensures FinishRound(env, s).phase != InBattle
  {
    hide MatchEndingOf, ZoneStates, TerminalReasonOf;
  }

  lemma StartFights(env: Env, s: SessionState)
    ensures StartBattle(env, s).Some? ==> StartBattle(env, s).value.phase == InBattle
  {
    hide StartInputs;
  }

  // ---- what is told ----

  /** What a seat hears of a cast under a new id: that it is too early on the plan screen and too
      late once the round is over; in battle, what the round itself said. */
  lemma FreshCastHears(env: Env, s: SessionState, side: Side, command: CastCommand)
    requires Inv(env, s) && Find(s.ledger.At(side), command.commandId).None?
    ensures var heard := Cast(env, s, side, command).1;
      && heard.commandId == command.commandId && (heard.accepted <==> heard.reason.None?)
      && (s.phase == Planning ==> heard.reason == Some(WrongPhase))
      && (s.phase == BetweenRounds || s.phase == MatchOver ==> heard.reason == Some(RoundOver))
      && (s.phase == InBattle ==>
            match RoundCast(env.rules, s.round.value, side, command).1
            case Accepted(_, _) => heard.accepted
            case Refused(reason) => heard.reason == Some(reason))
  {
    PhaseFacts(env, s);
    hide Inv, RoundCast;
  }

  /** What a round leaves when it is decided: its own number, verdict, bases and score for all to
      see, and its bases to carry. */
  lemma RoundOverTells(env: Env, s: SessionState, seated: bool)
    requires Inv(env, s) && s.phase == InBattle && RoundStep(env.rules, s.round.value).ending.Some?
    ensures var t, final := Tick(env, s, seated), RoundStep(env.rules, s.round.value);
      && t.phase != InBattle && t.phaseTicks == 0
      && t.baseHp == final.runner.world.bases && t.lastRound.Some?
      && t.lastRound.value.number == s.roundNumber && t.lastRound.value.ending == final.ending.value
      && t.lastRound.value.bases == final.runner.world.bases && t.lastRound.value.zoneScore == final.runner.world.zoneScore
      && (t.phase == MatchOver ==>
            && t.result.Some? && t.result.value.bases == final.runner.world.bases && t.result.value.lastRound == t.lastRound.value
            && t.recorder.record.terminalReason == Some(match final.ending.value
                                                        case BaseDestroyed(_) => BaseFellReason
                                                        case RoundComplete(_, reason) => RoundStopped(reason)))
  {
    PhaseFacts(env, s);
    hide Inv, RoundStep, ZoneStates;
  }

  /** Abandoning ends a match that is not over, at once, in favour of whoever it is given to, on
      the bases as they stand and the rounds as they are won. */
  lemma AbandoningTells(env: Env, s: SessionState, winner: Option<Side>)
    ensures var t := Act(env, s, DoAbandon(winner));
      if s.phase == MatchOver then t == s
      else
        && t.phase == MatchOver && t.result.Some? && t.result.value.ending == Abandoned(winner)
        && t.result.value.roundsWon == s.roundsWon && t.roundsWon == s.roundsWon
        && t.result.value.bases == (if s.round.Some? then s.round.value.runner.world.bases else s.baseHp)
        && t.recorder.record.terminalReason == Some(AbandonedReason) && t.recorder.record.ending == Some(Abandoned(winner))
        && t.recorder.record.rounds == s.recorder.record.rounds
  {
  }
}
