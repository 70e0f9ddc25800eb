/** The live match object (`MatchSession` in `api/app/match/session.py`): its fields
    updated in place, each method doing exactly what `Session` says of it. */
module LiveMatch {
  import opened Common
  import opened JsonText
  import opened BattleMap
  import opened BattleWorld
  import opened Battle
  import opened Plan
  import opened Ledger
  import opened Round
  import opened Opening
  import opened Recording
  import opened Zones
  import opened Session

  class MatchSession {
    const env: Env
    const ledger: CommandLedger
    const recorder: RunRecorder
    var phase: Phase
    var roundNumber: nat
    var roundsWon: PerSide<nat>
    var baseHp: PerSide<real>
    var plans: PerSide<Option<SubmittedPlan>>
    var locked: PerSide<bool>
    var loadouts: PerSide<Option<seq<LoadoutSpell>>>
    var round: AuthoritativeRound?
    var lastRound: Option<RoundResult>
    var result: Option<MatchResult>
    var phaseTicks: nat

    ghost function Repr(): set<object>
      reads this
    {
      {this, ledger, recorder} + if round == null then {} else round.Repr()
    }

    ghost function View(): SessionState
      reads this, Repr()
    {
      SessionState(phase, roundNumber, roundsWon, baseHp, plans, locked, loadouts,
                   if round == null then None else Some(round.View()),
                   lastRound, result, phaseTicks, ledger.entries, recorder.View())
    }

    ghost predicate Apart()
      reads this, Repr()
    {
      && ledger.max == MAX_ENTRIES_PER_SEAT
      && (round != null ==>
            && round.Valid() && round.rules == env.rules
            && this !in round.Repr() && ledger !in round.Repr() && recorder !in round.Repr())
    }

    ghost predicate Valid()
      reads this, Repr()
    {
      Apart() && ValidEnv(env) && Inv(env, View())
    }

    constructor (env: Env)
      requires ValidEnv(env)
      ensures Valid() && fresh(Repr()) && this.env == env && View() == OpenSession(env)
    {
      this.env := env;
      ledger := new CommandLedger(MAX_ENTRIES_PER_SEAT);
      recorder := new RunRecorder(BlankRecord(env));
      phase, roundNumber, roundsWon, baseHp := Planning, 1, Both(0), MaxHp(env);
      plans, locked, loadouts, round := Both(None), Both(false), Both(None), null;
      lastRound, result, phaseTicks := None, None, 0;
      new;
      OpenSessionInv(env);
    }

    // ---- the pieces: what each does to the fields, and nothing about why it may ----

    /** Opens the round both plans fix, and starts its record. */
    method OpenBattle(fixed: PerSide<SubmittedPlan>, world: World)
      requires Apart() && round == null
      requires ValidRules(env.rules) && Opens(world)
      requires AuthoritativeRound.Fireable(env.rules, PricedLoadouts(env, fixed))
      modifies this, recorder
      ensures Apart() && fresh(Repr() - old(Repr()))
      ensures View() == Started(env, old(View()), fixed, world)
    {
      hide EntryFor, PricedLoadouts, Opens, AuthoritativeRound.Fireable, ValidRules, OpenRound;
      var priced := PricedLoadouts(env, fixed);
      var started := new AuthoritativeRound(env.rules, roundNumber, world, priced, env.startingEnergy);
      recorder.RoundStarted(EntryFor(env, roundNumber, baseHp, fixed));
      round := started;
      plans := PerSide(Some(fixed.north), Some(fixed.south));
      loadouts := PerSide(Some(priced.north), Some(priced.south));
      phase, phaseTicks := InBattle, 0;
    }

    method TakePlan(side: Side, plan: SubmittedPlan)
      requires Apart()
      modifies this
      ensures Apart() && round == old(round) && Repr() == old(Repr())
      ensures View() == Locked(env, old(View()), side, plan)
    {
      plans := plans.With(side, Some(plan));
      loadouts := loadouts.With(side, Some(ResolveLoadout(env.cat, plan)));
      locked := locked.With(side, true);
    }

    /** Decides a command the ledger has not seen. */
    method Decide(side: Side, command: CastCommand) returns (entry: LedgerEntry)
      requires Apart()
      modifies Repr()
      ensures Apart() && Repr() == old(Repr())
      ensures (View(), entry) == Evaluate(env, old(View()), side, command)
      ensures entry.commandId == command.commandId && ledger.entries == old(ledger.entries)
    {
      if phase != InBattle || round == null {
        return RefusedEntry(command.commandId, if phase == Planning then WrongPhase else RoundOver, None);
      }
      var outcome := round.Cast(side, command);
      if outcome.Refused? { return RefusedEntry(command.commandId, outcome.reason, Some(roundNumber)); }
      recorder.CastAccepted(
        RecordedCast(outcome.order, outcome.tick, side, command.commandId, command.spellId, command.at));
      entry := AcceptedEntry(command.commandId, roundNumber, outcome.tick, outcome.order);
    }

    /** Records the answer and gives back the message it says. */
    method Answer(side: Side, entry: LedgerEntry) returns (message: Message)
      requires Apart() && Find(ledger.entries.At(side), entry.commandId).None?
      modifies ledger
      ensures Apart() && View() == Session.Answer(old(View()), side, entry)
      ensures message == ToMessage(entry)
    {
      var stored := ledger.Record(side, entry);
      message := ToMessage(stored);
    }

    method StepRound()
      requires Apart() && round != null
      modifies this`phaseTicks, round.Repr()
      ensures Apart() && Repr() == old(Repr()) && round == old(round)
      ensures View() == Stepped(env, old(View()))
    {
      phaseTicks := phaseTicks + 1;
      round.Step();
    }

    /** Takes down what the decided round leaves. */
    method Score()
      requires Apart() && round != null && round.ending.Some?
      modifies `baseHp, `roundsWon, `lastRound, `phaseTicks, recorder
      ensures Apart() && Repr() == old(Repr())
      ensures View() == Scored(env, old(View()))
    {
      hide ZoneStates;
      var ending, world := round.ending.value, round.runner.world;
      baseHp := world.bases;
      if ending.winner.Some? {
        roundsWon := roundsWon.With(ending.winner.value, roundsWon.At(ending.winner.value) + 1);
      }
      lastRound := Some(RoundResult(roundNumber, ending, world.bases, ZoneStates(env, world), world.zoneScore));
      recorder.RoundFinished(ending, baseHp);
      phaseTicks := 0;
    }

    method FinishRound()
      requires Apart() && round != null && round.ending.Some?
      modifies this, recorder
      ensures Apart() && Repr() == old(Repr())
      ensures View() == Session.FinishRound(env, old(View()))
    {
      hide Scored, MatchEndingOf, TerminalReasonOf;
      Score();
      var terminal := MatchEndingOf(env, roundNumber, roundsWon, round.ending.value);
      if terminal.Some? {
        result := Some(MatchResult(terminal.value, roundsWon, baseHp, lastRound.value));
        recorder.MatchFinished(terminal.value, TerminalReasonOf(terminal.value, round.ending.value), roundsWon, baseHp);
        phase := MatchOver;
      } else {
        phase := BetweenRounds;
      }
    }

    method NextRound()
      requires Apart()
      modifies this
      ensures Apart() && Repr() <= old(Repr())
      ensures View() == Session.NextRound(old(View()))
    {
      hide AuthoritativeRound.View;
      roundNumber := roundNumber + 1;
      plans, locked, loadouts := Both(None), Both(false), Both(None);
      round := null;
      phase, phaseTicks := Planning, 0;
    }

    // ---- what the server calls ----

    /** Starts the battle, or changes nothing where the server would raise. */
    method StartBattle() returns (raised: bool)
      requires Apart() && round == null && ValidEnv(env)
      modifies this, recorder
      ensures Apart() && fresh(Repr() - old(Repr()))
      ensures raised <==> Session.StartBattle(env, old(View())).None?
      ensures View() == if raised then old(View()) else Session.StartBattle(env, old(View())).value
    {
      hide StartInputs, ValidEnv, Opens, PricedLoadouts, AuthoritativeRound.Fireable, Started;
      RulesOfValidEnv(env);
      var inputs := StartInputs(env, plans, baseHp, env.seed + roundNumber);
      if inputs.None? { return true; }
      StartInputsOpen(env, plans, baseHp, env.seed + roundNumber);
      LoadoutsFireable(env, inputs.value.0);
      OpenBattle(inputs.value.0, inputs.value.1);
      return false;
    }

    method LockIn(side: Side, raw: Json) returns (fault: Option<PlanError>)
      requires Valid()
      modifies this, recorder
      ensures Valid() && fresh(Repr() - old(Repr()))
      ensures match Session.LockIn(env, old(View()), side, raw)
              case Ok(after) => fault.None? && View() == after
              case Err(e) => fault == Some(e) && View() == old(View())
    {
      hide ValidEnv, Inv, Legal, ParsedPlan, Session.StartBattle;
      PhaseFacts(env, View());
      LockInInv(env, View(), side, raw);
      if phase != Planning { return Some(PlanningOver); }
      if locked.At(side) { return Some(AlreadyLocked); }
      var plan := ParsePlan(raw, env.cat.spellSlots);
      if plan.Err? { return Some(plan.error); }
      var legal := ValidatePlan(env.cat, env.rules.map_, plan.value);
      if !legal { return Some(IllegalPlan); }
      TakePlan(side, plan.value);
      if locked.north && locked.south {
        var raised := StartBattle();
        if raised { return Some(CannotStart); }
      }
      return None;
    }

    method Cast(side: Side, command: CastCommand) returns (message: Message)
      requires Valid()
      modifies Repr()
      ensures Valid() && Repr() == old(Repr())
      ensures (View(), message) == Session.Cast(env, old(View()), side, command)
    {
      hide ValidEnv, Inv, Evaluate, Session.Answer;
      assert ValidRules(env.rules) by { RulesOfValidEnv(env); }
      CastInv(env, View(), side, command);
      var seen := ledger.FindAnswer(side, command.commandId);
      if seen.Some? { return ToMessage(seen.value); }
      var entry := Decide(side, command);
      message := Answer(side, entry);
    }

    method Tick(seated: bool)
      requires Valid()
      modifies Repr()
      ensures Valid() && fresh(Repr() - old(Repr()))
      ensures View() == Session.Tick(env, old(View()), seated)
    {
      hide ValidEnv, Inv, Session.StartBattle, Session.FinishRound, Session.NextRound, Stepped;
      PhaseFacts(env, View());
      TickInv(env, View(), seated);
      if phase == InBattle {
        StepRound();
        if round.ending.Some? { FinishRound(); }
        return;
      }
      phaseTicks := phaseTicks + 1;
      if phase == Planning {
        if seated && phaseTicks >= PLANNING_BACKSTOP_TICKS { var _ := StartBattle(); }
      } else if phase == BetweenRounds {
        if phaseTicks >= ROUND_OVER_TICKS { NextRound(); }
      }
    }

    method Abandon(winner: Option<Side>)
      requires Valid()
      modifies this, recorder
      ensures Valid() && Repr() == old(Repr())
      ensures View() == Session.Abandon(env, old(View()), winner)
    {
      hide ValidEnv, Inv, Act;
      AbandonInv(env, View(), winner);
      if phase == MatchOver { return; }
      var bases := if round != null then round.runner.world.bases else baseHp;
      var last := if lastRound.Some? then lastRound.value
                  else RoundResult(roundNumber, RoundComplete(None, ClockRanOut), bases, [], Both(0.0));
      result := Some(MatchResult(Abandoned(winner), roundsWon, bases, last));
      recorder.MatchFinished(Abandoned(winner), AbandonedReason, roundsWon, bases);
      phase, phaseTicks := MatchOver, 0;
    }
  }

  lemma LoadoutsFireable(env: Env, plans: PerSide<SubmittedPlan>)
    requires ValidEnv(env)
    ensures AuthoritativeRound.Fireable(env.rules, PricedLoadouts(env, plans))
  {
    LoadoutComesFromCatalog(env.cat, FieldedMages(env.cat, plans.north.troops), plans.north.spellSlots);
    LoadoutComesFromCatalog(env.cat, FieldedMages(env.cat, plans.south.troops), plans.south.spellSlots);
  }
}
