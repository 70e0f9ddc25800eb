/** `replay_run` as it runs: a round object per finished entry, fed and stepped in a loop. */
module LiveReplay {
  import opened Common
  import opened Ordering
  import opened BattleMap
  import opened BattleWorld
  import opened Battle
  import opened Plan
  import opened Ledger
  import opened Round
  import opened Opening
  import opened Recording
  import opened Replay

  /** Every spell the server sells is one its battles can fire. */
  ghost predicate Sells(server: Server) {
    ValidSim(server.sim) && forall s :: s in server.cat.spells ==> s.id in server.simSpells
  }

  lemma ReopenedFireable(server: Server, config: SimConfig, north: SubmittedPlan, south: SubmittedPlan)
    requires Sells(server)
    ensures AuthoritativeRound.Fireable(RulesFor(server, config),
              PerSide(ResolveLoadout(server.cat, north), ResolveLoadout(server.cat, south)))
  {
    LoadoutComesFromCatalog(server.cat, FieldedMages(server.cat, north.troops), north.spellSlots);
    LoadoutComesFromCatalog(server.cat, FieldedMages(server.cat, south.troops), south.spellSlots);
  }

  /** Submits the casts recorded for the tick about to run. */
  method FeedRound(round: AuthoritativeRound, pending: seq<RecordedCast>, from: nat)
    returns (fault: Option<ReplayFault>, index: nat)
    requires round.Valid() && from <= |pending|
    modifies round.Repr()
    ensures round.Valid() && index <= |pending|
    ensures match Feed(round.rules, old(round.View()), pending, from)
            case Err(e) => fault == Some(e)
            case Ok((fed, next)) => fault.None? && round.View() == fed && index == next
  {
    index := from;
    while index < |pending| && pending[index].tick == round.runner.world.tick + 1
      invariant round.Valid() && index <= |pending|
      invariant Feed(round.rules, old(round.View()), pending, from) == Feed(round.rules, round.View(), pending, index)
    {
      hide RoundCast;
      var cast := pending[index];
      var answer := round.Cast(cast.side, CastCommand(cast.commandId, cast.spellId, cast.at, round.runner.world.tick));
      if answer.Refused? { return Some(CastRefusedNow), index; }
      index := index + 1;
    }
    fault := None;
  }

  /** Feeds and steps one reopened round until it is over. */
  method FightRound(round: AuthoritativeRound, pending: seq<RecordedCast>)
    returns (fault: Option<ReplayFault>, applied: nat)
    requires round.Valid() && RoundInvariant(round.rules, round.View())
    modifies round.Repr()
    ensures match Fight(round.rules, old(round.View()), pending, 0)
            case Err(e) => fault == Some(e)
            case Ok((end, next)) => fault.None? && round.View() == end && applied == next
  {
    hide RoundInvariant, RoundStep, Feed;
    ghost var start := round.View();
    applied := 0;
    while round.ending.None?
      invariant round.Valid() && RoundInvariant(round.rules, round.View()) && applied <= |pending|
      invariant Fight(round.rules, start, pending, 0) == Fight(round.rules, round.View(), pending, applied)
      decreases TicksLeft(round.rules, round.View())
    {
      ghost var before := round.View();
      ghost var index := applied;
      RunningHasTicks(round.rules, before);
      var fed, next := FeedRound(round, pending, applied);
      if fed.Some? { return fed, next; }
      FeedKeeps(round.rules, before, pending, index);
      RoundStepInvariant(round.rules, round.View());
      applied := next;
      round.Step();
    }
    fault := None;
  }

  lemma RunningHasTicks(rules: Rules, r: RoundState)
    requires RoundInvariant(rules, r) && !r.Over()
    ensures TicksLeft(rules, r) > 0
  {
  }

  method ReplayOne(server: Server, config: SimConfig, entry: RecordedRound) returns (r: Result<ReplayedRound, ReplayFault>)
    requires Sells(server)
    ensures r == ReplayRound(server, config, entry)
  {
    hide Fight, CreateWorld, ResolveLoadout, RoundInvariant, ValidSim, Sort;
    var north := ParsePlan(entry.plans.north, server.cat.spellSlots);
    if north.Err? { return Err(PlanUnreadable); }
    var south := ParsePlan(entry.plans.south, server.cat.spellSlots);
    if south.Err? { return Err(PlanUnreadable); }
    if !ValidSimConfig(config) { return Err(CannotOpen); }
    var world := CreateWorld(server.sim, server.types, server.map_,
                             PerSide(ToArmySetup(north.value), ToArmySetup(south.value)), entry.baseHpAtStart, entry.seed, config);
    if world.Err? { return Err(CannotOpen); }
    CreatedOpens(server, entry, config, north.value, south.value);
    ReopenedFireable(server, config, north.value, south.value);
    ReopenedInvariant(server, config, entry);
    var round := new AuthoritativeRound(RulesFor(server, config), entry.number, world.value,
      PerSide(ResolveLoadout(server.cat, north.value), ResolveLoadout(server.cat, south.value)), entry.startingEnergy);
    var pending := Sort(CastLeq, entry.casts);
    var fault, applied := FightRound(round, pending);
    if fault.Some? { return Err(fault.value); }
    if applied < |pending| { return Err(CastsUnreached); }
    r := Ok(ReplayedRound(entry.number, round.View(), applied));
  }

  lemma CreatedOpens(server: Server, entry: RecordedRound, config: SimConfig, north: SubmittedPlan, south: SubmittedPlan)
    ensures var built := CreateWorld(server.sim, server.types, server.map_,
                             PerSide(ToArmySetup(north), ToArmySetup(south)), entry.baseHpAtStart, entry.seed, config);
            built.Ok? ==> Opens(built.value)
  {
  }

  lemma {:induction false} ReplayEachStep(replay: RecordedRound -> Result<ReplayedRound, ReplayFault>,
                                          rounds: seq<RecordedRound>, i: nat, done: seq<ReplayedRound>)
    requires i < |rounds| && |done| == i
    requires forall k :: 0 <= k < i ==> rounds[k].ending.Some? && replay(rounds[k]) == Ok(done[k])
    ensures rounds[i].ending.None? ==> ReplayEach(replay, rounds) == Ok(done)
    ensures rounds[i].ending.Some? && replay(rounds[i]).Err? ==>
      ReplayEach(replay, rounds) == Err(replay(rounds[i]).error)
  {
    if i > 0 {
      ReplayEachStep(replay, rounds[1..], i - 1, done[1..]);
      assert done == [done[0]] + done[1..];
    }
  }

  lemma {:induction false} ReplayEachAll(replay: RecordedRound -> Result<ReplayedRound, ReplayFault>,
                                         rounds: seq<RecordedRound>, done: seq<ReplayedRound>)
    requires |done| == |rounds|
    requires forall k :: 0 <= k < |rounds| ==> rounds[k].ending.Some? && replay(rounds[k]) == Ok(done[k])
    ensures ReplayEach(replay, rounds) == Ok(done)
  {
    if rounds != [] {
      ReplayEachAll(replay, rounds[1..], done[1..]);
      assert done == [done[0]] + done[1..];
    }
  }

  /** Replays a record, or says why this server cannot. */
  method ReplayRecord(server: Server, record: RunRecord) returns (r: Result<seq<ReplayedRound>, ReplayFault>)
    requires Sells(server)
    ensures r == ReplayRun(server, record)
  {
    hide ReplayRound, ValidSim;
    if record.rulesVersion != server.rulesVersion { return Err(OtherRules); }
    if record.contentVersion != server.contentVersion { return Err(OtherContent); }
    if record.mapId != server.map_.id { return Err(OtherMap); }
    var config := SimConfig(record.tickRate, record.maxBattleSeconds);
    ghost var replay := Replayer(server, config);
    var rounds := record.rounds;
    var done: seq<ReplayedRound> := [];
    for i := 0 to |rounds|
      invariant |done| == i
      invariant forall k :: 0 <= k < i ==> rounds[k].ending.Some? && replay(rounds[k]) == Ok(done[k])
    {
      ReplayEachStep(replay, rounds, i, done);
      if rounds[i].ending.None? { return Ok(done); }
      var one := ReplayOne(server, config, rounds[i]);
      if one.Err? { return Err(one.error); }
      done := done + [one.value];
    }
    ReplayEachAll(replay, rounds, done);
    r := Ok(done);
  }
}
