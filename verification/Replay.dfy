/** Re-running a recorded run (`replay_run` in `api/app/match/run_record.py`), and the
    proof that the record of any run is complete. */
module Replay {
  import opened Common
  import opened Ordering
  import opened SpellQueue
  import opened JsonText
  import opened BattleMap
  import opened BattleWorld
  import opened Battle
  import opened Plan
  import opened Ledger
  import opened Energy
  import opened Round
  import opened Cards
  import opened Opening
  import opened Recording
  import opened Session

  /** The server a record is replayed on. */
  datatype Server = Server(
    sim: Sim, cat: Catalog, types: UnitTypes, simSpells: set<string>, map_: MapConfig,
    rulesVersion: int, contentVersion: int)

  datatype ReplayFault =
    | OtherRules | OtherContent | OtherMap | PlanUnreadable | CannotOpen | CastRefusedNow | CastsUnreached

  datatype ReplayedRound = ReplayedRound(number: nat, final: RoundState, castsApplied: nat)

  function RulesFor(server: Server, config: SimConfig): Rules {
    Rules(server.sim, server.map_, config, server.simSpells)
  }

  function ServerOf(env: Env): Server {
    Server(env.rules.sim, env.cat, env.types, env.rules.simSpells, env.rules.map_, RULES_VERSION, CONTENT_VERSION)
  }

  // ---- what the replay does ----

  /** The command a recorded cast is submitted as: never stale, because it names the world's own tick. */
  function ReplayCommand(r: RoundState, cast: RecordedCast): CastCommand {
    CastCommand(cast.commandId, cast.spellId, cast.at, r.World().tick)
  }

  /** Submits everything recorded for the tick about to run. */
  function Feed(rules: Rules, r: RoundState, pending: seq<RecordedCast>, index: nat)
    : (fed: Result<(RoundState, nat), ReplayFault>)
    requires index <= |pending|
    ensures fed.Ok? ==> index <= fed.value.1 <= |pending|
    decreases |pending| - index
  {
    if index < |pending| && pending[index].tick == r.World().tick + 1 then
      var (after, answer) := RoundCast(rules, r, pending[index].side, ReplayCommand(r, pending[index]));
      if answer.Refused? then Err(CastRefusedNow) else Feed(rules, after, pending, index + 1)
    else Ok((r, index))
  }

  lemma {:induction false} FeedKeeps(rules: Rules, r: RoundState, pending: seq<RecordedCast>, index: nat)
    requires ValidRules(rules) && RoundInvariant(rules, r) && index <= |pending|
    requires Feed(rules, r, pending, index).Ok?
    ensures var fed := Feed(rules, r, pending, index).value.0;
            RoundInvariant(rules, fed) && fed.World().tick == r.World().tick && fed.ending == r.ending
    decreases |pending| - index
  {
    if index < |pending| && pending[index].tick == r.World().tick + 1 {
      var cast := pending[index];
      RoundCastInvariant(rules, r, cast.side, ReplayCommand(r, cast));
      FeedKeeps(rules, RoundCast(rules, r, cast.side, ReplayCommand(r, cast)).0, pending, index + 1);
    }
  }

  function TicksLeft(rules: Rules, r: RoundState): int {
    if r.Over() then 0 else MaxTicks(rules.config) - r.World().tick
  }

  /** Feeds and steps until the round is over. */
  ghost function Fight(rules: Rules, r: RoundState, pending: seq<RecordedCast>, index: nat)
    : (end: Result<(RoundState, nat), ReplayFault>)
    requires ValidRules(rules) && RoundInvariant(rules, r) && index <= |pending|
    ensures end.Ok? ==> end.value.0.Over() && end.value.1 <= |pending|
    decreases TicksLeft(rules, r)
  {
    if r.Over() then Ok((r, index))
    else match Feed(rules, r, pending, index)
      case Err(e) => Err(e)
      case Ok((fed, next)) =>
        FeedKeeps(rules, r, pending, index);
        RoundStepInvariant(rules, fed);
        Fight(rules, RoundStep(rules, fed), pending, next)
  }

  predicate CastLeq(a: RecordedCast, b: RecordedCast) {
    a.tick < b.tick || (a.tick == b.tick && a.order <= b.order)
  }

  /** The round a recorded entry opens, rebuilt from what was stored. */
  function Reopen(server: Server, config: SimConfig, entry: RecordedRound): Result<RoundState, ReplayFault> {
    match ParsedPlan(entry.plans.north, server.cat.spellSlots)
    case Err(_) => Err(PlanUnreadable)
    case Ok(north) =>
      match ParsedPlan(entry.plans.south, server.cat.spellSlots)
      case Err(_) => Err(PlanUnreadable)
      case Ok(south) =>
        if !ValidSimConfig(config) then Err(CannotOpen)
        else match CreateWorld(server.sim, server.types, server.map_, PerSide(ToArmySetup(north), ToArmySetup(south)),
                               entry.baseHpAtStart, entry.seed, config)
          case Err(_) => Err(CannotOpen)
          case Ok(world) =>
            Ok(OpenRound(world, PerSide(ResolveLoadout(server.cat, north), ResolveLoadout(server.cat, south)),
                         entry.startingEnergy))
  }

  lemma ReopenedInvariant(server: Server, config: SimConfig, entry: RecordedRound)
    requires ValidSim(server.sim) && Reopen(server, config, entry).Ok?
    ensures ValidSimConfig(config)
    ensures RoundInvariant(RulesFor(server, config), Reopen(server, config, entry).value)
    ensures !Reopen(server, config, entry).value.Over()
  {
    var north := ParsedPlan(entry.plans.north, server.cat.spellSlots).value;
    var south := ParsedPlan(entry.plans.south, server.cat.spellSlots).value;
    var world := CreateWorld(server.sim, server.types, server.map_, PerSide(ToArmySetup(north), ToArmySetup(south)),
                             entry.baseHpAtStart, entry.seed, config).value;
    OpenRoundInvariant(RulesFor(server, config), world,
      PerSide(ResolveLoadout(server.cat, north), ResolveLoadout(server.cat, south)), entry.startingEnergy);
  }

  ghost function ReplayRound(server: Server, config: SimConfig, entry: RecordedRound): Result<ReplayedRound, ReplayFault>
    requires ValidSim(server.sim)
  {
    match Reopen(server, config, entry)
    case Err(e) => Err(e)
    case Ok(start) =>
      ReopenedInvariant(server, config, entry);
      match Fight(RulesFor(server, config), start, Sort(CastLeq, entry.casts), 0)
      case Err(e) => Err(e)
      case Ok((end, applied)) =>
        if applied < |Sort(CastLeq, entry.casts)| then Err(CastsUnreached)
        else Ok(ReplayedRound(entry.number, end, applied))
  }

  /** Round by round, stopping at one still running when the match was abandoned. */
  function ReplayEach(replay: RecordedRound -> Result<ReplayedRound, ReplayFault>, rounds: seq<RecordedRound>)
    : Result<seq<ReplayedRound>, ReplayFault>
  {
    if rounds == [] || rounds[0].ending.None? then Ok([])
    else match replay(rounds[0])
      case Err(e) => Err(e)
      case Ok(first) =>
        match ReplayEach(replay, rounds[1..])
        case Err(e) => Err(e)
        case Ok(rest) => Ok([first] + rest)
  }

  ghost function Replayer(server: Server, config: SimConfig): RecordedRound -> Result<ReplayedRound, ReplayFault>
    requires ValidSim(server.sim)
  {
    (entry: RecordedRound) => ReplayRound(server, config, entry)
  }

  ghost function ReplayRun(server: Server, record: RunRecord): Result<seq<ReplayedRound>, ReplayFault>
    requires ValidSim(server.sim)
  {
    if record.rulesVersion != server.rulesVersion then Err(OtherRules)
    else if record.contentVersion != server.contentVersion then Err(OtherContent)
    else if record.mapId != server.map_.id then Err(OtherMap)
    else
      var config := SimConfig(record.tickRate, record.maxBattleSeconds);
      ReplayEach(Replayer(server, config), record.rounds)
  }

  // ---- refused at the door, or not at all for that reason ----

  predicate AtTheDoor(fault: ReplayFault) {
    fault == OtherRules || fault == OtherContent || fault == OtherMap
  }

  lemma {:induction false} FeedFaultsLater(rules: Rules, r: RoundState, pending: seq<RecordedCast>, index: nat)
    requires index <= |pending|
    ensures Feed(rules, r, pending, index).Err? ==> !AtTheDoor(Feed(rules, r, pending, index).error)
    decreases |pending| - index
  {
    if index < |pending| && pending[index].tick == r.World().tick + 1 {
      FeedFaultsLater(rules, RoundCast(rules, r, pending[index].side, ReplayCommand(r, pending[index])).0, pending, index + 1);
    }
  }

  lemma {:induction false} FightFaultsLater(rules: Rules, r: RoundState, pending: seq<RecordedCast>, index: nat)
    requires ValidRules(rules) && RoundInvariant(rules, r) && index <= |pending|
    ensures Fight(rules, r, pending, index).Err? ==> !AtTheDoor(Fight(rules, r, pending, index).error)
    decreases TicksLeft(rules, r)
  {
    FeedFaultsLater(rules, r, pending, index);
    if !r.Over() && Feed(rules, r, pending, index).Ok? {
      var fed := Feed(rules, r, pending, index).value;
      FeedKeeps(rules, r, pending, index);
      RoundStepInvariant(rules, fed.0);
      FightFaultsLater(rules, RoundStep(rules, fed.0), pending, fed.1);
    }
  }

  lemma RoundFaultsLater(server: Server, config: SimConfig, entry: RecordedRound)
    requires ValidSim(server.sim)
    ensures ReplayRound(server, config, entry).Err? ==> !AtTheDoor(ReplayRound(server, config, entry).error)
  {
    if Reopen(server, config, entry).Ok? {
      ReopenedInvariant(server, config, entry);
      FightFaultsLater(RulesFor(server, config), Reopen(server, config, entry).value, Sort(CastLeq, entry.casts), 0);
    }
  }

  lemma {:induction false} EachFaultsLater(server: Server, config: SimConfig, rounds: seq<RecordedRound>)
    requires ValidSim(server.sim)
    ensures var each := ReplayEach(Replayer(server, config), rounds); each.Err? ==> !AtTheDoor(each.error)
  {
    if rounds != [] {
      RoundFaultsLater(server, config, rounds[0]);
      EachFaultsLater(server, config, rounds[1..]);
    }
  }

  /** Any record, any server, whatever their maps hold: turned away for rules, content or map
      exactly when a version or the map's id differs. */
  lemma RefusedAtTheDoorExactly(server: Server, record: RunRecord)
    requires ValidSim(server.sim)
    ensures (ReplayRun(server, record).Err? && AtTheDoor(ReplayRun(server, record).error))
       <==> record.rulesVersion != server.rulesVersion || record.contentVersion != server.contentVersion || record.mapId != server.map_.id
  {
    hide ValidSim, ReplayEach, Replayer;
    EachFaultsLater(server, SimConfig(record.tickRate, record.maxBattleSeconds), record.rounds);
  }

  // ---- the live round, seen from its record ----

  /** Where `n` turns of the replay's loop leave it, short of any fault or ending. */
  ghost function Turns(rules: Rules, start: RoundState, casts: seq<RecordedCast>, n: nat): (at: Option<(RoundState, nat)>)
    ensures at.Some? ==> at.value.1 <= |casts|
  {
    if n == 0 then Some((start, 0))
    else match Turns(rules, start, casts, n - 1)
      case None => None
      case Some((r, index)) =>
        if r.Over() then None
        else match Feed(rules, r, casts, index)
          case Err(_) => None
          case Ok((fed, next)) => Some((RoundStep(rules, fed), next))
  }

  lemma {:induction false} TurnsKeep(rules: Rules, start: RoundState, casts: seq<RecordedCast>, n: nat)
    requires ValidRules(rules) && RoundInvariant(rules, start)
    requires Turns(rules, start, casts, n).Some?
    ensures var r := Turns(rules, start, casts, n).value.0;
            RoundInvariant(rules, r) && r.World().tick == start.World().tick + n
  {
    hide ValidRules, RoundInvariant, RoundStep, Feed;
    if n > 0 {
      TurnsKeep(rules, start, casts, n - 1);
      var (r, index) := Turns(rules, start, casts, n - 1).value;
      FeedKeeps(rules, r, casts, index);
      RoundStepInvariant(rules, Feed(rules, r, casts, index).value.0);
    }
  }

  /** The live round is what the replay has after `n` turns and the casts of the tick to come. */
  ghost predicate Mirrors(rules: Rules, start: RoundState, casts: seq<RecordedCast>, n: nat, live: RoundState)
  {
    var at := Turns(rules, start, casts, n);
    && at.Some? && !at.value.0.Over()
    && Feed(rules, at.value.0, casts, at.value.1) == Ok((live, |casts|))
  }

  lemma {:induction false} FeedIgnoresLater(rules: Rules, r: RoundState, casts: seq<RecordedCast>, extra: RecordedCast, index: nat)
    requires index <= |casts| && extra.tick != r.World().tick + 1
    requires Feed(rules, r, casts, index).Ok?
    ensures Feed(rules, r, casts + [extra], index) == Feed(rules, r, casts, index)
    decreases |casts| - index
  {
    if index < |casts| && casts[index].tick == r.World().tick + 1 {
      FeedIgnoresLater(rules, RoundCast(rules, r, casts[index].side, ReplayCommand(r, casts[index])).0, casts, extra, index + 1);
    }
  }

  lemma {:induction false} FeedTakesNext(rules: Rules, r: RoundState, casts: seq<RecordedCast>, extra: RecordedCast,
                                         index: nat, live: RoundState)
    requires index <= |casts| && Feed(rules, r, casts, index) == Ok((live, |casts|))
    requires extra.tick == live.World().tick + 1
    requires RoundCast(rules, live, extra.side, ReplayCommand(live, extra)).1.Accepted?
    ensures Feed(rules, r, casts + [extra], index)
         == Ok((RoundCast(rules, live, extra.side, ReplayCommand(live, extra)).0, |casts| + 1))
    decreases |casts| - index
  {
    if index < |casts| && casts[index].tick == r.World().tick + 1 {
      assert (casts + [extra])[index] == casts[index];
      FeedTakesNext(rules, RoundCast(rules, r, casts[index].side, ReplayCommand(r, casts[index])).0, casts, extra, index + 1, live);
    } else {
      var after := RoundCast(rules, live, extra.side, ReplayCommand(live, extra)).0;
      assert r == live && index == |casts|;
      assert Feed(rules, after, casts + [extra], index + 1) == Ok((after, |casts| + 1));
    }
  }

  lemma {:induction false} TurnsIgnoreLater(rules: Rules, start: RoundState, casts: seq<RecordedCast>, extra: RecordedCast, n: nat)
    requires ValidRules(rules) && RoundInvariant(rules, start)
    requires Turns(rules, start, casts, n).Some?
    requires extra.tick > start.World().tick + n
    ensures Turns(rules, start, casts + [extra], n) == Turns(rules, start, casts, n)
  {
    hide ValidRules, RoundInvariant, RoundStep, Feed;
    if n > 0 {
      TurnsIgnoreLater(rules, start, casts, extra, n - 1);
      TurnsKeep(rules, start, casts, n - 1);
      var (r, index) := Turns(rules, start, casts, n - 1).value;
      FeedIgnoresLater(rules, r, casts, extra, index);
    }
  }

  /** How an accepted cast is written down. */
  function AsRecorded(cast: ResolvedCast): RecordedCast {
    RecordedCast(cast.order, cast.tick, cast.castBy, cast.commandId, cast.spellId, cast.at)
  }

  function AllRecorded(casts: seq<ResolvedCast>): (written: seq<RecordedCast>)
    ensures |written| == |casts| && forall k :: 0 <= k < |casts| ==> written[k] == AsRecorded(casts[k])
  {
    seq(|casts|, k requires 0 <= k < |casts| => AsRecorded(casts[k]))
  }

  /** How fresh the tap was decided only whether the server took it, never what it did. */
  lemma FreshnessIsForgotten(rules: Rules, live: RoundState, side: Side, command: CastCommand)
    requires RoundCast(rules, live, side, command).1.Accepted?
    ensures var written := AsRecorded(ResolvedCast(command.commandId, command.spellId, "", side, command.at,
                                                   live.World().tick + 1, live.nextOrder));
            RoundCast(rules, live, side, ReplayCommand(live, written)) == RoundCast(rules, live, side, command)
  {
  }

  lemma MirrorsCast(rules: Rules, start: RoundState, casts: seq<RecordedCast>, n: nat, live: RoundState,
                    side: Side, command: CastCommand)
    requires ValidRules(rules) && RoundInvariant(rules, start) && Mirrors(rules, start, casts, n, live)
    requires RoundCast(rules, live, side, command).1.Accepted?
    ensures Mirrors(rules, start,
                    casts + [RecordedCast(live.nextOrder, live.World().tick + 1, side, command.commandId, command.spellId, command.at)],
                    n, RoundCast(rules, live, side, command).0)
  {
    var extra := RecordedCast(live.nextOrder, live.World().tick + 1, side, command.commandId, command.spellId, command.at);
    var (r, index) := Turns(rules, start, casts, n).value;
    TurnsKeep(rules, start, casts, n);
    FeedKeeps(rules, r, casts, index);
    TurnsIgnoreLater(rules, start, casts, extra, n);
    FreshnessIsForgotten(rules, live, side, command);
    FeedTakesNext(rules, r, casts, extra, index, live);
  }

  lemma MirrorsStep(rules: Rules, start: RoundState, casts: seq<RecordedCast>, n: nat, live: RoundState)
    requires ValidRules(rules) && RoundInvariant(rules, start) && Mirrors(rules, start, casts, n, live)
    requires forall c :: c in casts ==> c.tick <= live.World().tick + 1
    requires !RoundStep(rules, live).Over() && !live.Over()
    ensures Mirrors(rules, start, casts, n + 1, RoundStep(rules, live))
  {
    var (r, index) := Turns(rules, start, casts, n).value;
    TurnsKeep(rules, start, casts, n);
    FeedKeeps(rules, r, casts, index);
    RoundStepInvariant(rules, live);
    assert Turns(rules, start, casts, n + 1) == Some((RoundStep(rules, live), |casts|));
  }

  lemma {:induction false} FightFollowsTurns(rules: Rules, start: RoundState, casts: seq<RecordedCast>, n: nat)
    requires ValidRules(rules) && RoundInvariant(rules, start)
    requires Turns(rules, start, casts, n).Some?
    ensures var (r, index) := Turns(rules, start, casts, n).value;
            RoundInvariant(rules, r) && Fight(rules, start, casts, 0) == Fight(rules, r, casts, index)
  {
    hide ValidRules, RoundInvariant, RoundStep, Feed;
    TurnsKeep(rules, start, casts, n);
    if n > 0 {
      TurnsKeep(rules, start, casts, n - 1);
      FightFollowsTurns(rules, start, casts, n - 1);
    }
  }

  /** The tick that ends the live round ends the replay, in the same state, with every cast spent. */
  lemma MirrorsFinish(rules: Rules, start: RoundState, casts: seq<RecordedCast>, n: nat, live: RoundState)
    requires ValidRules(rules) && RoundInvariant(rules, start) && Mirrors(rules, start, casts, n, live)
    requires RoundStep(rules, live).Over()
    ensures Fight(rules, start, casts, 0) == Ok((RoundStep(rules, live), |casts|))
  {
    var (r, index) := Turns(rules, start, casts, n).value;
    TurnsKeep(rules, start, casts, n);
    FeedKeeps(rules, r, casts, index);
    RoundStepInvariant(rules, live);
    FightFollowsTurns(rules, start, casts, n);
  }
}
