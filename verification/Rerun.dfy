/** What any replay comes to, whatever record it is given: every cast taken where it says, or
    the first that could not be. */
module Rerun {
  import opened Common
  import opened Ordering
  import opened BattleWorld
  import opened Battle
  import opened Round
  import opened Recording
  import opened Replay

  // ---- a round met cast by cast ----

  lemma {:induction false} StepsKeep(rules: Rules, r: RoundState, n: nat)
    requires ValidRules(rules) && RoundInvariant(rules, r)
    ensures var after := RoundSteps(rules, r, n);
      && RoundInvariant(rules, after) && after.casts == r.casts
      && (!after.Over() ==> after.World().tick == r.World().tick + n && !r.Over())
    decreases n
  {
    hide ValidRules, RoundInvariant, RunnerStep, DecideEnding;
    if r.Over() {
      OverStaysOver(rules, r, n);
    } else if n > 0 {
      RoundStepInvariant(rules, r);
      StepsKeep(rules, RoundStep(rules, r), n - 1);
    }
  }

  /** A round left to itself until it is over. */
  ghost function RunOut(rules: Rules, r: RoundState): (end: RoundState)
    requires ValidRules(rules) && RoundInvariant(rules, r)
    ensures end.Over() && end.casts == r.casts && RoundInvariant(rules, end)
    decreases TicksLeft(rules, r)
  {
    if r.Over() then r
    else
      RoundStepInvariant(rules, r);
      RunOut(rules, RoundStep(rules, r))
  }

  /** A round met by a list of casts: each waited for until the tick before its own, and asked
      for then. The first whose tick is past, or comes after the round is over, is unreached; the
      first the round has something against is refused; with none of those the round runs out. */
  ghost function Met(rules: Rules, r: RoundState, casts: seq<RecordedCast>): (end: Result<RoundState, ReplayFault>)
    requires ValidRules(rules) && RoundInvariant(rules, r)
    decreases |casts|
  {
    if casts == [] then Ok(RunOut(rules, r))
    else
      var cast, wait := casts[0], casts[0].tick - 1 - r.World().tick;
      if wait < 0 then Err(CastsUnreached)
      else
        StepsKeep(rules, r, wait);
        var before := RoundSteps(rules, r, wait);
        if before.Over() then Err(CastsUnreached)
        else
          var asked := CastCommand(cast.commandId, cast.spellId, cast.at, before.World().tick);
          RoundCastInvariant(rules, before, cast.side, asked);
          if RoundCast(rules, before, cast.side, asked).1.Refused? then Err(CastRefusedNow)
          else Met(rules, RoundCast(rules, before, cast.side, asked).0, casts[1..])
  }

  lemma {:induction false} FeedMeets(rules: Rules, r: RoundState, pending: seq<RecordedCast>, index: nat)
    requires ValidRules(rules) && RoundInvariant(rules, r) && !r.Over() && index <= |pending|
    ensures match Feed(rules, r, pending, index)
            case Err(fault) => fault == CastRefusedNow && Met(rules, r, pending[index..]) == Err(CastRefusedNow)
            case Ok((fed, next)) =>
              && RoundInvariant(rules, fed) && !fed.Over()
              && Met(rules, r, pending[index..]) == Met(rules, fed, pending[next..])
              && (next < |pending| ==> pending[next].tick != fed.World().tick + 1)
    decreases |pending| - index
  {
    hide ValidRules, RoundInvariant, RoundCast;
    if index < |pending| && pending[index].tick == r.World().tick + 1 {
      var cast, rest := pending[index], pending[index..];
      assert rest[0] == cast && rest[1..] == pending[index + 1..];
      assert RoundSteps(rules, r, 0) == r;
      RoundCastInvariant(rules, r, cast.side, ReplayCommand(r, cast));
      var (after, answer) := RoundCast(rules, r, cast.side, ReplayCommand(r, cast));
      if !answer.Refused? { FeedMeets(rules, after, pending, index + 1); }
    }
  }

  /** With nothing due on the tick to come, a tick changes nothing about how a round is met. */
  lemma StepMeets(rules: Rules, r: RoundState, casts: seq<RecordedCast>)
    requires ValidRules(rules) && RoundInvariant(rules, r) && !r.Over()
    requires casts != [] ==> casts[0].tick != r.World().tick + 1
    ensures RoundInvariant(rules, RoundStep(rules, r))
    ensures Met(rules, r, casts) == Met(rules, RoundStep(rules, r), casts)
  {
    hide ValidRules, RoundInvariant, RoundStep, RoundCast;
    RoundStepInvariant(rules, r);
    if casts != [] && casts[0].tick > r.World().tick + 1 {
      var wait: nat := casts[0].tick - 1 - r.World().tick;
      assert RoundSteps(rules, r, wait) == RoundSteps(rules, RoundStep(rules, r), wait - 1);
    }
  }

  lemma {:induction false} FightMeets(rules: Rules, r: RoundState, pending: seq<RecordedCast>, index: nat)
    requires ValidRules(rules) && RoundInvariant(rules, r) && index <= |pending|
    ensures match Met(rules, r, pending[index..])
            case Ok(end) => Fight(rules, r, pending, index) == Ok((end, |pending|))
            case Err(fault) =>
              && (fault == CastRefusedNow || fault == CastsUnreached)
              && (fault == CastRefusedNow ==> Fight(rules, r, pending, index) == Err(CastRefusedNow))
              && (fault == CastsUnreached ==> Fight(rules, r, pending, index).Ok? && Fight(rules, r, pending, index).value.1 < |pending|)
    decreases TicksLeft(rules, r)
  {
    hide ValidRules, RoundInvariant, RoundStep, RoundCast, Feed;
    if r.Over() {
      OverMeetsNothing(rules, r, pending[index..]);
    } else {
      FeedMeets(rules, r, pending, index);
      if Feed(rules, r, pending, index).Ok? {
        var (fed, next) := Feed(rules, r, pending, index).value;
        FeedKeeps(rules, r, pending, index);
        TicksFall(rules, r, fed);
        StepMeets(rules, fed, pending[next..]);
        FightMeets(rules, RoundStep(rules, fed), pending, next);
      }
    }
  }

  lemma TicksFall(rules: Rules, r: RoundState, fed: RoundState)
    requires ValidRules(rules) && RoundInvariant(rules, r) && RoundInvariant(rules, fed) && !r.Over()
    requires fed.ending == r.ending && fed.World().tick == r.World().tick
    ensures RoundInvariant(rules, RoundStep(rules, fed))
    ensures 0 <= TicksLeft(rules, RoundStep(rules, fed)) < TicksLeft(rules, r)
  {
    RoundStepInvariant(rules, fed);
  }

  lemma OverMeetsNothing(rules: Rules, r: RoundState, casts: seq<RecordedCast>)
    requires ValidRules(rules) && RoundInvariant(rules, r) && r.Over()
    ensures Met(rules, r, casts) == if casts == [] then Ok(r) else Err(CastsUnreached)
  {
    hide ValidRules, RoundInvariant, RoundStep, RoundCast;
    if casts != [] && casts[0].tick - 1 - r.World().tick >= 0 { OverStaysOver(rules, r, casts[0].tick - 1 - r.World().tick); }
  }

  /** What replaying an entry comes to, exactly: its casts in order of tick and order, each met by
      the round reopened; taken one and all, or the fault of the first that was not. */
  lemma EntryReplaysExactly(server: Server, config: SimConfig, entry: RecordedRound)
    requires ValidSim(server.sim) && Reopen(server, config, entry).Ok?
    ensures ValidSimConfig(config) && RoundInvariant(RulesFor(server, config), Reopen(server, config, entry).value)
    ensures ReplayRound(server, config, entry)
         == match Met(RulesFor(server, config), Reopen(server, config, entry).value, Sort(CastLeq, entry.casts))
            case Ok(end) => Ok(ReplayedRound(entry.number, end, |entry.casts|))
            case Err(fault) => Err(fault)
  {
    hide ValidSim, Reopen, RoundInvariant, Met, Fight, Sort;
    ReopenedInvariant(server, config, entry);
    var sorted := Sort(CastLeq, entry.casts);
    assert sorted[0..] == sorted;
    assert |sorted| == |entry.casts| by { SortCounts(CastLeq, entry.casts); SameElements(sorted, entry.casts); }
    FightMeets(RulesFor(server, config), Reopen(server, config, entry).value, sorted, 0);
  }

  // ---- what a replay that succeeds has done ----

  /** A cast as the round took it, and as the record has it. */
  predicate TakenAs(taken: ResolvedCast, cast: RecordedCast) {
    && taken.tick == cast.tick && taken.castBy == cast.side && taken.commandId == cast.commandId
    && taken.spellId == cast.spellId && taken.at == cast.at
  }

  ghost predicate TakenInTurn(taken: seq<ResolvedCast>, casts: seq<RecordedCast>) {
    |taken| == |casts| && forall k :: 0 <= k < |casts| ==> TakenAs(taken[k], casts[k])
  }

  lemma AcceptedTakenAs(rules: Rules, r: RoundState, side: Side, asked: CastCommand, cast: RecordedCast)
    requires RoundCast(rules, r, side, asked).1.Accepted?
    requires asked.commandId == cast.commandId && asked.spellId == cast.spellId && asked.at == cast.at && side == cast.side
    requires cast.tick == r.World().tick + 1
    ensures var after := RoundCast(rules, r, side, asked).0;
      |after.casts| == |r.casts| + 1 && after.casts[..|r.casts|] == r.casts && TakenAs(after.casts[|r.casts|], cast)
  {
    hide WithPending;
  }

  lemma {:induction false} MetTakesAll(rules: Rules, r: RoundState, casts: seq<RecordedCast>)
    requires ValidRules(rules) && RoundInvariant(rules, r) && Met(rules, r, casts).Ok?
    ensures var end := Met(rules, r, casts).value;
      && end.Over() && RoundInvariant(rules, end)
      && |end.casts| >= |r.casts| && end.casts[..|r.casts|] == r.casts
      && TakenInTurn(end.casts[|r.casts|..], casts)
    decreases |casts|
  {
    hide ValidRules, RoundInvariant, RoundCast, TakenAs;
    if casts != [] {
      var cast, wait := casts[0], casts[0].tick - 1 - r.World().tick;
      StepsKeep(rules, r, wait);
      var before := RoundSteps(rules, r, wait);
      var asked := CastCommand(cast.commandId, cast.spellId, cast.at, before.World().tick);
      RoundCastInvariant(rules, before, cast.side, asked);
      AcceptedTakenAs(rules, before, cast.side, asked, cast);
      var after := RoundCast(rules, before, cast.side, asked).0;
      MetTakesAll(rules, after, casts[1..]);
      OneThenRest(r.casts, after.casts, Met(rules, r, casts).value.casts, casts);
    }
  }

  lemma OneThenRest(before: seq<ResolvedCast>, after: seq<ResolvedCast>, end: seq<ResolvedCast>, casts: seq<RecordedCast>)
    requires casts != [] && |after| == |before| + 1 && after[..|before|] == before && TakenAs(after[|before|], casts[0])
    requires |end| >= |after| && end[..|after|] == after && TakenInTurn(end[|after|..], casts[1..])
    ensures end[..|before|] == before && TakenInTurn(end[|before|..], casts)
  {
    assert end[..|before|] == end[..|after|][..|before|];
    assert end[|before|] == end[..|after|][|before|];
    forall k | 0 <= k < |casts| ensures TakenAs(end[|before|..][k], casts[k]) {
      if k > 0 { assert end[|after|..][k - 1] == end[|before|..][k]; }
    }
  }

  /** The casts of an entry in the order a replay submits them. */
  ghost predicate InReplayOrder(sorted: seq<RecordedCast>, casts: seq<RecordedCast>) {
    && multiset(sorted) == multiset(casts)
    && forall i, j :: 0 <= i < j < |sorted| ==>
         sorted[i].tick < sorted[j].tick || (sorted[i].tick == sorted[j].tick && sorted[i].order <= sorted[j].order)
  }

  lemma SortedInReplayOrder(casts: seq<RecordedCast>)
    ensures InReplayOrder(Sort(CastLeq, casts), casts)
  {
    assert TotalPreorder(CastLeq);
    SortKeeps(CastLeq, casts);
  }

  /** A round faithfully run again: over, with the entry's casts and no others, each taken on the
      tick, for the side, under the id and at the place recorded, in replay order, numbered 1..n. */
  ghost predicate RanAgain(entry: RecordedRound, ran: ReplayedRound) {
    && ran.number == entry.number && ran.final.Over()
    && ran.castsApplied == |entry.casts| == |ran.final.casts|
    && (forall k :: 0 <= k < |ran.final.casts| ==> ran.final.casts[k].order == k + 1)
    && exists sorted :: InReplayOrder(sorted, entry.casts) && TakenInTurn(ran.final.casts, sorted)
  }

  lemma ReopenedFresh(server: Server, config: SimConfig, entry: RecordedRound)
    requires Reopen(server, config, entry).Ok?
    ensures Reopen(server, config, entry).value.casts == []
  {
  }

  lemma EntryRanAgain(server: Server, config: SimConfig, entry: RecordedRound)
    requires ValidSim(server.sim) && ReplayRound(server, config, entry).Ok?
    ensures RanAgain(entry, ReplayRound(server, config, entry).value)
  {
    hide ValidSim, Reopen, Met, Fight, Sort, TakenAs;
    EntryReplaysExactly(server, config, entry);
    var rules, start, sorted := RulesFor(server, config), Reopen(server, config, entry).value, Sort(CastLeq, entry.casts);
    SortedInReplayOrder(entry.casts);
    ReopenedFresh(server, config, entry);
    MetTakesAll(rules, start, sorted);
    var end := Met(rules, start, sorted).value;
    assert end.casts[0..] == end.casts;
    assert |sorted| == |entry.casts| by { SameElements(sorted, entry.casts); }
    assert InReplayOrder(sorted, entry.casts) && TakenInTurn(end.casts, sorted);
  }

  lemma {:induction false} EachRanAgain(server: Server, config: SimConfig, rounds: seq<RecordedRound>, k: nat)
    requires ValidSim(server.sim) && ReplayEach(Replayer(server, config), rounds).Ok?
    ensures var ran := ReplayEach(Replayer(server, config), rounds).value;
      && |ran| <= |rounds|
      && (k < |ran| ==> rounds[k].ending.Some? && RanAgain(rounds[k], ran[k]))
      && (|ran| < |rounds| ==> rounds[|ran|].ending.None?)
  {
    hide ValidSim, ReplayRound, RanAgain;
    if rounds != [] && rounds[0].ending.Some? {
      EachRanAgain(server, config, rounds[1..], if k > 0 then k - 1 else 0);
      if k == 0 { EntryRanAgain(server, config, rounds[0]); }
    }
  }

  /** Any record, any server: a replay that raises nothing has run every round up to the first
      unfinished one, and in each has taken every recorded cast as recorded and no other. */
  lemma ReplayTakesWhatIsRecorded(server: Server, record: RunRecord, k: nat)
    requires ValidSim(server.sim) && ReplayRun(server, record).Ok?
    ensures var ran := ReplayRun(server, record).value;
      && |ran| <= |record.rounds|
      && (k < |ran| ==> record.rounds[k].ending.Some? && RanAgain(record.rounds[k], ran[k]))
      && (|ran| < |record.rounds| ==> record.rounds[|ran|].ending.None?)
  {
    hide ValidSim, RanAgain, ReplayRound;
    EachRanAgain(server, SimConfig(record.tickRate, record.maxBattleSeconds), record.rounds, k);
  }
}
