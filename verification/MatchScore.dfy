/** Whose match it is: rounds are credited to whoever won them, and a match ends for what its
    rounds came to. */
module MatchScore {
  import opened Common
  import opened JsonText
  import opened Plan
  import opened Round
  import opened Recording
  import opened Session
  import opened Runs

  /** How many of these rounds ended in one side's favour. */
  function Wins(finals: seq<RoundState>, side: Side): nat {
    if finals == [] then 0
    else
      var ending := finals[|finals| - 1].ending;
      Wins(finals[..|finals| - 1], side) + if ending.Some? && ending.value.winner == Some(side) then 1 else 0
  }

  lemma WinsAppend(finals: seq<RoundState>, final: RoundState, side: Side)
    ensures Wins(finals + [final], side)
         == Wins(finals, side) + if final.ending.Some? && final.ending.value.winner == Some(side) then 1 else 0
  {
    assert (finals + [final])[..|finals|] == finals;
  }

  /** How many rounds are behind a match, by its phase. */
  predicate RoundsBehind(s: SessionState, finished: nat) {
    && (s.phase == Planning || s.phase == InBattle ==> finished == s.roundNumber - 1)
    && (s.phase == BetweenRounds ==> finished == s.roundNumber)
  }

  /** No round so far brought a base down. */
  predicate NoBaseFell(finals: seq<RoundState>) {
    forall f :: f in finals ==> f.ending.Some? && f.ending.value.RoundComplete?
  }

  /** A match over for the reason its rounds give. */
  predicate EndedBy(env: Env, finals: seq<RoundState>, ending: MatchEnding) {
    match ending
    case Abandoned(_) => NoBaseFell(finals)
    case MatchBaseDestroyed(winner) =>
      finals != [] && finals[|finals| - 1].ending == Some(BaseDestroyed(winner)) && NoBaseFell(finals[..|finals| - 1])
    case TestComplete(winner) =>
      && env.testProfile && |finals| == env.roundsToWin && finals != [] && NoBaseFell(finals)
      && finals[|finals| - 1].ending.Some? && finals[|finals| - 1].ending.value.winner == winner
    case RoundsWon(side) =>
      && !env.testProfile && finals != [] && NoBaseFell(finals)
      && finals[|finals| - 1].ending.Some? && finals[|finals| - 1].ending.value.winner == Some(side)
      && Wins(finals, side) == env.roundsToWin && Wins(finals, Opposing(side)) < env.roundsToWin
  }

  predicate ScoreHolds(env: Env, s: SessionState, finals: seq<RoundState>) {
    && s.roundsWon == PerSide(Wins(finals, North), Wins(finals, South))
    && RoundsBehind(s, |finals|)
    && (s.phase != MatchOver ==> NoBaseFell(finals))
    && (s.phase == MatchOver ==> s.result.Some? && s.result.value.roundsWon == s.roundsWon && EndedBy(env, finals, s.result.value.ending))
  }

  ghost predicate ScoreKept(env: Env, h: History) {
    ScoreHolds(env, h.now, h.finals)
  }

  // ---- actions that finish no round ----

  /** What an action that finishes no round may do to the score: nothing. */
  predicate ScoreUntouched(s: SessionState, t: SessionState) {
    && t.roundsWon == s.roundsWon
    && ((s.phase == t.phase && s.roundNumber == t.roundNumber && s.result == t.result)
        || (s.phase == Planning && t.phase == InBattle && s.roundNumber == t.roundNumber)
        || (s.phase == BetweenRounds && t.phase == Planning && t.roundNumber == s.roundNumber + 1)
        || (s.phase != MatchOver && t.phase == MatchOver && t.result.Some? && t.result.value.ending.Abandoned?
            && t.result.value.roundsWon == s.roundsWon))
  }

  lemma LockInKeepsScore(env: Env, s: SessionState, side: Side, raw: Json)
    ensures ScoreUntouched(s, Act(env, s, DoLockIn(side, raw)))
  {
    hide StartInputs, Legal, ParsedPlan;
  }

  lemma CastKeepsScore(env: Env, s: SessionState, side: Side, command: CastCommand)
    ensures ScoreUntouched(s, Act(env, s, DoCast(side, command)))
  {
    hide RoundCast;
  }

  lemma TickKeepsScore(env: Env, s: SessionState, seated: bool)
    requires FinishedBy(env, s, DoTick(seated)) == []
    ensures ScoreUntouched(s, Act(env, s, DoTick(seated)))
  {
    hide StartInputs, RoundStep, FinishRound;
  }

  lemma UntouchedKept(env: Env, h: History, t: SessionState)
    requires ScoreKept(env, h) && ScoreUntouched(h.now, t)
    ensures ScoreKept(env, History(t, h.finals))
  {
    hide Wins, NoBaseFell;
  }

  // ---- the tick that finishes one ----

  /** A finished round goes to its winner and nobody else, and what the match then is follows
      from its verdict, its number and the new score alone. */
  /** A session one round on: the round gone to its winner and nobody else, and what the match
      then is by that verdict, the round's number and the new score alone. */
  predicate RoundScored(env: Env, s: SessionState, t: SessionState, ending: RoundEnding) {
    var north := s.roundsWon.north + if ending.winner == Some(North) then 1 else 0;
    var south := s.roundsWon.south + if ending.winner == Some(South) then 1 else 0;
    && t.roundsWon == PerSide(north, south) && t.roundNumber == s.roundNumber
    && (t.phase == BetweenRounds || t.phase == MatchOver)
    && (t.phase == MatchOver ==> t.result.Some? && t.result.value.roundsWon == t.roundsWon)
    && (t.phase == MatchOver <==> ending.BaseDestroyed? || (if env.testProfile then s.roundNumber >= env.roundsToWin
                                                            else north >= env.roundsToWin || south >= env.roundsToWin))
    && (t.phase == MatchOver ==>
          t.result.value.ending == (if ending.BaseDestroyed? then MatchBaseDestroyed(ending.winner)
                                    else if env.testProfile then TestComplete(ending.winner)
                                    else if north >= env.roundsToWin then RoundsWon(North) else RoundsWon(South)))
  }

  lemma FinishScores(env: Env, s: SessionState, seated: bool)
    requires FinishedBy(env, s, DoTick(seated)) != []
    ensures s.phase == InBattle && s.round.Some?
    ensures var final := RoundStep(env.rules, s.round.value);
      && FinishedBy(env, s, DoTick(seated)) == [final] && final.ending.Some?
      && RoundScored(env, s, Act(env, s, DoTick(seated)), final.ending.value)
  {
    hide RoundStep, ZoneStates, TerminalReasonOf;
  }

  /** The ending a finished round makes is one all the rounds so far bear out. */
  lemma FinishEnds(env: Env, finals: seq<RoundState>, final: RoundState)
    requires final.ending.Some? && NoBaseFell(finals)
    requires if env.testProfile then |finals| < env.roundsToWin
             else Wins(finals, North) < env.roundsToWin && Wins(finals, South) < env.roundsToWin
    ensures var all, ending := finals + [final], final.ending.value;
      && (ending.BaseDestroyed? ==> EndedBy(env, all, MatchBaseDestroyed(ending.winner)))
      && (ending.RoundComplete? ==> NoBaseFell(all))
      && (ending.RoundComplete? && env.testProfile && |all| >= env.roundsToWin ==> EndedBy(env, all, TestComplete(ending.winner)))
      && (ending.RoundComplete? && !env.testProfile && Wins(all, North) >= env.roundsToWin ==> EndedBy(env, all, RoundsWon(North)))
      && (ending.RoundComplete? && !env.testProfile && Wins(all, North) < env.roundsToWin <= Wins(all, South) ==> EndedBy(env, all, RoundsWon(South)))
  {
    WinsAppend(finals, final, North);
    WinsAppend(finals, final, South);
    hide Wins;
    assert (finals + [final])[..|finals|] == finals;
  }

  lemma ScoredHolds(env: Env, s: SessionState, t: SessionState, finals: seq<RoundState>, final: RoundState)
    requires ScoreHolds(env, s, finals) && s.phase == InBattle && StillToPlay(env, s)
    requires final.ending.Some? && RoundScored(env, s, t, final.ending.value)
    ensures ScoreHolds(env, t, finals + [final])
  {
    WinsAppend(finals, final, North);
    WinsAppend(finals, final, South);
    hide Wins, NoBaseFell, EndedBy;
    FinishEnds(env, finals, final);
  }

  lemma FinishKept(env: Env, h: History, seated: bool)
    requires Inv(env, h.now) && ScoreKept(env, h) && FinishedBy(env, h.now, DoTick(seated)) != []
    ensures ScoreKept(env, Next(env)(h, DoTick(seated)))
  {
    hide Inv, Act, FinishedBy, RoundStep, ScoreHolds, RoundScored;
    StillPlaying(env, h.now);
    FinishScores(env, h.now, seated);
    ScoredHolds(env, h.now, Act(env, h.now, DoTick(seated)), h.finals, RoundStep(env.rules, h.now.round.value));
  }

  lemma StillPlaying(env: Env, s: SessionState)
    requires Inv(env, s)
    ensures s.phase != MatchOver ==> StillToPlay(env, s)
  {
  }

  lemma ActKeepsScore(env: Env, h: History, action: Action)
    requires Inv(env, h.now) && ScoreKept(env, h)
    ensures ScoreKept(env, Next(env)(h, action))
  {
    hide Inv, ScoreKept, Act, FinishedBy;
    if FinishedBy(env, h.now, action) != [] {
      assert action.DoTick? by { OnlyTicksFinish(env, h.now, action); }
      FinishKept(env, h, action.seated);
    } else {
      match action {
        case DoLockIn(side, raw) => LockInKeepsScore(env, h.now, side, raw);
        case DoCast(side, command) => CastKeepsScore(env, h.now, side, command);
        case DoTick(seated) => TickKeepsScore(env, h.now, seated);
        case DoAbandon(winner) => AbandonKeepsScore(env, h.now, winner);
      }
      UntouchedKept(env, h, Act(env, h.now, action));
      assert h.finals + [] == h.finals;
    }
  }

  lemma OnlyTicksFinish(env: Env, s: SessionState, action: Action)
    requires FinishedBy(env, s, action) != []
    ensures action.DoTick?
  {
  }

  lemma AbandonKeepsScore(env: Env, s: SessionState, winner: Option<Side>)
    ensures ScoreUntouched(s, Act(env, s, DoAbandon(winner)))
  {
  }

  // ---- over every match ----

  lemma ScoreKeptAlways(env: Env, actions: seq<Action>)
    requires ValidEnv(env)
    ensures ScoreKept(env, Run(env, actions))
  {
    var start := History(OpenSession(env), []);
    OpenSessionInv(env);
    assert ScoreKept(env, start);
    hide ValidEnv, Inv, Act, FinishedBy, ScoreKept;
    var holds := (t: History) => Inv(env, t.now) && ScoreKept(env, t);
    forall t, a | holds(t) ensures holds(Next(env)(t, a)) {
      ActInv(env, t.now, a);
      ActKeepsScore(env, t, a);
    }
    FoldKeeps(Next(env), holds, start, actions);
  }

  /** In every match, each side's count is the number of finished rounds that ended in its
      favour, won, drawn and lost alike. */
  lemma RoundsGoToTheirWinners(env: Env, actions: seq<Action>, side: Side)
    requires ValidEnv(env)
    ensures Run(env, actions).now.roundsWon.At(side) == Wins(Run(env, actions).finals, side)
  {
    ScoreKeptAlways(env, actions);
  }

  /** And a match that is over ended for what its rounds came to: on a base, under the winner
      that round had; a test profile on its last round, under that round's winner; any other
      with exactly enough rounds won by the side that won the last of them and fewer by the
      other. Until then no base fell, and short of a test profile nobody has enough. */
  lemma MatchesGoToTheirWinners(env: Env, actions: seq<Action>)
    requires ValidEnv(env)
    ensures var h := Run(env, actions);
      if h.now.phase == MatchOver then
        h.now.result.Some? && EndedBy(env, h.finals, h.now.result.value.ending)
        && h.now.result.value.roundsWon == PerSide(Wins(h.finals, North), Wins(h.finals, South))
      else
        NoBaseFell(h.finals)
        && (!env.testProfile ==> Wins(h.finals, North) < env.roundsToWin && Wins(h.finals, South) < env.roundsToWin)
  {
    ScoreKeptAlways(env, actions);
    OpenSessionInv(env);
    RunFromInv(env, History(OpenSession(env), []), actions);
    StillPlaying(env, Run(env, actions).now);
  }
}
