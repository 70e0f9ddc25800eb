/** The other side of the ledger's window: when a command is accepted a second time, and a run
    in which one is. */
module TakenTwice {
  import opened Common
  import opened Ledger
  import opened Plan
  import opened Round
  import opened Recording
  import opened Battle
  import opened Session
  import opened ExactlyOnce

  lemma DecidedTaken(env: Env, s: SessionState, side: Side, command: CastCommand)
    requires Inv(env, s) && Find(s.ledger.At(side), command.commandId).None?
    ensures |Taken(Cast(env, s, side, command).0)| > |Taken(s)|
       <==> s.phase == InBattle && Refusal(env.rules, s.round.value, side, command).None?
    ensures s.phase == InBattle && Refusal(env.rules, s.round.value, side, command).None? ==>
      var taken, after := Taken(s), Taken(Cast(env, s, side, command).0);
      |after| == |taken| + 1 && after[..|taken|] == taken
      && after[|taken|].side == side && after[|taken|].commandId == command.commandId
  {
    hide StartBattle, FinishRound, RoundInvariant, PlanKept, LedgerKept, Earned, Refusal, Take;
    var rounds := s.recorder.record.rounds;
    if s.phase == InBattle {
      var answer := RoundCast(env.rules, s.round.value, side, command).1;
      if answer.Accepted? {
        var cast := RecordedCast(answer.order, answer.tick, side, command.commandId, command.spellId, command.at);
        var entry := rounds[|rounds| - 1];
        ChangedLast(rounds, entry.(casts := entry.casts + [cast]));
        assert Taken(Cast(env, s, side, command).0) == Taken(s) + [cast];
      }
    }
  }

  /** A command not asked again meanwhile is taken and recorded once more exactly when 512 newer
      ids of its seat were spent and the round then running has nothing against it. */
  lemma TakenAgainExactly(env: Env, s: SessionState, side: Side, first: CastCommand, actions: seq<Action>, retry: CastCommand)
    requires ValidEnv(env) && Inv(env, s)
    requires Find(s.ledger.At(side), first.commandId).None? && retry.commandId == first.commandId
    requires forall a :: a in actions ==> !Asks(a, side, first.commandId)
    ensures var sent := Cast(env, s, side, first).0;
            var later := After(env, sent, actions);
            (|Taken(Cast(env, later, side, retry).0)| > |Taken(later)|
             <==> IdsSpent(env, sent, side, actions) >= MAX_ENTRIES_PER_SEAT
                  && later.phase == InBattle && later.round.Some? && Refusal(env.rules, later.round.value, side, retry).None?)
  {
    hide ValidEnv, Inv, After, IdsSpent, Cast, Evaluate, Refusal, AllCasts;
    LedgersOfInv(env, s, side);
    var sent := Cast(env, s, side, first).0;
    assert Inv(env, sent) by { KeptByCast(env, s, side, first); }
    var later := After(env, sent, actions);
    AfterInv(env, sent, actions);
    PhaseFacts(env, later);
    RetryHoldsExactlyInsideWindow(env, s, side, first, actions, retry);
    if IdsSpent(env, sent, side, actions) >= MAX_ENTRIES_PER_SEAT {
      GoneAfterWindow(env, s, side, first, actions);
      DecidedTaken(env, later, side, retry);
    }
  }

  lemma KeptByCast(env: Env, s: SessionState, side: Side, command: CastCommand)
    requires ValidEnv(env) && Inv(env, s)
    ensures Inv(env, Cast(env, s, side, command).0)
  {
    hide Inv, Cast;
    CastInv(env, s, side, command);
  }

  lemma GoneAfterWindow(env: Env, s: SessionState, side: Side, first: CastCommand, actions: seq<Action>)
    requires LedgerKept(s.ledger.At(side)) && Find(s.ledger.At(side), first.commandId).None?
    requires forall a :: a in actions ==> !Asks(a, side, first.commandId)
    requires IdsSpent(env, Cast(env, s, side, first).0, side, actions) >= MAX_ENTRIES_PER_SEAT
    ensures Find(After(env, Cast(env, s, side, first).0, actions).ledger.At(side), first.commandId).None?
  {
    LedgerMoves(env, s, side, DoCast(side, first));
    hide Evaluate, IdsSpent, After;
    var sent := Cast(env, s, side, first).0;
    var entry := Evaluate(env, s, side, first).1;
    RecordedStaysDistinct(MAX_ENTRIES_PER_SEAT, s.ledger.At(side), entry);
    var last: nat := |sent.ledger.At(side)| - 1;
    assert sent.ledger.At(side)[last] == entry;
    AnswerForgottenAfterRun(env, sent, side, last, actions);
  }

  // ---- a run that spends a window ----

  /** An id of its own length, so that ids of different lengths differ. */
  function LongId(n: nat): (id: string)
    ensures |id| == n
  {
    seq(n, k => 'x')
  }

  /** `count` casts of a spell nobody holds, under ids each longer than the last. */
  function Fumbles(side: Side, spell: string, n: nat, count: nat): (actions: seq<Action>)
    ensures |actions| == count
    ensures forall a :: a in actions ==> a.DoCast? && a.castSide == side && |a.command.commandId| > n
    decreases count
  {
    if count == 0 then []
    else [DoCast(side, CastCommand(LongId(n + 1), spell, Vec2(0.0, 0.0), 0))] + Fumbles(side, spell, n + 1, count - 1)
  }

  ghost predicate ShortIds(seat: SeatLog, n: nat) {
    forall e :: e in seat ==> |e.commandId| <= n
  }

  lemma FumbleChangesLedgerOnly(env: Env, s: SessionState, side: Side, spell: string, id: string)
    requires s.phase == InBattle && s.round.Some? && !s.round.value.Over()
    requires Equipped(s.round.value.loadouts.At(side), spell).None?
    requires Find(s.ledger.At(side), id).None?
    ensures var action := DoCast(side, CastCommand(id, spell, Vec2(0.0, 0.0), 0));
            var next := Act(env, s, action);
      && next == s.(ledger := next.ledger) && SpendsId(s, side, action)
      && forall e :: e in next.ledger.At(side) ==> e in s.ledger.At(side) || e.commandId == id
  {
    hide Take, Recorded;
    var action := DoCast(side, CastCommand(id, spell, Vec2(0.0, 0.0), 0));
    LedgerMoves(env, s, side, action);
    RecordedAmong(s.ledger.At(side), Evaluate(env, s, side, action.command).1);
  }

  lemma RecordedAmong(seat: SeatLog, entry: LedgerEntry)
    ensures forall e :: e in Recorded(MAX_ENTRIES_PER_SEAT, seat, entry) ==> e in seat || e == entry
  {
  }

  lemma {:induction false} FumblesSpend(env: Env, s: SessionState, side: Side, spell: string, n: nat, count: nat)
    requires s.phase == InBattle && s.round.Some? && !s.round.value.Over()
    requires Equipped(s.round.value.loadouts.At(side), spell).None? && ShortIds(s.ledger.At(side), n)
    ensures var after := After(env, s, Fumbles(side, spell, n, count));
      after == s.(ledger := after.ledger) && IdsSpent(env, s, side, Fumbles(side, spell, n, count)) == count
    decreases count
  {
    hide Act, Equipped;
    if count > 0 {
      var actions := Fumbles(side, spell, n, count);
      FumbleChangesLedgerOnly(env, s, side, spell, LongId(n + 1));
      assert actions[1..] == Fumbles(side, spell, n + 1, count - 1);
      FumblesSpend(env, Act(env, s, actions[0]), side, spell, n + 1, count - 1);
    }
  }

  /** What an accepted cast leaves: the round that took it, and one more short id. */
  lemma SentIs(env: Env, s: SessionState, side: Side, first: CastCommand, n: nat)
    requires s.phase == InBattle && s.round.Some? && Find(s.ledger.At(side), first.commandId).None?
    requires Refusal(env.rules, s.round.value, side, first).None?
    requires ShortIds(s.ledger.At(side), n) && |first.commandId| <= n
    ensures var sent := Cast(env, s, side, first).0;
      && sent.phase == InBattle && sent.round == Some(Take(s.round.value, side, first))
      && !sent.round.value.Over() && sent.round.value.loadouts == s.round.value.loadouts
      && ShortIds(sent.ledger.At(side), n)
  {
    hide Recorded, Equipped, WithPending;
    RecordedAmong(s.ledger.At(side), Evaluate(env, s, side, first).1);
  }

  /** The run itself: the cast, 512 fumbles, the cast again. */
  function Resend(side: Side, first: CastCommand, spell: string, n: nat): seq<Action> {
    [DoCast(side, first)] + Fumbles(side, spell, n, MAX_ENTRIES_PER_SEAT) + [DoCast(side, first)]
  }

  lemma ResendSteps(env: Env, s: SessionState, side: Side, first: CastCommand, spell: string, n: nat)
    ensures After(env, s, Resend(side, first, spell, n))
         == Cast(env, After(env, Cast(env, s, side, first).0, Fumbles(side, spell, n, MAX_ENTRIES_PER_SEAT)), side, first).0
  {
    hide Cast, Fumbles;
    var action, between := DoCast(side, first), Fumbles(side, spell, n, MAX_ENTRIES_PER_SEAT);
    AfterJoins(env, s, [action] + between, [action]);
    AfterJoins(env, s, [action], between);
    OneAction(env, s, action);
    OneAction(env, After(env, s, [action] + between), action);
  }

  lemma OneAction(env: Env, s: SessionState, action: Action)
    ensures After(env, s, [action]) == Act(env, s, action)
  {
    hide Act;
    assert [action][1..] == [];
  }

  /** Wherever a round would take a cast twice in a row, a run takes one command twice. */
  lemma ResendIsTakenTwice(env: Env, s: SessionState, side: Side, first: CastCommand, spell: string, n: nat)
    requires ValidEnv(env) && Inv(env, s) && s.phase == InBattle && Find(s.ledger.At(side), first.commandId).None?
    requires ShortIds(s.ledger.At(side), n) && |first.commandId| <= n
    requires Equipped(s.round.value.loadouts.At(side), spell).None?
    requires Refusal(env.rules, s.round.value, side, first).None?
    requires Refusal(env.rules, Take(s.round.value, side, first), side, first).None?
    ensures var casts, m := Taken(After(env, s, Resend(side, first, spell, n))), |Taken(s)|;
      && |casts| == m + 2
      && casts[m].side == casts[m + 1].side == side
      && casts[m].commandId == casts[m + 1].commandId == first.commandId
  {
    hide ValidEnv, Inv, After, IdsSpent, Cast, Refusal, AllCasts, Equipped, Take, Fumbles;
    var actions := Fumbles(side, spell, n, MAX_ENTRIES_PER_SEAT);
    var sent := Cast(env, s, side, first).0;
    PhaseFacts(env, s);
    SentIs(env, s, side, first, n);
    DecidedTaken(env, s, side, first);
    KeptByCast(env, s, side, first);
    FumblesSpend(env, sent, side, spell, n, MAX_ENTRIES_PER_SEAT);
    var later := After(env, sent, actions);
    AfterInv(env, sent, actions);
    LedgersOfInv(env, s, side);
    GoneAfterWindow(env, s, side, first, actions);
    DecidedTaken(env, later, side, first);
    ResendSteps(env, s, side, first, spell, n);
    assert Taken(later) == Taken(sent);
  }
}
