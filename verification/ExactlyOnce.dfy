/** A cast is answered once (`MatchSession.cast`, `_answer`): retries repeat the first
    answer and touch nothing, and no command is ever accepted twice. */
module ExactlyOnce {
  import opened Common
  import opened Ledger
  import opened Plan
  import opened Round
  import opened Recording
  import opened Session
  import opened Replay
  import opened ReplayProof
  import opened Runs

  /** Whether an action spends a new command id of this seat. */
  predicate SpendsId(s: SessionState, side: Side, action: Action) {
    action.DoCast? && action.castSide == side && Find(s.ledger.At(side), action.command.commandId).None?
  }

  /** How many new ids of one seat a run spends. */
  ghost function IdsSpent(env: Env, s: SessionState, side: Side, actions: seq<Action>): nat
    decreases |actions|
  {
    if actions == [] then 0
    else (if SpendsId(s, side, actions[0]) then 1 else 0) + IdsSpent(env, Act(env, s, actions[0]), side, actions[1..])
  }

  /** Where a run leaves the session, without its history. */
  ghost function After(env: Env, s: SessionState, actions: seq<Action>): SessionState
    decreases |actions|
  {
    if actions == [] then s else After(env, Act(env, s, actions[0]), actions[1..])
  }

  lemma {:induction false} AfterIsRun(env: Env, h: History, actions: seq<Action>)
    ensures RunFrom(env, h, actions).now == After(env, h.now, actions)
    decreases |actions|
  {
    if actions != [] { AfterIsRun(env, Next(env)(h, actions[0]), actions[1..]); }
  }

  /** An action's effect on one seat's ledger: one new entry, or none at all. */
  lemma LedgerMoves(env: Env, s: SessionState, side: Side, action: Action)
    ensures var seat, after := s.ledger.At(side), Act(env, s, action).ledger.At(side);
      if SpendsId(s, side, action) then
        after == Recorded(MAX_ENTRIES_PER_SEAT, seat, Evaluate(env, s, side, action.command).1)
        && Evaluate(env, s, side, action.command).1.commandId == action.command.commandId
      else after == seat
  {
    hide StartInputs, RoundCast, RoundStep, MatchEndingOf, ZoneStates;
  }

  lemma LedgerSurvives(env: Env, s: SessionState, side: Side, action: Action, i: nat)
    requires LedgerKept(s.ledger.At(side)) && i < |s.ledger.At(side)|
    requires |s.ledger.At(side)| - i + (if SpendsId(s, side, action) then 1 else 0) <= MAX_ENTRIES_PER_SEAT
    ensures var seat, after := s.ledger.At(side), Act(env, s, action).ledger.At(side);
      && LedgerKept(after)
      && exists j: nat :: j < |after| && after[j] == seat[i]
           && |after| - j == |seat| - i + if SpendsId(s, side, action) then 1 else 0
  {
    hide Act;
    LedgerMoves(env, s, side, action);
    var seat, after := s.ledger.At(side), Act(env, s, action).ledger.At(side);
    if SpendsId(s, side, action) {
      var entry := Evaluate(env, s, side, action.command).1;
      RecordedStaysDistinct(MAX_ENTRIES_PER_SEAT, seat, entry);
      var longer := seat + [entry];
      var j := if |longer| > MAX_ENTRIES_PER_SEAT then i - (|longer| - MAX_ENTRIES_PER_SEAT) else i;
      assert after[j] == longer[i] == seat[i];
    } else {
      assert after[i] == seat[i];
    }
  }

  lemma {:induction false} AnswerSurvivesRun(env: Env, s: SessionState, side: Side, i: nat, actions: seq<Action>)
    requires LedgerKept(s.ledger.At(side)) && i < |s.ledger.At(side)|
    requires |s.ledger.At(side)| - i + IdsSpent(env, s, side, actions) <= MAX_ENTRIES_PER_SEAT
    ensures Find(After(env, s, actions).ledger.At(side), s.ledger.At(side)[i].commandId) == Some(s.ledger.At(side)[i])
    decreases |actions|
  {
    if actions == [] {
      FindAt(s.ledger.At(side), i);
    } else {
      LedgerSurvives(env, s, side, actions[0], i);
      var next := Act(env, s, actions[0]);
      var j: nat :| j < |next.ledger.At(side)| && next.ledger.At(side)[j] == s.ledger.At(side)[i]
        && |next.ledger.At(side)| - j == |s.ledger.At(side)| - i + if SpendsId(s, side, actions[0]) then 1 else 0;
      AnswerSurvivesRun(env, next, side, j, actions[1..]);
    }
  }

  /** Send a command, let anything at all happen, send the same id again: while fewer than
      512 newer ids of that seat came between, the answer is the same and the second send
      changes nothing whatever, whatever else the second message says. */
  lemma RetryChangesNothing(env: Env, s: SessionState, side: Side, first: CastCommand, actions: seq<Action>, retry: CastCommand)
    requires LedgerKept(s.ledger.At(side))
    requires Find(s.ledger.At(side), first.commandId).None?
    requires retry.commandId == first.commandId
    requires IdsSpent(env, Cast(env, s, side, first).0, side, actions) < MAX_ENTRIES_PER_SEAT
    ensures var later := After(env, Cast(env, s, side, first).0, actions);
            Cast(env, later, side, retry) == (later, Cast(env, s, side, first).1)
  {
    LedgerMoves(env, s, side, DoCast(side, first));
    hide Evaluate, IdsSpent, After;
    var sent := Cast(env, s, side, first).0;
    var entry := Evaluate(env, s, side, first).1;
    var seat := s.ledger.At(side);
    RecordedStaysDistinct(MAX_ENTRIES_PER_SEAT, seat, entry);
    var last: nat := |sent.ledger.At(side)| - 1;
    assert sent.ledger.At(side)[last] == entry;
    AnswerSurvivesRun(env, sent, side, last, actions);
  }

  /** Whether an action asks, or asks again, for one id of one seat. */
  predicate Asks(action: Action, side: Side, id: string) {
    action.DoCast? && action.castSide == side && action.command.commandId == id
  }

  lemma LedgerForgets(env: Env, s: SessionState, side: Side, action: Action, i: nat)
    requires LedgerKept(s.ledger.At(side)) && i < |s.ledger.At(side)|
    requires !Asks(action, side, s.ledger.At(side)[i].commandId)
    requires |s.ledger.At(side)| - i + (if SpendsId(s, side, action) then 1 else 0) > MAX_ENTRIES_PER_SEAT
    ensures Find(Act(env, s, action).ledger.At(side), s.ledger.At(side)[i].commandId).None?
  {
    hide Act, Evaluate;
    LedgerMoves(env, s, side, action);
    var seat, after := s.ledger.At(side), Act(env, s, action).ledger.At(side);
    forall e | e in after ensures e.commandId != seat[i].commandId {
      var k :| 0 <= k < |after| && after[k] == e;
      if k + 1 < |seat| { assert after[k] == seat[k + 1]; }
    }
  }

  lemma UnaskedStaysUnknown(env: Env, s: SessionState, side: Side, action: Action, id: string)
    requires Find(s.ledger.At(side), id).None? && !Asks(action, side, id)
    ensures Find(Act(env, s, action).ledger.At(side), id).None?
  {
    hide Act, Evaluate;
    LedgerMoves(env, s, side, action);
    forall e | e in Act(env, s, action).ledger.At(side) ensures e.commandId != id {}
  }

  lemma {:induction false} UnaskedStaysUnknownAfter(env: Env, s: SessionState, side: Side, actions: seq<Action>, id: string)
    requires Find(s.ledger.At(side), id).None? && forall a :: a in actions ==> !Asks(a, side, id)
    ensures Find(After(env, s, actions).ledger.At(side), id).None?
    decreases |actions|
  {
    if actions != [] {
      UnaskedStaysUnknown(env, s, side, actions[0], id);
      UnaskedStaysUnknownAfter(env, Act(env, s, actions[0]), side, actions[1..], id);
    }
  }

  lemma {:induction false} AnswerForgottenAfterRun(env: Env, s: SessionState, side: Side, i: nat, actions: seq<Action>)
    requires LedgerKept(s.ledger.At(side)) && i < |s.ledger.At(side)|
    requires forall a :: a in actions ==> !Asks(a, side, s.ledger.At(side)[i].commandId)
    requires |s.ledger.At(side)| - i + IdsSpent(env, s, side, actions) > MAX_ENTRIES_PER_SEAT
    ensures Find(After(env, s, actions).ledger.At(side), s.ledger.At(side)[i].commandId).None?
    decreases |actions|
  {
    var seat, next := s.ledger.At(side), Act(env, s, actions[0]);
    var spent := if SpendsId(s, side, actions[0]) then 1 else 0;
    assert actions[0] in actions;
    if |seat| - i + spent > MAX_ENTRIES_PER_SEAT {
      LedgerForgets(env, s, side, actions[0], i);
      UnaskedStaysUnknownAfter(env, next, side, actions[1..], seat[i].commandId);
    } else {
      LedgerSurvives(env, s, side, actions[0], i);
      var j: nat :| j < |next.ledger.At(side)| && next.ledger.At(side)[j] == seat[i]
        && |next.ledger.At(side)| - j == |seat| - i + spent;
      AnswerForgottenAfterRun(env, next, side, j, actions[1..]);
    }
  }

  /** The window, from both sides. A command not asked again meanwhile gets its first answer
      back, and leaves everything as it was, exactly while fewer than 512 newer ids of its seat
      came between. At 512 it is unknown, and is decided and written down afresh. */
  lemma RetryHoldsExactlyInsideWindow(env: Env, s: SessionState, side: Side, first: CastCommand, actions: seq<Action>, retry: CastCommand)
    requires LedgerKept(s.ledger.At(side))
    requires Find(s.ledger.At(side), first.commandId).None?
    requires retry.commandId == first.commandId
    requires forall a :: a in actions ==> !Asks(a, side, first.commandId)
    ensures var sent := Cast(env, s, side, first);
            var later := After(env, sent.0, actions);
            var (decided, entry) := Evaluate(env, later, side, retry);
      && (Cast(env, later, side, retry) == (later, sent.1) <==> IdsSpent(env, sent.0, side, actions) < MAX_ENTRIES_PER_SEAT)
      && (IdsSpent(env, sent.0, side, actions) >= MAX_ENTRIES_PER_SEAT ==>
            Cast(env, later, side, retry) == (Answer(decided, side, entry), ToMessage(entry)))
  {
    var sent := Cast(env, s, side, first);
    var later := After(env, sent.0, actions);
    if IdsSpent(env, sent.0, side, actions) < MAX_ENTRIES_PER_SEAT {
      RetryChangesNothing(env, s, side, first, actions, retry);
    } else {
      hide IdsSpent, After;
      LedgerMoves(env, s, side, DoCast(side, first));
      LedgerMoves(env, later, side, DoCast(side, retry));
      hide Evaluate;
      var entry := Evaluate(env, s, side, first).1;
      RecordedStaysDistinct(MAX_ENTRIES_PER_SEAT, s.ledger.At(side), entry);
      var last: nat := |sent.0.ledger.At(side)| - 1;
      assert sent.0.ledger.At(side)[last] == entry;
      AnswerForgottenAfterRun(env, sent.0, side, last, actions);
      var again := Cast(env, later, side, retry).0.ledger.At(side);
      assert again[|again| - 1].commandId == retry.commandId;
      assert again != later.ledger.At(side);
    }
  }

  // ---- nothing is accepted twice ----

  /** Every cast in a record, in the order the server took them. */
  function AllCasts(rounds: seq<RecordedRound>): seq<RecordedCast> {
    if rounds == [] then [] else AllCasts(rounds[..|rounds| - 1]) + rounds[|rounds| - 1].casts
  }

  /** What an action adds to the casts on record: at most one, of an id just spent. */
  ghost predicate AddsAtMostOne(env: Env, s: SessionState, action: Action) {
    var before, after := AllCasts(s.recorder.record.rounds), AllCasts(Act(env, s, action).recorder.record.rounds);
    after == before
    || (action.DoCast? && SpendsId(s, action.castSide, action)
        && exists cast: RecordedCast :: after == before + [cast]
             && cast.side == action.castSide && cast.commandId == action.command.commandId)
  }

  lemma ChangedLast(rounds: seq<RecordedRound>, entry: RecordedRound)
    requires rounds != []
    ensures AllCasts(rounds[|rounds| - 1 := entry]) == AllCasts(rounds[..|rounds| - 1]) + entry.casts
  {
    var changed := rounds[|rounds| - 1 := entry];
    assert changed[..|changed| - 1] == rounds[..|rounds| - 1];
  }

  lemma AddedRound(rounds: seq<RecordedRound>, entry: RecordedRound)
    requires entry.casts == []
    ensures AllCasts(rounds + [entry]) == AllCasts(rounds)
  {
    assert (rounds + [entry])[..|rounds|] == rounds;
  }

  lemma CastAddsOne(env: Env, s: SessionState, side: Side, command: CastCommand)
    requires Inv(env, s)
    ensures AddsAtMostOne(env, s, DoCast(side, command))
  {
    hide StartBattle, FinishRound, RoundInvariant, PlanKept, LedgerKept, Earned;
    var rounds := s.recorder.record.rounds;
    if Find(s.ledger.At(side), command.commandId).None? && s.phase == InBattle {
      var answer := RoundCast(env.rules, s.round.value, side, command).1;
      if answer.Accepted? {
        var cast := RecordedCast(answer.order, answer.tick, side, command.commandId, command.spellId, command.at);
        var entry := rounds[|rounds| - 1];
        ChangedLast(rounds, entry.(casts := entry.casts + [cast]));
        assert AllCasts(Act(env, s, DoCast(side, command)).recorder.record.rounds) == AllCasts(rounds) + [cast];
      }
    }
  }

  lemma TickAddsNone(env: Env, s: SessionState, seated: bool)
    requires Inv(env, s)
    ensures AllCasts(Tick(env, s, seated).recorder.record.rounds) == AllCasts(s.recorder.record.rounds)
  {
    hide StartInputs, RoundInvariant, PlanKept, LedgerKept, Earned, RoundStep;
    var rounds := s.recorder.record.rounds;
    if s.phase == InBattle {
      var final := RoundStep(env.rules, s.round.value);
      if final.Over() {
        var entry := rounds[|rounds| - 1].(ending := Some(final.ending.value), baseHpAtEnd := Some(final.World().bases));
        ChangedLast(rounds, entry);
      }
    } else if s.phase == Planning {
      StartAddsNone(env, s.(phaseTicks := s.phaseTicks + 1));
    }
  }

  lemma StartAddsNone(env: Env, s: SessionState)
    ensures StartBattle(env, s).Some? ==>
      AllCasts(StartBattle(env, s).value.recorder.record.rounds) == AllCasts(s.recorder.record.rounds)
  {
    hide StartInputs;
    var inputs := StartInputs(env, s.plans, s.baseHp, env.seed + s.roundNumber);
    if inputs.Some? { AddedRound(s.recorder.record.rounds, EntryFor(env, s.roundNumber, s.baseHp, inputs.value.0)); }
  }

  lemma ActAddsAtMostOne(env: Env, s: SessionState, action: Action)
    requires Inv(env, s)
    ensures AddsAtMostOne(env, s, action)
  {
    hide Inv, StartBattle, Cast, Tick, AllCasts;
    match action
    case DoLockIn(side, raw) =>
      if LockIn(env, s, side, raw).Ok? {
        StartAddsNone(env, Locked(env, s, side, ParsedPlan(raw, env.cat.spellSlots).value));
      }
    case DoCast(side, command) => CastAddsOne(env, s, side, command);
    case DoTick(seated) => TickAddsNone(env, s, seated);
    case DoAbandon(winner) =>
  }

  lemma {:induction false} AfterJoins(env: Env, s: SessionState, a: seq<Action>, b: seq<Action>)
    ensures After(env, s, a + b) == After(env, After(env, s, a), b)
    decreases |a|
  {
    if a == [] {
      assert a + b == b;
    } else {
      assert (a + b)[1..] == a[1..] + b;
      AfterJoins(env, Act(env, s, a[0]), a[1..], b);
    }
  }

  /** The casts a session has on record. */
  function Taken(s: SessionState): seq<RecordedCast> {
    AllCasts(s.recorder.record.rounds)
  }

  lemma {:induction false} AfterInv(env: Env, s: SessionState, actions: seq<Action>)
    requires ValidEnv(env) && Inv(env, s)
    ensures Inv(env, After(env, s, actions))
    ensures Taken(s) <= Taken(After(env, s, actions))
    decreases |actions|
  {
    hide ValidEnv, Inv, Act, AllCasts;
    if actions != [] {
      ActInv(env, s, actions[0]);
      ActAddsAtMostOne(env, s, actions[0]);
      AfterInv(env, Act(env, s, actions[0]), actions[1..]);
    }
  }

  /** Action `p` of a run is the one that put cast `k` on record. */
  ghost predicate Puts(env: Env, s: SessionState, actions: seq<Action>, p: nat, k: nat)
    requires p < |actions|
  {
    var before, casts := After(env, s, actions[..p]), Taken(After(env, s, actions));
    && k < |casts| && |Taken(before)| == k
    && Asks(actions[p], casts[k].side, casts[k].commandId) && SpendsId(before, casts[k].side, actions[p])
  }

  lemma {:induction false} SomethingPutIt(env: Env, s: SessionState, actions: seq<Action>, k: nat) returns (p: nat)
    requires ValidEnv(env) && Inv(env, s)
    requires |Taken(s)| <= k < |Taken(After(env, s, actions))|
    ensures p < |actions| && Puts(env, s, actions, p, k)
    decreases |actions|
  {
    hide ValidEnv, Inv, Act, AllCasts;
    var next := Act(env, s, actions[0]);
    ActInv(env, s, actions[0]);
    ActAddsAtMostOne(env, s, actions[0]);
    AfterInv(env, next, actions[1..]);
    if |Taken(next)| > k {
      p := 0;
      assert actions[..0] == [];
      assert Taken(After(env, s, actions))[k] == Taken(next)[k];
    } else {
      p := SomethingPutIt(env, next, actions[1..], k);
      assert actions[..p + 1][1..] == actions[1..][..p];
      p := p + 1;
    }
  }

  /** An id put on record at `p` and asked for as new at `q` had its whole window spent between. */
  lemma WindowBetween(env: Env, s: SessionState, actions: seq<Action>, side: Side, id: string, p: nat, q: nat)
    requires ValidEnv(env) && Inv(env, s) && p < q < |actions|
    requires Asks(actions[p], side, id) && SpendsId(After(env, s, actions[..p]), side, actions[p])
    requires Asks(actions[q], side, id) && SpendsId(After(env, s, actions[..q]), side, actions[q])
    ensures IdsSpent(env, After(env, s, actions[..p + 1]), side, actions[p + 1..q]) >= MAX_ENTRIES_PER_SEAT
  {
    hide ValidEnv, Inv, Act, Evaluate, After;
    AfterInv(env, s, actions[..p]);
    LedgersOfInv(env, After(env, s, actions[..p]), side);
    OneMore(env, s, actions, p);
    RestOfRun(env, s, actions, p + 1, q);
    if IdsSpent(env, After(env, s, actions[..p + 1]), side, actions[p + 1..q]) < MAX_ENTRIES_PER_SEAT {
      SentIsHeld(env, After(env, s, actions[..p]), side, actions[p], actions[p + 1..q]);
    }
  }

  lemma OneMore(env: Env, s: SessionState, actions: seq<Action>, p: nat)
    requires p < |actions|
    ensures After(env, s, actions[..p + 1]) == Act(env, After(env, s, actions[..p]), actions[p])
  {
    hide Act;
    assert actions[..p + 1] == actions[..p] + [actions[p]];
    AfterJoins(env, s, actions[..p], [actions[p]]);
    assert [actions[p]][1..] == [];
  }

  lemma RestOfRun(env: Env, s: SessionState, actions: seq<Action>, p: nat, q: nat)
    requires p <= q <= |actions|
    ensures After(env, s, actions[..q]) == After(env, After(env, s, actions[..p]), actions[p..q])
  {
    hide After;
    assert actions[..q] == actions[..p] + actions[p..q];
    AfterJoins(env, s, actions[..p], actions[p..q]);
  }

  lemma LedgersOfInv(env: Env, s: SessionState, side: Side)
    requires Inv(env, s)
    ensures LedgerKept(s.ledger.At(side))
  {
  }

  lemma SentIsHeld(env: Env, s: SessionState, side: Side, action: Action, actions: seq<Action>)
    requires LedgerKept(s.ledger.At(side)) && SpendsId(s, side, action)
    requires IdsSpent(env, Act(env, s, action), side, actions) < MAX_ENTRIES_PER_SEAT
    ensures Find(After(env, Act(env, s, action), actions).ledger.At(side), action.command.commandId).Some?
  {
    RetryChangesNothing(env, s, side, action.command, actions, action.command);
    LedgerMoves(env, s, side, action);
    hide Act, Evaluate, IdsSpent, After;
    var seat, entry := s.ledger.At(side), Evaluate(env, s, side, action.command).1;
    var sent := Act(env, s, action);
    RecordedStaysDistinct(MAX_ENTRIES_PER_SEAT, seat, entry);
    var last: nat := |sent.ledger.At(side)| - 1;
    assert sent.ledger.At(side)[last] == entry;
    AnswerSurvivesRun(env, sent, side, last, actions);
  }

  lemma PutsInOrder(env: Env, s: SessionState, actions: seq<Action>, p: nat, q: nat, j: nat, k: nat)
    requires ValidEnv(env) && Inv(env, s) && p < |actions| && q < |actions| && j < k
    requires Puts(env, s, actions, p, j) && Puts(env, s, actions, q, k)
    ensures p < q
  {
    hide ValidEnv, Inv, After, AllCasts;
    if q < p {
      AfterInv(env, s, actions[..q]);
      RestOfRun(env, s, actions, q, p);
      AfterInv(env, After(env, s, actions[..q]), actions[q..p]);
    }
  }

  /** No command is on record as accepted twice, in one round or across rounds, unless 512
      newer ids of its seat were spent between the two: at the actions that were taken. */
  lemma NoCommandTakenTwice(env: Env, actions: seq<Action>, j: nat, k: nat)
    requires ValidEnv(env)
    requires var casts := Taken(Run(env, actions).now);
             j < k < |casts| && casts[j].side == casts[k].side && casts[j].commandId == casts[k].commandId
    ensures var start := OpenSession(env);
            var cast := Taken(Run(env, actions).now)[j];
      exists p: nat, q: nat :: p < q < |actions|
        && Puts(env, start, actions, p, j) && Puts(env, start, actions, q, k)
        && IdsSpent(env, After(env, start, actions[..p + 1]), cast.side, actions[p + 1..q]) >= MAX_ENTRIES_PER_SEAT
  {
    hide ValidEnv, After, Act, AllCasts;
    var start := OpenSession(env);
    OpenSessionInv(env);
    AfterIsRun(env, History(start, []), actions);
    assert Taken(start) == [] by { NothingTaken(env); }
    var p := SomethingPutIt(env, start, actions, j);
    var q := SomethingPutIt(env, start, actions, k);
    PutsInOrder(env, start, actions, p, q, j, k);
    var cast := Taken(After(env, start, actions))[j];
    WindowBetween(env, start, actions, cast.side, cast.commandId, p, q);
  }

  lemma NothingTaken(env: Env)
    ensures Taken(OpenSession(env)) == []
  {
  }
}
