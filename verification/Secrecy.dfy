/** Hidden information, as a property of pairs of runs: what a seat sees is a function
    of what it did, of time, and of what visibly happened. */
module Secrecy {
  import opened Common
  import opened Ordering
  import opened SpellQueue
  import opened JsonText
  import opened BattleWorld
  import opened Battle
  import opened Plan
  import opened Ledger
  import opened Energy
  import opened Round
  import opened Opening
  import opened Recording
  import opened Session
  import opened ExactlyOnce
  import opened Wire

  /** Two rounds one seat cannot tell apart: they differ at most in the other seat's
      energy and loadout. */
  ghost predicate SameRound(side: Side, r: RoundState, q: RoundState) {
    && r.runner == q.runner && r.casts == q.casts && r.nextOrder == q.nextOrder && r.ending == q.ending
    && r.energy.At(side) == q.energy.At(side) && r.loadouts.At(side) == q.loadouts.At(side)
  }

  /** Two sessions one seat cannot tell apart: they differ at most in the other seat's
      plan, lock, loadout, energy and ledger, and in the server's own record. */
  ghost predicate Same(side: Side, s: SessionState, t: SessionState) {
    && s.phase == t.phase && s.roundNumber == t.roundNumber && s.roundsWon == t.roundsWon && s.baseHp == t.baseHp
    && s.lastRound == t.lastRound && s.result == t.result && s.phaseTicks == t.phaseTicks
    && s.plans.At(side) == t.plans.At(side) && s.locked.At(side) == t.locked.At(side)
    && s.loadouts.At(side) == t.loadouts.At(side) && s.ledger.At(side) == t.ledger.At(side)
    && s.round.Some? == t.round.Some?
    && (s.round.Some? ==> SameRound(side, s.round.value, t.round.value))
    && (s.phase == InBattle ==> s.round.Some?)
    && (s.phase == BetweenRounds ==> s.lastRound.Some?)
    && (s.phase == MatchOver ==> s.result.Some?)
  }

  lemma InvSame(env: Env, side: Side, s: SessionState)
    requires Inv(env, s)
    ensures Same(side, s, s)
  {
  }

  /** What one seat is sent depends on nothing the relation lets differ. */
  lemma SameSnapshots(env: Env, side: Side, s: SessionState, t: SessionState)
    requires Same(side, s, t)
    ensures SnapshotFor(env, s, side) == SnapshotFor(env, t, side)
  {
    hide OpeningOf, BattleSnapshot, PlanScreen;
  }

  predicate OfOther(side: Side, action: Action) {
    || (action.DoLockIn? && action.lockSide != side)
    || (action.DoCast? && action.castSide != side)
  }

  // ---- planning ----

  /** The run never leaves the plan screen. */
  ghost predicate StaysPlanning(env: Env, s: SessionState, actions: seq<Action>)
    decreases |actions|
  {
    s.phase == Planning && (actions != [] ==> StaysPlanning(env, Act(env, s, actions[0]), actions[1..]))
  }

  /** The run with the other seat's actions struck out. */
  function Mine(side: Side, actions: seq<Action>): seq<Action> {
    if actions == [] then []
    else if OfOther(side, actions[0]) then Mine(side, actions[1..])
    else [actions[0]] + Mine(side, actions[1..])
  }

  /** The same to one seat, with nobody locked in the second who is not in the first. */
  ghost predicate Behind(side: Side, s: SessionState, t: SessionState) {
    Same(side, s, t) && (t.locked.At(Opposing(side)) ==> s.locked.At(Opposing(side)))
  }

  lemma OtherUnseenInPlanning(env: Env, side: Side, s: SessionState, t: SessionState, action: Action)
    requires Behind(side, s, t) && OfOther(side, action)
    requires s.phase == Planning && Act(env, s, action).phase == Planning
    ensures Behind(side, Act(env, s, action), t)
  {
    hide StartInputs, Legal, ParsedPlan;
  }

  /** Locking in while the other seat has not starts nothing. */
  lemma OwnLockInInPlanning(env: Env, side: Side, s: SessionState, t: SessionState, raw: Json)
    requires Behind(side, s, t) && s.phase == Planning
    requires Act(env, s, DoLockIn(side, raw)).phase == Planning
    requires s.locked.At(Opposing(side)) ==> LockIn(env, s, side, raw).Err? ==> LockIn(env, s, side, raw) != Err(CannotStart)
    ensures Behind(side, Act(env, s, DoLockIn(side, raw)), Act(env, t, DoLockIn(side, raw)))
  {
    hide StartInputs, Legal, ParsedPlan;
  }

  /** Time passing is planning's own: only the second lock or the backstop ends it. */
  lemma TickInPlanning(env: Env, side: Side, s: SessionState, t: SessionState, seated: bool)
    requires Behind(side, s, t) && s.phase == Planning && Tick(env, s, seated).phase == Planning
    requires StartBattle(env, s.(phaseTicks := s.phaseTicks + 1)).Some?
    ensures Behind(side, Tick(env, s, seated), Tick(env, t, seated))
  {
    hide StartInputs;
  }

  lemma CastInPlanning(env: Env, side: Side, s: SessionState, t: SessionState, command: CastCommand)
    requires Behind(side, s, t) && s.phase == Planning
    ensures Behind(side, Cast(env, s, side, command).0, Cast(env, t, side, command).0)
  {
    hide RoundCast, Recorded;
  }

  lemma OwnInPlanning(env: Env, side: Side, s: SessionState, t: SessionState, action: Action)
    requires ValidEnv(env) && Inv(env, s) && Inv(env, t)
    requires Behind(side, s, t) && !OfOther(side, action)
    requires s.phase == Planning && Act(env, s, action).phase == Planning
    ensures Behind(side, Act(env, s, action), Act(env, t, action))
  {
    hide ValidEnv, Inv, LockIn, Cast, Tick, StartBattle, Behind;
    match action
    case DoLockIn(who, raw) =>
      LockInInv(env, s, side, raw);
      OwnLockInInPlanning(env, side, s, t, raw);
    case DoTick(seated) =>
      CountingInv(env, s, s.phaseTicks + 1);
      StartBattleInv(env, s.(phaseTicks := s.phaseTicks + 1));
      TickInPlanning(env, side, s, t, seated);
    case DoCast(who, command) => CastInPlanning(env, side, s, t, command);
    case DoAbandon(winner) =>
  }

  lemma {:induction false} PlanningFollowsOwn(env: Env, side: Side, s: SessionState, t: SessionState, actions: seq<Action>)
    requires ValidEnv(env) && Inv(env, s) && Inv(env, t)
    requires Behind(side, s, t) && StaysPlanning(env, s, actions)
    ensures Same(side, After(env, s, actions), After(env, t, Mine(side, actions)))
    decreases |actions|
  {
    if actions != [] {
      var action, rest := actions[0], actions[1..];
      hide ValidEnv, Inv, Act, Behind;
      ActInv(env, s, action);
      if OfOther(side, action) {
        OtherUnseenInPlanning(env, side, s, t, action);
        PlanningFollowsOwn(env, side, Act(env, s, action), t, rest);
      } else {
        ActInv(env, t, action);
        OwnInPlanning(env, side, s, t, action);
        PlanningFollowsOwn(env, side, Act(env, s, action), Act(env, t, action), rest);
        assert ([action] + Mine(side, rest))[1..] == Mine(side, rest);
      }
    } else {
      hide ValidEnv, Inv;
    }
  }

  /** Hidden simultaneous choice. Two runs from one planning state in which a seat did the
      same things at the same times leave it looking at the same snapshot, whatever the
      other seat planned, locked or tried in either, for as long as both are planning. */
  lemma PlanningHidesTheOtherSeat(env: Env, side: Side, s: SessionState, left: seq<Action>, right: seq<Action>)
    requires ValidEnv(env) && Inv(env, s)
    requires StaysPlanning(env, s, left) && StaysPlanning(env, s, right)
    requires Mine(side, left) == Mine(side, right)
    ensures var l, r := After(env, s, left), After(env, s, right);
      && l.phase == Planning && r.phase == Planning
      && SnapshotFor(env, l, side) == SnapshotFor(env, r, side)
  {
    InvSame(env, side, s);
    PlanningFollowsOwn(env, side, s, s, left);
    PlanningFollowsOwn(env, side, s, s, right);
    StaysMeansEnds(env, s, left);
    StaysMeansEnds(env, s, right);
    SameSnapshots(env, side, After(env, s, left), After(env, s, Mine(side, left)));
    SameSnapshots(env, side, After(env, s, right), After(env, s, Mine(side, right)));
  }

  lemma {:induction false} StaysMeansEnds(env: Env, s: SessionState, actions: seq<Action>)
    requires StaysPlanning(env, s, actions)
    ensures After(env, s, actions).phase == Planning
    decreases |actions|
  {
    if actions != [] { StaysMeansEnds(env, Act(env, s, actions[0]), actions[1..]); }
  }

  // ---- from the opening whistle on ----

  /** What a seat can see happen: its own doings, time, and the other seat's spells landing. */
  datatype Seen = Own(action: Action) | Landed(cast: ResolvedCast)

  function NewCasts(env: Env, s: SessionState, action: Action): seq<ResolvedCast> {
    var after := Act(env, s, action);
    if s.round.Some? && after.round.Some? && |after.round.value.casts| > |s.round.value.casts|
    then [after.round.value.casts[|after.round.value.casts| - 1]] else []
  }

  /** The visible part of one action: a refused or repeated cast by the other seat has none. */
  function VisibleOf(env: Env, s: SessionState, side: Side, action: Action): seq<Seen> {
    if !OfOther(side, action) then [Own(action)]
    else if NewCasts(env, s, action) == [] then []
    else [Landed(NewCasts(env, s, action)[0])]
  }

  ghost function Watched(env: Env, s: SessionState, side: Side, actions: seq<Action>): seq<Seen>
    decreases |actions|
  {
    if actions == [] then []
    else VisibleOf(env, s, side, actions[0]) + Watched(env, Act(env, s, actions[0]), side, actions[1..])
  }

  /** The run never goes back to the plan screen. */
  ghost predicate StaysOut(env: Env, s: SessionState, actions: seq<Action>)
    decreases |actions|
  {
    s.phase != Planning && (actions != [] ==> StaysOut(env, Act(env, s, actions[0]), actions[1..]))
  }

  /** A cast of the other seat's that never landed leaves a seat's session as it was. */
  lemma UnlandedUnseen(env: Env, side: Side, s: SessionState, action: Action)
    requires Same(side, s, s) && s.phase != Planning && OfOther(side, action)
    requires VisibleOf(env, s, side, action) == []
    ensures Same(side, Act(env, s, action), s)
  {
    hide StartInputs, Refusal, WithPending;
  }

  /** A visible action by the other seat is a cast its round took. */
  lemma LandedIsTaken(env: Env, s: SessionState, side: Side, action: Action)
    requires s.phase != Planning && OfOther(side, action) && VisibleOf(env, s, side, action) != []
    ensures action.DoCast? && action.castSide == Opposing(side)
    ensures s.phase == InBattle && s.round.Some?
    ensures Equipped(s.round.value.loadouts.At(action.castSide), action.command.spellId).Some?
    ensures var after := Act(env, s, action);
      && after.round == Some(Take(s.round.value, action.castSide, action.command))
      && after == s.(round := after.round, recorder := after.recorder, ledger := s.ledger.With(action.castSide, after.ledger.At(action.castSide)))
      && VisibleOf(env, s, side, action) == [Landed(after.round.value.casts[|s.round.value.casts|])]
  {
    hide WithPending, Recorded;
  }

  /** A taken cast leaves the other seat's round as it leaves any it could not tell apart. */
  lemma TakenTheSame(side: Side, r: RoundState, q: RoundState, a: CastCommand, b: CastCommand)
    requires SameRound(side, r, q)
    requires Equipped(r.loadouts.At(Opposing(side)), a.spellId).Some? && Equipped(q.loadouts.At(Opposing(side)), b.spellId).Some?
    requires Take(r, Opposing(side), a).casts[|r.casts|] == Take(q, Opposing(side), b).casts[|q.casts|]
    ensures SameRound(side, Take(r, Opposing(side), a), Take(q, Opposing(side), b))
  {
    hide WithPending;
    assert InjectionOf(r, Opposing(side), a) == InjectionOf(q, Opposing(side), b);
  }

  /** A cast that landed is, to the other seat, just the cast. */
  lemma LandedTheSame(env: Env, side: Side, s: SessionState, t: SessionState, a: Action, b: Action)
    requires Same(side, s, t) && s.phase != Planning && OfOther(side, a) && OfOther(side, b)
    requires VisibleOf(env, s, side, a) != [] && VisibleOf(env, s, side, a) == VisibleOf(env, t, side, b)
    ensures Same(side, Act(env, s, a), Act(env, t, b))
  {
    hide Act, SameRound, VisibleOf, OfOther;
    LandedIsTaken(env, s, side, a);
    LandedIsTaken(env, t, side, b);
    TakenTheSame(side, s.round.value, t.round.value, a.command, b.command);
  }

  lemma RoundCastTheSame(rules: Rules, side: Side, r: RoundState, q: RoundState, command: CastCommand)
    requires SameRound(side, r, q)
    ensures SameRound(side, RoundCast(rules, r, side, command).0, RoundCast(rules, q, side, command).0)
    ensures RoundCast(rules, r, side, command).1 == RoundCast(rules, q, side, command).1
  {
    hide WithPending;
  }

  lemma EvaluateTheSame(env: Env, side: Side, s: SessionState, t: SessionState, command: CastCommand)
    requires Same(side, s, t)
    ensures Same(side, Evaluate(env, s, side, command).0, Evaluate(env, t, side, command).0)
    ensures Evaluate(env, s, side, command).1 == Evaluate(env, t, side, command).1
  {
    hide RoundCast, SameRound;
    if s.phase == InBattle && s.round.Some? {
      RoundCastTheSame(env.rules, side, s.round.value, t.round.value, command);
    }
  }

  /** The answer a seat gets is one its own view decides. */
  lemma OwnCastTheSame(env: Env, side: Side, s: SessionState, t: SessionState, command: CastCommand)
    requires Same(side, s, t)
    ensures Same(side, Cast(env, s, side, command).0, Cast(env, t, side, command).0)
    ensures Cast(env, s, side, command).1 == Cast(env, t, side, command).1
  {
    hide Evaluate, SameRound, Recorded;
    EvaluateTheSame(env, side, s, t, command);
  }

  lemma StepTheSame(rules: Rules, side: Side, r: RoundState, q: RoundState)
    requires SameRound(side, r, q)
    ensures SameRound(side, RoundStep(rules, r), RoundStep(rules, q))
  {
    hide RunnerStep, DecideEnding;
  }

  lemma TickTheSame(env: Env, side: Side, s: SessionState, t: SessionState, seated: bool)
    requires Same(side, s, t) && s.phase != Planning
    ensures Same(side, Tick(env, s, seated), Tick(env, t, seated))
  {
    hide StartBattle, RoundStep, ZoneStates, MatchEndingOf;
    if s.phase == InBattle { StepTheSame(env.rules, side, s.round.value, t.round.value); }
  }

  lemma OwnTheSame(env: Env, side: Side, s: SessionState, t: SessionState, action: Action)
    requires Same(side, s, t) && s.phase != Planning && !OfOther(side, action)
    ensures Same(side, Act(env, s, action), Act(env, t, action))
  {
    hide StartInputs, Tick, Cast;
    match action
    case DoLockIn(who, raw) =>
    case DoTick(seated) => TickTheSame(env, side, s, t, seated);
    case DoCast(who, command) => OwnCastTheSame(env, side, s, t, command);
    case DoAbandon(winner) =>
  }

  lemma SameChains(side: Side, s: SessionState, t: SessionState, u: SessionState)
    requires Same(side, s, t) && Same(side, t, u)
    ensures Same(side, s, u) && Same(side, t, s) && Same(side, s, s)
  {
  }

  lemma {:induction false} BattleFollowsSeen(env: Env, side: Side, s: SessionState, t: SessionState,
                                             left: seq<Action>, right: seq<Action>)
    requires Same(side, s, t) && StaysOut(env, s, left) && StaysOut(env, t, right)
    requires Watched(env, s, side, left) == Watched(env, t, side, right)
    ensures Same(side, After(env, s, left), After(env, t, right))
    decreases |left| + |right|
  {
    hide Act, VisibleOf, SameRound;
    assert left != [] && VisibleOf(env, s, side, left[0]) != [] ==> Watched(env, s, side, left) != [];
    assert right != [] && VisibleOf(env, t, side, right[0]) != [] ==> Watched(env, t, side, right) != [];
    if left != [] && VisibleOf(env, s, side, left[0]) == [] {
      QuietIsOther(env, s, side, left[0]);
      SameBothWays(side, s, t);
      UnlandedUnseen(env, side, s, left[0]);
      SameChains(side, Act(env, s, left[0]), s, t);
      assert Watched(env, s, side, left) == Watched(env, Act(env, s, left[0]), side, left[1..]);
      BattleFollowsSeen(env, side, Act(env, s, left[0]), t, left[1..], right);
    } else if right != [] && VisibleOf(env, t, side, right[0]) == [] {
      QuietIsOther(env, t, side, right[0]);
      SameBothWays(side, s, t);
      UnlandedUnseen(env, side, t, right[0]);
      SameBothWays(side, Act(env, t, right[0]), t);
      SameChains(side, s, t, Act(env, t, right[0]));
      assert Watched(env, t, side, right) == Watched(env, Act(env, t, right[0]), side, right[1..]);
      BattleFollowsSeen(env, side, s, Act(env, t, right[0]), left, right[1..]);
    } else if left != [] && right != [] {
      FirstSeen(env, side, s, t, left, right);
      if OfOther(side, left[0]) {
        LandedTheSame(env, side, s, t, left[0], right[0]);
      } else {
        OwnTheSame(env, side, s, t, left[0]);
      }
      BattleFollowsSeen(env, side, Act(env, s, left[0]), Act(env, t, right[0]), left[1..], right[1..]);
    }
  }

  lemma SameBothWays(side: Side, s: SessionState, t: SessionState)
    requires Same(side, s, t)
    ensures Same(side, t, s) && Same(side, s, s) && Same(side, t, t)
  {
  }

  lemma QuietIsOther(env: Env, s: SessionState, side: Side, action: Action)
    requires VisibleOf(env, s, side, action) == []
    ensures OfOther(side, action)
  {
  }

  lemma FirstSeen(env: Env, side: Side, s: SessionState, t: SessionState, left: seq<Action>, right: seq<Action>)
    requires left != [] && right != [] && Watched(env, s, side, left) == Watched(env, t, side, right)
    requires VisibleOf(env, s, side, left[0]) != [] && VisibleOf(env, t, side, right[0]) != []
    ensures VisibleOf(env, s, side, left[0]) == VisibleOf(env, t, side, right[0])
    ensures OfOther(side, left[0]) == OfOther(side, right[0])
    ensures !OfOther(side, left[0]) ==> left[0] == right[0]
    ensures Watched(env, Act(env, s, left[0]), side, left[1..]) == Watched(env, Act(env, t, right[0]), side, right[1..])
  {
    hide Act, NewCasts;
    var l, r := VisibleOf(env, s, side, left[0]), VisibleOf(env, t, side, right[0]);
    assert |l| == 1 && |r| == 1;
    assert Watched(env, s, side, left)[0] == l[0] && Watched(env, t, side, right)[0] == r[0];
    assert Watched(env, s, side, left)[1..] == Watched(env, Act(env, s, left[0]), side, left[1..]);
    assert Watched(env, t, side, right)[1..] == Watched(env, Act(env, t, right[0]), side, right[1..]);
  }

  /** Hidden energy and loadouts. From the opening whistle until the next plan screen, two
      matches a seat could not tell apart stay so for as long as it sees the same things
      happen: the other seat's refused and repeated casts, its energy and the spells it
      holds never reach a snapshot. */
  lemma BattleHidesTheOtherSeat(env: Env, side: Side, s: SessionState, t: SessionState, left: seq<Action>, right: seq<Action>)
    requires Same(side, s, t) && StaysOut(env, s, left) && StaysOut(env, t, right)
    requires Watched(env, s, side, left) == Watched(env, t, side, right)
    ensures Same(side, After(env, s, left), After(env, t, right))
    ensures SnapshotFor(env, After(env, s, left), side) == SnapshotFor(env, After(env, t, right), side)
  {
    BattleFollowsSeen(env, side, s, t, left, right);
    SameSnapshots(env, side, After(env, s, left), After(env, t, right));
  }

  // ---- across the whistle ----

  /** Both matches have just started a battle, and in both the other seat fields the same
      troops: what it hid by then is its spells. */
  ghost predicate FieldedAlike(side: Side, s: SessionState, t: SessionState) {
    var l, r := s.plans.At(Opposing(side)), t.plans.At(Opposing(side));
    l.Some? && r.Some? && l.value.troops == r.value.troops
  }

  /** What a battle starts from, on the same plan of one seat's and the same troops of the other's. */
  lemma InputsTheSame(env: Env, side: Side, p: PerSide<Option<SubmittedPlan>>, q: PerSide<Option<SubmittedPlan>>, hp: PerSide<real>, seed: int)
    requires p.At(side) == q.At(side)
    requires StartInputs(env, p, hp, seed).Some? && StartInputs(env, q, hp, seed).Some?
    requires StartInputs(env, p, hp, seed).value.0.At(Opposing(side)).troops == StartInputs(env, q, hp, seed).value.0.At(Opposing(side)).troops
    ensures var l, r := StartInputs(env, p, hp, seed).value, StartInputs(env, q, hp, seed).value;
      l.0.At(side) == r.0.At(side) && l.1 == r.1
  {
    hide CreateWorld, DefaultPlan, ArmyTroops;
  }

  lemma StartedTheSame(env: Env, side: Side, s: SessionState, t: SessionState, p: PerSide<SubmittedPlan>, q: PerSide<SubmittedPlan>, world: World)
    requires Same(side, s, t) && p.At(side) == q.At(side)
    ensures Same(side, Started(env, s, p, world), Started(env, t, q, world))
  {
    hide ResolveLoadout;
  }

  /** Two starts on one seat's own plan and bases, against the same troops, open one world. */
  lemma WhistleTheSame(env: Env, side: Side, s: SessionState, t: SessionState)
    requires Same(side, s, t) && s.phase == Planning
    requires StartBattle(env, s).Some? && StartBattle(env, t).Some?
    requires FieldedAlike(side, StartBattle(env, s).value, StartBattle(env, t).value)
    ensures Same(side, StartBattle(env, s).value, StartBattle(env, t).value)
  {
    hide StartInputs, PricedLoadouts;
    InputsTheSame(env, side, s.plans, t.plans, s.baseHp, env.seed + s.roundNumber);
    var l, r := StartInputs(env, s.plans, s.baseHp, env.seed + s.roundNumber).value, StartInputs(env, t.plans, s.baseHp, env.seed + s.roundNumber).value;
    StartedTheSame(env, side, s, t, l.0, r.0, l.1);
  }

  /** The session as it stood when an action started its battle: the second plan locked in, or
      one more tick counted. */
  function Eve(env: Env, s: SessionState, action: Action): SessionState {
    if PlanSent(env, action).Some? then Locked(env, s, action.lockSide, PlanSent(env, action).value)
    else if action.DoTick? then s.(phaseTicks := s.phaseTicks + 1)
    else s
  }

  /** The plan a lock-in carries, if it parses. */
  function PlanSent(env: Env, action: Action): (plan: Option<SubmittedPlan>)
    ensures plan.Some? ==> action.DoLockIn?
  {
    if !action.DoLockIn? then None
    else match ParsedPlan(action.raw, env.cat.spellSlots)
      case Ok(plan) => Some(plan)
      case Err(_) => None
  }

  ghost predicate Starts(env: Env, s: SessionState, action: Action) {
    s.phase == Planning && Act(env, s, action).phase == InBattle
  }

  lemma StartsFromEve(env: Env, s: SessionState, action: Action)
    requires Starts(env, s, action)
    ensures StartBattle(env, Eve(env, s, action)) == Some(Act(env, s, action))
    ensures Eve(env, s, action).phase == Planning
  {
    hide StartInputs, Legal, ParsedPlan;
  }

  lemma LockedTheSame(env: Env, side: Side, s: SessionState, t: SessionState, who: Side, plan: SubmittedPlan, other: SubmittedPlan)
    requires Same(side, s, t) && s.phase == Planning && (who == side ==> plan == other)
    ensures Same(side, Locked(env, s, who, plan), Locked(env, t, who, other))
    ensures who != side ==> Same(side, Locked(env, s, who, plan), t) && Same(side, s, Locked(env, t, who, other))
  {
    hide ResolveLoadout, SameRound;
  }

  lemma EveTheSame(env: Env, side: Side, s: SessionState, t: SessionState, a: Action, b: Action)
    requires Same(side, s, t) && s.phase == Planning
    requires if OfOther(side, a) then OfOther(side, b) else a == b
    ensures Same(side, Eve(env, s, a), Eve(env, t, b))
  {
    hide ResolveLoadout, ParsedPlan, SameRound, Locked;
    if a.DoTick? { return; }
    hide Same;
    var p, q := PlanSent(env, a), PlanSent(env, b);
    if p.Some? && q.Some? {
      LockedTheSame(env, side, s, t, a.lockSide, p.value, q.value);
    } else if p.Some? {
      LockedTheSame(env, side, s, t, a.lockSide, p.value, p.value);
    } else if q.Some? {
      LockedTheSame(env, side, s, t, b.lockSide, q.value, q.value);
    }
  }

  lemma StartTheSame(env: Env, side: Side, s: SessionState, t: SessionState, a: Action, b: Action)
    requires Same(side, s, t) && Starts(env, s, a) && Starts(env, t, b)
    requires if OfOther(side, a) then OfOther(side, b) else a == b
    requires FieldedAlike(side, Act(env, s, a), Act(env, t, b))
    ensures Same(side, Act(env, s, a), Act(env, t, b))
  {
    hide Same, Act, StartBattle, Eve;
    StartsFromEve(env, s, a);
    StartsFromEve(env, t, b);
    assert s.phase == Planning;
    EveTheSame(env, side, s, t, a, b);
    WhistleTheSame(env, side, Eve(env, s, a), Eve(env, t, b));
  }

  /** From the plan screen through the whole battle. Two runs from one planning state in which
      a seat did the same while planning, the battle started the same way, the other seat
      fielded the same troops, and the seat then saw the same happen, leave it looking at one
      snapshot: of the other's plan nothing but the troops ever shows, and of its battle
      nothing but the spells that land. */
  lemma RoundHidesTheOtherSeat(env: Env, side: Side, s: SessionState, left: seq<Action>, right: seq<Action>,
                               a: Action, b: Action, fought: seq<Action>, seen: seq<Action>)
    requires ValidEnv(env) && Inv(env, s)
    requires StaysPlanning(env, s, left) && StaysPlanning(env, s, right) && Mine(side, left) == Mine(side, right)
    requires var l := After(env, s, left);
             var r := After(env, s, right);
      && Starts(env, l, a) && Starts(env, r, b)
      && (if OfOther(side, a) then OfOther(side, b) else a == b)
      && FieldedAlike(side, Act(env, l, a), Act(env, r, b))
      && StaysOut(env, Act(env, l, a), fought) && StaysOut(env, Act(env, r, b), seen)
      && Watched(env, Act(env, l, a), side, fought) == Watched(env, Act(env, r, b), side, seen)
    ensures var x := After(env, Act(env, After(env, s, left), a), fought);
            var y := After(env, Act(env, After(env, s, right), b), seen);
      Same(side, x, y) && SnapshotFor(env, x, side) == SnapshotFor(env, y, side)
  {
    hide ValidEnv, Inv, After, Act, SnapshotFor, StaysPlanning, StaysOut, Watched, Starts, FieldedAlike;
    InvSame(env, side, s);
    PlanningFollowsOwn(env, side, s, s, left);
    PlanningFollowsOwn(env, side, s, s, right);
    var l, r, m := After(env, s, left), After(env, s, right), After(env, s, Mine(side, left));
    hide Same;
    SameBothWays(side, r, m);
    SameChains(side, l, m, r);
    StartTheSame(env, side, l, r, a, b);
    BattleHidesTheOtherSeat(env, side, Act(env, l, a), Act(env, r, b), fought, seen);
  }
}
