/** Hidden information over a whole match, round after round: what a seat is ever sent is a
    function of what it could see happen. */
module MatchSecrecy {
  import opened Common
  import opened JsonText
  import opened Plan
  import opened Round
  import opened Session
  import opened ExactlyOnce
  import opened Wire
  import opened Secrecy

  /** What a seat can see: its own doings and time passing, a battle starting against troops it
      now faces, and the other seat's spells landing. */
  datatype Sight =
    | Doing(action: Action)
    | Whistle(mine: Option<Action>, facing: seq<PlannedTroop>)
    | Landing(cast: ResolvedCast)

  function Facing(s: SessionState, side: Side): seq<PlannedTroop> {
    var plan := s.plans.At(Opposing(side));
    if plan.Some? then plan.value.troops else []
  }

  /** The visible part of one action. The other seat's planning has none until the whistle, its
      refused and repeated casts have none at all. */
  ghost function SightOf(env: Env, s: SessionState, side: Side, action: Action): seq<Sight> {
    if Starts(env, s, action) then
      [Whistle(if OfOther(side, action) then None else Some(action), Facing(Act(env, s, action), side))]
    else if !OfOther(side, action) then [Doing(action)]
    else if s.phase == Planning || NewCasts(env, s, action) == [] then []
    else [Landing(NewCasts(env, s, action)[0])]
  }

  ghost function Sights(env: Env, s: SessionState, side: Side, actions: seq<Action>): seq<Sight>
    decreases |actions|
  {
    if actions == [] then []
    else SightOf(env, s, side, actions[0]) + Sights(env, Act(env, s, actions[0]), side, actions[1..])
  }

  // ---- one action on each side ----

  lemma OtherStaysPlanning(env: Env, side: Side, s: SessionState, action: Action)
    requires s.phase == Planning && OfOther(side, action) && !Starts(env, s, action)
    ensures Act(env, s, action).phase == Planning
  {
    hide StartInputs, Legal, ParsedPlan;
  }

  lemma UnseenChangesNothing(env: Env, side: Side, s: SessionState, action: Action)
    requires Same(side, s, s) && SightOf(env, s, side, action) == []
    ensures Same(side, Act(env, s, action), s)
  {
    hide Act, Same, Starts, NewCasts;
    if s.phase == Planning {
      OtherStaysPlanning(env, side, s, action);
      OtherUnseenInPlanning(env, side, s, s, action);
    } else {
      UnlandedUnseen(env, side, s, action);
    }
  }

  lemma LockInTheSame(env: Env, side: Side, s: SessionState, t: SessionState, raw: Json)
    requires Same(side, s, t) && s.phase == Planning
    requires !Starts(env, s, DoLockIn(side, raw)) && !Starts(env, t, DoLockIn(side, raw))
    requires LockIn(env, s, side, raw) != Err(CannotStart) && LockIn(env, t, side, raw) != Err(CannotStart)
    ensures Same(side, Act(env, s, DoLockIn(side, raw)), Act(env, t, DoLockIn(side, raw)))
  {
    hide StartInputs, Legal, ParsedPlan, SameRound, ResolveLoadout;
  }

  lemma WaitTheSame(env: Env, side: Side, s: SessionState, t: SessionState, seated: bool)
    requires Same(side, s, t) && s.phase == Planning
    requires !Starts(env, s, DoTick(seated)) && !Starts(env, t, DoTick(seated))
    ensures Same(side, Act(env, s, DoTick(seated)), Act(env, t, DoTick(seated)))
  {
    hide StartInputs, SameRound;
  }

  /** A seat's own doing on the plan screen, short of the whistle in either match. */
  lemma PlannedTheSame(env: Env, side: Side, s: SessionState, t: SessionState, action: Action)
    requires ValidEnv(env) && Inv(env, s) && Inv(env, t)
    requires Same(side, s, t) && s.phase == Planning && !OfOther(side, action)
    requires !Starts(env, s, action) && !Starts(env, t, action)
    ensures Same(side, Act(env, s, action), Act(env, t, action))
  {
    hide ValidEnv, Inv, Starts, LockIn, Cast, Tick;
    match action
    case DoLockIn(who, raw) =>
      hide Act, Same;
      LockInInv(env, s, side, raw);
      LockInInv(env, t, side, raw);
      LockInTheSame(env, side, s, t, raw);
    case DoTick(seated) => hide Act, Same; WaitTheSame(env, side, s, t, seated);
    case DoCast(who, command) => hide Same; OwnCastTheSame(env, side, s, t, command);
    case DoAbandon(winner) =>
  }

  lemma StartedHasPlans(env: Env, s: SessionState, action: Action)
    requires ValidEnv(env) && Inv(env, s) && Starts(env, s, action)
    ensures Act(env, s, action).plans.north.Some? && Act(env, s, action).plans.south.Some?
  {
    hide Act, ValidEnv;
    ActInv(env, s, action);
  }

  lemma WhistledTheSame(env: Env, side: Side, s: SessionState, t: SessionState, a: Action, b: Action)
    requires ValidEnv(env) && Inv(env, s) && Inv(env, t) && Same(side, s, t)
    requires Starts(env, s, a) && Starts(env, t, b) && SightOf(env, s, side, a) == SightOf(env, t, side, b)
    ensures Same(side, Act(env, s, a), Act(env, t, b))
  {
    hide ValidEnv, Inv, Act, Same, Starts;
    StartedHasPlans(env, s, a);
    StartedHasPlans(env, t, b);
    assert SightOf(env, s, side, a)[0] == SightOf(env, t, side, b)[0];
    StartTheSame(env, side, s, t, a, b);
  }

  /** Short of the whistle, the other seat is seen only when a cast of its lands. */
  lemma LandedSight(env: Env, side: Side, s: SessionState, action: Action)
    requires OfOther(side, action) && !Starts(env, s, action) && SightOf(env, s, side, action) != []
    ensures s.phase != Planning && NewCasts(env, s, action) != []
    ensures SightOf(env, s, side, action) == [Landing(NewCasts(env, s, action)[0])]
    ensures VisibleOf(env, s, side, action) == [Landed(NewCasts(env, s, action)[0])]
  {
    hide Act, Starts, NewCasts, OfOther;
  }

  lemma LandedAlike(env: Env, side: Side, s: SessionState, t: SessionState, a: Action, b: Action)
    requires Same(side, s, t) && OfOther(side, a) && OfOther(side, b) && !Starts(env, s, a) && !Starts(env, t, b)
    requires SightOf(env, s, side, a) != [] && SightOf(env, s, side, a) == SightOf(env, t, side, b)
    ensures Same(side, Act(env, s, a), Act(env, t, b))
  {
    hide Act, Starts, NewCasts, OfOther, Same, SightOf, VisibleOf;
    LandedSight(env, side, s, a);
    LandedSight(env, side, t, b);
    assert SightOf(env, s, side, a)[0] == SightOf(env, t, side, b)[0];
    LandedTheSame(env, side, s, t, a, b);
  }

  /** Equal sights are of one kind, and one's own doings are equal. */
  lemma SightKinds(env: Env, side: Side, s: SessionState, t: SessionState, a: Action, b: Action)
    requires SightOf(env, s, side, a) != [] && SightOf(env, s, side, a) == SightOf(env, t, side, b)
    ensures Starts(env, s, a) <==> Starts(env, t, b)
    ensures if OfOther(side, a) then OfOther(side, b) else a == b
  {
    hide Act, Starts, NewCasts, OfOther, Facing;
    assert SightOf(env, s, side, a)[0] == SightOf(env, t, side, b)[0];
  }

  lemma PhaseTheSame(side: Side, s: SessionState, t: SessionState)
    requires Same(side, s, t)
    ensures s.phase == t.phase
  {
  }

  /** The same sight in two matches a seat cannot tell apart leaves them so. */
  lemma SeenTheSame(env: Env, side: Side, s: SessionState, t: SessionState, a: Action, b: Action)
    requires ValidEnv(env) && Inv(env, s) && Inv(env, t) && Same(side, s, t)
    requires SightOf(env, s, side, a) != [] && SightOf(env, s, side, a) == SightOf(env, t, side, b)
    ensures Same(side, Act(env, s, a), Act(env, t, b))
  {
    hide ValidEnv, Inv, Act, Same, Starts, SightOf, OfOther;
    PhaseTheSame(side, s, t);
    SightKinds(env, side, s, t, a, b);
    if Starts(env, s, a) {
      WhistledTheSame(env, side, s, t, a, b);
    } else if OfOther(side, a) {
      LandedAlike(env, side, s, t, a, b);
    } else if s.phase == Planning {
      PlannedTheSame(env, side, s, t, a);
    } else {
      OwnTheSame(env, side, s, t, a);
    }
  }

  // ---- whole runs ----

  lemma {:induction false} MatchFollowsSights(env: Env, side: Side, s: SessionState, t: SessionState,
                                              left: seq<Action>, right: seq<Action>)
    requires ValidEnv(env) && Inv(env, s) && Inv(env, t) && Same(side, s, t)
    requires Sights(env, s, side, left) == Sights(env, t, side, right)
    ensures Same(side, After(env, s, left), After(env, t, right))
    decreases |left| + |right|
  {
    hide ValidEnv, Inv, Act, Same, SightOf;
    SameBothWays(side, s, t);
    if left != [] && SightOf(env, s, side, left[0]) == [] {
      var next := Act(env, s, left[0]);
      UnseenChangesNothing(env, side, s, left[0]);
      SameChains(side, next, s, t);
      ActInv(env, s, left[0]);
      assert Sights(env, s, side, left) == Sights(env, next, side, left[1..]);
      MatchFollowsSights(env, side, next, t, left[1..], right);
    } else if right != [] && SightOf(env, t, side, right[0]) == [] {
      var next := Act(env, t, right[0]);
      UnseenChangesNothing(env, side, t, right[0]);
      SameBothWays(side, next, t);
      SameChains(side, s, t, next);
      ActInv(env, t, right[0]);
      assert Sights(env, t, side, right) == Sights(env, next, side, right[1..]);
      MatchFollowsSights(env, side, s, next, left, right[1..]);
    } else if left != [] && right != [] {
      FirstSight(env, side, s, t, left, right);
      SeenTheSame(env, side, s, t, left[0], right[0]);
      ActInv(env, s, left[0]);
      ActInv(env, t, right[0]);
      MatchFollowsSights(env, side, Act(env, s, left[0]), Act(env, t, right[0]), left[1..], right[1..]);
    } else {
      assert left == [] && right == [] by { LastSight(env, side, s, t, left, right); }
    }
  }

  lemma LastSight(env: Env, side: Side, s: SessionState, t: SessionState, left: seq<Action>, right: seq<Action>)
    requires Sights(env, s, side, left) == Sights(env, t, side, right) && (left == [] || right == [])
    requires left != [] ==> SightOf(env, s, side, left[0]) != []
    requires right != [] ==> SightOf(env, t, side, right[0]) != []
    ensures left == [] && right == []
  {
    hide Act, SightOf;
  }

  lemma FirstSight(env: Env, side: Side, s: SessionState, t: SessionState, left: seq<Action>, right: seq<Action>)
    requires left != [] && right != [] && Sights(env, s, side, left) == Sights(env, t, side, right)
    requires SightOf(env, s, side, left[0]) != [] && SightOf(env, t, side, right[0]) != []
    ensures SightOf(env, s, side, left[0]) == SightOf(env, t, side, right[0])
    ensures Sights(env, Act(env, s, left[0]), side, left[1..]) == Sights(env, Act(env, t, right[0]), side, right[1..])
  {
    var l, r := SightOf(env, s, side, left[0]), SightOf(env, t, side, right[0]);
    assert |l| == 1 && |r| == 1;
    hide Act, SightOf;
    assert Sights(env, s, side, left)[0] == l[0] && Sights(env, t, side, right)[0] == r[0];
    assert Sights(env, s, side, left)[1..] == Sights(env, Act(env, s, left[0]), side, left[1..]);
    assert Sights(env, t, side, right)[1..] == Sights(env, Act(env, t, right[0]), side, right[1..]);
  }

  /** Two whole matches on one server, however many rounds, in which a seat saw the same things
      happen, have sent it the same: of what the other seat planned only the troops it fielded,
      and of what it did only the spells that landed, ever reach a snapshot. */
  lemma MatchHidesTheOtherSeat(env: Env, side: Side, left: seq<Action>, right: seq<Action>)
    requires ValidEnv(env)
    requires Sights(env, OpenSession(env), side, left) == Sights(env, OpenSession(env), side, right)
    ensures var l, r := Run(env, left).now, Run(env, right).now;
      Same(side, l, r) && SnapshotFor(env, l, side) == SnapshotFor(env, r, side)
  {
    hide ValidEnv, Inv, Act, After, SnapshotFor, Sights;
    var start := OpenSession(env);
    OpenSessionInv(env);
    InvSame(env, side, start);
    hide Same, OpenSession;
    MatchFollowsSights(env, side, start, start, left, right);
    AfterIsRun(env, History(start, []), left);
    AfterIsRun(env, History(start, []), right);
    SameSnapshots(env, side, After(env, start, left), After(env, start, right));
  }
}
