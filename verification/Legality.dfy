/** What may and may not be among a unit's candidates. */
module Legality {
  import opened Common
  import opened Ordering
  import opened BattleWorld
  import opened Geometry
  import opened Coordination
  import opened Allocation
  import opened Observing
  import opened Pursuit
  import opened Candidates

  // ---- order and uniqueness ----

  lemma KeysAreTotal()
    ensures TotalPreorder(InKeyOrder)
  {
    hide KeyOf;
    forall a, b ensures InKeyOrder(a, b) || InKeyOrder(b, a) {
      TextTotal(KeyOf(a).target, KeyOf(b).target);
      TextTotal(KeyOf(a).ability, KeyOf(b).ability);
    }
    forall a, b, c | InKeyOrder(a, b) && InKeyOrder(b, c) ensures InKeyOrder(a, c) {
      KeysChain(KeyOf(a), KeyOf(b), KeyOf(c));
    }
  }

  lemma KeysChain(a: Key, b: Key, c: Key)
    requires KeyLeq(a, b) && KeyLeq(b, c)
    ensures KeyLeq(a, c)
  {
    if a.kind == b.kind == c.kind {
      if a.target == b.target == c.target {
        if a.ability != b.ability && b.ability != c.ability {
          TextTransitive(a.ability, b.ability, c.ability);
          if a.ability == c.ability { TextAntisymmetric(a.ability, b.ability); }
        }
      } else if a.target != b.target && b.target != c.target {
        TextTransitive(a.target, b.target, c.target);
        if a.target == c.target { TextAntisymmetric(a.target, b.target); }
      }
    }
  }

  ghost predicate DistinctKeys(s: seq<Candidate>) {
    forall i, j :: 0 <= i < j < |s| ==> KeyOf(s[i]) != KeyOf(s[j])
  }

  lemma KeysAppend(s: seq<Candidate>, c: Candidate)
    ensures Keys(s + [c]) == Keys(s) + {KeyOf(c)}
  {
    hide KeyOf;
    assert forall x :: x in s + [c] <==> x in s || x == c;
  }

  lemma DistinctAppend(s: seq<Candidate>, c: Candidate)
    requires DistinctKeys(s) && KeyOf(c) !in Keys(s)
    ensures DistinctKeys(s + [c])
  {
    hide KeyOf;
    forall i | 0 <= i < |s| ensures KeyOf(s[i]) in Keys(s) { assert s[i] in s; }
  }

  lemma {:induction false} FirstOfEachIs(s: seq<Candidate>)
    ensures DistinctKeys(FirstOfEach(s))
    ensures Keys(FirstOfEach(s)) == Keys(s)
    ensures forall c :: c in FirstOfEach(s) ==> c in s
    ensures s != [] ==> FirstOfEach(s) != [] && FirstOfEach(s)[0] == s[0]
  {
    hide KeyOf, Keys, DistinctKeys;
    if s == [] {
      assert FirstOfEach(s) == s;
      ShortIsDistinct(s);
    } else {
      var front, last := s[..|s| - 1], s[|s| - 1];
      FirstOfEachIs(front);
      if front == [] { ShortIsDistinct(FirstOfEach(front)); }
      assert s == front + [last];
      KeysAppend(front, last);
      KeysAppend(FirstOfEach(front), last);
      if KeyOf(last) !in Keys(FirstOfEach(front)) { DistinctAppend(FirstOfEach(front), last); }
    }
  }

  lemma ShortIsDistinct(s: seq<Candidate>)
    requires |s| <= 1
    ensures DistinctKeys(s)
    ensures s == [] ==> Keys(s) == {}
  {
  }

  /** Candidates come out in strict key order, nothing twice, every offer under its key, and
      holding still always among them. */
  lemma CandidatesAreSorted(senses: Senses, o: Observation)
    ensures var found := CandidatesOf(senses, o);
      && (forall i, j :: 0 <= i < j < |found| ==> KeyLeq(KeyOf(found[i]), KeyOf(found[j])) && KeyOf(found[i]) != KeyOf(found[j]))
      && HoldCandidate(o) in found
      && (forall c :: c in found ==> c in Offered(senses, o))
      && (forall c :: c in Offered(senses, o) ==> KeyOf(c) in Keys(found))
  {
    hide KeyOf, MovingCandidates, AttackCandidates, CastCandidates, HoldCandidate, KeyLeq;
    var offered := Offered(senses, o);
    var first, found := FirstOfEach(offered), CandidatesOf(senses, o);
    FirstOfEachIs(offered);
    KeysAreTotal();
    SortKeeps(InKeyOrder, first);
    assert forall c :: c in found <==> c in first;
    assert first[0] == HoldCandidate(o);
    SortKeepsKeysApart(first);
    assert Keys(found) == Keys(first);
    assert Sorted(InKeyOrder, found);
    forall i, j | 0 <= i < j < |found| ensures KeyLeq(KeyOf(found[i]), KeyOf(found[j])) {
      assert InKeyOrder(found[i], found[j]);
    }
  }

  lemma SortKeepsKeysApart(s: seq<Candidate>)
    requires DistinctKeys(s)
    ensures DistinctKeys(Sort(InKeyOrder, s))
  {
    hide KeyOf;
    var t := Sort(InKeyOrder, s);
    SortCounts(InKeyOrder, s);
    SameElements(t, s);
    forall i, j | 0 <= i < j < |t| ensures KeyOf(t[i]) != KeyOf(t[j]) {
      if t[i] == t[j] { TwiceInBoth(s, t, i, j); }
      assert t[i] in s && t[j] in s;
    }
  }

  // ---- who is offered what ----

  lemma {:induction false} EachMembers(offer: Unit -> seq<Candidate>, units: seq<Unit>)
    ensures forall c :: c in Each(offer, units) <==> exists u :: u in units && c in offer(u)
  {
    if units != [] {
      var front, last := units[..|units| - 1], units[|units| - 1];
      EachMembers(offer, front);
      assert units == front + [last];
      forall c ensures c in Each(offer, units) <==> exists u :: u in units && c in offer(u) {
        if c in offer(last) { assert last in units; }
      }
    }
  }

  /** Where a candidate can have come from. */
  ghost predicate FromApproach(plane: Plane, o: Observation, c: Candidate, e: Unit) {
    && e in o.enemies && CanMove(o.unit) && CanAttack(o.unit) && MayAnswer(plane, o, e) && !InReach(plane, o, e)
    && c in ApproachCandidates(plane, o, e)
  }

  ghost predicate FromWithdrawal(plane: Plane, o: Observation, c: Candidate, e: Unit) {
    e in o.enemies && CanMove(o.unit) && CanAttack(o.unit) && MayAnswer(plane, o, e) && c in WithdrawCandidate(plane, o, e)
  }

  /** Seen once each, an enemy is answered only if it may be. */
  lemma AnswerableMeansAllowed(plane: Plane, o: Observation, e: Unit)
    requires DistinctUnits(o.enemies)
    ensures e in Answerable(plane, o) <==> e in o.enemies && e.id in Wanted(plane, o) && MayAnswer(plane, o, e)
  {
    hide MayAnswer, Wanted;
    FilterMembers((u: Unit) => u.id in Wanted(plane, o) && u.id in EligibleTargets(plane, o), o.enemies);
    if e in o.enemies && MayAnswer(plane, o, e) { assert e.id in EligibleTargets(plane, o); }
    if e in o.enemies && e.id in EligibleTargets(plane, o) {
      var f :| f in o.enemies && MayAnswer(plane, o, f) && f.id == e.id;
    }
  }

  lemma MovingFamilies(senses: Senses, o: Observation, c: Candidate)
    requires DistinctUnits(o.enemies) && c in MovingCandidates(senses, o)
    ensures CanMove(o.unit) && Moves(c.kind)
    ensures || c in StationCandidates(senses.plane, o)
            || c in RetreatCandidates(senses, o)
            || (exists e :: FromApproach(senses.plane, o, c, e))
            || (exists e :: FromWithdrawal(senses.plane, o, c, e))
  {
    hide MayAnswer, Wanted, Answerable, InReach, UsefulRange, ClosingIn, ApproachTo, ClosingReason, ProtectedBy, BaseIsOffLimits;
    var plane := senses.plane;
    var answerable := Answerable(plane, o);
    EachMembers((e: Unit) => ApproachCandidates(plane, o, e), answerable);
    EachMembers((e: Unit) => WithdrawCandidate(plane, o, e), answerable);
    if c !in StationCandidates(plane, o) && c !in RetreatCandidates(senses, o) {
      if c in Each((e: Unit) => ApproachCandidates(plane, o, e), answerable) {
        var e :| e in answerable && c in ApproachCandidates(plane, o, e);
        AnswerableMeansAllowed(plane, o, e);
        assert FromApproach(plane, o, c, e);
      } else {
        var e :| e in answerable && c in WithdrawCandidate(plane, o, e);
        AnswerableMeansAllowed(plane, o, e);
        assert FromWithdrawal(plane, o, c, e);
      }
    }
  }

  lemma OfferedFamilies(senses: Senses, o: Observation, c: Candidate)
    requires DistinctUnits(o.enemies) && c in Offered(senses, o)
    ensures || c == HoldCandidate(o)
            || c in MovingCandidates(senses, o)
            || (c.kind == Attack && CanAttack(o.unit) && exists e :: e in o.enemies && c.targetId == Some(e.id) && InReach(senses.plane, o, e))
            || (c.kind == SpendAbility && o.ability.Some? && o.energy >= o.ability.value.energyCost)
  {
    hide MovingCandidates, InReach;
    var plane := senses.plane;
    EachMembers((e: Unit) => AttackCandidate(plane, o, e), o.enemies);
    if c in CastCandidates(plane, o) && !o.ability.value.onSelf {
      EachMembers((e: Unit) => CastAt(plane, o, o.ability.value, e), o.enemies);
    }
  }

  /** An advance at an enemy is an approach: from outside reach, by something that moves and
      fights, at something its bounds let it answer. */
  lemma TargetedAdvanceIsApproach(senses: Senses, o: Observation, c: Candidate)
    requires DistinctUnits(o.enemies) && c in CandidatesOf(senses, o)
    requires c.kind == Advance && c.targetId.Some?
    ensures exists e :: FromApproach(senses.plane, o, c, e) && e.id == c.targetId.value
  {
    hide CandidatesOf, Offered, MovingCandidates, MayAnswer, ApproachTo, ProtectedBy, ClosingReason, BaseIsOffLimits;
    CandidatesAreSorted(senses, o);
    OfferedFamilies(senses, o, c);
    MovingFamilies(senses, o, c);
    var e :| FromApproach(senses.plane, o, c, e);
    ApproachNamesTarget(senses.plane, o, e, c);
  }

  lemma ApproachNamesTarget(plane: Plane, o: Observation, target: Unit, c: Candidate)
    requires c in ApproachCandidates(plane, o, target)
    ensures !InReach(plane, o, target)
    ensures c.kind == Advance && c.targetId == Some(target.id) && c.reason != Engaging && c.destination.Some?
    ensures !BaseIsOffLimits(o, c.destination.value)
    ensures c.destination.value == ApproachTo(plane, o, target)
            || exists covered :: c.destination.value == PointAlong(plane, target.position, covered, UsefulRange(o.unit))
  {
    hide ApproachTo, ProtectedBy, PointAlong, UsefulRange, GapTo;
  }

  /** While it recovers, a unit is offered no advance at any enemy at all. */
  lemma RecoveryStopsChasing(senses: Senses, o: Observation, c: Candidate)
    requires DistinctUnits(o.enemies) && o.mind.recovery > 0 && c in CandidatesOf(senses, o)
    ensures c.kind == Advance ==> c.targetId.None?
  {
    hide CandidatesOf, WorthChasing, InReach, ApproachCandidates;
    if c.kind == Advance && c.targetId.Some? { TargetedAdvanceIsApproach(senses, o, c); }
  }

  /** No advance is ever called engaging: closing is offered only from outside reach. */
  lemma AdvanceIsNeverEngaging(senses: Senses, o: Observation, c: Candidate)
    requires DistinctUnits(o.enemies) && c in CandidatesOf(senses, o)
    requires c.kind == Advance && c.targetId.Some?
    ensures c.reason != Engaging
  {
    hide CandidatesOf, MayAnswer, InReach, ApproachCandidates;
    TargetedAdvanceIsApproach(senses, o, c);
    var e :| FromApproach(senses.plane, o, c, e) && e.id == c.targetId.value;
    ApproachNamesTarget(senses.plane, o, e, c);
  }

  /** What cannot move is offered no step, and what cannot strike no blow. */
  lemma CapabilitiesComeFirst(senses: Senses, o: Observation, c: Candidate)
    requires DistinctUnits(o.enemies) && c in CandidatesOf(senses, o)
    ensures Moves(c.kind) ==> CanMove(o.unit)
    ensures c.kind == Attack || c.kind == Withdraw || (c.kind == Advance && c.targetId.Some?) ==> CanAttack(o.unit)
    ensures c.kind == Attack ==> exists e :: e in o.enemies && c.targetId == Some(e.id) && InReach(senses.plane, o, e)
    ensures c.kind == SpendAbility ==> o.ability.Some? && o.energy >= o.ability.value.energyCost
  {
    hide CandidatesOf, Offered, MovingCandidates, MayAnswer, InReach, ApproachTo, ProtectedBy, ClosingReason, BaseIsOffLimits, UsefulRange, ClosingIn;
    CandidatesAreSorted(senses, o);
    OfferedFamilies(senses, o, c);
    if c in MovingCandidates(senses, o) { MovingFamilies(senses, o, c); }
  }

  /** Every enemy in an armed unit's reach is offered as a target. */
  lemma EveryTargetInReachIsOffered(senses: Senses, o: Observation, e: Unit)
    requires CanAttack(o.unit) && e in o.enemies && InReach(senses.plane, o, e)
    ensures exists c :: c in CandidatesOf(senses, o) && c.kind == Attack && Text(c.targetId) == e.id
  {
    hide MovingCandidates, InReach, CastCandidates;
    var swing := Candidate(Attack, Some(e.id), None, None, Engaging, None);
    EachMembers((u: Unit) => AttackCandidate(senses.plane, o, u), o.enemies);
    assert swing in AttackCandidate(senses.plane, o, e);
    assert swing in Offered(senses, o);
    CandidatesAreSorted(senses, o);
    var c :| c in CandidatesOf(senses, o) && KeyOf(c) == KeyOf(swing);
    assert Declared(c.kind) == Declared(Attack);
  }

  // ---- where candidates lead ----

  lemma StandsAt(plane: Plane, target: Vec2, bearing: Vec2, gap: real)
    requires ValidPlane(plane) && gap >= 0.0
    ensures Distance(plane, PointAlong(plane, target, bearing, gap), target) == if target == bearing then 0.0 else gap
  {
    hide ValidPlane, Distance;
    DistanceFacts(plane, target, bearing);
    DistanceFacts(plane, target, target);
    if target != bearing {
      PointStands(plane, target, bearing, gap);
      DistanceFacts(plane, target, PointAlong(plane, target, bearing, gap));
    }
  }

  /** An advance at an enemy, approach or screen, always ends nearer it than it began. */
  lemma AdvanceClosesIn(senses: Senses, o: Observation, c: Candidate)
    requires ValidPlane(senses.plane) && DistinctUnits(o.enemies) && o.unit.range >= 0.0
    requires c in CandidatesOf(senses, o) && c.kind == Advance && c.targetId.Some?
    ensures c.destination.Some?
    ensures exists e :: e in o.enemies && e.id == c.targetId.value
                        && Distance(senses.plane, c.destination.value, e.position) < GapTo(senses.plane, o, e)
  {
    hide ValidPlane, CandidatesOf, MayAnswer, ApproachCandidates, PointAlong, Distance;
    var plane := senses.plane;
    TargetedAdvanceIsApproach(senses, o, c);
    var e :| FromApproach(plane, o, c, e) && e.id == c.targetId.value;
    ApproachNamesTarget(plane, o, e, c);
    var gap := UsefulRange(o.unit);
    if c.destination.value == ApproachTo(plane, o, e) {
      StandsAt(plane, e.position, o.unit.position, gap);
    } else {
      var covered :| c.destination.value == PointAlong(plane, e.position, covered, gap);
      StandsAt(plane, e.position, covered, gap);
    }
  }

  /** A withdrawal ends at useful range and opens the gap, unless the two stand on one spot,
      where there is no line to back away along. */
  lemma WithdrawalOpensTheGap(plane: Plane, o: Observation, e: Unit, c: Candidate)
    requires ValidPlane(plane) && o.unit.range >= 0.0 && c in WithdrawCandidate(plane, o, e)
    ensures c.destination.Some?
    ensures o.unit.position != e.position
       <==> Distance(plane, c.destination.value, e.position) > GapTo(plane, o, e)
    ensures o.unit.position != e.position ==> Distance(plane, c.destination.value, e.position) == UsefulRange(o.unit)
  {
    hide ValidPlane, Distance, PointAlong, ClosingIn;
    StandsAt(plane, e.position, o.unit.position, UsefulRange(o.unit));
    DistanceFacts(plane, o.unit.position, e.position);
  }

  /** A unit not ordered to push is never offered the enemy base to advance on or retreat to. */
  lemma BaseStaysOffLimits(senses: Senses, o: Observation, c: Candidate)
    requires DistinctUnits(o.enemies) && c in CandidatesOf(senses, o)
    requires (c.kind == Advance || c.kind == Retreat) && !o.orders.mayAttackBase
    ensures c.destination.Some? && c.destination.value != o.orders.enemyBase
  {
    hide CandidatesOf, Offered, MovingCandidates, MayAnswer, InReach, ApproachCandidates, ApproachTo, UsefulRange, ClosingIn;
    CandidatesAreSorted(senses, o);
    OfferedFamilies(senses, o, c);
    MovingFamilies(senses, o, c);
    if exists e :: FromApproach(senses.plane, o, c, e) {
      var e :| FromApproach(senses.plane, o, c, e);
      ApproachNamesTarget(senses.plane, o, e, c);
    }
  }

  /** What a withdrawal that lands on the enemy base takes: an answerable enemy outranged,
      nearer than useful range and closing in, with the base just where useful range is. */
  predicate BacksOntoBase(plane: Plane, o: Observation, e: Unit) {
    && o.unit.range > e.range && GapTo(plane, o, e) < UsefulRange(o.unit) && ClosingIn(e, GapTo(plane, o, e))
    && ApproachTo(plane, o, e) == o.orders.enemyBase
  }

  /** What is offered that names a place: holding, or one of the moving families. */
  lemma OnlyMovesNameAPlace(senses: Senses, o: Observation, c: Candidate)
    requires c in Offered(senses, o)
    ensures c.destination.Some? || Moves(c.kind) || c.kind == Hold ==> c == HoldCandidate(o) || c in MovingCandidates(senses, o)
  {
    hide MovingCandidates, InReach;
    var plane := senses.plane;
    EachMembers((e: Unit) => AttackCandidate(plane, o, e), o.enemies);
    if c in CastCandidates(plane, o) && !o.ability.value.onSelf {
      EachMembers((e: Unit) => CastAt(plane, o, o.ability.value, e), o.enemies);
    }
  }

  lemma WithdrawalsOffered(senses: Senses, o: Observation, c: Candidate)
    requires c.kind == Withdraw
    ensures c in MovingCandidates(senses, o)
       <==> CanMove(o.unit) && CanAttack(o.unit) && exists e :: e in Answerable(senses.plane, o) && c in WithdrawCandidate(senses.plane, o, e)
  {
    hide Answerable, ApproachCandidates, WithdrawCandidate, BaseIsOffLimits, Distance;
    var plane := senses.plane;
    EachMembers((e: Unit) => ApproachCandidates(plane, o, e), Answerable(plane, o));
    EachMembers((e: Unit) => WithdrawCandidate(plane, o, e), Answerable(plane, o));
    forall e | c in ApproachCandidates(plane, o, e) ensures false { ApproachNamesTarget(plane, o, e, c); }
  }

  lemma WithdrawalPlace(plane: Plane, o: Observation, e: Unit, c: Candidate)
    requires c in WithdrawCandidate(plane, o, e)
    ensures c.kind == Withdraw && c.destination == Some(ApproachTo(plane, o, e))
    ensures ApproachTo(plane, o, e) == o.orders.enemyBase ==> BacksOntoBase(plane, o, e)
  {
    hide ApproachTo, UsefulRange, ClosingIn, GapTo;
  }

  lemma KeyFixesKind(a: Candidate, b: Candidate)
    requires KeyOf(a) == KeyOf(b)
    ensures a.kind == b.kind
    ensures a.destination.Some? && b.destination.Some? ==> a.destination == b.destination
  {
    assert Declared(a.kind) == Declared(b.kind);
  }

  /** An offer to back off onto the base survives deduplication and sorting. */
  lemma WithdrawalIsKept(senses: Senses, o: Observation, e: Unit)
    requires CanMove(o.unit) && CanAttack(o.unit) && e in Answerable(senses.plane, o) && BacksOntoBase(senses.plane, o, e)
    ensures exists c :: c in CandidatesOf(senses, o) && c.kind == Withdraw && c.destination == Some(o.orders.enemyBase)
  {
    hide CandidatesOf, MovingCandidates, Answerable, ApproachTo, UsefulRange, ClosingIn, GapTo, KeyOf;
    var back := Candidate(Withdraw, Some(e.id), None, Some(o.orders.enemyBase), MaintainingRange, None);
    assert back in WithdrawCandidate(senses.plane, o, e);
    WithdrawalsOffered(senses, o, back);
    CandidatesAreSorted(senses, o);
    var c :| c in CandidatesOf(senses, o) && KeyOf(c) == KeyOf(back);
    KeyFixesKind(c, back);
    OnlyMovesNameAPlace(senses, o, c);
    WithdrawalsOffered(senses, o, c);
  }

  lemma BaseMeansWithdrawal(senses: Senses, o: Observation, c: Candidate)
    requires DistinctUnits(o.enemies) && !o.orders.mayAttackBase
    requires c in CandidatesOf(senses, o) && c.kind != Hold && c.destination == Some(o.orders.enemyBase)
    ensures CanMove(o.unit) && CanAttack(o.unit)
    ensures exists e :: e in Answerable(senses.plane, o) && BacksOntoBase(senses.plane, o, e)
  {
    hide CandidatesOf, Offered, MovingCandidates, Answerable, WithdrawCandidate, BacksOntoBase;
    CandidatesAreSorted(senses, o);
    OnlyMovesNameAPlace(senses, o, c);
    MovingFamilies(senses, o, c);
    if c.kind == Advance || c.kind == Retreat { BaseStaysOffLimits(senses, o, c); }
    WithdrawalsOffered(senses, o, c);
    var e :| e in Answerable(senses.plane, o) && c in WithdrawCandidate(senses.plane, o, e);
    WithdrawalPlace(senses.plane, o, e, c);
  }

  /** Exactly when a unit not ordered to push is offered the enemy base to move to: when
      backing off to useful range from an enemy it answers lands there. Holding is a place too,
      so standing on the base it is offered the base as well. */
  lemma BaseIsOfferedExactly(senses: Senses, o: Observation)
    requires DistinctUnits(o.enemies) && !o.orders.mayAttackBase
    ensures (exists c :: c in CandidatesOf(senses, o) && c.kind != Hold && c.destination == Some(o.orders.enemyBase))
       <==> CanMove(o.unit) && CanAttack(o.unit) && exists e :: e in Answerable(senses.plane, o) && BacksOntoBase(senses.plane, o, e)
    ensures (exists c :: c in CandidatesOf(senses, o) && c.kind == Hold && c.destination == Some(o.orders.enemyBase))
       <==> o.unit.position == o.orders.enemyBase
  {
    hide CandidatesOf, Offered, MovingCandidates, Answerable, BacksOntoBase;
    var plane, base := senses.plane, o.orders.enemyBase;
    CandidatesAreSorted(senses, o);
    forall c | c in CandidatesOf(senses, o) && c.destination == Some(base)
      ensures c.kind == Hold ==> c == HoldCandidate(o)
      ensures c.kind != Hold ==> CanMove(o.unit) && CanAttack(o.unit) && exists e :: e in Answerable(plane, o) && BacksOntoBase(plane, o, e)
    {
      OnlyMovesNameAPlace(senses, o, c);
      if c.kind == Hold && c != HoldCandidate(o) { MovingFamilies(senses, o, c); }
      if c.kind != Hold { BaseMeansWithdrawal(senses, o, c); }
    }
    if CanMove(o.unit) && CanAttack(o.unit) && exists e :: e in Answerable(plane, o) && BacksOntoBase(plane, o, e) {
      var e :| e in Answerable(plane, o) && BacksOntoBase(plane, o, e);
      WithdrawalIsKept(senses, o, e);
    }
  }

  function Skirmisher(id: string, side: Side, position: Vec2, range: real): Unit {
    Unit(id, "skirmisher", Summon, side, "t", 10.0, 1.0, range, 1.0, 10.0, position, false, 0.0)
  }

  /** An archer with a brawler two units away, and the enemy base nine units behind it. */
  const CORNERED: Observation :=
    Observation(Skirmisher("a", North, Vec2(2.0, 0.0), 10.0), Orders(Vec2(2.0, 0.0), false, Vec2(9.0, 0.0)),
                [Skirmisher("b", South, Vec2(0.0, 0.0), 5.0)], [], 0.0, None, 0, 0.05, None, BLANK_MIND)

  lemma NineAlong(plane: Plane)
    requires Distance(plane, Vec2(0.0, 0.0), Vec2(2.0, 0.0)) == 2.0
    ensures PointAlong(plane, Vec2(0.0, 0.0), Vec2(2.0, 0.0), 9.0) == Vec2(9.0, 0.0)
  {
    hide Distance;
    assert 9.0 / 2.0 == 4.5;
  }

  lemma CorneredMeasures(plane: Plane)
    requires ValidPlane(plane)
    ensures GapTo(plane, CORNERED, CORNERED.enemies[0]) == 2.0
    ensures UsefulRange(CORNERED.unit) == 9.0
    ensures PointAlong(plane, CORNERED.enemies[0].position, CORNERED.unit.position, 9.0) == Vec2(9.0, 0.0)
  {
    hide ValidPlane, Distance, PointAlong;
    DistanceAcross(plane, Vec2(0.0, 0.0), Vec2(2.0, 0.0), 2.0);
    DistanceFacts(plane, Vec2(0.0, 0.0), Vec2(2.0, 0.0));
    NineAlong(plane);
  }

  lemma CorneredBacksOff(plane: Plane)
    requires ValidPlane(plane)
    ensures CORNERED.enemies[0] in Answerable(plane, CORNERED) && BacksOntoBase(plane, CORNERED, CORNERED.enemies[0])
  {
    hide ValidPlane, Distance, PointAlong, UsefulRange, GapTo;
    CorneredMeasures(plane);
    var o, e := CORNERED, CORNERED.enemies[0];
    assert e.id in Wanted(plane, o);
    assert MayAnswer(plane, o, e);
    AnswerableMeansAllowed(plane, o, e);
  }

  /** Withdrawing is not guarded as advancing is: here it lands on the base. */
  lemma WithdrawalCanHeadForTheBase(senses: Senses)
    requires ValidPlane(senses.plane)
    ensures !CORNERED.orders.mayAttackBase
    ensures exists c :: c in CandidatesOf(senses, CORNERED) && c.kind == Withdraw && c.destination == Some(CORNERED.orders.enemyBase)
  {
    hide ValidPlane, CandidatesOf, Answerable, BacksOntoBase;
    CorneredBacksOff(senses.plane);
    WithdrawalIsKept(senses, CORNERED, CORNERED.enemies[0]);
  }
}
