/** Everything a unit is offered and nothing else, family by family, read off what it sees. */
module Offers {
  import opened Common
  import opened Ordering
  import opened BattleWorld
  import opened Geometry
  import opened Coordination
  import opened Allocation
  import opened Observing
  import opened Pursuit
  import opened Candidates
  import opened Legality

  function Apart(plane: Plane, o: Observation, e: Unit): real {
    Distance(plane, o.unit.position, e.position)
  }

  predicate Reaches(plane: Plane, o: Observation, e: Unit) {
    Apart(plane, o, e) <= o.unit.range
  }

  /** Nine tenths of its reach from an enemy, on the line back toward the unit. */
  function StandOff(plane: Plane, o: Observation, e: Unit): Vec2 {
    PointAlong(plane, e.position, o.unit.position, o.unit.range * 0.9)
  }

  /** Worth answering at all: in reach, or, unless it is recovering, near enough to where its
      leash is tied to be walked to. */
  predicate InBounds(plane: Plane, o: Observation, e: Unit) {
    || Reaches(plane, o, e)
    || (&& o.mind.recovery == 0 && o.unit.speed > 0.0
        && Distance(plane, if o.mind.commitment.Some? then o.mind.commitment.value.origin else o.unit.position, StandOff(plane, o, e)) <= 96.0)
  }

  predicate NearestOf(plane: Plane, o: Observation, e: Unit) {
    forall f :: f in o.enemies ==> Apart(plane, o, e) < Apart(plane, o, f) || (Apart(plane, o, e) == Apart(plane, o, f) && TextLeq(e.id, f.id))
  }

  predicate Assigned(o: Observation, e: Unit) {
    o.assignment.Some? && o.assignment.value.targetId == e.id
  }

  predicate Chased(o: Observation, e: Unit) {
    o.mind.commitment.Some? && o.mind.commitment.value.targetId == e.id
  }

  /** An enemy the unit answers: sent against it, chasing it already, or nearest it. */
  predicate Answered(plane: Plane, o: Observation, e: Unit) {
    e in o.enemies && InBounds(plane, o, e) && (Assigned(o, e) || Chased(o, e) || NearestOf(plane, o, e))
  }

  predicate OffLimits(o: Observation, place: Vec2) {
    !o.orders.mayAttackBase && place == o.orders.enemyBase
  }

  predicate Fights(o: Observation) {
    o.unit.speed > 0.0 && o.unit.damage > 0.0
  }

  // ---- the families ----

  predicate IsReturn(plane: Plane, o: Observation, c: Candidate) {
    && o.unit.speed > 0.0 && Distance(plane, o.unit.position, o.orders.station) > 0.000000001 && !OffLimits(o, o.orders.station)
    && c == Candidate(Advance, None, None, Some(o.orders.station), if o.mind.recovery > 0 then ReturnedToStation else PressingObjective, None)
  }

  predicate IsClosing(plane: Plane, o: Observation, c: Candidate, e: Unit) {
    && Fights(o) && Answered(plane, o, e) && !Reaches(plane, o, e) && !OffLimits(o, StandOff(plane, o, e))
    && c == Candidate(Advance, Some(e.id), None, Some(StandOff(plane, o, e)),
                      if Chased(o, e) then Pursuing else if Assigned(o, e) then Intercepting else PursuitStarted, None)
  }

  predicate IsScreen(plane: Plane, o: Observation, c: Candidate, e: Unit) {
    var covered := ProtectedBy(plane, o, e);
    var screen := PointAlong(plane, e.position, covered.position, o.unit.range * 0.9);
    && Fights(o) && Answered(plane, o, e) && !Reaches(plane, o, e)
    && Distance(plane, o.unit.position, screen) > 0.000000001 && !OffLimits(o, screen)
    && c == Candidate(Advance, Some(e.id), None, Some(screen), if covered.named then Screening else ScreeningInferred, covered.unitId)
  }

  predicate IsWithdrawal(plane: Plane, o: Observation, c: Candidate, e: Unit) {
    && Fights(o) && Answered(plane, o, e)
    && o.unit.range > e.range && Apart(plane, o, e) < o.unit.range * 0.9 && Apart(plane, o, e) <= e.range + e.speed
    && c == Candidate(Withdraw, Some(e.id), None, Some(StandOff(plane, o, e)), MaintainingRange, None)
  }

  predicate IsRetreat(senses: Senses, o: Observation, c: Candidate) {
    && o.unit.speed > 0.0 && senses.giveGround(o).Some? && !OffLimits(o, senses.giveGround(o).value)
    && c == Candidate(Retreat, None, None, senses.giveGround(o), Retreating, None)
  }

  predicate IsAttack(plane: Plane, o: Observation, c: Candidate, e: Unit) {
    o.unit.damage > 0.0 && e in o.enemies && Reaches(plane, o, e) && c == Candidate(Attack, Some(e.id), None, None, Engaging, None)
  }

  predicate Charged(o: Observation) {
    o.ability.Some? && o.energy >= o.ability.value.energyCost
  }

  predicate IsCastAt(plane: Plane, o: Observation, c: Candidate, e: Unit) {
    && Charged(o) && !o.ability.value.onSelf && e in o.enemies
    && Apart(plane, o, e) <= (if o.ability.value.range.Some? then o.ability.value.range.value else o.unit.range)
    && c == Candidate(SpendAbility, Some(e.id), Some(o.ability.value.id), None, Engaging, None)
  }

  predicate IsCastOnSelf(o: Observation, c: Candidate) {
    Charged(o) && o.ability.value.onSelf && c == Candidate(SpendAbility, None, Some(o.ability.value.id), None, Engaging, None)
  }

  ghost predicate IsOffer(senses: Senses, o: Observation, c: Candidate) {
    || c == Candidate(Hold, None, None, Some(o.unit.position), HoldingStation, None)
    || IsReturn(senses.plane, o, c)
    || (exists e :: IsClosing(senses.plane, o, c, e))
    || (exists e :: IsScreen(senses.plane, o, c, e))
    || (exists e :: IsWithdrawal(senses.plane, o, c, e))
    || IsRetreat(senses, o, c)
    || (exists e :: IsAttack(senses.plane, o, c, e))
    || IsCastOnSelf(o, c)
    || (exists e :: IsCastAt(senses.plane, o, c, e))
  }

  // ---- each family as offered ----

  lemma NearerIsTotal(plane: Plane, o: Observation)
    ensures TotalPreorder((a: Unit, b: Unit) => NearerTo(plane, o, a, b))
  {
    hide GapTo;
    forall a, b ensures NearerTo(plane, o, a, b) || NearerTo(plane, o, b, a) { TextTotal(a.id, b.id); }
    forall a, b, c | NearerTo(plane, o, a, b) && NearerTo(plane, o, b, c) ensures NearerTo(plane, o, a, c) {
      if TextLeq(a.id, b.id) && TextLeq(b.id, c.id) { TextTransitive(a.id, b.id, c.id); }
    }
  }

  /** The nearest enemy is the one no other is nearer than, ids deciding. */
  lemma NearestExactly(plane: Plane, o: Observation, e: Unit)
    requires DistinctUnits(o.enemies) && e in o.enemies
    ensures NearestEnemy(plane, o).Some? && (NearestEnemy(plane, o).value.id == e.id <==> NearestOf(plane, o, e))
  {
    var nearer := (a: Unit, b: Unit) => NearerTo(plane, o, a, b);
    NearerIsTotal(plane, o);
    LeastByIs(nearer, o.enemies);
    var least := LeastBy(nearer, o.enemies);
    assert least in o.enemies && nearer(least, e);
    hide Distance;
    if NearestOf(plane, o, e) && GapTo(plane, o, e) == GapTo(plane, o, least) { TextAntisymmetric(e.id, least.id); }
    if least == e { forall f | f in o.enemies ensures nearer(e, f) {} }
  }

  lemma AnsweredExactly(plane: Plane, o: Observation, e: Unit)
    requires DistinctUnits(o.enemies)
    ensures e in Answerable(plane, o) <==> Answered(plane, o, e)
  {
    AnswerableMeansAllowed(plane, o, e);
    if e in o.enemies {
      NearestExactly(plane, o, e);
      BoundsExactly(plane, o, e);
      hide NearestEnemy, NearestOf, InBounds, MayAnswer;
    }
  }

  lemma BoundsExactly(plane: Plane, o: Observation, e: Unit)
    ensures MayAnswer(plane, o, e) <==> InBounds(plane, o, e)
  {
    hide Distance, PointAlong;
  }

  lemma ReturnExactly(plane: Plane, o: Observation, c: Candidate)
    ensures o.unit.speed > 0.0 && c in StationCandidates(plane, o) <==> IsReturn(plane, o, c)
  {
    hide Distance;
  }

  lemma ApproachExactly(plane: Plane, o: Observation, c: Candidate, e: Unit)
    requires Fights(o) && Answered(plane, o, e)
    ensures c in ApproachCandidates(plane, o, e) <==> IsClosing(plane, o, c, e) || IsScreen(plane, o, c, e)
  {
    hide Distance, PointAlong, ProtectedBy, InBounds, NearestOf;
  }

  lemma WithdrawalExactly(plane: Plane, o: Observation, c: Candidate, e: Unit)
    requires Fights(o) && Answered(plane, o, e)
    ensures c in WithdrawCandidate(plane, o, e) <==> IsWithdrawal(plane, o, c, e)
  {
    hide Distance, PointAlong, InBounds, NearestOf;
    assert e.speed * WITHDRAW_LEAD_SECONDS == e.speed;
  }

  lemma RetreatExactly(senses: Senses, o: Observation, c: Candidate)
    ensures c in RetreatCandidates(senses, o) <==> IsRetreat(senses, o, c)
  {
  }

  lemma MovesExactly(senses: Senses, o: Observation, c: Candidate)
    requires DistinctUnits(o.enemies)
    ensures c in MovingCandidates(senses, o)
       <==> IsReturn(senses.plane, o, c) || IsRetreat(senses, o, c)
            || exists e :: IsClosing(senses.plane, o, c, e) || IsScreen(senses.plane, o, c, e) || IsWithdrawal(senses.plane, o, c, e)
  {
    hide StationCandidates, ApproachCandidates, WithdrawCandidate, RetreatCandidates, Answerable, Answered, IsReturn, IsRetreat, ProtectedBy, PointAlong, Distance;
    var plane := senses.plane;
    ReturnExactly(plane, o, c);
    RetreatExactly(senses, o, c);
    RetreatMoves(senses, o, c);
    EachMembers((e: Unit) => ApproachCandidates(plane, o, e), Answerable(plane, o));
    EachMembers((e: Unit) => WithdrawCandidate(plane, o, e), Answerable(plane, o));
    forall e ensures e in Answerable(plane, o) <==> Answered(plane, o, e) { AnsweredExactly(plane, o, e); }
    if Fights(o) {
      forall e | Answered(plane, o, e)
        ensures c in ApproachCandidates(plane, o, e) <==> IsClosing(plane, o, c, e) || IsScreen(plane, o, c, e)
        ensures c in WithdrawCandidate(plane, o, e) <==> IsWithdrawal(plane, o, c, e)
      {
        ApproachExactly(plane, o, c, e);
        WithdrawalExactly(plane, o, c, e);
      }
    }
    hide IsClosing, IsScreen, IsWithdrawal;
    FamiliesFight(plane, o, c);
  }

  lemma RetreatMoves(senses: Senses, o: Observation, c: Candidate)
    ensures IsRetreat(senses, o, c) ==> o.unit.speed > 0.0
    ensures IsReturn(senses.plane, o, c) ==> o.unit.speed > 0.0
  {
    hide Distance;
  }

  lemma FamiliesFight(plane: Plane, o: Observation, c: Candidate)
    ensures forall e :: IsClosing(plane, o, c, e) || IsScreen(plane, o, c, e) || IsWithdrawal(plane, o, c, e) ==> Fights(o) && Answered(plane, o, e)
  {
    hide Distance, PointAlong, ProtectedBy, Answered;
  }

  lemma AttacksExactly(plane: Plane, o: Observation, c: Candidate)
    ensures c in AttackCandidates(plane, o) <==> exists e :: IsAttack(plane, o, c, e)
  {
    hide Distance;
    var offer := (e: Unit) => AttackCandidate(plane, o, e);
    EachMembers(offer, o.enemies);
    forall e ensures o.unit.damage > 0.0 && e in o.enemies && c in offer(e) <==> IsAttack(plane, o, c, e) {}
  }

  lemma CastsExactly(plane: Plane, o: Observation, c: Candidate)
    ensures c in CastCandidates(plane, o) <==> IsCastOnSelf(o, c) || exists e :: IsCastAt(plane, o, c, e)
  {
    hide Distance;
    if o.ability.Some? {
      var offer := (e: Unit) => CastAt(plane, o, o.ability.value, e);
      EachMembers(offer, o.enemies);
      forall e ensures Charged(o) && !o.ability.value.onSelf && e in o.enemies && c in offer(e) <==> IsCastAt(plane, o, c, e) {}
    }
  }

  /** The offers are exactly these: holding; walking back to the post; closing on, screening
      against, or backing off from an enemy it answers; giving ground; swinging at what it
      reaches; and spending a full gauge on itself or on what its ability reaches. */
  lemma OffersExactly(senses: Senses, o: Observation, c: Candidate)
    requires DistinctUnits(o.enemies)
    ensures c in Offered(senses, o) <==> IsOffer(senses, o, c)
  {
    hide MovingCandidates, AttackCandidates, CastCandidates, IsReturn, IsRetreat, IsClosing, IsScreen, IsWithdrawal, IsAttack, IsCastOnSelf, IsCastAt;
    MovesExactly(senses, o, c);
    AttacksExactly(senses.plane, o, c);
    CastsExactly(senses.plane, o, c);
  }

  /** And what a unit chooses among is the offers, one for each kind, target, ability and place. */
  lemma CandidatesAreTheOffers(senses: Senses, o: Observation, c: Candidate)
    requires DistinctUnits(o.enemies)
    ensures c in CandidatesOf(senses, o) ==> IsOffer(senses, o, c)
    ensures IsOffer(senses, o, c) ==> exists d :: d in CandidatesOf(senses, o) && KeyOf(d) == KeyOf(c)
  {
    hide CandidatesOf, Offered, IsOffer, KeyOf;
    OffersExactly(senses, o, c);
    CandidatesAreSorted(senses, o);
  }

  // ---- whom a screen covers ----

  /** A screen covers the ally the assignment names, if it is there; else the ally nearest the
      threat; else, alone, the unit's own post. */
  lemma ScreensCover(plane: Plane, o: Observation, threat: Unit)
    requires DistinctUnits(o.allies)
    ensures var covered := ProtectedBy(plane, o, threat);
      && (covered.named <==> o.assignment.Some? && exists a :: a in o.allies && a.id == o.assignment.value.protectingId)
      && (covered.named ==> exists a :: a in o.allies && a.id == o.assignment.value.protectingId
                                        && covered.position == a.position && covered.unitId == Some(a.id))
      && (!covered.named && o.allies == [] ==> covered.position == o.orders.station && covered.unitId.None?)
      && (!covered.named && o.allies != [] ==>
            exists a :: a in o.allies && covered.position == a.position && covered.unitId == Some(a.id)
              && forall b :: b in o.allies ==> Distance(plane, threat.position, a.position) <= Distance(plane, threat.position, b.position))
  {
    if o.assignment.Some? {
      var id := o.assignment.value.protectingId;
      FindFirstComplete((u: Unit) => u.id == id, o.allies);
    }
    if o.allies != [] {
      var nearer := (a: Unit, b: Unit) => Distance(plane, threat.position, a.position) <= Distance(plane, threat.position, b.position);
      assert TotalPreorder(nearer) by { hide Distance; }
      LeastByIs(nearer, o.allies);
      assert forall b :: b in o.allies ==> nearer(LeastBy(nearer, o.allies), b);
    }
    hide Distance, LeastBy;
  }
}
