/** Whom a troop guards, against whom, and with whom, read off the units on the field. */
module Guarding {
  import opened Common
  import opened Ordering
  import opened BattleWorld
  import opened Geometry
  import opened Coordination
  import opened Allocation

  // ---- the field ----

  predicate Ours(squad: Squad, u: Unit) {
    u.troopId == squad.id && u.hp > 0.0
  }

  predicate ArmedFoe(squad: Squad, u: Unit) {
    u.side == Opposing(squad.side) && u.hp > 0.0 && u.damage > 0.0
  }

  /** Within reach of one of ours, or within the troop's guard of being so. */
  predicate Menaces(plane: Plane, foe: Unit, ward: Unit, guard: real) {
    foe.damage > 0.0 && Distance(plane, foe.position, ward.position) <= foe.range + guard
  }

  /** How much of its health a unit has left. */
  function Left(u: Unit): real {
    if u.maxHp > 0.0 then u.hp / u.maxHp else u.hp
  }

  /** Guarded before another: a mage before a summon, then the more hurt, then the lower id. */
  predicate GuardedFirst(w: Unit, v: Unit) {
    && (v.kind == Mage ==> w.kind == Mage)
    && (w.kind == v.kind ==> Left(w) <= Left(v))
    && (w.kind == v.kind && Left(w) == Left(v) ==> TextLeq(w.id, v.id))
  }

  lemma NeedierMeansFirst(w: Unit, v: Unit)
    ensures NeedierLeq(w, v) ==> GuardedFirst(w, v)
  {
    assert w.hp / 1.0 == w.hp && v.hp / 1.0 == v.hp;
  }

  lemma MembersAreOurs(squad: Squad, field: Field)
    ensures forall u :: u in LivingMembers(field.units, squad) <==> u in field.units && Ours(squad, u)
    ensures forall u :: u in ArmedEnemies(field.units, squad) <==> u in field.units && ArmedFoe(squad, u)
  {
    IdsAreTotal();
    var ours := (u: Unit) => u.troopId == squad.id && IsAlive(u);
    var foes := (u: Unit) => IsAlive(u) && u.side != squad.side && u.damage > 0.0;
    SortKeeps(IdLeq, Filter(ours, field.units));
    SortKeeps(IdLeq, Filter(foes, field.units));
    FilterMembers(ours, field.units);
    FilterMembers(foes, field.units);
    hide LivingMembers, ArmedEnemies;
    assert LivingMembers(field.units, squad) == Sort(IdLeq, Filter(ours, field.units)) by { MembersAre(squad, field); }
    assert ArmedEnemies(field.units, squad) == Sort(IdLeq, Filter(foes, field.units)) by { EnemiesAre(squad, field); }
  }

  lemma MembersAre(squad: Squad, field: Field)
    ensures LivingMembers(field.units, squad) == Sort(IdLeq, Filter((u: Unit) => u.troopId == squad.id && IsAlive(u), field.units))
  {
  }

  lemma EnemiesAre(squad: Squad, field: Field)
    ensures ArmedEnemies(field.units, squad) == Sort(IdLeq, Filter((u: Unit) => IsAlive(u) && u.side != squad.side && u.damage > 0.0, field.units))
  {
  }

  // ---- needs ----

  /** An armed enemy and the one of ours it menaces that is guarded first. */
  ghost predicate WardAgainst(plane: Plane, squad: Squad, units: seq<Unit>, guard: real, foe: Unit, ward: Unit) {
    && foe in units && ArmedFoe(squad, foe) && ward in units && Ours(squad, ward) && Menaces(plane, foe, ward, guard)
    && forall v :: v in units && Ours(squad, v) && Menaces(plane, foe, v, guard) ==> GuardedFirst(ward, v)
  }

  /** Every need is an armed enemy on behalf of whoever it menaces that is guarded first; and
      every armed enemy that menaces anyone of ours is in some need. */
  lemma NeedsExactly(plane: Plane, squad: Squad, field: Field)
    requires BriefFor(plane, squad, field).Some?
    ensures var brief := BriefFor(plane, squad, field).value;
      && (forall n :: n in brief.needs ==>
            exists foe: Unit, ward: Unit :: foe.id == n.targetId && ward.id == n.protectingId
                                && WardAgainst(plane, squad, field.units, brief.profile.guardRadius, foe, ward))
      && (forall foe, ward :: foe in field.units && ArmedFoe(squad, foe) && ward in field.units && Ours(squad, ward)
                              && Menaces(plane, foe, ward, brief.profile.guardRadius)
            ==> exists n :: n in brief.needs && n.targetId == foe.id)
  {
    hide RealNeed, Menaces, UnderThreat, WardAgainst;
    NeedsAreTheThreats(plane, squad, field);
    MembersAreOurs(squad, field);
    var brief := BriefFor(plane, squad, field).value;
    assert brief.members == LivingMembers(field.units, squad);
    hide BriefFor, LivingMembers;
    var guard := brief.profile.guardRadius;
    forall foe, ward ensures UnderThreat(plane, foe, ward, brief.profile) <==> Menaces(plane, foe, ward, guard) {
      ThreatMeansMenace(plane, foe, ward, brief.profile);
    }
    forall n | n in brief.needs
      ensures exists foe: Unit, ward: Unit :: foe.id == n.targetId && ward.id == n.protectingId && WardAgainst(plane, squad, field.units, guard, foe, ward)
    {
      var foe :| foe in field.units && IsAlive(foe) && foe.side != squad.side && RealNeed(plane, foe, brief.members, brief.profile, n);
      var ward := WardOfNeed(plane, squad, field.units, brief.members, brief.profile, n, foe);
    }
  }

  lemma ThreatMeansMenace(plane: Plane, foe: Unit, ward: Unit, profile: Profile)
    ensures UnderThreat(plane, foe, ward, profile) <==> Menaces(plane, foe, ward, profile.guardRadius)
  {
  }

  lemma WardOfNeed(plane: Plane, squad: Squad, units: seq<Unit>, members: seq<Unit>, profile: Profile, need: Need, foe: Unit) returns (ward: Unit)
    requires forall u :: u in members <==> u in units && Ours(squad, u)
    requires foe in units && IsAlive(foe) && foe.side != squad.side && RealNeed(plane, foe, members, profile, need)
    ensures foe.id == need.targetId && ward.id == need.protectingId && WardAgainst(plane, squad, units, profile.guardRadius, foe, ward)
  {
    hide NeedierLeq, GuardedFirst, Distance;
    ward :| ward in members && ward.id == need.protectingId && UnderThreat(plane, foe, ward, profile)
      && forall v :: v in members && UnderThreat(plane, foe, v, profile) ==> NeedierLeq(ward, v);
    forall v | v in units && Ours(squad, v) && Menaces(plane, foe, v, profile.guardRadius) ensures GuardedFirst(ward, v) {
      assert UnderThreat(plane, foe, v, profile);
      NeedierMeansFirst(ward, v);
    }
  }

  lemma {:induction false} FindsTheUnit(units: seq<Unit>, u: Unit)
    requires u in units && forall v :: v in units && v.id == u.id ==> v == u
    ensures FindUnit(units, u.id) == Some(u)
  {
    FindFirstComplete((v: Unit) => v.id == u.id, units);
  }

  lemma PriorityMeans(a: Need, b: Need, members: seq<Unit>, w: Unit, v: Unit)
    requires FindUnit(members, a.protectingId) == Some(w) && FindUnit(members, b.protectingId) == Some(v)
    requires WorstFirst(members)(a, b)
    ensures (v.kind == Mage ==> w.kind == Mage) && (w.kind == v.kind ==> Left(w) <= Left(v))
    ensures w.kind == v.kind && Left(w) == Left(v) ==> TextLeq(a.targetId, b.targetId)
  {
    hide FindUnit;
    assert w.hp / 1.0 == w.hp && v.hp / 1.0 == v.hp;
    TextTotal(a.targetId, b.targetId);
  }

  /** Worst first: needs for mages before needs for summons, the more hurt ward first within a
      kind, and the lower enemy id between wards equally hurt. */
  lemma NeedsInOrder(plane: Plane, squad: Squad, field: Field, i: nat, j: nat, w: Unit, v: Unit)
    requires BriefFor(plane, squad, field).Some? && DistinctUnits(field.units)
    requires i < j < |BriefFor(plane, squad, field).value.needs|
    requires w in field.units && Ours(squad, w) && w.id == BriefFor(plane, squad, field).value.needs[i].protectingId
    requires v in field.units && Ours(squad, v) && v.id == BriefFor(plane, squad, field).value.needs[j].protectingId
    ensures var needs := BriefFor(plane, squad, field).value.needs;
      && (v.kind == Mage ==> w.kind == Mage)
      && (w.kind == v.kind ==> Left(w) <= Left(v))
      && (w.kind == v.kind && Left(w) == Left(v) ==> TextLeq(needs[i].targetId, needs[j].targetId))
  {
    hide LivingMembers, LeadingMage;
    var brief := BriefFor(plane, squad, field).value;
    MembersAreOurs(squad, field);
    FindsTheUnit(brief.members, w);
    FindsTheUnit(brief.members, v);
    WorstFirstIsTotal(brief.members);
    SortKeeps(WorstFirst(brief.members), NeedsAgainst(plane, ArmedEnemies(field.units, squad), brief.members, brief.profile));
    hide WorstFirst, FindUnit;
    PriorityMeans(brief.needs[i], brief.needs[j], brief.members, w, v);
  }

  // ---- who may answer ----

  /** One that could do it: alive, armed, not the ward itself, and with the enemy in reach, or
      in reach and leash if it can walk. */
  predicate CouldAnswer(plane: Plane, d: Unit, foe: Unit, ward: Unit, leash: real) {
    && d.hp > 0.0 && d.damage > 0.0 && d.id != ward.id
    && Distance(plane, d.position, foe.position) <= d.range + if d.speed > 0.0 then leash else 0.0
  }

  lemma EligibleExactly(plane: Plane, d: Unit, units: seq<Unit>, need: Need, profile: Profile, foe: Unit, ward: Unit)
    requires DistinctUnits(units) && profile.guardRadius >= 0.0
    requires foe in units && foe.id == need.targetId && ward in units && ward.id == need.protectingId
    ensures Eligible(plane, d, units, need, profile)
       <==> foe.hp > 0.0 && ward.hp > 0.0 && Menaces(plane, foe, ward, profile.guardRadius) && CouldAnswer(plane, d, foe, ward, profile.leash)
  {
    FindsTheUnit(units, foe);
    FindsTheUnit(units, ward);
    hide FindUnit, Distance;
  }

  lemma GuardNotNegative(plane: Plane, squad: Squad, field: Field)
    requires BriefFor(plane, squad, field).Some?
    ensures BriefFor(plane, squad, field).value.profile.guardRadius >= 0.0
  {
    hide NeedsOf, LivingMembers, LeadingMage, Total;
  }

  /** What stands after a tick: each assignment sends one of ours that could answer, against an
      armed enemy, for the one of ours it menaces that is guarded first. */
  lemma AssignmentsReadOff(plane: Plane, squad: Squad, field: Field, prior: seq<Assignment>, a: Assignment)
    requires OneEach(prior) && DistinctUnits(field.units) && a in Coordinated(plane, squad, field, prior)
    ensures BriefFor(plane, squad, field).Some?
    ensures var profile := BriefFor(plane, squad, field).value.profile;
      exists d: Unit, foe: Unit, ward: Unit ::
        && d in field.units && Ours(squad, d) && d.id == a.unitId && foe.id == a.targetId && ward.id == a.protectingId
        && WardAgainst(plane, squad, field.units, profile.guardRadius, foe, ward)
        && CouldAnswer(plane, d, foe, ward, profile.leash)
  {
    TickIsSound(plane, squad, field, prior);
    MembersAreOurs(squad, field);
    NeedsExactly(plane, squad, field);
    GuardNotNegative(plane, squad, field);
    var brief := BriefFor(plane, squad, field).value;
    assert brief.members == LivingMembers(field.units, squad) && brief.units == field.units;
    hide BriefFor, Coordinated, LivingMembers, Eligible, CouldAnswer, OneEach;
    assert Placed(plane, brief, a);
    var d :| d in brief.members && d.id == a.unitId && Eligible(plane, d, brief.units, Need(a.targetId, a.protectingId), brief.profile);
    var foe: Unit, ward: Unit :| foe.id == a.targetId && ward.id == a.protectingId
      && WardAgainst(plane, squad, field.units, brief.profile.guardRadius, foe, ward);
    EligibleExactly(plane, d, field.units, Need(a.targetId, a.protectingId), brief.profile, foe, ward);
  }

  /** Whoever is newly sent is the nearest that could go: nobody of ours left without an
      assignment and able to answer that enemy is nearer it, or as near with a lower id. */
  lemma NearestIsSent(plane: Plane, squad: Squad, field: Field, prior: seq<Assignment>, a: Assignment, d: Unit, foe: Unit, ward: Unit, v: Unit)
    requires OneEach(prior) && DistinctUnits(field.units) && BriefFor(plane, squad, field).Some?
    requires a in Coordinated(plane, squad, field, prior) && a !in prior
    requires d in field.units && Ours(squad, d) && d.id == a.unitId
    requires foe.id == a.targetId && ward.id == a.protectingId
    requires var profile := BriefFor(plane, squad, field).value.profile;
      && WardAgainst(plane, squad, field.units, profile.guardRadius, foe, ward)
      && v in field.units && Ours(squad, v) && CouldAnswer(plane, v, foe, ward, profile.leash)
    requires v.id !in UnitIds(Coordinated(plane, squad, field, prior))
    ensures a.sinceTick == field.tick
    ensures Distance(plane, d.position, foe.position) <= Distance(plane, v.position, foe.position)
    ensures Distance(plane, d.position, foe.position) == Distance(plane, v.position, foe.position) ==> TextLeq(d.id, v.id)
  {
    var m := BudgetGoesToTheWorst(plane, squad, field, prior);
    MembersAreOurs(squad, field);
    GuardNotNegative(plane, squad, field);
    var brief := BriefFor(plane, squad, field).value;
    assert brief.members == LivingMembers(field.units, squad) && brief.units == field.units && brief.tick == field.tick;
    var after := Coordinated(plane, squad, field, prior);
    KeptIsPrior(plane, brief, prior);
    hide BriefFor, Coordinated, LivingMembers, Kept, CouldAnswer;
    assert Chosen(plane, brief, a, after);
    EligibleExactly(plane, v, field.units, Need(a.targetId, a.protectingId), brief.profile, foe, ward);
    FindsTheUnit(field.units, foe);
    hide Eligible, FindUnit, WardAgainst;
    var unit :| unit in brief.members && unit.id == a.unitId
      && forall u :: u in brief.members && Free(plane, brief, Need(a.targetId, a.protectingId), UnitIds(after), u) ==> NearerLeq(plane, foe, unit, u);
    assert unit == d;
    assert Free(plane, brief, Need(a.targetId, a.protectingId), UnitIds(after), v);
  }

  lemma KeptIsPrior(plane: Plane, brief: Brief, prior: seq<Assignment>)
    ensures forall a :: a in Kept(plane, brief, prior) ==> a in prior
  {
    FilterMembers((a: Assignment) => StillGood(plane, brief, a), prior);
  }

  /** With budget to spare no need is left that somebody free could answer. */
  lemma NobodyIsSpared(plane: Plane, squad: Squad, field: Field, prior: seq<Assignment>, foe: Unit, ward: Unit, v: Unit)
    requires OneEach(prior) && DistinctUnits(field.units) && BriefFor(plane, squad, field).Some?
    requires var brief, after := BriefFor(plane, squad, field).value, Coordinated(plane, squad, field, prior);
      && |after| < brief.budget && Need(foe.id, ward.id) in brief.needs
      && WardAgainst(plane, squad, field.units, brief.profile.guardRadius, foe, ward)
      && foe.id !in TargetIds(after)
      && v in field.units && Ours(squad, v) && v.id !in UnitIds(after)
    ensures !CouldAnswer(plane, v, foe, ward, BriefFor(plane, squad, field).value.profile.leash)
  {
    var m := BudgetGoesToTheWorst(plane, squad, field, prior);
    MembersAreOurs(squad, field);
    GuardNotNegative(plane, squad, field);
    var brief := BriefFor(plane, squad, field).value;
    assert brief.members == LivingMembers(field.units, squad) && brief.units == field.units;
    var after := Coordinated(plane, squad, field, prior);
    hide BriefFor, Coordinated, LivingMembers, Kept, CouldAnswer;
    var k :| 0 <= k < |brief.needs| && brief.needs[k] == Need(foe.id, ward.id);
    assert Settled(plane, brief, brief.needs[k], after);
    EligibleExactly(plane, v, field.units, Need(foe.id, ward.id), brief.profile, foe, ward);
  }

  // ---- how many, for how long, by whose habits ----

  /** The most a troop commits: its profile's defenders, and half its living rounded down. */
  lemma BudgetExactly(plane: Plane, squad: Squad, field: Field)
    requires BriefFor(plane, squad, field).Some?
    ensures var brief := BriefFor(plane, squad, field).value;
      && brief.budget <= brief.profile.defenders && 2 * brief.budget <= |brief.members|
      && (brief.budget == brief.profile.defenders || 2 * (brief.budget + 1) > |brief.members|)
  {
    hide NeedsOf, LivingMembers, LeadingMage, ProfileFor;
  }

  /** The mage a troop's habits are read from: its lowest id that is alive and has a mind. */
  lemma LeaderIsLowest(field: Field, squad: Squad, id: string)
    requires DistinctUnits(field.units) && id in squad.mageIds && id in field.minds
    requires exists u :: u in field.units && u.id == id && u.hp > 0.0
    ensures LeadingMage(field, squad).Some? && TextLeq(LeadingMage(field, squad).value, id)
  {
    var mage :| mage in field.units && mage.id == id && mage.hp > 0.0;
    FindsTheUnit(field.units, mage);
    TextIsTotal();
    SortKeeps(TextLeq, squad.mageIds);
    hide FindUnit, Sort;
    FirstInOrder((x: string) => Leads(field, x), Sort(TextLeq, squad.mageIds), id);
  }

  lemma TextIsTotal()
    ensures TotalPreorder(TextLeq)
  {
    forall a, b ensures TextLeq(a, b) || TextLeq(b, a) { TextTotal(a, b); }
    forall a, b, c | TextLeq(a, b) && TextLeq(b, c) ensures TextLeq(a, c) { TextTransitive(a, b, c); }
  }

  lemma {:induction false} FirstInOrder(want: string -> bool, ids: seq<string>, id: string)
    requires Sorted(TextLeq, ids) && id in ids && want(id)
    ensures FindFirst(want, ids).Some? && TextLeq(FindFirst(want, ids).value, id)
  {
    if want(ids[0]) {
      if id == ids[0] { TextTotal(id, id); }
    } else {
      FirstInOrder(want, ids[1..], id);
    }
  }

  function SumOf(part: Shift -> real, shifts: seq<Shift>): real {
    if shifts == [] then 0.0 else SumOf(part, shifts[..|shifts| - 1]) + part(shifts[|shifts| - 1])
  }

  lemma {:induction false} TotalAddsUp(shifts: seq<Shift>)
    ensures Total(shifts).guardRadius == 40.0 + SumOf((x: Shift) => x.guardRadius, shifts)
    ensures Total(shifts).leash == 70.0 + SumOf((x: Shift) => x.leash, shifts)
    ensures Total(shifts).commitmentSeconds == 1.5 + SumOf((x: Shift) => x.commitmentSeconds, shifts)
    ensures Total(shifts).defenders == 1.0 + SumOf((x: Shift) => x.defenders, shifts)
  {
    if shifts != [] { TotalAddsUp(shifts[..|shifts| - 1]); }
  }

  function Within(value: real, top: real): real {
    if value < 0.0 then 0.0 else if value > top then top else value
  }

  /** A profile is the baseline and every tag's say in each habit, each kept within its bounds:
      guard and leash within the field of influence, the window within six seconds of whole
      ticks, the defenders no more than three. */
  lemma ProfileAddsUp(shifts: seq<Shift>, secondsPerTick: real)
    requires secondsPerTick > 0.0
    ensures var profile := ProfileOf(shifts, secondsPerTick);
            var window := Within(1.5 + SumOf((x: Shift) => x.commitmentSeconds, shifts), 6.0) / secondsPerTick;
      && profile.guardRadius == Within(40.0 + SumOf((x: Shift) => x.guardRadius, shifts), 190.0)
      && profile.leash == Within(70.0 + SumOf((x: Shift) => x.leash, shifts), 190.0)
      && profile.commitmentTicks as real - 0.5 <= window <= profile.commitmentTicks as real + 0.5
      && profile.defenders as real <= Within(1.0 + SumOf((x: Shift) => x.defenders, shifts), 3.0) < profile.defenders as real + 1.0
  {
    TotalAddsUp(shifts);
    hide Total, SumOf, Round;
  }

  /** A standing assignment is honoured exactly while its enemy is still the troop's need on
      behalf of the same ward, its window is open, and the unit could still answer. */
  lemma HonouredExactly(plane: Plane, squad: Squad, field: Field, a: Assignment, foe: Unit, ward: Unit)
    requires DistinctUnits(field.units) && BriefFor(plane, squad, field).Some?
    requires foe in field.units && foe.id == a.targetId && ward in field.units && ward.id == a.protectingId
    ensures var brief := BriefFor(plane, squad, field).value;
      StillGood(plane, brief, a)
      <==> Need(a.targetId, a.protectingId) in brief.needs
           && field.tick - a.sinceTick < brief.profile.commitmentTicks
           && exists d :: d in field.units && Ours(squad, d) && d.id == a.unitId && CouldAnswer(plane, d, foe, ward, brief.profile.leash)
  {
    hide StillGood, CouldAnswer, WardAgainst, Menaces, LivingMembers, NeedsOf, LeadingMage, ProfileFor, Budget;
    var brief := BriefFor(plane, squad, field).value;
    MembersAreOurs(squad, field);
    GuardNotNegative(plane, squad, field);
    NeedsExactly(plane, squad, field);
    OneNeedPerFoe(plane, squad, field);
    assert brief.members == LivingMembers(field.units, squad);
    GoodExactly(plane, squad, brief, a, foe, ward);
  }

  lemma GoodExactly(plane: Plane, squad: Squad, brief: Brief, a: Assignment, foe: Unit, ward: Unit)
    requires DistinctUnits(brief.units) && brief.profile.guardRadius >= 0.0
    requires forall u :: u in brief.members <==> u in brief.units && Ours(squad, u)
    requires forall n, o :: n in brief.needs && o in brief.needs && n.targetId == o.targetId ==> n == o
    requires forall n :: n in brief.needs ==>
      exists f: Unit, w: Unit :: f.id == n.targetId && w.id == n.protectingId && WardAgainst(plane, squad, brief.units, brief.profile.guardRadius, f, w)
    requires foe in brief.units && foe.id == a.targetId && ward in brief.units && ward.id == a.protectingId
    ensures StillGood(plane, brief, a)
      <==> Need(a.targetId, a.protectingId) in brief.needs
           && brief.tick - a.sinceTick < brief.profile.commitmentTicks
           && exists d :: d in brief.units && Ours(squad, d) && d.id == a.unitId && CouldAnswer(plane, d, foe, ward, brief.profile.leash)
  {
    hide CouldAnswer, Eligible, Ours, Menaces;
    var need := Need(a.targetId, a.protectingId);
    NeedForFinds(brief.needs, need);
    NeedForIsNeed(brief.needs, a.targetId);
    if need in brief.needs {
      WardStands(plane, squad, brief, need, foe, ward);
      forall d | d in brief.members && d.id == a.unitId
        ensures FindUnit(brief.members, a.unitId) == Some(d)
        ensures Eligible(plane, d, brief.units, need, brief.profile) <==> CouldAnswer(plane, d, foe, ward, brief.profile.leash)
      {
        FindsTheUnit(brief.members, d);
        EligibleExactly(plane, d, brief.units, need, brief.profile, foe, ward);
      }
    }
  }

  lemma WardStands(plane: Plane, squad: Squad, brief: Brief, need: Need, foe: Unit, ward: Unit)
    requires DistinctUnits(brief.units) && foe in brief.units && foe.id == need.targetId && ward in brief.units && ward.id == need.protectingId
    requires exists f: Unit, w: Unit :: f.id == need.targetId && w.id == need.protectingId && WardAgainst(plane, squad, brief.units, brief.profile.guardRadius, f, w)
    ensures foe.hp > 0.0 && ward.hp > 0.0 && Menaces(plane, foe, ward, brief.profile.guardRadius)
  {
    hide Menaces, GuardedFirst;
  }

  lemma {:induction false} NeedForFinds(needs: seq<Need>, need: Need)
    requires forall n, o :: n in needs && o in needs && n.targetId == o.targetId ==> n == o
    ensures NeedFor(needs, need.targetId) == Some(need) <==> need in needs
    ensures NeedFor(needs, need.targetId).Some? ==> NeedFor(needs, need.targetId).value in needs
  {
    NeedForIsNeed(needs, need.targetId);
    if need in needs { NeedForSomething(needs, need); }
  }

  lemma {:induction false} NeedForSomething(needs: seq<Need>, need: Need)
    requires need in needs
    ensures NeedFor(needs, need.targetId).Some?
  {
    var last := |needs| - 1;
    if needs[last].targetId != need.targetId {
      assert needs == needs[..last] + [needs[last]];
      NeedForSomething(needs[..last], need);
    }
  }

  lemma {:induction false} NeedsAreOfFoes(plane: Plane, enemies: seq<Unit>, members: seq<Unit>, profile: Profile)
    ensures forall n :: n in NeedsAgainst(plane, enemies, members, profile) ==>
      exists e :: e in enemies && Victims(plane, e, members, profile) != []
                  && n == Need(e.id, LeastBy(NeedierLeq, Victims(plane, e, members, profile)).id)
  {
    hide Victims, LeastBy;
    if enemies != [] {
      var front := enemies[..|enemies| - 1];
      NeedsAreOfFoes(plane, front, members, profile);
      assert enemies == front + [enemies[|enemies| - 1]];
    }
  }

  lemma OneNeedPerFoe(plane: Plane, squad: Squad, field: Field)
    requires DistinctUnits(field.units) && BriefFor(plane, squad, field).Some?
    ensures var needs := BriefFor(plane, squad, field).value.needs;
      forall n, o :: n in needs && o in needs && n.targetId == o.targetId ==> n == o
  {
    hide LivingMembers, LeadingMage, Victims, LeastBy;
    var brief := BriefFor(plane, squad, field).value;
    var enemies := ArmedEnemies(field.units, squad);
    MembersAreOurs(squad, field);
    NeedsAreOfFoes(plane, enemies, brief.members, brief.profile);
    WorstFirstIsTotal(brief.members);
    SortKeeps(WorstFirst(brief.members), NeedsAgainst(plane, enemies, brief.members, brief.profile));
  }
}
