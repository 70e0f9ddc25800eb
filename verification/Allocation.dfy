/** What troop coordination guarantees, on every tick and over every run of ticks. */
module Allocation {
  import opened Common
  import opened Ordering
  import opened BattleWorld
  import opened Geometry
  import opened Runs
  import opened Coordination

  // ---- what is a need ----

  lemma NeedierIsTotal()
    ensures TotalPreorder(NeedierLeq)
  {
    hide HealthShare, Group;
    forall a, b ensures NeedierLeq(a, b) || NeedierLeq(b, a) { TextTotal(a.id, b.id); }
    forall a, b, c | NeedierLeq(a, b) && NeedierLeq(b, c) ensures NeedierLeq(a, c) {
      if TextLeq(a.id, b.id) && TextLeq(b.id, c.id) { TextTransitive(a.id, b.id, c.id); }
    }
  }

  /** A need is an armed enemy with one of ours in its reach or nearly, on behalf of the
      neediest of those. */
  ghost predicate RealNeed(plane: Plane, enemy: Unit, members: seq<Unit>, profile: Profile, need: Need) {
    && need.targetId == enemy.id
    && exists ward :: ward in members && ward.id == need.protectingId && UnderThreat(plane, enemy, ward, profile)
                      && forall v :: v in members && UnderThreat(plane, enemy, v, profile) ==> NeedierLeq(ward, v)
  }

  lemma NeedOfVictims(plane: Plane, enemy: Unit, members: seq<Unit>, profile: Profile)
    ensures Victims(plane, enemy, members, profile) == [] <==> forall m :: m in members ==> !UnderThreat(plane, enemy, m, profile)
    ensures Victims(plane, enemy, members, profile) != [] ==>
      RealNeed(plane, enemy, members, profile, Need(enemy.id, LeastBy(NeedierLeq, Victims(plane, enemy, members, profile)).id))
  {
    hide UnderThreat, NeedierLeq;
    var victims := Victims(plane, enemy, members, profile);
    FilterMembers((ally: Unit) => UnderThreat(plane, enemy, ally, profile), members);
    if victims == [] {
      forall m | m in members ensures !UnderThreat(plane, enemy, m, profile) { assert m !in victims; }
    } else {
      assert victims[0] in victims;
      NeedierIsTotal();
      LeastByIs(NeedierLeq, victims);
    }
  }

  lemma {:induction false} NeedsAgainstAreReal(plane: Plane, enemies: seq<Unit>, members: seq<Unit>, profile: Profile)
    ensures forall n :: n in NeedsAgainst(plane, enemies, members, profile) ==>
      exists e :: e in enemies && RealNeed(plane, e, members, profile, n)
    ensures forall e :: e in enemies && (exists m :: m in members && UnderThreat(plane, e, m, profile)) ==>
      exists n :: n in NeedsAgainst(plane, enemies, members, profile) && n.targetId == e.id
  {
    hide RealNeed, UnderThreat, Victims;
    if enemies != [] {
      var front, last := enemies[..|enemies| - 1], enemies[|enemies| - 1];
      assert enemies == front + [last];
      NeedsAgainstAreReal(plane, front, members, profile);
      NeedOfVictims(plane, last, members, profile);
      var needs := NeedsAgainst(plane, enemies, members, profile);
      forall e | e in enemies && (exists m :: m in members && UnderThreat(plane, e, m, profile))
        ensures exists n :: n in needs && n.targetId == e.id
      {
        if e in front {
          var n :| n in NeedsAgainst(plane, front, members, profile) && n.targetId == e.id;
          assert n in needs;
        } else {
          assert needs[|needs| - 1] in needs;
        }
      }
    }
  }

  /** The needs a troop weighs are exactly the living armed enemies threatening one of its
      living members: every such enemy is one, and each is on behalf of the neediest it threatens. */
  lemma NeedsAreTheThreats(plane: Plane, squad: Squad, field: Field)
    ensures var brief := BriefFor(plane, squad, field);
      brief.Some? ==>
        && (forall e :: e in field.units && IsAlive(e) && e.side != squad.side && e.damage > 0.0
                        && (exists m :: m in brief.value.members && UnderThreat(plane, e, m, brief.value.profile))
              ==> exists n :: n in brief.value.needs && n.targetId == e.id)
        && (forall n :: n in brief.value.needs ==>
              exists e :: e in field.units && IsAlive(e) && e.side != squad.side
                          && RealNeed(plane, e, brief.value.members, brief.value.profile, n))
  {
    hide RealNeed, UnderThreat, LeadingMage, LivingMembers;
    var brief := BriefFor(plane, squad, field);
    if brief.Some? {
      var b := brief.value;
      var keep := (u: Unit) => IsAlive(u) && u.side != squad.side && u.damage > 0.0;
      var enemies := ArmedEnemies(field.units, squad);
      IdsAreTotal();
      SortKeeps(IdLeq, Filter(keep, field.units));
      FilterMembers(keep, field.units);
      assert forall e :: e in enemies <==> e in field.units && keep(e);
      NeedsAgainstAreReal(plane, enemies, b.members, b.profile);
      WorstFirstIsTotal(b.members);
      SortKeeps(WorstFirst(b.members), NeedsAgainst(plane, enemies, b.members, b.profile));
    }
  }

  // ---- sound allocations ----

  /** At most one assignment per unit and one per target. */
  ghost predicate OneEach(taken: seq<Assignment>) {
    forall i, j :: 0 <= i < j < |taken| ==> taken[i].unitId != taken[j].unitId && taken[i].targetId != taken[j].targetId
  }

  /** What an assignment must be on the tick it stands: a living member of the troop, fit for
      a need that is really there, new this tick or still inside its window. */
  ghost predicate Placed(plane: Plane, brief: Brief, a: Assignment) {
    && Need(a.targetId, a.protectingId) in brief.needs
    && (exists unit :: unit in brief.members && unit.id == a.unitId
                       && Eligible(plane, unit, brief.units, Need(a.targetId, a.protectingId), brief.profile))
    && (a.sinceTick == brief.tick || brief.tick - a.sinceTick < brief.profile.commitmentTicks)
  }

  ghost predicate Sound(plane: Plane, brief: Brief, taken: seq<Assignment>) {
    OneEach(taken) && |taken| <= brief.budget && forall a :: a in taken ==> Placed(plane, brief, a)
  }

  lemma {:induction false} NeedForIsNeed(needs: seq<Need>, targetId: string)
    ensures var found := NeedFor(needs, targetId); found.Some? ==> found.value in needs && found.value.targetId == targetId
  {
    if needs != [] { NeedForIsNeed(needs[..|needs| - 1], targetId); }
  }

  lemma GoodIsPlaced(plane: Plane, brief: Brief, a: Assignment)
    requires StillGood(plane, brief, a)
    ensures Placed(plane, brief, a)
  {
    hide Eligible;
    NeedForIsNeed(brief.needs, a.targetId);
    assert NeedFor(brief.needs, a.targetId).value == Need(a.targetId, a.protectingId);
  }

  lemma {:induction false} FilterKeepsOneEach(keep: Assignment -> bool, s: seq<Assignment>)
    requires OneEach(s)
    ensures OneEach(Filter(keep, s))
  {
    if s != [] {
      FilterKeepsOneEach(keep, s[1..]);
      FilterMembers(keep, s[1..]);
      var rest := Filter(keep, s[1..]);
      forall k | 0 <= k < |rest| ensures s[0].unitId != rest[k].unitId && s[0].targetId != rest[k].targetId {
        assert rest[k] in s[1..];
      }
    }
  }

  lemma KeptSound(plane: Plane, brief: Brief, prior: seq<Assignment>)
    requires OneEach(prior)
    ensures Sound(plane, brief, Kept(plane, brief, prior))
  {
    hide StillGood, Placed;
    var keep := (a: Assignment) => StillGood(plane, brief, a);
    FilterKeepsOneEach(keep, prior);
    FilterMembers(keep, prior);
    forall a | a in Kept(plane, brief, prior) ensures Placed(plane, brief, a) {
      assert a in Survivors(plane, brief, prior);
      GoodIsPlaced(plane, brief, a);
    }
  }

  lemma BestIsFree(plane: Plane, brief: Brief, need: Need, committed: set<string>)
    ensures var best := BestDefender(plane, brief, need, committed);
            best.Some? ==> best.value in brief.members && Free(plane, brief, need, committed, best.value)
  {
    hide Eligible;
    var target := FindUnit(brief.units, need.targetId);
    var eligible := FreeDefenders(plane, brief, need, committed);
    FilterMembers((u: Unit) => Free(plane, brief, need, committed, u), brief.members);
    if target.Some? && eligible != [] { LeastIsMember(Nearest(plane, target.value), eligible); }
  }

  /** Nobody is found exactly when nobody fit is free. */
  lemma NobodyMeansNobodyFree(plane: Plane, brief: Brief, need: Need, committed: set<string>)
    requires BestDefender(plane, brief, need, committed).None?
    ensures forall unit :: unit in brief.members ==> !Free(plane, brief, need, committed, unit)
  {
    FilterMembers((u: Unit) => Free(plane, brief, need, committed, u), brief.members);
  }

  lemma AnswerSound(plane: Plane, brief: Brief, need: Need, taken: seq<Assignment>)
    requires Sound(plane, brief, taken) && need in brief.needs && |taken| < brief.budget
    ensures Sound(plane, brief, WithAnswer(plane, brief, need, taken))
  {
    hide BestDefender, Eligible;
    BestIsFree(plane, brief, need, UnitIds(taken));
    assert Need(need.targetId, need.protectingId) == need;
  }

  lemma {:induction false} StaffedSound(plane: Plane, brief: Brief, needs: seq<Need>, taken: seq<Assignment>)
    requires Sound(plane, brief, taken) && forall n :: n in needs ==> n in brief.needs
    ensures Sound(plane, brief, Staffed(plane, brief, needs, taken))
    decreases |needs|
  {
    hide Sound, WithAnswer;
    if needs != [] && |taken| < brief.budget {
      AnswerSound(plane, brief, needs[0], taken);
      StaffedSound(plane, brief, needs[1..], WithAnswer(plane, brief, needs[0], taken));
    }
  }

  lemma ByUnitIsTotal()
    ensures TotalPreorder(ByUnit)
  {
    forall a, b ensures ByUnit(a, b) || ByUnit(b, a) { TextTotal(a.unitId, b.unitId); }
    forall a, b, c | ByUnit(a, b) && ByUnit(b, c) ensures ByUnit(a, c) { TextTransitive(a.unitId, b.unitId, c.unitId); }
  }

  lemma {:induction false} RearrangedOneEach(a: seq<Assignment>, b: seq<Assignment>)
    requires OneEach(a) && multiset(a) == multiset(b)
    ensures OneEach(b)
  {
    SameElements(a, b);
    forall i, j | 0 <= i < j < |b| ensures b[i].unitId != b[j].unitId && b[i].targetId != b[j].targetId {
      assert b[i] in a && b[j] in a;
      if b[i] == b[j] { TwiceInBoth(a, b, i, j); }
    }
  }

  /** A troop's standing assignments: in strict order of unit, no unit and no target twice. */
  ghost predicate Orderly(standing: seq<Assignment>) {
    && OneEach(standing)
    && forall i, j :: 0 <= i < j < |standing| ==> TextLess(standing[i].unitId, standing[j].unitId)
  }

  lemma SortedIsOrderly(taken: seq<Assignment>)
    requires OneEach(taken)
    ensures Orderly(Sort(ByUnit, taken))
    ensures forall a :: a in Sort(ByUnit, taken) <==> a in taken
    ensures |Sort(ByUnit, taken)| == |taken|
  {
    ByUnitIsTotal();
    SortKeeps(ByUnit, taken);
    RearrangedOneEach(taken, Sort(ByUnit, taken));
    assert Sorted(ByUnit, Sort(ByUnit, taken));
  }

  /** Whatever a troop's assignments were, the tick leaves them orderly; every one of them
      names a member fit for a need there is, and they are never more than the profile's
      defenders or half the living members. */
  lemma TickIsSound(plane: Plane, squad: Squad, field: Field, prior: seq<Assignment>)
    requires OneEach(prior)
    ensures Orderly(Coordinated(plane, squad, field, prior))
    ensures match BriefFor(plane, squad, field)
            case None => Coordinated(plane, squad, field, prior) == []
            case Some(brief) =>
              && Sound(plane, brief, Coordinated(plane, squad, field, prior))
              && 2 * |Coordinated(plane, squad, field, prior)| <= |brief.members|
              && |Coordinated(plane, squad, field, prior)| <= brief.profile.defenders
  {
    hide Placed, Kept, Staffed, LivingMembers, LeadingMage, NeedsOf;
    var brief := BriefFor(plane, squad, field);
    if brief.Some? {
      KeptSound(plane, brief.value, prior);
      StaffedSound(plane, brief.value, brief.value.needs, Kept(plane, brief.value, prior));
      SortedIsOrderly(Allocated(plane, brief.value, prior));
    }
  }

  /** Nobody is ever asked to defend itself, and nobody dead or unarmed is asked at all. */
  lemma NobodyDefendsItself(plane: Plane, squad: Squad, field: Field, prior: seq<Assignment>, a: Assignment)
    requires OneEach(prior) && a in Coordinated(plane, squad, field, prior)
    ensures a.unitId != a.protectingId
    ensures exists unit :: unit in LivingMembers(field.units, squad) && unit.id == a.unitId && IsAlive(unit) && unit.damage > 0.0
  {
    hide Coordinated, LivingMembers, Sound;
    TickIsSound(plane, squad, field, prior);
    var brief := BriefFor(plane, squad, field).value;
    assert Placed(plane, brief, a) by { assert Sound(plane, brief, Coordinated(plane, squad, field, prior)); SoundPlaces(plane, brief, Coordinated(plane, squad, field, prior), a); }
  }

  lemma SoundPlaces(plane: Plane, brief: Brief, taken: seq<Assignment>, a: Assignment)
    requires Sound(plane, brief, taken) && a in taken
    ensures Placed(plane, brief, a)
  {
  }

  // ---- nothing left undone ----

  lemma {:induction false} StaffedOnlyAdds(plane: Plane, brief: Brief, needs: seq<Need>, taken: seq<Assignment>)
    ensures taken <= Staffed(plane, brief, needs, taken)
    decreases |needs|
  {
    if needs != [] && |taken| < brief.budget {
      StaffedOnlyAdds(plane, brief, needs[1..], WithAnswer(plane, brief, needs[0], taken));
    }
  }

  /** A need met, or one nobody free could meet. */
  ghost predicate Settled(plane: Plane, brief: Brief, need: Need, final: seq<Assignment>) {
    || need.targetId in TargetIds(final)
    || forall unit :: unit in brief.members ==> !Free(plane, brief, need, UnitIds(final), unit)
  }

  lemma SettledStays(plane: Plane, brief: Brief, need: Need, taken: seq<Assignment>, final: seq<Assignment>)
    requires Settled(plane, brief, need, taken) && taken <= final
    ensures Settled(plane, brief, need, final)
  {
    assert forall a :: a in taken ==> a in final;
    assert UnitIds(taken) <= UnitIds(final) && TargetIds(taken) <= TargetIds(final);
  }

  lemma AnswerSettles(plane: Plane, brief: Brief, need: Need, taken: seq<Assignment>)
    ensures Settled(plane, brief, need, WithAnswer(plane, brief, need, taken))
    ensures taken <= WithAnswer(plane, brief, need, taken)
  {
    hide BestDefender, Eligible;
    var best := BestDefender(plane, brief, need, UnitIds(taken));
    if need.targetId !in TargetIds(taken) {
      if best.None? {
        NobodyMeansNobodyFree(plane, brief, need, UnitIds(taken));
      } else {
        var after := WithAnswer(plane, brief, need, taken);
        assert after[|taken|] in after;
      }
    }
  }

  /** How many needs the budget reaches. */
  ghost function Reached(plane: Plane, brief: Brief, needs: seq<Need>, taken: seq<Assignment>): nat
    decreases |needs|
  {
    if needs == [] || |taken| >= brief.budget then 0
    else 1 + Reached(plane, brief, needs[1..], WithAnswer(plane, brief, needs[0], taken))
  }

  /** A new assignment went to the nearest free unit, ties to the lower id. */
  ghost predicate Chosen(plane: Plane, brief: Brief, a: Assignment, final: seq<Assignment>) {
    var target := FindUnit(brief.units, a.targetId);
    && a.sinceTick == brief.tick && target.Some?
    && exists unit :: unit in brief.members && unit.id == a.unitId
         && forall u :: u in brief.members && Free(plane, brief, Need(a.targetId, a.protectingId), UnitIds(final), u)
                        ==> NearerLeq(plane, target.value, unit, u)
  }

  /** The first `m` needs are settled, and every new assignment answers one of them. */
  ghost predicate Served(plane: Plane, brief: Brief, needs: seq<Need>, taken: seq<Assignment>, final: seq<Assignment>, m: nat)
    requires m <= |needs|
  {
    && (forall k :: 0 <= k < m ==> Settled(plane, brief, needs[k], final))
    && (forall a :: a in final && a !in taken ==>
          Need(a.targetId, a.protectingId) in needs[..m] && Chosen(plane, brief, a, final))
  }

  lemma NearestIsTotal(plane: Plane, target: Unit)
    ensures TotalPreorder(Nearest(plane, target))
  {
    var leq := Nearest(plane, target);
    forall a, b ensures leq(a, b) || leq(b, a) { TextTotal(a.id, b.id); }
    forall a, b, c | leq(a, b) && leq(b, c) ensures leq(a, c) {
      if Distance(plane, a.position, target.position) == Distance(plane, b.position, target.position)
         == Distance(plane, c.position, target.position) {
        TextTransitive(a.id, b.id, c.id);
      }
    }
  }

  lemma BestIsNearest(plane: Plane, brief: Brief, need: Need, committed: set<string>, unit: Unit)
    requires unit in brief.members && Free(plane, brief, need, committed, unit)
    ensures var target, best := FindUnit(brief.units, need.targetId), BestDefender(plane, brief, need, committed);
            target.Some? && best.Some? && NearerLeq(plane, target.value, best.value, unit)
  {
    var target := FindUnit(brief.units, need.targetId);
    var eligible := FreeDefenders(plane, brief, need, committed);
    FilterMembers((u: Unit) => Free(plane, brief, need, committed, u), brief.members);
    assert target.Some?;
    hide Eligible, NearerLeq;
    NearestIsTotal(plane, target.value);
    LeastByIs(Nearest(plane, target.value), eligible);
    assert Nearest(plane, target.value)(LeastBy(Nearest(plane, target.value), eligible), unit);
  }

  lemma FreeShrinks(plane: Plane, brief: Brief, need: Need, taken: seq<Assignment>, final: seq<Assignment>, unit: Unit)
    requires taken <= final && Free(plane, brief, need, UnitIds(final), unit)
    ensures Free(plane, brief, need, UnitIds(taken), unit)
  {
    hide Eligible;
    assert forall a :: a in taken ==> a in final;
    assert UnitIds(taken) <= UnitIds(final);
  }

  lemma AnswerChooses(plane: Plane, brief: Brief, need: Need, taken: seq<Assignment>, final: seq<Assignment>)
    requires WithAnswer(plane, brief, need, taken) <= final
    ensures forall a :: a in WithAnswer(plane, brief, need, taken) && a !in taken ==>
      Need(a.targetId, a.protectingId) == need && Chosen(plane, brief, a, final)
  {
    hide BestDefender, Eligible, NearerLeq, FindUnit, Free;
    var best := BestDefender(plane, brief, need, UnitIds(taken));
    if need.targetId !in TargetIds(taken) && best.Some? {
      var a := Assignment(best.value.id, need.targetId, need.protectingId, brief.tick);
      BestIsFree(plane, brief, need, UnitIds(taken));
      BestIsNearest(plane, brief, need, UnitIds(taken), best.value);
      assert taken <= final by { assert WithAnswer(plane, brief, need, taken) == taken + [a]; }
      var target := FindUnit(brief.units, need.targetId).value;
      forall u | u in brief.members && Free(plane, brief, need, UnitIds(final), u)
        ensures NearerLeq(plane, target, best.value, u)
      {
        FreeShrinks(plane, brief, need, taken, final, u);
        BestIsNearest(plane, brief, need, UnitIds(taken), u);
      }
      assert Need(need.targetId, need.protectingId) == need;
      assert Chosen(plane, brief, a, final);
    }
  }

  /** The needs are settled strictly in order, worst first, until the budget runs out. */
  lemma {:induction false} StaffedServes(plane: Plane, brief: Brief, needs: seq<Need>, taken: seq<Assignment>)
    ensures var final, m := Staffed(plane, brief, needs, taken), Reached(plane, brief, needs, taken);
      && m <= |needs|
      && (|final| < brief.budget ==> m == |needs|)
      && Served(plane, brief, needs, taken, final, m)
    decreases |needs|
  {
    hide Settled, Chosen, WithAnswer;
    if needs != [] && |taken| < brief.budget {
      var need, rest, after := needs[0], needs[1..], WithAnswer(plane, brief, needs[0], taken);
      var final, m := Staffed(plane, brief, rest, after), Reached(plane, brief, rest, after);
      StaffedServes(plane, brief, rest, after);
      StaffedOnlyAdds(plane, brief, rest, after);
      AnswerSettles(plane, brief, need, taken);
      SettledStays(plane, brief, need, after, final);
      AnswerChooses(plane, brief, need, taken, final);
      forall k | 0 <= k < m + 1 ensures Settled(plane, brief, needs[k], final) {
        if k > 0 { assert needs[k] == rest[k - 1]; }
      }
      forall a | a in final && a !in taken
        ensures Need(a.targetId, a.protectingId) in needs[..m + 1] && Chosen(plane, brief, a, final)
      {
        if a in after {
          assert needs[..m + 1][0] == need;
        } else {
          var k :| 0 <= k < m && rest[..m][k] == Need(a.targetId, a.protectingId);
          assert needs[..m + 1][k + 1] == rest[..m][k];
        }
      }
    }
  }

  lemma ServedAnyOrder(plane: Plane, brief: Brief, needs: seq<Need>, taken: seq<Assignment>, a: seq<Assignment>, b: seq<Assignment>, m: nat)
    requires m <= |needs| && Served(plane, brief, needs, taken, a, m)
    requires forall x :: x in a <==> x in b
    ensures Served(plane, brief, needs, taken, b, m)
  {
    hide Free, NearerLeq, FindUnit;
    assert UnitIds(a) == UnitIds(b) && TargetIds(a) == TargetIds(b);
    forall x | x in b && x !in taken ensures Chosen(plane, brief, x, b) {
      assert Chosen(plane, brief, x, a);
    }
  }

  lemma WorstFirstIsTotal(members: seq<Unit>)
    ensures TotalPreorder(WorstFirst(members))
  {
    hide PriorityOf;
    var leq := WorstFirst(members);
    forall a, b ensures leq(a, b) || leq(b, a) {
      var p, q := PriorityOf(a, members), PriorityOf(b, members);
      TextTotal(p.targetId, q.targetId);
      TextTotal(p.protectingId, q.protectingId);
    }
    forall a, b, c | leq(a, b) && leq(b, c) ensures leq(a, c) {
      PriorityChains(PriorityOf(a, members), PriorityOf(b, members), PriorityOf(c, members));
    }
  }

  lemma PriorityChains(p: Priority, q: Priority, r: Priority)
    requires PriorityLeq(p, q) && PriorityLeq(q, r)
    ensures PriorityLeq(p, r)
  {
    if p.targetId == q.targetId == r.targetId {
      if TextLeq(p.protectingId, q.protectingId) && TextLeq(q.protectingId, r.protectingId) {
        TextTransitive(p.protectingId, q.protectingId, r.protectingId);
      }
    } else if TextLeq(p.targetId, q.targetId) && TextLeq(q.targetId, r.targetId) {
      TextTransitive(p.targetId, q.targetId, r.targetId);
      if p.targetId == r.targetId { TextAntisymmetric(p.targetId, q.targetId); }
    }
  }

  /** The budget goes to the worst needs first. Some number of needs, counted from the worst,
      is reached: each of those is answered or has nobody free who could answer it; every
      assignment that is new answers one of them, with the nearest unit free; and a budget
      with room left has reached every need there is. */
  lemma BudgetGoesToTheWorst(plane: Plane, squad: Squad, field: Field, prior: seq<Assignment>) returns (m: nat)
    requires OneEach(prior)
    ensures var brief, after := BriefFor(plane, squad, field), Coordinated(plane, squad, field, prior);
      brief.Some? ==>
        && Sorted(WorstFirst(brief.value.members), brief.value.needs)
        && m <= |brief.value.needs|
        && (|after| < brief.value.budget ==> m == |brief.value.needs|)
        && Served(plane, brief.value, brief.value.needs, Kept(plane, brief.value, prior), after, m)
  {
    hide Kept, Staffed, LivingMembers, LeadingMage, Served;
    m := 0;
    var brief := BriefFor(plane, squad, field);
    if brief.Some? {
      var b := brief.value;
      var kept, taken := Kept(plane, b, prior), Allocated(plane, b, prior);
      WorstFirstIsTotal(b.members);
      SortKeeps(WorstFirst(b.members), NeedsAgainst(plane, ArmedEnemies(field.units, squad), b.members, b.profile));
      m := Reached(plane, b, b.needs, kept);
      StaffedServes(plane, b, b.needs, kept);
      KeptSound(plane, b, prior);
      StaffedSound(plane, b, b.needs, kept);
      SortedIsOrderly(taken);
      ServedAnyOrder(plane, b, b.needs, kept, taken, Sort(ByUnit, taken), m);
    }
  }

  // ---- commitment ----

  /** An assignment still inside its window is kept as it stands, unless the budget has
      shrunk below what was standing; one whose premise failed or whose window closed is
      let go, and can only come back as a new one. */
  lemma CommitmentIsHonoured(plane: Plane, squad: Squad, field: Field, prior: seq<Assignment>, a: Assignment)
    requires OneEach(prior) && a in prior
    ensures var brief, after := BriefFor(plane, squad, field), Coordinated(plane, squad, field, prior);
      && (brief.Some? && StillGood(plane, brief.value, a) && |prior| <= brief.value.budget ==> a in after)
      && (a in after && (brief.None? || a.sinceTick != brief.value.tick) ==> brief.Some? && StillGood(plane, brief.value, a))
  {
    hide StillGood, LivingMembers, LeadingMage, NeedsOf, WithAnswer, Chosen, Settled;
    var brief := BriefFor(plane, squad, field);
    if brief.Some? {
      var b := brief.value;
      var kept, taken := Kept(plane, b, prior), Allocated(plane, b, prior);
      var keep := (x: Assignment) => StillGood(plane, b, x);
      FilterMembers(keep, prior);
      FilterShorter(keep, prior);
      KeptSound(plane, b, prior);
      StaffedSound(plane, b, b.needs, kept);
      StaffedOnlyAdds(plane, b, b.needs, kept);
      StaffedServes(plane, b, b.needs, kept);
      SortedIsOrderly(taken);
      assert forall x :: x in kept ==> x in Filter(keep, prior);
      if a in taken && a !in kept { ChosenIsNew(plane, b, a, taken); }
    }
  }

  lemma ChosenIsNew(plane: Plane, brief: Brief, a: Assignment, final: seq<Assignment>)
    requires Chosen(plane, brief, a, final)
    ensures a.sinceTick == brief.tick
  {
  }

  lemma {:induction false} FilterShorter<T>(keep: T -> bool, s: seq<T>)
    ensures |Filter(keep, s)| <= |s|
  {
    if s != [] { FilterShorter(keep, s[1..]); }
  }

  // ---- whole runs ----

  ghost function Run(plane: Plane, squad: Squad, standing: seq<Assignment>, fields: seq<Field>): seq<Assignment> {
    Fold((s: seq<Assignment>, field: Field) => Coordinated(plane, squad, field, s), standing, fields)
  }

  /** Over any run of ticks, on any fields, a troop's assignments stay orderly. */
  lemma RunStaysOrderly(plane: Plane, squad: Squad, fields: seq<Field>)
    ensures Orderly(Run(plane, squad, [], fields))
  {
    hide Coordinated, BriefFor, Sound;
    var next := (s: seq<Assignment>, field: Field) => Coordinated(plane, squad, field, s);
    var holds := (s: seq<Assignment>) => Orderly(s);
    forall s, field | holds(s) ensures holds(next(s, field)) { TickIsSound(plane, squad, field, s); }
    FoldKeeps(next, holds, [], fields);
  }

  /** A good assignment outlives any number of ticks that keep its premise and the budget. */
  ghost predicate PremiseHolds(plane: Plane, squad: Squad, standing: seq<Assignment>, fields: seq<Field>, a: Assignment)
    decreases |fields|
  {
    fields == [] ||
      (var brief := BriefFor(plane, squad, fields[0]);
       brief.Some? && StillGood(plane, brief.value, a) && |standing| <= brief.value.budget
       && PremiseHolds(plane, squad, Coordinated(plane, squad, fields[0], standing), fields[1..], a))
  }

  /** For the whole of its window a defender is not swapped for a newcomer: while the premise
      of its assignment holds and the budget does not shrink, it stands unchanged. */
  lemma {:induction false} NeverSwappedMidway(plane: Plane, squad: Squad, standing: seq<Assignment>, fields: seq<Field>, a: Assignment)
    requires OneEach(standing) && a in standing && PremiseHolds(plane, squad, standing, fields, a)
    ensures a in Run(plane, squad, standing, fields)
    decreases |fields|
  {
    if fields != [] {
      hide Coordinated, BriefFor, Sound, StillGood;
      TickIsSound(plane, squad, fields[0], standing);
      CommitmentIsHonoured(plane, squad, fields[0], standing, a);
      var next := Coordinated(plane, squad, fields[0], standing);
      NeverSwappedMidway(plane, squad, next, fields[1..], a);
    }
  }

  // ---- the order the world lists its units in ----

  ghost predicate DistinctUnits(units: seq<Unit>) {
    forall u, v :: u in units && v in units && u.id == v.id ==> u == v
  }

  lemma FindsAgree(a: seq<Unit>, b: seq<Unit>, id: string)
    requires multiset(a) == multiset(b) && DistinctUnits(a)
    ensures FindUnit(a, id) == FindUnit(b, id)
  {
    FindForgetsOrder((u: Unit) => u.id == id, a, b);
  }

  lemma IdsAreTotal()
    ensures TotalPreorder(IdLeq)
  {
    forall a, b ensures IdLeq(a, b) || IdLeq(b, a) { TextTotal(a.id, b.id); }
    forall a, b, c | IdLeq(a, b) && IdLeq(b, c) ensures IdLeq(a, c) { TextTransitive(a.id, b.id, c.id); }
  }

  /** A list filtered and then sorted by id forgets the order it came in. */
  lemma RosterForgetsOrder(keep: Unit -> bool, a: seq<Unit>, b: seq<Unit>)
    requires multiset(a) == multiset(b) && DistinctUnits(a)
    ensures Sort(IdLeq, Filter(keep, a)) == Sort(IdLeq, Filter(keep, b))
  {
    IdsAreTotal();
    FilterForgetsOrder(keep, a, b);
    FilterMembers(keep, a);
    forall u, v | u in Filter(keep, a) && v in Filter(keep, a) && IdLeq(u, v) && IdLeq(v, u) ensures u == v {
      TextAntisymmetric(u.id, v.id);
    }
    SortForgetsOrder(IdLeq, Filter(keep, a), Filter(keep, b));
  }

  /** Two briefs of one tick, read off differently listed units. */
  ghost predicate Alike(b: Brief, c: Brief) {
    c == b.(units := c.units) && forall id :: FindUnit(b.units, id) == FindUnit(c.units, id)
  }

  lemma BestAlike(plane: Plane, b: Brief, c: Brief, need: Need, committed: set<string>)
    requires Alike(b, c)
    ensures BestDefender(plane, b, need, committed) == BestDefender(plane, c, need, committed)
  {
    hide FindUnit;
    FilterAgrees((u: Unit) => Free(plane, b, need, committed, u), (u: Unit) => Free(plane, c, need, committed, u), b.members);
  }

  lemma KeptAlike(plane: Plane, b: Brief, c: Brief, prior: seq<Assignment>)
    requires Alike(b, c)
    ensures Kept(plane, b, prior) == Kept(plane, c, prior)
  {
    hide FindUnit;
    FilterAgrees((a: Assignment) => StillGood(plane, b, a), (a: Assignment) => StillGood(plane, c, a), prior);
  }

  lemma {:induction false} StaffedAlike(plane: Plane, b: Brief, c: Brief, needs: seq<Need>, taken: seq<Assignment>)
    requires Alike(b, c)
    ensures Staffed(plane, b, needs, taken) == Staffed(plane, c, needs, taken)
    decreases |needs|
  {
    if needs != [] && |taken| < b.budget {
      hide BestDefender;
      BestAlike(plane, b, c, needs[0], UnitIds(taken));
      StaffedAlike(plane, b, c, needs[1..], WithAnswer(plane, b, needs[0], taken));
    }
  }

  lemma LeaderAgrees(squad: Squad, f: Field, g: Field)
    requires g == f.(units := g.units) && multiset(f.units) == multiset(g.units) && DistinctUnits(f.units)
    ensures LeadingMage(f, squad) == LeadingMage(g, squad)
  {
    forall id ensures Leads(f, id) == Leads(g, id) { FindsAgree(f.units, g.units, id); }
    LeadersAlike(f, g, Sort(TextLeq, squad.mageIds));
  }

  lemma {:induction false} LeadersAlike(f: Field, g: Field, ids: seq<string>)
    requires forall id :: Leads(f, id) == Leads(g, id)
    ensures FindFirst((id: string) => Leads(f, id), ids) == FindFirst((id: string) => Leads(g, id), ids)
  {
    hide Leads;
    if ids != [] { LeadersAlike(f, g, ids[1..]); }
  }

  /** With unit ids distinct, how the world lists its units changes no assignment. */
  lemma CoordinationForgetsOrder(plane: Plane, squad: Squad, f: Field, g: Field, prior: seq<Assignment>)
    requires g == f.(units := g.units) && multiset(f.units) == multiset(g.units) && DistinctUnits(f.units)
    ensures Coordinated(plane, squad, f, prior) == Coordinated(plane, squad, g, prior)
  {
    RosterForgetsOrder((u: Unit) => u.troopId == squad.id && IsAlive(u), f.units, g.units);
    RosterForgetsOrder((u: Unit) => IsAlive(u) && u.side != squad.side && u.damage > 0.0, f.units, g.units);
    LeaderAgrees(squad, f, g);
    hide LeadingMage, DistinctUnits, NeedsOf, Kept, Staffed;
    var b, c := BriefFor(plane, squad, f), BriefFor(plane, squad, g);
    if b.Some? {
      forall id ensures FindUnit(f.units, id) == FindUnit(g.units, id) { FindsAgree(f.units, g.units, id); }
      assert Alike(b.value, c.value);
      KeptAlike(plane, b.value, c.value, prior);
      StaffedAlike(plane, b.value, c.value, b.value.needs, Kept(plane, b.value, prior));
    }
  }
}
