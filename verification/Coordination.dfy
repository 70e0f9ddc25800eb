/** Who is asked to answer which threat (`api/app/sim/ai/coordination.py`): a greedy
    allocation with a budget, and commitment carried from tick to tick. */
module Coordination {
  import opened Common
  import opened Ordering
  import opened BattleWorld
  import opened Geometry
  import opened Runs

  const BASE_GUARD_RADIUS: real := 40.0
  const BASE_LEASH: real := 70.0
  const BASE_COMMITMENT_SECONDS: real := 1.5
  const BASE_DEFENDERS: real := 1.0
  const MAX_INFLUENCE: real := 190.0
  const MAX_COMMITMENT_SECONDS: real := 6.0
  const MAX_DEFENDERS: int := 3

  /** What one personality tag moves. */
  datatype Shift = Shift(guardRadius: real, leash: real, commitmentSeconds: real, defenders: real) {
    function Plus(other: Shift): Shift {
      Shift(guardRadius + other.guardRadius, leash + other.leash,
            commitmentSeconds + other.commitmentSeconds, defenders + other.defenders)
    }
  }

  datatype Profile = Profile(guardRadius: real, leash: real, commitmentTicks: int, defenders: nat)

  datatype Assignment = Assignment(unitId: string, targetId: string, protectingId: string, sinceTick: int)

  datatype Need = Need(targetId: string, protectingId: string)

  datatype Squad = Squad(id: string, side: Side, mageIds: seq<string>)

  /** What one tick of coordination reads. `minds` holds the units with behaviour attached. */
  datatype Field = Field(units: seq<Unit>, minds: map<string, seq<Shift>>, tick: int, secondsPerTick: real)

  // ---- habits ----

  function Clamp(value: real, low: real, high: real): (clamped: real)
    ensures low <= high ==> low <= clamped <= high
  {
    Min(high, Max(low, value))
  }

  function Ticks(seconds: real, secondsPerTick: real): int {
    if secondsPerTick <= 0.0 then 0 else Round(seconds / secondsPerTick)
  }

  const BASELINE: Shift := Shift(BASE_GUARD_RADIUS, BASE_LEASH, BASE_COMMITMENT_SECONDS, BASE_DEFENDERS)

  /** Baseline plus every tag's shift, in tag order. */
  function Total(shifts: seq<Shift>): Shift {
    if shifts == [] then BASELINE else Total(shifts[..|shifts| - 1]).Plus(shifts[|shifts| - 1])
  }

  function ProfileOf(shifts: seq<Shift>, secondsPerTick: real): Profile {
    var total := Total(shifts);
    Profile(Clamp(total.guardRadius, 0.0, MAX_INFLUENCE),
            Clamp(total.leash, 0.0, MAX_INFLUENCE),
            Ticks(Clamp(total.commitmentSeconds, 0.0, MAX_COMMITMENT_SECONDS), secondsPerTick),
            Clamp(total.defenders, 0.0, MAX_DEFENDERS as real).Floor)
  }

  method ComposeProfile(shifts: seq<Shift>, secondsPerTick: real) returns (profile: Profile)
    ensures profile == ProfileOf(shifts, secondsPerTick)
    ensures 0.0 <= profile.guardRadius <= MAX_INFLUENCE && 0.0 <= profile.leash <= MAX_INFLUENCE
    ensures profile.defenders <= MAX_DEFENDERS
  {
    var guardRadius, leash := BASE_GUARD_RADIUS, BASE_LEASH;
    var commitmentSeconds, defenders := BASE_COMMITMENT_SECONDS, BASE_DEFENDERS;
    for i := 0 to |shifts|
      invariant Shift(guardRadius, leash, commitmentSeconds, defenders) == Total(shifts[..i])
    {
      assert shifts[..i + 1][..i] == shifts[..i];
      guardRadius := guardRadius + shifts[i].guardRadius;
      leash := leash + shifts[i].leash;
      commitmentSeconds := commitmentSeconds + shifts[i].commitmentSeconds;
      defenders := defenders + shifts[i].defenders;
    }
    assert shifts[..|shifts|] == shifts;
    profile := Profile(Clamp(guardRadius, 0.0, MAX_INFLUENCE),
                       Clamp(leash, 0.0, MAX_INFLUENCE),
                       Ticks(Clamp(commitmentSeconds, 0.0, MAX_COMMITMENT_SECONDS), secondsPerTick),
                       Clamp(defenders, 0.0, MAX_DEFENDERS as real).Floor);
  }

  // ---- reading the field ----

  predicate IdLeq(a: Unit, b: Unit) {
    TextLeq(a.id, b.id)
  }

  function FindUnit(units: seq<Unit>, id: string): Option<Unit> {
    FindFirst((u: Unit) => u.id == id, units)
  }

  function LivingMembers(units: seq<Unit>, squad: Squad): seq<Unit> {
    Sort(IdLeq, Filter((u: Unit) => u.troopId == squad.id && IsAlive(u), units))
  }

  function ArmedEnemies(units: seq<Unit>, squad: Squad): seq<Unit> {
    Sort(IdLeq, Filter((u: Unit) => IsAlive(u) && u.side != squad.side && u.damage > 0.0, units))
  }

  predicate Leads(field: Field, id: string) {
    var mage := FindUnit(field.units, id);
    mage.Some? && IsAlive(mage.value) && id in field.minds
  }

  /** The living mage a troop's habits are read from: the lowest id among them. */
  function LeadingMage(field: Field, squad: Squad): Option<string> {
    FindFirst((id: string) => Leads(field, id), Sort(TextLeq, squad.mageIds))
  }

  function ProfileFor(field: Field, leader: string): Profile
    requires leader in field.minds
  {
    ProfileOf(field.minds[leader], field.secondsPerTick)
  }

  predicate UnderThreat(plane: Plane, enemy: Unit, ally: Unit, profile: Profile) {
    enemy.damage > 0.0 && Distance(plane, enemy.position, ally.position) <= enemy.range + profile.guardRadius
  }

  predicate Threatens(plane: Plane, attacker: Unit, victim: Unit) {
    attacker.damage > 0.0 && Distance(plane, attacker.position, victim.position) <= attacker.range
  }

  function HealthShare(unit: Unit): real {
    unit.hp / if unit.maxHp > 0.0 then unit.maxHp else 1.0
  }

  function Group(unit: Unit): int {
    if unit.kind == Mage then 0 else 1
  }

  /** Mages first, then the most hurt, then the lower id. */
  predicate NeedierLeq(a: Unit, b: Unit) {
    if Group(a) != Group(b) then Group(a) < Group(b)
    else if HealthShare(a) != HealthShare(b) then HealthShare(a) < HealthShare(b)
    else TextLeq(a.id, b.id)
  }

  datatype Priority = Priority(group: int, health: real, targetId: string, protectingId: string)

  function PriorityOf(need: Need, members: seq<Unit>): Priority {
    match FindUnit(members, need.protectingId)
    case Some(unit) => Priority(Group(unit), HealthShare(unit), need.targetId, need.protectingId)
    case None => Priority(2, 1.0, need.targetId, need.protectingId)
  }

  predicate PriorityLeq(a: Priority, b: Priority) {
    if a.group != b.group then a.group < b.group
    else if a.health != b.health then a.health < b.health
    else if a.targetId != b.targetId then TextLeq(a.targetId, b.targetId)
    else TextLeq(a.protectingId, b.protectingId)
  }

  function Victims(plane: Plane, enemy: Unit, members: seq<Unit>, profile: Profile): seq<Unit> {
    Filter((ally: Unit) => UnderThreat(plane, enemy, ally, profile), members)
  }

  /** One need per enemy hurting one of ours, on behalf of whoever needs it most. */
  function NeedsAgainst(plane: Plane, enemies: seq<Unit>, members: seq<Unit>, profile: Profile): seq<Need> {
    if enemies == [] then []
    else
      var rest, enemy := NeedsAgainst(plane, enemies[..|enemies| - 1], members, profile), enemies[|enemies| - 1];
      var victims := Victims(plane, enemy, members, profile);
      if victims == [] then rest else rest + [Need(enemy.id, LeastBy(NeedierLeq, victims).id)]
  }

  function WorstFirst(members: seq<Unit>): (Need, Need) -> bool {
    (a: Need, b: Need) => PriorityLeq(PriorityOf(a, members), PriorityOf(b, members))
  }

  function NeedsOf(plane: Plane, enemies: seq<Unit>, members: seq<Unit>, profile: Profile): seq<Need> {
    Sort(WorstFirst(members), NeedsAgainst(plane, enemies, members, profile))
  }

  method GatherNeeds(plane: Plane, enemies: seq<Unit>, members: seq<Unit>, profile: Profile) returns (needs: seq<Need>)
    ensures needs == NeedsOf(plane, enemies, members, profile)
  {
    needs := [];
    for i := 0 to |enemies|
      invariant needs == NeedsAgainst(plane, enemies[..i], members, profile)
    {
      assert enemies[..i + 1][..i] == enemies[..i];
      var victims := Victims(plane, enemies[i], members, profile);
      if victims == [] { continue; }
      needs := needs + [Need(enemies[i].id, LeastBy(NeedierLeq, victims).id)];
    }
    assert enemies[..|enemies|] == enemies;
    needs := Sort(WorstFirst(members), needs);
  }

  // ---- one tick's brief ----

  datatype Brief = Brief(units: seq<Unit>, members: seq<Unit>, needs: seq<Need>, profile: Profile, budget: nat, tick: int)

  /** At most the profile's defenders, and never more than half the living. */
  function Budget(profile: Profile, living: nat): nat {
    if profile.defenders <= living / 2 then profile.defenders else living / 2
  }

  /** What there is to coordinate, or None when the troop is dissolved, wiped out or mindless. */
  function BriefFor(plane: Plane, squad: Squad, field: Field): Option<Brief> {
    var members, leader := LivingMembers(field.units, squad), LeadingMage(field, squad);
    if members == [] || leader.None? then None
    else
      var profile := ProfileFor(field, leader.value);
      Some(Brief(field.units, members, NeedsOf(plane, ArmedEnemies(field.units, squad), members, profile),
                 profile, Budget(profile, |members|), field.tick))
  }

  /** An immobile unit is judged on its reach alone. */
  predicate Reachable(plane: Plane, defender: Unit, target: Unit, profile: Profile) {
    var gap := Distance(plane, defender.position, target.position);
    gap <= defender.range + if defender.speed <= 0.0 then 0.0 else profile.leash
  }

  /** Alive, armed, in range of the job, and not the one being defended. */
  predicate Eligible(plane: Plane, defender: Unit, units: seq<Unit>, need: Need, profile: Profile) {
    var target, ward := FindUnit(units, need.targetId), FindUnit(units, need.protectingId);
    && IsAlive(defender) && defender.damage > 0.0 && defender.id != need.protectingId
    && target.Some? && IsAlive(target.value) && ward.Some? && IsAlive(ward.value)
    && (Threatens(plane, target.value, ward.value) || UnderThreat(plane, target.value, ward.value, profile))
    && Reachable(plane, defender, target.value, profile)
  }

  function UnitIds(taken: seq<Assignment>): set<string> {
    set a | a in taken :: a.unitId
  }

  function TargetIds(taken: seq<Assignment>): set<string> {
    set a | a in taken :: a.targetId
  }

  predicate Free(plane: Plane, brief: Brief, need: Need, committed: set<string>, unit: Unit) {
    unit.id !in committed && Eligible(plane, unit, brief.units, need, brief.profile)
  }

  function Nearest(plane: Plane, target: Unit): (Unit, Unit) -> bool {
    (a: Unit, b: Unit) => NearerLeq(plane, target, a, b)
  }

  predicate NearerLeq(plane: Plane, target: Unit, a: Unit, b: Unit) {
    var da, db := Distance(plane, a.position, target.position), Distance(plane, b.position, target.position);
    if da != db then da < db else TextLeq(a.id, b.id)
  }

  function FreeDefenders(plane: Plane, brief: Brief, need: Need, committed: set<string>): seq<Unit> {
    Filter((u: Unit) => Free(plane, brief, need, committed, u), brief.members)
  }

  /** The nearest eligible unit not already busy. */
  function BestDefender(plane: Plane, brief: Brief, need: Need, committed: set<string>): Option<Unit> {
    match FindUnit(brief.units, need.targetId)
    case None => None
    case Some(target) =>
      var eligible := FreeDefenders(plane, brief, need, committed);
      if eligible == [] then None else Some(LeastBy(Nearest(plane, target), eligible))
  }

  /** The need naming this target; the last one, as a dictionary keeps it. */
  function NeedFor(needs: seq<Need>, targetId: string): Option<Need> {
    if needs == [] then None
    else if needs[|needs| - 1].targetId == targetId then Some(needs[|needs| - 1])
    else NeedFor(needs[..|needs| - 1], targetId)
  }

  /** Whether a standing assignment is honoured: its premise still holds and its window is open. */
  predicate StillGood(plane: Plane, brief: Brief, a: Assignment) {
    var need, defender := NeedFor(brief.needs, a.targetId), FindUnit(brief.members, a.unitId);
    && need.Some? && need.value.protectingId == a.protectingId
    && brief.tick - a.sinceTick < brief.profile.commitmentTicks
    && defender.Some? && Eligible(plane, defender.value, brief.units, need.value, brief.profile)
  }

  function Survivors(plane: Plane, brief: Brief, prior: seq<Assignment>): seq<Assignment> {
    Filter((a: Assignment) => StillGood(plane, brief, a), prior)
  }

  function Upto<T>(s: seq<T>, n: nat): seq<T> {
    if |s| <= n then s else s[..n]
  }

  function Kept(plane: Plane, brief: Brief, prior: seq<Assignment>): seq<Assignment> {
    Upto(Survivors(plane, brief, prior), brief.budget)
  }

  function WithAnswer(plane: Plane, brief: Brief, need: Need, taken: seq<Assignment>): seq<Assignment> {
    if need.targetId in TargetIds(taken) then taken
    else match BestDefender(plane, brief, need, UnitIds(taken))
      case None => taken
      case Some(unit) => taken + [Assignment(unit.id, need.targetId, need.protectingId, brief.tick)]
  }

  /** The needs answered in turn, worst first, while the budget lasts. */
  function Staffed(plane: Plane, brief: Brief, needs: seq<Need>, taken: seq<Assignment>): seq<Assignment>
    decreases |needs|
  {
    if needs == [] || |taken| >= brief.budget then taken
    else Staffed(plane, brief, needs[1..], WithAnswer(plane, brief, needs[0], taken))
  }

  predicate ByUnit(a: Assignment, b: Assignment) {
    TextLeq(a.unitId, b.unitId)
  }

  function Allocated(plane: Plane, brief: Brief, prior: seq<Assignment>): seq<Assignment> {
    Staffed(plane, brief, brief.needs, Kept(plane, brief, prior))
  }

  /** One troop's assignments after one tick. */
  function Coordinated(plane: Plane, squad: Squad, field: Field, prior: seq<Assignment>): seq<Assignment> {
    match BriefFor(plane, squad, field)
    case None => []
    case Some(brief) => Sort(ByUnit, Allocated(plane, brief, prior))
  }

  // ---- the troop, rebuilt in place ----

  class Troop {
    const squad: Squad
    /** Sorted by unit, at most one per unit. */
    var coordination: seq<Assignment>

    constructor (squad: Squad)
      ensures this.squad == squad && coordination == []
    {
      this.squad := squad;
      coordination := [];
    }

    method Coordinate(plane: Plane, field: Field)
      modifies this
      ensures coordination == Coordinated(plane, squad, field, old(coordination))
    {
      var members, leader := LivingMembers(field.units, squad), LeadingMage(field, squad);
      if members == [] || leader.None? {
        coordination := [];
        return;
      }
      var profile := ComposeProfile(field.minds[leader.value], field.secondsPerTick);
      var needs := GatherNeeds(plane, ArmedEnemies(field.units, squad), members, profile);
      var brief := Brief(field.units, members, needs, profile, Budget(profile, |members|), field.tick);
      var kept := KeepAssignments(plane, brief, coordination);
      var taken := StaffNeeds(plane, brief, kept);
      coordination := Sort(ByUnit, taken);
    }

    static method KeepAssignments(plane: Plane, brief: Brief, prior: seq<Assignment>) returns (kept: seq<Assignment>)
      ensures kept == Kept(plane, brief, prior)
    {
      hide StillGood;
      kept := [];
      var i := 0;
      while i < |prior| && |kept| < brief.budget
        invariant 0 <= i <= |prior|
        invariant kept == Survivors(plane, brief, prior[..i]) && |kept| <= brief.budget
      {
        KeepsGoing(plane, brief, prior, i);
        if StillGood(plane, brief, prior[i]) { kept := kept + [prior[i]]; }
        i := i + 1;
      }
      SurvivorsSplit(plane, brief, prior, i);
    }

    static method StaffNeeds(plane: Plane, brief: Brief, kept: seq<Assignment>) returns (taken: seq<Assignment>)
      ensures taken == Staffed(plane, brief, brief.needs, kept)
    {
      hide BestDefender;
      taken := kept;
      var committed, answered := UnitIds(kept), TargetIds(kept);
      var i := 0;
      assert brief.needs[0..] == brief.needs;
      while i < |brief.needs| && |taken| < brief.budget
        invariant 0 <= i <= |brief.needs|
        invariant committed == UnitIds(taken) && answered == TargetIds(taken)
        invariant Staffed(plane, brief, brief.needs, kept) == Staffed(plane, brief, brief.needs[i..], taken)
      {
        var need := brief.needs[i];
        assert brief.needs[i..][1..] == brief.needs[i + 1..];
        i := i + 1;
        if need.targetId in answered { continue; }
        var defender := BestDefender(plane, brief, need, committed);
        if defender.None? { continue; }
        taken := taken + [Assignment(defender.value.id, need.targetId, need.protectingId, brief.tick)];
        committed := committed + {defender.value.id};
        answered := answered + {need.targetId};
      }
    }
  }

  lemma KeepsGoing(plane: Plane, brief: Brief, prior: seq<Assignment>, i: nat)
    requires i < |prior|
    ensures Survivors(plane, brief, prior[..i + 1])
         == Survivors(plane, brief, prior[..i]) + if StillGood(plane, brief, prior[i]) then [prior[i]] else []
  {
    hide StillGood;
    assert prior[..i + 1] == prior[..i] + [prior[i]];
    FilterAppends((a: Assignment) => StillGood(plane, brief, a), prior[..i], prior[i]);
  }

  /** What was kept early stays in front of what survives later. */
  lemma {:induction false} SurvivorsSplit(plane: Plane, brief: Brief, prior: seq<Assignment>, i: nat)
    requires i <= |prior|
    ensures Survivors(plane, brief, prior[..i]) <= Survivors(plane, brief, prior)
    ensures i == |prior| ==> Survivors(plane, brief, prior[..i]) == Survivors(plane, brief, prior)
    decreases |prior| - i
  {
    hide Survivors;
    if i == |prior| {
      assert prior[..i] == prior;
    } else {
      KeepsGoing(plane, brief, prior, i);
      SurvivorsSplit(plane, brief, prior, i + 1);
    }
  }
}
