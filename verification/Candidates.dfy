/** Every legal action and nothing illegal (`api/app/sim/ai/candidates.py`), standing where
    `api/app/sim/ai/positioning.py` says. */
module Candidates {
  import opened Common
  import opened Ordering
  import opened BattleWorld
  import opened Geometry
  import opened Coordination
  import opened Observing
  import opened Pursuit

  const ARRIVAL_EPSILON: real := 0.000000001
  const WITHDRAW_LEAD_SECONDS: real := 1.0

  /** What deciding consults besides the observation: the plane, and where threats under
      pressure drive a unit, if anywhere. */
  datatype Senses = Senses(plane: Plane, giveGround: Observation -> Option<Vec2>)

  datatype Candidate = Candidate(
    kind: ActionKind,
    targetId: Option<string>,
    abilityId: Option<string>,
    destination: Option<Vec2>,
    reason: Reason,
    protectingId: Option<string>)

  // ---- the sort key ----

  datatype Key = Key(kind: nat, target: string, ability: string, x: real, y: real)

  function Text(id: Option<string>): string {
    if id.Some? then id.value else ""
  }

  function KeyOf(c: Candidate): Key {
    Key(Declared(c.kind), Text(c.targetId), Text(c.abilityId),
        if c.destination.Some? then c.destination.value.x else 0.0,
        if c.destination.Some? then c.destination.value.y else 0.0)
  }

  predicate KeyLeq(a: Key, b: Key) {
    if a.kind != b.kind then a.kind < b.kind
    else if a.target != b.target then TextLeq(a.target, b.target)
    else if a.ability != b.ability then TextLeq(a.ability, b.ability)
    else if a.x != b.x then a.x < b.x
    else a.y <= b.y
  }

  predicate InKeyOrder(a: Candidate, b: Candidate) {
    KeyLeq(KeyOf(a), KeyOf(b))
  }

  // ---- whom to answer ----

  predicate NearerTo(plane: Plane, o: Observation, a: Unit, b: Unit) {
    if GapTo(plane, o, a) != GapTo(plane, o, b) then GapTo(plane, o, a) < GapTo(plane, o, b) else TextLeq(a.id, b.id)
  }

  function NearestEnemy(plane: Plane, o: Observation): Option<Unit> {
    if o.enemies == [] then None
    else Some(LeastBy((a: Unit, b: Unit) => NearerTo(plane, o, a, b), o.enemies))
  }

  /** Whoever the troop nominated, whoever is being chased, and the nearest. */
  function Wanted(plane: Plane, o: Observation): set<string> {
    var nearest := NearestEnemy(plane, o);
    (if o.assignment.Some? then {o.assignment.value.targetId} else {})
    + (if o.mind.commitment.Some? then {o.mind.commitment.value.targetId} else {})
    + (if nearest.Some? then {nearest.value.id} else {})
  }

  function Answerable(plane: Plane, o: Observation): seq<Unit> {
    Filter((e: Unit) => e.id in Wanted(plane, o) && e.id in EligibleTargets(plane, o), o.enemies)
  }

  // ---- the candidates, one family at a time ----

  predicate BaseIsOffLimits(o: Observation, destination: Vec2) {
    !o.orders.mayAttackBase && destination == o.orders.enemyBase
  }

  function StationCandidates(plane: Plane, o: Observation): seq<Candidate> {
    if Distance(plane, o.unit.position, o.orders.station) <= ARRIVAL_EPSILON then []
    else if BaseIsOffLimits(o, o.orders.station) then []
    else [Candidate(Advance, None, None, Some(o.orders.station),
                    if o.mind.recovery > 0 then ReturnedToStation else PressingObjective, None)]
  }

  function ClosingReason(plane: Plane, o: Observation, target: Unit): Reason {
    if InReach(plane, o, target) then Engaging
    else if o.mind.commitment.Some? && o.mind.commitment.value.targetId == target.id then Pursuing
    else if o.assignment.Some? && o.assignment.value.targetId == target.id then Intercepting
    else PursuitStarted
  }

  datatype Screened = Screened(position: Vec2, unitId: Option<string>, named: bool)

  /** What a screen covers: the ally named, else the ally nearest the threat, else the post. */
  function ProtectedBy(plane: Plane, o: Observation, threat: Unit): Screened {
    var ally := if o.assignment.Some? then FindUnit(o.allies, o.assignment.value.protectingId) else None;
    if ally.Some? then Screened(ally.value.position, Some(ally.value.id), true)
    else if o.allies == [] then Screened(o.orders.station, None, false)
    else
      var nearest := LeastBy((a: Unit, b: Unit) =>
        Distance(plane, threat.position, a.position) <= Distance(plane, threat.position, b.position), o.allies);
      Screened(nearest.position, Some(nearest.id), false)
  }

  function ScreenCandidates(plane: Plane, o: Observation, target: Unit): seq<Candidate> {
    if !CanAttack(o.unit) then []
    else
      var covered := ProtectedBy(plane, o, target);
      var screen := PointAlong(plane, target.position, covered.position, UsefulRange(o.unit));
      if Distance(plane, o.unit.position, screen) > ARRIVAL_EPSILON && !BaseIsOffLimits(o, screen) then
        [Candidate(Advance, Some(target.id), None, Some(screen),
                   if covered.named then Screening else ScreeningInferred, covered.unitId)]
      else []
  }

  /** Closing on one enemy, and interposing in front of what it threatens: only from outside reach. */
  function ApproachCandidates(plane: Plane, o: Observation, target: Unit): seq<Candidate> {
    if InReach(plane, o, target) then []
    else
      var approach := ApproachTo(plane, o, target);
      (if BaseIsOffLimits(o, approach) then []
       else [Candidate(Advance, Some(target.id), None, Some(approach), ClosingReason(plane, o, target), None)])
      + ScreenCandidates(plane, o, target)
  }

  predicate ClosingIn(enemy: Unit, gap: real) {
    gap <= enemy.range + enemy.speed * WITHDRAW_LEAD_SECONDS
  }

  /** Backing off to useful firing distance: outranging something near that is closing in. */
  function WithdrawCandidate(plane: Plane, o: Observation, enemy: Unit): seq<Candidate> {
    var here := GapTo(plane, o, enemy);
    if !(o.unit.range > enemy.range) || here >= UsefulRange(o.unit) || !ClosingIn(enemy, here) then []
    else [Candidate(Withdraw, Some(enemy.id), None, Some(ApproachTo(plane, o, enemy)), MaintainingRange, None)]
  }

  function RetreatCandidates(senses: Senses, o: Observation): seq<Candidate> {
    if !CanMove(o.unit) then []
    else match senses.giveGround(o)
      case None => []
      case Some(destination) =>
        if BaseIsOffLimits(o, destination) then []
        else [Candidate(Retreat, None, None, Some(destination), Retreating, None)]
  }

  function AttackCandidate(plane: Plane, o: Observation, enemy: Unit): seq<Candidate> {
    if InReach(plane, o, enemy) then [Candidate(Attack, Some(enemy.id), None, None, Engaging, None)] else []
  }

  function CastReach(o: Observation, ability: Ability): real {
    if ability.range.Some? then ability.range.value else o.unit.range
  }

  function CastAt(plane: Plane, o: Observation, ability: Ability, enemy: Unit): seq<Candidate> {
    if GapTo(plane, o, enemy) <= CastReach(o, ability) then
      [Candidate(SpendAbility, Some(enemy.id), Some(ability.id), None, Engaging, None)]
    else []
  }

  function CastCandidates(plane: Plane, o: Observation): seq<Candidate> {
    if o.ability.None? || o.energy < o.ability.value.energyCost then []
    else if o.ability.value.onSelf then [Candidate(SpendAbility, None, Some(o.ability.value.id), None, Engaging, None)]
    else Each((e: Unit) => CastAt(plane, o, o.ability.value, e), o.enemies)
  }

  /** One list per unit, in order. */
  function Each(offer: Unit -> seq<Candidate>, units: seq<Unit>): seq<Candidate> {
    if units == [] then [] else Each(offer, units[..|units| - 1]) + offer(units[|units| - 1])
  }

  function HoldCandidate(o: Observation): Candidate {
    Candidate(Hold, None, None, Some(o.unit.position), HoldingStation, None)
  }

  function MovingCandidates(senses: Senses, o: Observation): seq<Candidate> {
    var plane := senses.plane;
    var answerable := Answerable(plane, o);
    if !CanMove(o.unit) then []
    else
      StationCandidates(plane, o)
      + (if CanAttack(o.unit) then Each((e: Unit) => ApproachCandidates(plane, o, e), answerable) else [])
      + (if CanAttack(o.unit) then Each((e: Unit) => WithdrawCandidate(plane, o, e), answerable) else [])
      + RetreatCandidates(senses, o)
  }

  function AttackCandidates(plane: Plane, o: Observation): seq<Candidate> {
    if CanAttack(o.unit) then Each((e: Unit) => AttackCandidate(plane, o, e), o.enemies) else []
  }

  /** Everything offered, duplicates and all. */
  function Offered(senses: Senses, o: Observation): seq<Candidate> {
    [HoldCandidate(o)] + MovingCandidates(senses, o) + AttackCandidates(senses.plane, o) + CastCandidates(senses.plane, o)
  }

  function Keys(s: seq<Candidate>): set<Key> {
    set c | c in s :: KeyOf(c)
  }

  /** The first candidate under each key. */
  function FirstOfEach(s: seq<Candidate>): seq<Candidate> {
    if s == [] then []
    else
      var front, last := FirstOfEach(s[..|s| - 1]), s[|s| - 1];
      if KeyOf(last) in Keys(front) then front else front + [last]
  }

  function CandidatesOf(senses: Senses, o: Observation): seq<Candidate> {
    Sort(InKeyOrder, FirstOfEach(Offered(senses, o)))
  }

  // ---- as the server builds them ----

  method ApproachAll(plane: Plane, o: Observation, targets: seq<Unit>) returns (found: seq<Candidate>)
    ensures found == Each((e: Unit) => ApproachCandidates(plane, o, e), targets)
  {
    hide ApproachCandidates;
    found := [];
    for i := 0 to |targets|
      invariant found == Each((e: Unit) => ApproachCandidates(plane, o, e), targets[..i])
    {
      assert targets[..i + 1][..i] == targets[..i];
      found := found + ApproachCandidates(plane, o, targets[i]);
    }
    assert targets[..|targets|] == targets;
  }

  method WithdrawFrom(plane: Plane, o: Observation, targets: seq<Unit>) returns (found: seq<Candidate>)
    ensures found == Each((e: Unit) => WithdrawCandidate(plane, o, e), targets)
  {
    found := [];
    for i := 0 to |targets|
      invariant found == Each((e: Unit) => WithdrawCandidate(plane, o, e), targets[..i])
    {
      assert targets[..i + 1][..i] == targets[..i];
      var here := GapTo(plane, o, targets[i]);
      if !(o.unit.range > targets[i].range) || here >= UsefulRange(o.unit) { continue; }
      if !ClosingIn(targets[i], here) { continue; }
      found := found + [Candidate(Withdraw, Some(targets[i].id), None, Some(ApproachTo(plane, o, targets[i])), MaintainingRange, None)];
    }
    assert targets[..|targets|] == targets;
  }

  method AttackAll(plane: Plane, o: Observation) returns (found: seq<Candidate>)
    ensures found == Each((e: Unit) => AttackCandidate(plane, o, e), o.enemies)
  {
    found := [];
    for i := 0 to |o.enemies|
      invariant found == Each((e: Unit) => AttackCandidate(plane, o, e), o.enemies[..i])
    {
      assert o.enemies[..i + 1][..i] == o.enemies[..i];
      if InReach(plane, o, o.enemies[i]) {
        found := found + [Candidate(Attack, Some(o.enemies[i].id), None, None, Engaging, None)];
      }
    }
    assert o.enemies[..|o.enemies|] == o.enemies;
  }

  method Deduplicate(offered: seq<Candidate>) returns (unique: seq<Candidate>)
    ensures unique == FirstOfEach(offered)
  {
    unique := [];
    var seen: set<Key> := {};
    for i := 0 to |offered|
      invariant unique == FirstOfEach(offered[..i]) && seen == Keys(unique)
    {
      assert offered[..i + 1][..i] == offered[..i];
      if KeyOf(offered[i]) in seen { continue; }
      unique := unique + [offered[i]];
      seen := seen + {KeyOf(offered[i])};
    }
    assert offered[..|offered|] == offered;
  }

  method GenerateCandidates(senses: Senses, o: Observation) returns (candidates: seq<Candidate>)
    ensures candidates == CandidatesOf(senses, o)
  {
    hide StationCandidates, RetreatCandidates, CastCandidates, ApproachCandidates, WithdrawCandidate, AttackCandidate;
    var answerable := Answerable(senses.plane, o);
    candidates := [HoldCandidate(o)];
    if CanMove(o.unit) {
      var moving := StationCandidates(senses.plane, o);
      if CanAttack(o.unit) {
        var approaches := ApproachAll(senses.plane, o, answerable);
        var withdrawals := WithdrawFrom(senses.plane, o, answerable);
        moving := moving + approaches + withdrawals;
      }
      moving := moving + RetreatCandidates(senses, o);
      assert moving == MovingCandidates(senses, o);
      candidates := candidates + moving;
    }
    if CanAttack(o.unit) {
      var attacks := AttackAll(senses.plane, o);
      candidates := candidates + attacks;
    }
    candidates := candidates + CastCandidates(senses.plane, o);
    assert candidates == Offered(senses, o);
    candidates := Deduplicate(candidates);
    candidates := Sort(InKeyOrder, candidates);
  }
}
