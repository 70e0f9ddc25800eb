/** Bounded pursuit over whole runs: three modules keep one bound between them. */
module Chases {
  import opened Common
  import opened Ordering
  import opened BattleWorld
  import opened Geometry
  import opened Coordination
  import opened Allocation
  import opened Observing
  import opened Pursuit
  import opened Candidates
  import opened Legality
  import opened Scoring
  import opened Deciding

  /** Everything about a unit's deciding that a battle fixes. */
  datatype Brain = Brain(senses: Senses, judge: Judge, behavior: Behavior, roll: (Observation, nat) -> real)

  function DecideWith(brain: Brain, o: Observation): Decision {
    Decide(brain.senses, brain.judge, o, brain.behavior, (n: nat) => brain.roll(o, n))
  }

  /** What is done is always one of the candidates. */
  lemma SelectedIsOffered(brain: Brain, o: Observation)
    ensures DecideWith(brain, o).selected in CandidatesOf(brain.senses, o)
  {
    hide ScoreOf, CandidatesOf, ReleaseReason, Best, HoldCommitted, PreferIncumbent, WorthMoving, WithJitter, Commit;
    AlwaysSomething(brain.senses, o);
    var candidates := CandidatesOf(brain.senses, o);
    var scored := ScoreAll(brain.judge, o, candidates, brain.behavior);
    var nudged := WithJitter(scored, brain.behavior.jitter, (n: nat) => brain.roll(o, n));
    var live := if ReleaseReason(brain.senses.plane, o).None? then o.mind.commitment else None;
    var at := BestIs(nudged);
    assert nudged[at].candidate == candidates[at];
    SteadyingTrades(scored, Best(nudged), live, o.mind.intent);
  }

  // ---- one decision ----

  /** What one decision does to a chase, whatever it chose and why. */
  lemma ChaseAfterDecision(brain: Brain, o: Observation)
    requires DistinctUnits(o.enemies)
    ensures var d, released := DecideWith(brain, o), ReleaseReason(brain.senses.plane, o);
      && (d.commitment.Some? ==>
            && released.None? && o.mind.recovery == 0 && d.recovery == 0
            && (d.commitment == o.mind.commitment
                || (d.commitment.value.startedTick == o.tick && d.commitment.value.origin == o.unit.position)))
      && (released.Some? ==> d.recovery == RecoveryTicks(o.secondsPerTick) && d.reason == released.value)
      && (released.None? && o.mind.recovery > 0 ==> d.recovery == o.mind.recovery - 1)
      && (o.mind.recovery > 0 ==> !(d.selected.kind == Advance && d.selected.targetId.Some?))
  {
    hide Picked, CandidatesOf, ReleaseReason, FindUnit;
    SelectedIsOffered(brain, o);
    if o.mind.recovery > 0 { RecoveryStopsChasing(brain.senses, o, DecideWith(brain, o).selected); }
  }

  /** What keeps a chase going: the quarry in sight, less than the timeout gone, and, while it
      is out of reach, the unit within the leash and the gap shut by a tenth once patience runs out. */
  predicate WithinBounds(plane: Plane, o: Observation, c: Commitment) {
    var target := FindUnit(o.enemies, c.targetId);
    && target.Some?
    && Elapsed(o, c) < PURSUIT_TIMEOUT_SECONDS
    && (InReach(plane, o, target.value)
        || (Distance(plane, c.origin, o.unit.position) <= PURSUIT_LEASH
            && (Elapsed(o, c) < PURSUIT_PATIENCE_SECONDS
                || c.openingGap - GapTo(plane, o, target.value) >= c.openingGap * PURSUIT_PROGRESS_FRACTION)))
  }

  /** A chase is released exactly when a bound is broken. */
  lemma ReleasedExactlyOutOfBounds(plane: Plane, o: Observation)
    requires o.mind.commitment.Some?
    ensures ReleaseReason(plane, o).None? <==> WithinBounds(plane, o, o.mind.commitment.value)
  {
  }

  /** When a chase ends, recovery starts exactly if a bound ended it: one dropped or switched
      by choice costs nothing. */
  lemma OnlyBoundsCostRecovery(brain: Brain, o: Observation)
    requires DistinctUnits(o.enemies) && o.secondsPerTick > 0.0
    requires o.mind.commitment.Some? && o.mind.recovery == 0
    requires DecideWith(brain, o).commitment != o.mind.commitment
    ensures DecideWith(brain, o).recovery > 0 <==> !WithinBounds(brain.senses.plane, o, o.mind.commitment.value)
  {
    hide Picked, WithinBounds, FindUnit;
    ReleasedExactlyOutOfBounds(brain.senses.plane, o);
  }

  // ---- runs ----

  /** A unit's mind after `k` decisions. */
  ghost function MindAt(brain: Brain, seen: seq<Observation>, k: nat): Mind
    requires k <= |seen|
    decreases k, 0
  {
    if k == 0 then BLANK_MIND else MindAfter(DecisionAt(brain, seen, k - 1))
  }

  ghost function DecisionAt(brain: Brain, seen: seq<Observation>, k: nat): Decision
    requires k < |seen|
    decreases k, 2
  {
    DecideWith(brain, FacedAt(brain, seen, k))
  }

  /** What the unit decides on: the field as seen then, with the mind it carried there. */
  ghost function FacedAt(brain: Brain, seen: seq<Observation>, k: nat): Observation
    requires k < |seen|
    decreases k, 1
  {
    seen[k].(mind := MindAt(brain, seen, k))
  }

  /** A run as the battle plays it: each enemy listed once, one tick length, time moving on. */
  ghost predicate Played(seen: seq<Observation>, secondsPerTick: real) {
    && secondsPerTick > 0.0
    && (forall k :: 0 <= k < |seen| ==> DistinctUnits(seen[k].enemies) && seen[k].secondsPerTick == secondsPerTick)
    && (forall i, j :: 0 <= i < j < |seen| ==> seen[i].tick < seen[j].tick)
  }

  lemma StepFacts(brain: Brain, seen: seq<Observation>, secondsPerTick: real, k: nat)
    requires Played(seen, secondsPerTick) && k < |seen|
    ensures MindAt(brain, seen, k + 1) == MindAfter(DecisionAt(brain, seen, k))
    ensures DistinctUnits(FacedAt(brain, seen, k).enemies)
  {
    hide DecideWith;
  }

  /** A unit holding a chase is never also recovering from one. */
  lemma HeldMeansRested(brain: Brain, seen: seq<Observation>, secondsPerTick: real, k: nat)
    requires Played(seen, secondsPerTick) && k <= |seen|
    ensures MindAt(brain, seen, k).commitment.Some? ==> MindAt(brain, seen, k).recovery == 0
  {
    hide DecideWith, Played;
    if k > 0 {
      StepFacts(brain, seen, secondsPerTick, k - 1);
      ChaseAfterDecision(brain, FacedAt(brain, seen, k - 1));
    }
  }

  /** A chase held after decision `k - 1` began at decision `i`, was carried through every one
      since, and each time was within its bounds. */
  ghost predicate CarriedSince(brain: Brain, seen: seq<Observation>, c: Commitment, i: nat, k: nat)
    requires i < k <= |seen|
  {
    && c.startedTick == seen[i].tick && c.origin == seen[i].unit.position
    && (forall j :: i < j <= k ==> MindAt(brain, seen, j).commitment == Some(c))
    && (forall j :: i < j < k ==> WithinBounds(brain.senses.plane, FacedAt(brain, seen, j), c))
  }

  /** Every chase has a beginning, where its leash is tied, and stays inside every bound at
      every decision that carries it on. */
  lemma {:induction false} EveryChaseHasABeginning(brain: Brain, seen: seq<Observation>, secondsPerTick: real, k: nat) returns (i: nat)
    requires Played(seen, secondsPerTick) && 0 < k <= |seen|
    requires MindAt(brain, seen, k).commitment.Some?
    ensures i < k && CarriedSince(brain, seen, MindAt(brain, seen, k).commitment.value, i, k)
    decreases k
  {
    hide DecideWith, Played, WithinBounds;
    var o := FacedAt(brain, seen, k - 1);
    var c := MindAt(brain, seen, k).commitment.value;
    StepFacts(brain, seen, secondsPerTick, k - 1);
    ChaseAfterDecision(brain, o);
    if o.mind.commitment == Some(c) {
      i := EveryChaseHasABeginning(brain, seen, secondsPerTick, k - 1);
      ReleasedExactlyOutOfBounds(brain.senses.plane, o);
    } else {
      i := k - 1;
    }
  }

  lemma NothingElapsedYet(o: Observation, c: Commitment)
    requires c.startedTick == o.tick
    ensures Elapsed(o, c) == 0.0
  {
    assert Times(0.0, o.secondsPerTick) == 0.0;
  }

  /** No chase outlasts the timeout: at the last decision that carried it on, it was less than
      three seconds old. */
  lemma NoChaseOutlastsTimeout(brain: Brain, seen: seq<Observation>, secondsPerTick: real, k: nat)
    requires Played(seen, secondsPerTick) && 0 < k <= |seen|
    requires MindAt(brain, seen, k).commitment.Some?
    ensures Elapsed(seen[k - 1], MindAt(brain, seen, k).commitment.value) < PURSUIT_TIMEOUT_SECONDS
  {
    hide DecideWith, Played, MindAt, FindUnit, InReach, Distance;
    var c := MindAt(brain, seen, k).commitment.value;
    var i := EveryChaseHasABeginning(brain, seen, secondsPerTick, k);
    if i < k - 1 {
      assert WithinBounds(brain.senses.plane, FacedAt(brain, seen, k - 1), c);
    } else {
      NothingElapsedYet(seen[k - 1], c);
    }
  }

  /** After a bound ends a chase the unit holds none, and is offered no step toward any enemy,
      for the whole recovery period, which counts down by one each decision. */
  lemma {:induction false} BoundBuysRecovery(brain: Brain, seen: seq<Observation>, secondsPerTick: real, k: nat, m: nat)
    requires Played(seen, secondsPerTick) && k + m < |seen|
    requires ReleaseReason(brain.senses.plane, FacedAt(brain, seen, k)).Some?
    requires m <= RecoveryTicks(secondsPerTick)
    ensures MindAt(brain, seen, k + 1 + m).commitment.None?
    ensures MindAt(brain, seen, k + 1 + m).recovery == RecoveryTicks(secondsPerTick) - m
    ensures m > 0 ==> var done := DecisionAt(brain, seen, k + m).selected; !(done.kind == Advance && done.targetId.Some?)
    decreases m
  {
    hide DecideWith;
    StepFacts(brain, seen, secondsPerTick, k + m);
    ChaseAfterDecision(brain, FacedAt(brain, seen, k + m));
    if m > 0 { BoundBuysRecovery(brain, seen, secondsPerTick, k, m - 1); }
  }

  // ---- the bounds and their numbers ----

  /** Why a chase is released and in what order the bounds are asked: its quarry gone; out of reach
      and more than 96 from where it began; out of reach, a second on, with less than a tenth of
      the gap shut; three seconds on, in reach or not. */
  lemma ReleaseReasonsExactly(plane: Plane, o: Observation, target: Unit)
    requires o.mind.commitment.Some? && DistinctUnits(o.enemies)
    requires target in o.enemies && target.id == o.mind.commitment.value.targetId
    ensures var c, reason := o.mind.commitment.value, ReleaseReason(plane, o);
            var gap := Distance(plane, o.unit.position, target.position);
            var elapsed := (o.tick - c.startedTick) as real * o.secondsPerTick;
            var strayed := gap > o.unit.range && Distance(plane, c.origin, o.unit.position) > 96.0;
            var stuck := gap > o.unit.range && elapsed >= 1.0 && c.openingGap - gap < c.openingGap * 0.1;
      && (reason == Some(AbandonedLeash) <==> strayed)
      && (reason == Some(AbandonedUnreachable) <==> !strayed && stuck)
      && (reason == Some(AbandonedTimeout) <==> !strayed && !stuck && elapsed >= 3.0)
      && (reason.None? <==> !strayed && !stuck && elapsed < 3.0)
  {
    FindFirstComplete((u: Unit) => u.id == target.id, o.enemies);
    hide Distance;
  }

  /** A quarry that is gone releases its chase; with no chase there is nothing to release. */
  lemma GoneReleases(plane: Plane, o: Observation)
    ensures o.mind.commitment.None? ==> ReleaseReason(plane, o).None?
    ensures o.mind.commitment.Some? ==>
      (ReleaseReason(plane, o) == Some(AbandonedInvalid) <==> forall e :: e in o.enemies ==> e.id != o.mind.commitment.value.targetId)
  {
    if o.mind.commitment.Some? { FindFirstComplete((u: Unit) => u.id == o.mind.commitment.value.targetId, o.enemies); }
    hide Distance;
  }

  /** Recovery is two seconds of whole ticks, and never less than one. */
  lemma RecoveryLasts(secondsPerTick: real)
    requires secondsPerTick > 0.0
    ensures var ticks := RecoveryTicks(secondsPerTick);
      ticks >= 1 && 2.0 / secondsPerTick <= ticks as real + 0.5 && (ticks > 1 ==> ticks as real - 0.5 <= 2.0 / secondsPerTick)
  {
    hide Round;
  }

  /** What a decision leaves of the chase and what it is called, by what was chosen. */
  lemma CommittedExactly(brain: Brain, o: Observation)
    requires ReleaseReason(brain.senses.plane, o).None? && DistinctUnits(o.enemies)
    ensures var d := DecideWith(brain, o);
            var quarry, chased := d.selected.targetId, o.mind.commitment;
      && (d.selected.kind != Advance || quarry.None? ==> d.commitment.None? && d.reason == d.selected.reason)
      && (d.selected.kind == Advance && quarry.Some? && chased.Some? && chased.value.targetId == quarry.value ==>
            d.commitment == chased && d.reason == d.selected.reason)
      && (d.selected.kind == Advance && quarry.Some? && !(chased.Some? && chased.value.targetId == quarry.value) ==>
            && d.commitment.Some? && d.commitment.value.targetId == quarry.value
            && d.commitment.value.startedTick == o.tick && d.commitment.value.origin == o.unit.position
            && d.reason == (if chased.Some? then TargetSwitched else d.selected.reason)
            && exists e :: e in o.enemies && e.id == quarry.value
                 && d.commitment.value.openingGap == Distance(brain.senses.plane, o.unit.position, e.position))
      && d.recovery == (if o.mind.recovery > 0 then o.mind.recovery - 1 else 0)
  {
    hide Picked, CandidatesOf, ReleaseReason, FromApproach, Distance;
    SelectedIsOffered(brain, o);
    var d := DecideWith(brain, o);
    if d.selected.kind == Advance && d.selected.targetId.Some? {
      AdvanceIsNeverEngaging(brain.senses, o, d.selected);
      TargetedAdvanceIsApproach(brain.senses, o, d.selected);
      var e :| FromApproach(brain.senses.plane, o, d.selected, e) && e.id == d.selected.targetId.value;
      ApproachingIsSeen(brain.senses.plane, o, d.selected, e);
      FindFirstComplete((u: Unit) => u.id == e.id, o.enemies);
    }
  }

  lemma ApproachingIsSeen(plane: Plane, o: Observation, c: Candidate, e: Unit)
    requires FromApproach(plane, o, c, e)
    ensures e in o.enemies
  {
  }
}
