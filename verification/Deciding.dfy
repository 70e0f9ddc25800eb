/** Pick one, and say what was picked (`api/app/sim/ai/decide.py`): selection, the three
    ways a choice is steadied, and the chase a decision leaves behind. */
module Deciding {
  import opened Common
  import opened Ordering
  import opened BattleWorld
  import opened Geometry
  import opened Coordination
  import opened Allocation
  import opened Observing
  import opened Pursuit
  import opened Candidates
  import opened Legality
  import opened Scoring

  const ACTION_HYSTERESIS: real := TARGET_SWITCH_MARGIN
  const MOVEMENT_THRESHOLD: real := 0.06

  datatype Scored = Scored(candidate: Candidate, score: real)

  datatype Decision = Decision(
    selected: Candidate, score: real, reason: Reason, commitment: Option<Commitment>, recovery: nat)

  function ScoreAll(judge: Judge, o: Observation, candidates: seq<Candidate>, behavior: Behavior): (scored: seq<Scored>)
    ensures |scored| == |candidates|
    ensures forall k :: 0 <= k < |scored| ==> scored[k] == Scored(candidates[k], ScoreOf(judge, o, candidates[k], behavior))
  {
    seq(|candidates|, k requires 0 <= k < |candidates| => Scored(candidates[k], ScoreOf(judge, o, candidates[k], behavior)))
  }

  /** A seeded nudge on each score, one roll a candidate in order; nothing when unasked. */
  function WithJitter(scored: seq<Scored>, jitter: real, roll: nat -> real): (nudged: seq<Scored>)
    ensures |nudged| == |scored|
    ensures forall k :: 0 <= k < |scored| ==> nudged[k].candidate == scored[k].candidate
  {
    if jitter <= 0.0 then scored
    else seq(|scored|, k requires 0 <= k < |scored| => scored[k].(score := scored[k].score + Times(roll(k), jitter)))
  }

  /** Highest score; the earlier candidate wins a tie. */
  function Best(scored: seq<Scored>): Scored
    requires scored != []
  {
    if |scored| == 1 then scored[0]
    else
      var best, last := Best(scored[..|scored| - 1]), scored[|scored| - 1];
      if last.score > best.score then last else best
  }

  method Select(scored: seq<Scored>) returns (best: Scored)
    requires scored != []
    ensures best == Best(scored)
  {
    best := scored[0];
    for i := 1 to |scored|
      invariant best == Best(scored[..i])
    {
      assert scored[..i + 1][..i] == scored[..i];
      if scored[i].score > best.score { best := scored[i]; }
    }
    assert scored[..|scored|] == scored;
  }

  /** The choice is a highest score, and everything before it in the stable order is lower. */
  lemma {:induction false} BestIs(scored: seq<Scored>) returns (at: nat)
    requires scored != []
    ensures at < |scored| && scored[at] == Best(scored)
    ensures forall k :: 0 <= k < |scored| ==> scored[k].score <= Best(scored).score
    ensures forall k :: 0 <= k < at ==> scored[k].score < Best(scored).score
  {
    if |scored| == 1 {
      at := 0;
    } else {
      var front := scored[..|scored| - 1];
      at := BestIs(front);
      if scored[|scored| - 1].score > Best(front).score { at := |scored| - 1; }
      forall k | 0 <= k < |scored| ensures scored[k].score <= Best(scored).score {
        if k < |front| { assert front[k] == scored[k]; }
      }
      forall k | 0 <= k < at ensures scored[k].score < Best(scored).score {
        assert front[k] == scored[k];
      }
    }
  }

  predicate AimsAt(e: Scored, targetId: string) {
    e.candidate.targetId == Some(targetId)
  }

  predicate Repeats(e: Scored, intent: Intent) {
    e.candidate.kind == intent.kind && e.candidate.targetId == intent.targetId
  }

  predicate Stands(e: Scored) {
    e.candidate.kind == Hold
  }

  function HoldCommitted(scored: seq<Scored>, chosen: Scored, live: Option<Commitment>): Scored {
    if live.None? || AimsAt(chosen, live.value.targetId) then chosen
    else match FindFirst((e: Scored) => AimsAt(e, live.value.targetId), scored)
      case None => chosen
      case Some(committed) => if chosen.score > committed.score + TARGET_SWITCH_MARGIN then chosen else committed
  }

  function PreferIncumbent(scored: seq<Scored>, chosen: Scored, previous: Option<Intent>): Scored {
    if previous.None? || Repeats(chosen, previous.value) then chosen
    else match FindFirst((e: Scored) => Repeats(e, previous.value), scored)
      case None => chosen
      case Some(incumbent) => if chosen.score > incumbent.score + ACTION_HYSTERESIS then chosen else incumbent
  }

  function WorthMoving(scored: seq<Scored>, chosen: Scored): Scored {
    if !Moves(chosen.candidate.kind) then chosen
    else match FindFirst((e: Scored) => Stands(e), scored)
      case None => chosen
      case Some(standing) => if chosen.score - standing.score >= MOVEMENT_THRESHOLD then chosen else standing
  }

  /** The chase a decision leaves behind, the recovery it carries, and what to call it. */
  function Commit(plane: Plane, o: Observation, chosen: Candidate, released: Option<Reason>): (Option<Commitment>, nat, Reason) {
    var recovery := if o.mind.recovery > 0 then o.mind.recovery - 1 else 0;
    if released.Some? then (None, RecoveryTicks(o.secondsPerTick), released.value)
    else if chosen.kind != Advance || chosen.targetId.None? then (None, recovery, chosen.reason)
    else if o.mind.commitment.Some? && o.mind.commitment.value.targetId == chosen.targetId.value then
      (o.mind.commitment, recovery, chosen.reason)
    else if chosen.reason == Engaging then (None, recovery, chosen.reason)
    else (Some(Begin(plane, o, chosen.targetId.value)), recovery,
          if o.mind.commitment.Some? then TargetSwitched else chosen.reason)
  }

  function Steadied(scored: seq<Scored>, winner: Scored, live: Option<Commitment>, previous: Option<Intent>): Scored {
    WorthMoving(scored, PreferIncumbent(scored, HoldCommitted(scored, winner, live), previous))
  }

  lemma AlwaysSomething(senses: Senses, o: Observation)
    ensures CandidatesOf(senses, o) != []
  {
    hide Offered, HoldCandidate;
    CandidatesAreSorted(senses, o);
  }

  function Picked(senses: Senses, judge: Judge, o: Observation, behavior: Behavior, roll: nat -> real): Scored {
    AlwaysSomething(senses, o);
    var scored := ScoreAll(judge, o, CandidatesOf(senses, o), behavior);
    var live := if ReleaseReason(senses.plane, o).None? then o.mind.commitment else None;
    Steadied(scored, Best(WithJitter(scored, behavior.jitter, roll)), live, o.mind.intent)
  }

  function Decide(senses: Senses, judge: Judge, o: Observation, behavior: Behavior, roll: nat -> real): Decision {
    var chosen := Picked(senses, judge, o, behavior, roll);
    var (commitment, recovery, reason) := Commit(senses.plane, o, chosen.candidate, ReleaseReason(senses.plane, o));
    Decision(chosen.candidate, chosen.score, reason, commitment, recovery)
  }

  function MindAfter(d: Decision): Mind {
    Mind(Some(Intent(d.selected.kind, d.selected.targetId)), d.commitment, d.recovery)
  }

  /** A unit's mind, which the decision phase rewrites each tick. */
  class Creature {
    const behavior: Behavior
    var mind: Mind

    constructor (behavior: Behavior)
      ensures this.behavior == behavior && mind == BLANK_MIND
    {
      this.behavior := behavior;
      mind := BLANK_MIND;
    }

    method Think(senses: Senses, judge: Judge, seen: Observation, roll: nat -> real) returns (decision: Decision)
      modifies this
      ensures decision == Decide(senses, judge, seen.(mind := old(mind)), behavior, roll)
      ensures mind == MindAfter(decision)
    {
      var o := seen.(mind := mind);
      var released := ReleaseReason(senses.plane, o);
      var live := if released.None? then mind.commitment else None;
      var candidates := GenerateCandidates(senses, o);
      AlwaysSomething(senses, o);
      var scored := ScoreAll(judge, o, candidates, behavior);
      var winner := Select(WithJitter(scored, behavior.jitter, roll));
      var chosen := Steadied(scored, winner, live, mind.intent);
      var (commitment, recovery, reason) := Commit(senses.plane, o, chosen.candidate, released);
      decision := Decision(chosen.candidate, chosen.score, reason, commitment, recovery);
      mind := MindAfter(decision);
    }
  }

  // ---- bounded regret ----

  /** An entry shown no lower than its own score and at most `slack` above it. */
  ghost predicate Shown(scored: seq<Scored>, e: Scored, slack: real) {
    exists k :: 0 <= k < |scored| && scored[k].candidate == e.candidate && scored[k].score <= e.score <= scored[k].score + slack
  }

  ghost predicate TopIs(scored: seq<Scored>, top: real) {
    forall k :: 0 <= k < |scored| ==> scored[k].score <= top
  }

  lemma NudgedWithin(scored: seq<Scored>, jitter: real, roll: nat -> real, k: nat)
    requires k < |scored| && 0.0 <= roll(k) < 1.0
    ensures scored[k].score <= WithJitter(scored, jitter, roll)[k].score <= scored[k].score + Max(0.0, jitter)
  {
    if jitter > 0.0 { NudgeBounded(roll(k), jitter); }
  }

  lemma WinnerShown(scored: seq<Scored>, jitter: real, roll: nat -> real)
    requires scored != [] && forall n: nat :: 0.0 <= roll(n) < 1.0
    ensures Shown(scored, Best(WithJitter(scored, jitter, roll)), Max(0.0, jitter))
    ensures TopIs(scored, Best(WithJitter(scored, jitter, roll)).score)
  {
    hide WithJitter, Best, Max;
    var nudged := WithJitter(scored, jitter, roll);
    var at := BestIs(nudged);
    forall k | 0 <= k < |scored| ensures scored[k].score <= nudged[k].score <= scored[k].score + Max(0.0, jitter) {
      NudgedWithin(scored, jitter, roll, k);
    }
    assert scored[at].candidate == Best(nudged).candidate;
  }

  lemma NudgeBounded(roll: real, jitter: real)
    requires 0.0 <= roll < 1.0 && jitter > 0.0
    ensures 0.0 <= Times(roll, jitter) <= jitter
  {
    assert Times(1.0 - roll, jitter) == jitter - Times(roll, jitter);
  }

  /** One steadying: kept as shown, or traded for an entry at its own score within the margin. */
  ghost predicate Traded(scored: seq<Scored>, before: Scored, after: Scored, margin: real) {
    after == before || (after in scored && after.score >= before.score - margin)
  }

  lemma SteadyingTrades(scored: seq<Scored>, winner: Scored, live: Option<Commitment>, previous: Option<Intent>)
    ensures Traded(scored, winner, HoldCommitted(scored, winner, live), TARGET_SWITCH_MARGIN)
    ensures var held := HoldCommitted(scored, winner, live);
            Traded(scored, held, PreferIncumbent(scored, held, previous), ACTION_HYSTERESIS)
    ensures var steady := PreferIncumbent(scored, HoldCommitted(scored, winner, live), previous);
            Traded(scored, steady, WorthMoving(scored, steady), MOVEMENT_THRESHOLD)
  {
  }

  lemma TradeKeepsShown(scored: seq<Scored>, before: Scored, after: Scored, margin: real, slack: real)
    requires Shown(scored, before, slack) && Traded(scored, before, after, margin) && slack >= 0.0
    ensures Shown(scored, after, slack)
    ensures after.score >= before.score - Max(0.0, margin)
    ensures after != before ==> Shown(scored, after, 0.0)
  {
    if after != before {
      var k :| 0 <= k < |scored| && scored[k] == after;
    }
  }

  /** Bounded regret. What a unit does is one of its candidates, and scores at most 0.10 below
      any other: 0.02 of target loyalty, 0.02 of habit and 0.06 of reluctance to move. With
      jitter the bound is the larger of that and the jitter, never their sum. */
  lemma RegretIsBounded(senses: Senses, judge: Judge, o: Observation, behavior: Behavior, roll: nat -> real, c: Candidate)
    requires forall n: nat :: 0.0 <= roll(n) < 1.0
    requires c in CandidatesOf(senses, o)
    ensures var d := Decide(senses, judge, o, behavior, roll);
      && d.selected in CandidatesOf(senses, o)
      && ScoreOf(judge, o, d.selected, behavior) >= ScoreOf(judge, o, c, behavior) - Max(0.10, behavior.jitter)
  {
    hide ScoreOf, CandidatesOf, ReleaseReason, Best, HoldCommitted, PreferIncumbent, WorthMoving, WithJitter, Commit, Shown, Traded;
    AlwaysSomething(senses, o);
    var scored := ScoreAll(judge, o, CandidatesOf(senses, o), behavior);
    var slack := Max(0.0, behavior.jitter);
    var winner := Best(WithJitter(scored, behavior.jitter, roll));
    var live := if ReleaseReason(senses.plane, o).None? then o.mind.commitment else None;
    var held := HoldCommitted(scored, winner, live);
    var steady := PreferIncumbent(scored, held, o.mind.intent);
    var chosen := WorthMoving(scored, steady);
    WinnerShown(scored, behavior.jitter, roll);
    SteadyingTrades(scored, winner, live, o.mind.intent);
    TradeKeepsShown(scored, winner, held, TARGET_SWITCH_MARGIN, slack);
    TradeKeepsShown(scored, held, steady, ACTION_HYSTERESIS, slack);
    TradeKeepsShown(scored, steady, chosen, MOVEMENT_THRESHOLD, slack);
    var k :| 0 <= k < |scored| && CandidatesOf(senses, o)[k] == c;
    assert scored[k].score <= winner.score;
    if chosen == winner {
      ShownScore(judge, o, behavior, CandidatesOf(senses, o), chosen, slack);
    } else {
      OwnScoreOnceTraded(scored, winner, held, steady, chosen, slack);
      ShownScore(judge, o, behavior, CandidatesOf(senses, o), chosen, 0.0);
    }
  }

  lemma OwnScoreOnceTraded(scored: seq<Scored>, winner: Scored, held: Scored, steady: Scored, chosen: Scored, slack: real)
    requires chosen != winner && slack >= 0.0
    requires held != winner ==> Shown(scored, held, 0.0)
    requires steady != held ==> Shown(scored, steady, 0.0)
    requires chosen != steady ==> Shown(scored, chosen, 0.0)
    ensures Shown(scored, chosen, 0.0)
  {
    hide Shown;
  }

  lemma ShownScore(judge: Judge, o: Observation, behavior: Behavior, candidates: seq<Candidate>, e: Scored, slack: real)
    requires Shown(ScoreAll(judge, o, candidates, behavior), e, slack)
    ensures e.candidate in candidates
    ensures ScoreOf(judge, o, e.candidate, behavior) <= e.score <= ScoreOf(judge, o, e.candidate, behavior) + slack
  {
    hide ScoreOf;
    var scored := ScoreAll(judge, o, candidates, behavior);
    var k :| 0 <= k < |scored| && scored[k].candidate == e.candidate && scored[k].score <= e.score <= scored[k].score + slack;
    assert candidates[k] == e.candidate;
  }

  /** A unit takes a step only when it is worth 0.06 more than standing where it is. */
  lemma StepsAreWorthTaking(senses: Senses, judge: Judge, o: Observation, behavior: Behavior, roll: nat -> real)
    requires Moves(Decide(senses, judge, o, behavior, roll).selected.kind)
    ensures exists standing :: standing in CandidatesOf(senses, o) && standing.kind == Hold
                               && Decide(senses, judge, o, behavior, roll).score >= ScoreOf(judge, o, standing, behavior) + MOVEMENT_THRESHOLD
  {
    hide ScoreOf, Offered, ReleaseReason, Best, HoldCommitted, PreferIncumbent, WithJitter, Commit;
    AlwaysSomething(senses, o);
    CandidatesAreSorted(senses, o);
    var candidates := CandidatesOf(senses, o);
    var scored := ScoreAll(judge, o, candidates, behavior);
    FindFirstComplete((e: Scored) => Stands(e), scored);
    var k :| 0 <= k < |candidates| && candidates[k] == HoldCandidate(o);
    assert scored[k] in scored && Stands(scored[k]);
    var standing := FindFirst((e: Scored) => Stands(e), scored).value;
    var j :| 0 <= j < |scored| && scored[j] == standing;
    assert standing.candidate in candidates;
  }
}
