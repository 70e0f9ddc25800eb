/** How a unit settles on what to do, read off its candidates and their scores: the best of
    them, unless loyalty, habit or reluctance to move says otherwise. */
module Steadiness {
  import opened Common
  import opened Ordering
  import opened Geometry
  import opened Observing
  import opened Pursuit
  import opened Candidates
  import opened Scoring
  import opened Legality
  import opened Deciding

  /** Entry `k` is the first of those wanted. */
  ghost predicate FirstOf(scored: seq<Scored>, want: Scored -> bool, k: nat) {
    k < |scored| && want(scored[k]) && forall j :: 0 <= j < k ==> !want(scored[j])
  }

  lemma {:induction false} FindsTheFirst(scored: seq<Scored>, want: Scored -> bool)
    ensures FindFirst(want, scored).None? <==> forall e :: e in scored ==> !want(e)
    ensures forall k: nat :: FirstOf(scored, want, k) ==> FindFirst(want, scored) == Some(scored[k])
  {
    if scored != [] && !want(scored[0]) {
      var rest := scored[1..];
      FindsTheFirst(rest, want);
      forall k: nat | FirstOf(scored, want, k) ensures k > 0 && FirstOf(rest, want, k - 1) {
        forall j | 0 <= j < k - 1 ensures !want(rest[j]) { assert rest[j] == scored[j + 1]; }
      }
    }
  }

  /** Keeping `settled` unless what was chosen beats it by more than `margin`: the first entry
      wanted is kept, when there is one and the choice is not already one. */
  ghost predicate SettlesOn(scored: seq<Scored>, chosen: Scored, want: Scored -> bool, margin: real, settled: Scored) {
    if want(chosen) || (forall e :: e in scored ==> !want(e)) then settled == chosen
    else exists k: nat :: FirstOf(scored, want, k) && settled == if chosen.score > scored[k].score + margin then chosen else scored[k]
  }

  lemma {:induction false} SomeFirst(scored: seq<Scored>, want: Scored -> bool) returns (k: nat)
    requires exists e :: e in scored && want(e)
    ensures FirstOf(scored, want, k)
  {
    if want(scored[0]) {
      k := 0;
    } else {
      var rest := SomeFirst(scored[1..], want);
      k := rest + 1;
      forall j | 0 <= j < k ensures !want(scored[j]) { if j > 0 { assert scored[1..][j - 1] == scored[j]; } }
    }
  }

  lemma SettledByFirst(scored: seq<Scored>, chosen: Scored, want: Scored -> bool, margin: real, settled: Scored)
    requires settled == if want(chosen) then chosen
                        else match FindFirst(want, scored)
                             case None => chosen
                             case Some(e) => if chosen.score > e.score + margin then chosen else e
    ensures SettlesOn(scored, chosen, want, margin, settled)
  {
    FindsTheFirst(scored, want);
    if !want(chosen) && exists e :: e in scored && want(e) { var k := SomeFirst(scored, want); }
  }

  function Chasing(live: Option<Commitment>): Scored -> bool {
    (e: Scored) => live.Some? && e.candidate.targetId == Some(live.value.targetId)
  }

  function Repeating(previous: Option<Intent>): Scored -> bool {
    (e: Scored) => previous.Some? && e.candidate.kind == previous.value.kind && e.candidate.targetId == previous.value.targetId
  }

  /** A step is kept when it is worth 0.06 more than the first way of standing still. */
  ghost predicate StepsOrStands(scored: seq<Scored>, chosen: Scored, final: Scored) {
    if chosen.candidate.kind !in {Advance, Withdraw, Retreat} || (forall e :: e in scored ==> e.candidate.kind != Hold) then final == chosen
    else exists k: nat :: FirstOf(scored, (e: Scored) => e.candidate.kind == Hold, k)
                          && final == if chosen.score - scored[k].score >= 0.06 then chosen else scored[k]
  }

  lemma LoyaltyExactly(scored: seq<Scored>, chosen: Scored, live: Option<Commitment>)
    ensures live.Some? ==> SettlesOn(scored, chosen, Chasing(live), 0.02, HoldCommitted(scored, chosen, live))
    ensures live.None? ==> HoldCommitted(scored, chosen, live) == chosen
  {
    if live.Some? {
      SameFind(scored, (e: Scored) => AimsAt(e, live.value.targetId), Chasing(live));
      SettledByFirst(scored, chosen, Chasing(live), 0.02, HoldCommitted(scored, chosen, live));
    }
  }

  lemma HabitExactly(scored: seq<Scored>, chosen: Scored, previous: Option<Intent>)
    ensures previous.Some? ==> SettlesOn(scored, chosen, Repeating(previous), 0.02, PreferIncumbent(scored, chosen, previous))
    ensures previous.None? ==> PreferIncumbent(scored, chosen, previous) == chosen
  {
    if previous.Some? {
      SameFind(scored, (e: Scored) => Repeats(e, previous.value), Repeating(previous));
      SettledByFirst(scored, chosen, Repeating(previous), 0.02, PreferIncumbent(scored, chosen, previous));
    }
  }

  lemma StandingExactly(scored: seq<Scored>, chosen: Scored)
    ensures StepsOrStands(scored, chosen, WorthMoving(scored, chosen))
  {
    var standing := (e: Scored) => e.candidate.kind == Hold;
    SameFind(scored, (e: Scored) => Stands(e), standing);
    FindsTheFirst(scored, standing);
    if exists e :: e in scored && standing(e) { var k := SomeFirst(scored, standing); }
  }

  lemma {:induction false} SameFind(scored: seq<Scored>, p: Scored -> bool, q: Scored -> bool)
    requires forall e :: p(e) == q(e)
    ensures FindFirst(p, scored) == FindFirst(q, scored)
  {
    if scored != [] { SameFind(scored[1..], p, q); }
  }

  /** Each candidate beside its score, jitter aside. */
  ghost predicate ScoresOf(judge: Judge, o: Observation, behavior: Behavior, candidates: seq<Candidate>, scored: seq<Scored>) {
    && |scored| == |candidates|
    && forall k :: 0 <= k < |scored| ==> scored[k] == Scored(candidates[k], ScoreOf(judge, o, candidates[k], behavior))
  }

  /** The first of the highest scores. */
  ghost predicate TopOf(scored: seq<Scored>, top: Scored) {
    exists at: nat :: at < |scored| && scored[at] == top
      && (forall k :: 0 <= k < |scored| ==> scored[k].score <= top.score)
      && (forall k :: 0 <= k < at ==> scored[k].score < top.score)
  }

  /** The same scores, each raised by its own roll of the jitter. */
  ghost predicate Jittered(scored: seq<Scored>, jitter: real, roll: nat -> real, nudged: seq<Scored>) {
    && |nudged| == |scored|
    && forall k: nat :: k < |scored| ==>
         nudged[k].candidate == scored[k].candidate
         && nudged[k].score == if jitter > 0.0 then scored[k].score + Times(roll(k), jitter) else scored[k].score
  }

  /** A decision in full: the first best candidate, jitter and all; the enemy already chased, if
      no bound ended the chase, unless beaten by more than 0.02; last tick's action, unless beaten
      by more than 0.02; and standing still, unless a step is worth 0.06 more. */
  lemma DecidedExactly(senses: Senses, judge: Judge, o: Observation, behavior: Behavior, roll: nat -> real)
    returns (scored: seq<Scored>, nudged: seq<Scored>, top: Scored, held: Scored, steady: Scored, final: Scored)
    ensures ScoresOf(judge, o, behavior, CandidatesOf(senses, o), scored)
    ensures Jittered(scored, behavior.jitter, roll, nudged) && TopOf(nudged, top)
    ensures if ReleaseReason(senses.plane, o).None? && o.mind.commitment.Some?
            then SettlesOn(scored, top, Chasing(o.mind.commitment), 0.02, held) else held == top
    ensures if o.mind.intent.Some? then SettlesOn(scored, held, Repeating(o.mind.intent), 0.02, steady) else steady == held
    ensures StepsOrStands(scored, steady, final)
    ensures Decide(senses, judge, o, behavior, roll).selected == final.candidate
    ensures Decide(senses, judge, o, behavior, roll).score == final.score
  {
    hide ScoreOf, CandidatesOf, ReleaseReason, Best, HoldCommitted, PreferIncumbent, WorthMoving, Commit, SettlesOn, StepsOrStands;
    AlwaysSomething(senses, o);
    scored := ScoreAll(judge, o, CandidatesOf(senses, o), behavior);
    nudged := WithJitter(scored, behavior.jitter, roll);
    top := Best(nudged);
    var at := BestIs(nudged);
    var live := if ReleaseReason(senses.plane, o).None? then o.mind.commitment else None;
    held := HoldCommitted(scored, top, live);
    steady := PreferIncumbent(scored, held, o.mind.intent);
    final := WorthMoving(scored, steady);
    LoyaltyExactly(scored, top, live);
    HabitExactly(scored, held, o.mind.intent);
    StandingExactly(scored, steady);
  }

  // ---- what that comes to ----

  lemma SettledNoHigher(scored: seq<Scored>, chosen: Scored, want: Scored -> bool, margin: real, settled: Scored, top: real)
    requires SettlesOn(scored, chosen, want, margin, settled) && chosen.score <= top
    requires forall e :: e in scored ==> e.score <= top
    ensures settled.score <= top
  {
  }

  /** Whatever the unit was doing it goes on doing while that scores within 0.02 of the best:
      unless it was moving, and no longer worth the step, when it stands. */
  lemma HabitIsKept(senses: Senses, judge: Judge, o: Observation, behavior: Behavior, roll: nat -> real, again: Candidate)
    requires behavior.jitter <= 0.0 && o.mind.intent.Some?
    requires again in CandidatesOf(senses, o)
    requires again.kind == o.mind.intent.value.kind && again.targetId == o.mind.intent.value.targetId
    requires forall c :: c in CandidatesOf(senses, o) ==>
      forall d :: d in CandidatesOf(senses, o) && d.kind == again.kind && d.targetId == again.targetId ==>
        ScoreOf(judge, o, d, behavior) >= ScoreOf(judge, o, c, behavior) - 0.02
    ensures var selected := Decide(senses, judge, o, behavior, roll).selected;
      (selected.kind == again.kind && selected.targetId == again.targetId)
      || (selected.kind == Hold && again.kind in {Advance, Withdraw, Retreat})
  {
    hide ScoreOf, CandidatesOf, Decide, ReleaseReason, SettlesOn, StepsOrStands;
    var scored, nudged, top, held, steady, final := DecidedExactly(senses, judge, o, behavior, roll);
    assert nudged == scored;
    var candidates := CandidatesOf(senses, o);
    forall e | e in scored ensures e.score <= top.score && e.candidate in candidates && e.score == ScoreOf(judge, o, e.candidate, behavior) {
      var k :| 0 <= k < |scored| && scored[k] == e;
    }
    assert held.score <= top.score by {
      if ReleaseReason(senses.plane, o).None? && o.mind.commitment.Some? {
        SettledNoHigher(scored, top, Chasing(o.mind.commitment), 0.02, held, top.score);
      }
    }
    var i :| 0 <= i < |candidates| && candidates[i] == again;
    assert scored[i] in scored && Repeating(o.mind.intent)(scored[i]);
    assert top in scored;
    forall e | e in scored && Repeating(o.mind.intent)(e) ensures e.score >= top.score - 0.02 {}
    KeptWhenClose(scored, held, Repeating(o.mind.intent), 0.02, steady);
    FinalIsSteadyOrHold(scored, steady, final);
  }

  lemma KeptWhenClose(scored: seq<Scored>, chosen: Scored, want: Scored -> bool, margin: real, settled: Scored)
    requires SettlesOn(scored, chosen, want, margin, settled)
    requires exists e :: e in scored && want(e)
    requires forall e :: e in scored && want(e) ==> e.score >= chosen.score - margin
    ensures want(settled)
  {
  }

  lemma FinalIsSteadyOrHold(scored: seq<Scored>, chosen: Scored, final: Scored)
    requires StepsOrStands(scored, chosen, final)
    ensures final == chosen || (final.candidate.kind == Hold && chosen.candidate.kind in {Advance, Withdraw, Retreat})
  {
  }

  /** A chase in bounds is not dropped for another action that is not better by more than 0.02:
      what the unit does instead beats every way of going on with it by that, or is what it did
      last tick, or is standing still. */
  lemma ChaseIsKept(senses: Senses, judge: Judge, o: Observation, behavior: Behavior, roll: nat -> real)
    requires behavior.jitter <= 0.0 && o.mind.commitment.Some? && ReleaseReason(senses.plane, o).None?
    ensures var d := Decide(senses, judge, o, behavior, roll);
            var quarry := Some(o.mind.commitment.value.targetId);
      || d.selected.targetId == quarry
      || d.selected.kind == Hold
      || (o.mind.intent.Some? && d.selected.kind == o.mind.intent.value.kind && d.selected.targetId == o.mind.intent.value.targetId)
      || (forall c :: c in CandidatesOf(senses, o) ==> c.targetId != quarry)
      || exists c :: c in CandidatesOf(senses, o) && c.targetId == quarry && d.score > ScoreOf(judge, o, c, behavior) + 0.02
  {
    hide ScoreOf, CandidatesOf, Decide, ReleaseReason, StepsOrStands;
    var scored, nudged, top, held, steady, final := DecidedExactly(senses, judge, o, behavior, roll);
    assert nudged == scored;
    FinalIsSteadyOrHold(scored, steady, final);
    var quarry := Some(o.mind.commitment.value.targetId);
    if exists c :: c in CandidatesOf(senses, o) && c.targetId == quarry {
      var c :| c in CandidatesOf(senses, o) && c.targetId == quarry;
      var i :| 0 <= i < |scored| && CandidatesOf(senses, o)[i] == c;
      assert Chasing(o.mind.commitment)(scored[i]) && scored[i] in scored;
    }
  }
}
