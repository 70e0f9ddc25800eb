/** What a candidate is worth (`api/app/sim/ai/scoring.py`, `factors.py`): four verdicts,
    weighted by what the unit cares about in this situation. */
module Scoring {
  import opened Common
  import opened Geometry
  import opened Observing
  import opened Candidates
  import opened Coordination

  datatype Factor = ObjectiveProgress | TargetSuitability | Danger | AllySupport

  const FACTORS: seq<Factor> := [ObjectiveProgress, TargetSuitability, Danger, AllySupport]

  const MAX_WEIGHT: real := 4.0

  datatype Weights = Weights(objective: real, target: real, danger: real, support: real) {

    function At(factor: Factor): real {
      match factor
      case ObjectiveProgress => objective
      case TargetSuitability => target
      case Danger => danger
      case AllySupport => support
    }

    function Raised(factor: Factor, delta: real): Weights {
      match factor
      case ObjectiveProgress => this.(objective := objective + delta)
      case TargetSuitability => this.(target := target + delta)
      case Danger => this.(danger := danger + delta)
      case AllySupport => this.(support := support + delta)
    }

    function Clamped(): Weights {
      Weights(ClampWeight(objective), ClampWeight(target), ClampWeight(danger), ClampWeight(support))
    }

    function Total(): real {
      objective + target + danger + support
    }
  }

  datatype Rule = Rule(context: string, deltas: map<Factor, real>)

  datatype Personality = Personality(tag: string, rules: seq<Rule>)

  /** One tag's say in one weight: what a trace prints. */
  datatype Influence = Influence(tag: string, context: string, factor: Factor, delta: real)

  /** A unit's standing weights, its tags, and how far its choices are jittered. */
  datatype Behavior = Behavior(weights: Weights, personalities: seq<Personality>, jitter: real)

  /** How a field is read: each factor's verdict on a candidate, and when a rule applies. */
  datatype Judge = Judge(
    raw: (Observation, Candidate, Factor) -> real,
    matches: (Rule, Observation, Candidate) -> bool)

  function ClampWeight(value: real): real {
    Min(MAX_WEIGHT, Max(0.0, value))
  }

  function ClampScore(value: real): real {
    Min(1.0, Max(-1.0, value))
  }

  predicate InRange(weights: Weights) {
    forall factor :: 0.0 <= weights.At(factor) <= MAX_WEIGHT
  }

  /** `resolve_behavior`: base weights, every trait's and tag's standing shift, clamped. */
  function ResolvedWeights(base: Weights, shifts: seq<Weights>): Weights {
    Summed(base, shifts).Clamped()
  }

  function Summed(base: Weights, shifts: seq<Weights>): Weights {
    if shifts == [] then base
    else
      var sum, last := Summed(base, shifts[..|shifts| - 1]), shifts[|shifts| - 1];
      Weights(sum.objective + last.objective, sum.target + last.target, sum.danger + last.danger, sum.support + last.support)
  }

  lemma ResolvedIsInRange(base: Weights, shifts: seq<Weights>)
    ensures InRange(ResolvedWeights(base, shifts))
  {
  }

  // ---- weights woken by the situation ----

  function Delta(rule: Rule, factor: Factor): real {
    if factor in rule.deltas then rule.deltas[factor] else 0.0
  }

  /** What a rule says about one factor: silence is not recorded. */
  function Say(tag: string, rule: Rule, factor: Factor): seq<Influence> {
    if Delta(rule, factor) == 0.0 then [] else [Influence(tag, rule.context, factor, Delta(rule, factor))]
  }

  /** What the first `n` factors of a rule say. */
  function FactorsSay(tag: string, rule: Rule, n: nat): seq<Influence>
    requires n <= |FACTORS|
  {
    if n == 0 then [] else FactorsSay(tag, rule, n - 1) + Say(tag, rule, FACTORS[n - 1])
  }

  function RulesSay(judge: Judge, o: Observation, c: Candidate, tag: string, rules: seq<Rule>): seq<Influence> {
    if rules == [] then []
    else
      var front, last := RulesSay(judge, o, c, tag, rules[..|rules| - 1]), rules[|rules| - 1];
      if judge.matches(last, o, c) then front + FactorsSay(tag, last, |FACTORS|) else front
  }

  function PersonalitiesSay(judge: Judge, o: Observation, c: Candidate, personalities: seq<Personality>): seq<Influence> {
    if personalities == [] then []
    else
      var last := personalities[|personalities| - 1];
      PersonalitiesSay(judge, o, c, personalities[..|personalities| - 1]) + RulesSay(judge, o, c, last.tag, last.rules)
  }

  function Applied(weights: Weights, influences: seq<Influence>): Weights {
    if influences == [] then weights
    else Applied(weights, influences[..|influences| - 1]).Raised(influences[|influences| - 1].factor, influences[|influences| - 1].delta)
  }

  function ContextualWeights(judge: Judge, o: Observation, c: Candidate, behavior: Behavior): Weights {
    if behavior.personalities == [] then behavior.weights
    else Applied(behavior.weights, PersonalitiesSay(judge, o, c, behavior.personalities)).Clamped()
  }

  lemma AppliedOnce(weights: Weights, influences: seq<Influence>, last: Influence)
    ensures Applied(weights, influences + [last]) == Applied(weights, influences).Raised(last.factor, last.delta)
  {
    assert (influences + [last])[..|influences|] == influences;
  }

  /** One rule's say, factor by factor, recording everything that was not silence. */
  method HearRule(ghost base: Weights, weights: Weights, heard: seq<Influence>, tag: string, rule: Rule)
    returns (adjusted: Weights, influences: seq<Influence>)
    requires weights == Applied(base, heard)
    ensures influences == heard + FactorsSay(tag, rule, |FACTORS|)
    ensures adjusted == Applied(base, influences)
  {
    hide Applied, Delta;
    adjusted, influences := weights, heard;
    for k := 0 to |FACTORS|
      invariant influences == heard + FactorsSay(tag, rule, k)
      invariant adjusted == Applied(base, influences)
    {
      var delta := Delta(rule, FACTORS[k]);
      if delta == 0.0 { continue; }
      var say := Influence(tag, rule.context, FACTORS[k], delta);
      AppliedOnce(base, influences, say);
      adjusted := adjusted.Raised(FACTORS[k], delta);
      influences := influences + [say];
      assert Say(tag, rule, FACTORS[k]) == [say];
    }
  }

  /** The weights as the server moves them: tag by tag, rule by rule. */
  method WakeWeights(judge: Judge, o: Observation, c: Candidate, behavior: Behavior)
    returns (weights: Weights, influences: seq<Influence>)
    ensures weights == ContextualWeights(judge, o, c, behavior)
    ensures influences == PersonalitiesSay(judge, o, c, behavior.personalities)
  {
    hide FactorsSay, Applied;
    if behavior.personalities == [] { return behavior.weights, []; }
    var adjusted, tags := behavior.weights, behavior.personalities;
    influences := [];
    NothingApplied(behavior.weights);
    for i := 0 to |tags|
      invariant influences == PersonalitiesSay(judge, o, c, tags[..i])
      invariant adjusted == Applied(behavior.weights, influences)
    {
      assert tags[..i + 1][..i] == tags[..i];
      var rules := tags[i].rules;
      ghost var before := influences;
      for j := 0 to |rules|
        invariant influences == before + RulesSay(judge, o, c, tags[i].tag, rules[..j])
        invariant adjusted == Applied(behavior.weights, influences)
      {
        assert rules[..j + 1][..j] == rules[..j];
        if !judge.matches(rules[j], o, c) { continue; }
        adjusted, influences := HearRule(behavior.weights, adjusted, influences, tags[i].tag, rules[j]);
      }
      assert rules[..|rules|] == rules;
    }
    assert tags[..|tags|] == tags;
    weights := adjusted.Clamped();
  }

  lemma NothingApplied(weights: Weights)
    ensures Applied(weights, []) == weights
  {
  }

  /** What the recorded influences add to one factor. */
  function SumFor(influences: seq<Influence>, factor: Factor): real {
    if influences == [] then 0.0
    else
      var last := influences[|influences| - 1];
      SumFor(influences[..|influences| - 1], factor) + if last.factor == factor then last.delta else 0.0
  }

  /** The trace accounts for every weight: before the clamp, each is the standing weight plus
      exactly what the recorded influences say about it, so their order does not matter. */
  lemma {:induction false} InfluencesExplainWeights(weights: Weights, influences: seq<Influence>, factor: Factor)
    ensures Applied(weights, influences).At(factor) == weights.At(factor) + SumFor(influences, factor)
  {
    if influences != [] { InfluencesExplainWeights(weights, influences[..|influences| - 1], factor); }
  }

  // ---- the weighted mean ----

  function Contribution(judge: Judge, o: Observation, c: Candidate, weights: Weights, factor: Factor): real {
    Times(ClampScore(judge.raw(o, c, factor)), weights.At(factor))
  }

  function ScoreOf(judge: Judge, o: Observation, c: Candidate, behavior: Behavior): real {
    var weights := ContextualWeights(judge, o, c, behavior);
    var total := weights.Total();
    if total > 0.0 then
      (Contribution(judge, o, c, weights, ObjectiveProgress) + Contribution(judge, o, c, weights, TargetSuitability)
       + Contribution(judge, o, c, weights, Danger) + Contribution(judge, o, c, weights, AllySupport)) / total
    else 0.0
  }

  lemma ShareBounded(verdict: real, weight: real)
    requires -1.0 <= verdict <= 1.0 && weight >= 0.0
    ensures -weight <= Times(verdict, weight) <= weight
  {
    var share := verdict * weight;
    assert Times(1.0 - verdict, weight) == weight - share;
    assert Times(verdict + 1.0, weight) == weight + share;
  }

  lemma MeanBounded(sum: real, total: real)
    requires total > 0.0 && -total <= sum <= total
    ensures -1.0 <= sum / total <= 1.0
  {
    var mean := sum / total;
    assert mean * total == sum;
    assert Times(mean - 1.0, total) == sum - total;
    assert Times(-1.0 - mean, total) == -total - sum;
    assert mean > 1.0 ==> Times(mean - 1.0, total) > 0.0;
    assert mean < -1.0 ==> Times(-1.0 - mean, total) > 0.0;
  }

  lemma ContributionBounded(judge: Judge, o: Observation, c: Candidate, weights: Weights, factor: Factor)
    requires NotNegative(weights)
    ensures -weights.At(factor) <= Contribution(judge, o, c, weights, factor) <= weights.At(factor)
  {
    hide Times;
    ShareBounded(ClampScore(judge.raw(o, c, factor)), weights.At(factor));
  }

  predicate NotNegative(weights: Weights) {
    forall factor :: weights.At(factor) >= 0.0
  }

  lemma ContextualNotNegative(judge: Judge, o: Observation, c: Candidate, behavior: Behavior)
    requires behavior.personalities != [] || NotNegative(behavior.weights)
    ensures NotNegative(ContextualWeights(judge, o, c, behavior))
  {
  }

  /** Every score is in [-1, 1]: whatever the verdicts, the rules and how far they push. */
  lemma ScoreIsBounded(judge: Judge, o: Observation, c: Candidate, behavior: Behavior)
    requires behavior.personalities != [] || NotNegative(behavior.weights)
    ensures -1.0 <= ScoreOf(judge, o, c, behavior) <= 1.0
  {
    hide Contribution, ContextualWeights, NotNegative;
    var weights := ContextualWeights(judge, o, c, behavior);
    ContextualNotNegative(judge, o, c, behavior);
    ContributionBounded(judge, o, c, weights, ObjectiveProgress);
    ContributionBounded(judge, o, c, weights, TargetSuitability);
    ContributionBounded(judge, o, c, weights, Danger);
    ContributionBounded(judge, o, c, weights, AllySupport);
    if weights.Total() > 0.0 {
      MeanBounded(Contribution(judge, o, c, weights, ObjectiveProgress) + Contribution(judge, o, c, weights, TargetSuitability)
                  + Contribution(judge, o, c, weights, Danger) + Contribution(judge, o, c, weights, AllySupport), weights.Total());
    }
  }

  /** The judge that likes exactly what the weights do not mind. */
  function Flatterer(weights: Weights): Judge {
    Judge((o: Observation, c: Candidate, f: Factor) => if weights.At(f) < 0.0 then -1.0 else 1.0,
          (r: Rule, o: Observation, c: Candidate) => false)
  }

  lemma FlattererOvershoots(o: Observation, c: Candidate, behavior: Behavior)
    requires behavior.personalities == [] && !NotNegative(behavior.weights) && behavior.weights.Total() > 0.0
    ensures ScoreOf(Flatterer(behavior.weights), o, c, behavior) > 1.0
  {
    var judge, weights := Flatterer(behavior.weights), behavior.weights;
    FlatteredContribution(o, c, weights, ObjectiveProgress);
    FlatteredContribution(o, c, weights, TargetSuitability);
    FlatteredContribution(o, c, weights, Danger);
    FlatteredContribution(o, c, weights, AllySupport);
    hide Contribution;
    var sum := Contribution(judge, o, c, weights, ObjectiveProgress) + Contribution(judge, o, c, weights, TargetSuitability)
               + Contribution(judge, o, c, weights, Danger) + Contribution(judge, o, c, weights, AllySupport);
    var factor :| weights.At(factor) < 0.0;
    assert sum > weights.Total();
    MeanAboveOne(sum, weights.Total());
  }

  lemma FlatteredContribution(o: Observation, c: Candidate, weights: Weights, factor: Factor)
    ensures Contribution(Flatterer(weights), o, c, weights, factor) == Abs(weights.At(factor))
  {
  }

  lemma MeanAboveOne(sum: real, total: real)
    requires sum > total > 0.0
    ensures sum / total > 1.0
  {
    var mean := sum / total;
    assert mean * total == sum;
    assert Times(1.0 - mean, total) == total - sum;
    assert mean < 1.0 ==> Times(1.0 - mean, total) > 0.0;
  }

  /** What the standing clamp buys: with no personality, scores stay in bounds whatever is
      judged exactly when no weight is negative, or the weights sum to nothing at all. */
  lemma BoundedExactlyWhenNotNegative(o: Observation, c: Candidate, behavior: Behavior)
    requires behavior.personalities == []
    ensures (forall judge :: -1.0 <= ScoreOf(judge, o, c, behavior) <= 1.0)
       <==> NotNegative(behavior.weights) || behavior.weights.Total() <= 0.0
  {
    if NotNegative(behavior.weights) {
      forall judge ensures -1.0 <= ScoreOf(judge, o, c, behavior) <= 1.0 { ScoreIsBounded(judge, o, c, behavior); }
    } else if behavior.weights.Total() > 0.0 {
      FlattererOvershoots(o, c, behavior);
    }
  }

  // ---- what a score is made of ----

  /** A score is the weighted mean of the four verdicts, each cut to [-1, 1]; nothing where the
      weights sum to nothing. */
  lemma ScoreIsTheMean(judge: Judge, o: Observation, c: Candidate, behavior: Behavior)
    ensures var w := ContextualWeights(judge, o, c, behavior);
            var total := w.objective + w.target + w.danger + w.support;
      && (total <= 0.0 ==> ScoreOf(judge, o, c, behavior) == 0.0)
      && (total > 0.0 ==> ScoreOf(judge, o, c, behavior) * total == Weighed((f: Factor) => CutTo(judge.raw(o, c, f)), w))
  {
    hide ContextualWeights, Times;
  }

  function Weighed(verdict: Factor -> real, w: Weights): real {
    Times(verdict(ObjectiveProgress), w.objective) + Times(verdict(TargetSuitability), w.target)
    + Times(verdict(Danger), w.danger) + Times(verdict(AllySupport), w.support)
  }

  lemma WeighedByOne(verdict: Factor -> real, w: Weights, factor: Factor)
    requires forall other :: other != factor ==> w.At(other) == 0.0
    ensures Weighed(verdict, w) == Times(verdict(factor), w.At(factor))
    ensures w.objective + w.target + w.danger + w.support == w.At(factor)
  {
    hide Times;
    assert w.At(ObjectiveProgress) == w.objective && w.At(TargetSuitability) == w.target && w.At(Danger) == w.danger && w.At(AllySupport) == w.support;
  }

  function CutTo(verdict: real): real {
    if verdict < -1.0 then -1.0 else if verdict > 1.0 then 1.0 else verdict
  }

  /** A unit that cares about one thing only scores by that verdict only. */
  lemma LoneCareDecides(judge: Judge, o: Observation, c: Candidate, behavior: Behavior, factor: Factor)
    requires ContextualWeights(judge, o, c, behavior).At(factor) > 0.0
    requires forall other :: other != factor ==> ContextualWeights(judge, o, c, behavior).At(other) == 0.0
    ensures ScoreOf(judge, o, c, behavior) == CutTo(judge.raw(o, c, factor))
  {
    hide ContextualWeights, Weighed;
    ScoreIsTheMean(judge, o, c, behavior);
    WeighedByOne((f: Factor) => CutTo(judge.raw(o, c, f)), ContextualWeights(judge, o, c, behavior), factor);
    hide ScoreOf, CutTo;
    SameOfOne(ScoreOf(judge, o, c, behavior), CutTo(judge.raw(o, c, factor)), ContextualWeights(judge, o, c, behavior).At(factor));
  }

  lemma SameOfOne(score: real, verdict: real, weight: real)
    requires weight > 0.0
    ensures score * weight == Times(verdict, weight) ==> score == verdict
  {
    assert Times(score - verdict, weight) == score * weight - Times(verdict, weight);
    assert Times(verdict - score, weight) == Times(verdict, weight) - score * weight;
  }

  /** What is heard is exactly what the rules that apply say: each tag's every matching rule, on each
      factor it is not silent about. */
  lemma {:induction false} HeardExactly(judge: Judge, o: Observation, c: Candidate, personalities: seq<Personality>, x: Influence)
    ensures x in PersonalitiesSay(judge, o, c, personalities)
       <==> exists p, rule :: p in personalities && rule in p.rules && judge.matches(rule, o, c) && Says(p.tag, rule, x)
  {
    hide RulesSay;
    if personalities != [] {
      var front, last := personalities[..|personalities| - 1], personalities[|personalities| - 1];
      assert personalities == front + [last];
      HeardExactly(judge, o, c, front, x);
      RulesHeardExactly(judge, o, c, last.tag, last.rules, x);
      hide Says;
    }
  }

  predicate Says(tag: string, rule: Rule, x: Influence) {
    x.tag == tag && x.context == rule.context && x.factor in rule.deltas && x.delta == rule.deltas[x.factor] && x.delta != 0.0
  }

  lemma {:induction false} RulesHeardExactly(judge: Judge, o: Observation, c: Candidate, tag: string, rules: seq<Rule>, x: Influence)
    ensures x in RulesSay(judge, o, c, tag, rules) <==> exists rule :: rule in rules && judge.matches(rule, o, c) && Says(tag, rule, x)
  {
    hide FactorsSay;
    if rules != [] {
      var front, last := rules[..|rules| - 1], rules[|rules| - 1];
      assert rules == front + [last];
      RulesHeardExactly(judge, o, c, tag, front, x);
      RuleHeardExactly(tag, last, x);
      hide Says;
    }
  }

  lemma RuleHeardExactly(tag: string, rule: Rule, x: Influence)
    ensures x in FactorsSay(tag, rule, |FACTORS|) <==> Says(tag, rule, x)
  {
    hide Say, Says;
    forall f ensures x in Say(tag, rule, f) <==> Says(tag, rule, x) && x.factor == f { SayExactly(tag, rule, f, x); }
    assert FactorsSay(tag, rule, 1) == FactorsSay(tag, rule, 0) + Say(tag, rule, ObjectiveProgress);
    assert FactorsSay(tag, rule, 2) == FactorsSay(tag, rule, 1) + Say(tag, rule, TargetSuitability);
    assert FactorsSay(tag, rule, 3) == FactorsSay(tag, rule, 2) + Say(tag, rule, Danger);
    assert FactorsSay(tag, rule, 4) == FactorsSay(tag, rule, 3) + Say(tag, rule, AllySupport);
    assert x.factor == ObjectiveProgress || x.factor == TargetSuitability || x.factor == Danger || x.factor == AllySupport;
  }

  lemma SayExactly(tag: string, rule: Rule, factor: Factor, x: Influence)
    ensures x in Say(tag, rule, factor) <==> Says(tag, rule, x) && x.factor == factor
  {
  }
}
