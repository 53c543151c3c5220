/**
 * The loop of the rule evaluator's `evaluate`: every entry condition, in strategy order,
 * adds its weight to the total and is filed under met (adding its weight to the score) or
 * missed, with its entry in `details` keyed by the condition's type. A check that raises
 * is filed as missed with an error entry, and the loop goes on.
 */
module RuleEvaluation {
  import opened Wrappers
  import opened PyData
  import opened StrategyModels
  import opened Evaluator

  /** A condition together with what its check produced. */
  datatype Outcome = Outcome(condition: Condition, result: Result<ConditionResult, string>)

  /** A condition is met when its check returned a matching result without raising. */
  predicate Hit(o: Outcome) {
    o.result.Ok? && o.result.value.matches
  }

  /** The outcomes of the checks of `conds`, one per condition, in order. */
  function Outcomes(ev: RuleEvaluator, inputs: MarketInputs, conds: seq<Condition>): (os: seq<Outcome>)
    ensures |os| == |conds|
    ensures forall j :: 0 <= j < |conds| ==> os[j] == Outcome(conds[j], EvaluateCondition(ev, inputs, conds[j]))
  {
    seq(|conds|, j requires 0 <= j < |conds| => Outcome(conds[j], EvaluateCondition(ev, inputs, conds[j])))
  }

  /** What the loop accumulates. */
  datatype Tally = Tally(met: seq<string>, missed: seq<string>, totalWeight: real, score: real, details: map<string, Detail>)

  const EmptyTally: Tally := Tally([], [], 0.0, 0.0, map[])

  /** The entry an outcome leaves in `details`. */
  function DetailOf(o: Outcome): Detail {
    match o.result
    case Err(e) => Errored(e)
    case Ok(cr) => if cr.matches then Met(cr.value, o.condition.rule) else Missed(cr.value, o.condition.rule, cr.reason)
  }

  /** One iteration of the loop. */
  function Record(t: Tally, o: Outcome): Tally {
    var c := o.condition;
    var details := t.details[c.kind := DetailOf(o)];
    if Hit(o) then Tally(t.met + [c.kind], t.missed, t.totalWeight + c.weight, t.score + c.weight, details)
    else Tally(t.met, t.missed + [c.kind], t.totalWeight + c.weight, t.score, details)
  }

  /** The tally after the loop has seen the outcomes `os`. */
  function TallyOf(os: seq<Outcome>): Tally
    decreases |os|
  {
    if os == [] then EmptyTally else Record(TallyOf(os[..|os| - 1]), os[|os| - 1])
  }

  /** `score / total_weight`, or 0 when the total is not positive. */
  function SignalStrength(score: real, totalWeight: real): real {
    if totalWeight > 0.0 then score / totalWeight else 0.0
  }

  /** The result of `evaluate`; the match gate compares counts and ignores weights. */
  function Evaluation(ev: RuleEvaluator, symbol: string, inputs: MarketInputs): EvaluationResult {
    var conds := ev.strategy.entryConditions;
    var t := TallyOf(Outcomes(ev, inputs, conds));
    EvaluationResult(symbol, ev.strategy.name, |t.met| == |conds|, t.met, t.missed,
                     SignalStrength(t.score, t.totalWeight), t.details)
  }

  /** `evaluate`: one pass over the entry conditions in strategy order. */
  method Evaluate(ev: RuleEvaluator, symbol: string, inputs: MarketInputs) returns (r: EvaluationResult)
    ensures r == Evaluation(ev, symbol, inputs)
  {
    var conds := ev.strategy.entryConditions;
    ghost var os := Outcomes(ev, inputs, conds);
    var met: seq<string> := [];
    var missed: seq<string> := [];
    var totalWeight := 0.0;
    var score := 0.0;
    var details: map<string, Detail> := map[];
    var i := 0;
    while i < |conds|
      invariant 0 <= i <= |conds|
      invariant Tally(met, missed, totalWeight, score, details) == TallyOf(os[..i])
    {
      var c := conds[i];
      totalWeight := totalWeight + c.weight;
      var outcome := Outcome(c, EvaluateCondition(ev, inputs, c));
      if outcome.result.Ok? && outcome.result.value.matches {
        met := met + [c.kind];
        score := score + c.weight;
      } else {
        missed := missed + [c.kind];
      }
      details := details[c.kind := DetailOf(outcome)];
      assert os[..i + 1][..i] == os[..i];
      i := i + 1;
    }
    assert os[..i] == os;
    r := EvaluationResult(symbol, ev.strategy.name, |met| == |conds|, met, missed,
                          SignalStrength(score, totalWeight), details);
  }

  // ---------------------------------------------------------------- Reference definitions

  /** The types of the outcomes that hit (for `want`) or did not (for `!want`), in order. */
  function KindsWhere(os: seq<Outcome>, want: bool): (ks: seq<string>)
    ensures |ks| <= |os|
  {
    if os == [] then []
    else (if Hit(os[0]) == want then [os[0].condition.kind] else []) + KindsWhere(os[1..], want)
  }

  function SumWeights(os: seq<Outcome>): real {
    if os == [] then 0.0 else os[0].condition.weight + SumWeights(os[1..])
  }

  function MatchedWeight(os: seq<Outcome>): real {
    if os == [] then 0.0
    else (if Hit(os[0]) then os[0].condition.weight else 0.0) + MatchedWeight(os[1..])
  }

  lemma {:induction false} ReferenceAppend(s: seq<Outcome>, o: Outcome)
    ensures KindsWhere(s + [o], true) == KindsWhere(s, true) + (if Hit(o) then [o.condition.kind] else [])
    ensures KindsWhere(s + [o], false) == KindsWhere(s, false) + (if Hit(o) then [] else [o.condition.kind])
    ensures SumWeights(s + [o]) == SumWeights(s) + o.condition.weight
    ensures MatchedWeight(s + [o]) == MatchedWeight(s) + (if Hit(o) then o.condition.weight else 0.0)
  {
    if s == [] {
      assert [o][1..] == [];
    } else {
      assert (s + [o])[1..] == s[1..] + [o];
      ReferenceAppend(s[1..], o);
    }
  }

  /**
   * The loop's accumulators are the reference definitions: met and missed are the types
   * of the hitting and the other outcomes in order, the total is the sum of all weights
   * and the score the sum of the matched ones.
   */
  lemma {:induction false} TallyIsPartition(os: seq<Outcome>)
    ensures TallyOf(os).met == KindsWhere(os, true)
    ensures TallyOf(os).missed == KindsWhere(os, false)
    ensures TallyOf(os).totalWeight == SumWeights(os)
    ensures TallyOf(os).score == MatchedWeight(os)
    decreases |os|
  {
    if os != [] {
      var init := os[..|os| - 1];
      assert os == init + [os[|os| - 1]];
      TallyIsPartition(init);
      ReferenceAppend(init, os[|os| - 1]);
    }
  }

  /** Every outcome lands in exactly one of met and missed; met is complete iff every outcome hit. */
  lemma {:induction false} KindsWherePartition(os: seq<Outcome>)
    ensures |KindsWhere(os, true)| + |KindsWhere(os, false)| == |os|
    ensures |KindsWhere(os, true)| == |os| <==> forall j :: 0 <= j < |os| ==> Hit(os[j])
  {
    if os != [] {
      KindsWherePartition(os[1..]);
      assert forall j :: 1 <= j < |os| ==> os[j] == os[1..][j - 1];
      if |KindsWhere(os, true)| == |os| {
        assert Hit(os[0]);
      }
    }
  }

  /** A condition of the strategy counts as met. */
  predicate Matched(ev: RuleEvaluator, inputs: MarketInputs, c: Condition) {
    Hit(Outcome(c, EvaluateCondition(ev, inputs, c)))
  }

  /**
   * The evaluation result: met and missed partition the conditions in strategy order, the
   * gate holds iff every condition matched (whatever the weights), and the signal strength
   * is the matched weight over the total weight, or 0 when the total is not positive.
   */
  lemma {:induction false} EvaluationSpec(ev: RuleEvaluator, symbol: string, inputs: MarketInputs)
    ensures var r := Evaluation(ev, symbol, inputs);
      var conds := ev.strategy.entryConditions;
      var os := Outcomes(ev, inputs, conds);
      && r.conditionsMet == KindsWhere(os, true)
      && r.conditionsMissed == KindsWhere(os, false)
      && |r.conditionsMet| + |r.conditionsMissed| == |conds|
      && (r.matches <==> forall j :: 0 <= j < |conds| ==> Matched(ev, inputs, conds[j]))
      && r.signalStrength == SignalStrength(MatchedWeight(os), SumWeights(os))
  {
    var conds := ev.strategy.entryConditions;
    var os := Outcomes(ev, inputs, conds);
    TallyIsPartition(os);
    KindsWherePartition(os);
    assert forall j :: 0 <= j < |conds| ==> (Matched(ev, inputs, conds[j]) <==> Hit(os[j]));
  }

  lemma {:induction false} MatchedWeightBounded(os: seq<Outcome>)
    requires forall j :: 0 <= j < |os| ==> os[j].condition.weight >= 0.0
    ensures 0.0 <= MatchedWeight(os) <= SumWeights(os)
  {
    if os != [] {
      assert forall j :: 1 <= j < |os| ==> os[j] == os[1..][j - 1];
      MatchedWeightBounded(os[1..]);
    }
  }

  /** With non-negative weights the signal strength lies in [0, 1]. */
  lemma {:induction false} SignalStrengthBounded(ev: RuleEvaluator, symbol: string, inputs: MarketInputs)
    requires forall j :: 0 <= j < |ev.strategy.entryConditions| ==> ev.strategy.entryConditions[j].weight >= 0.0
    ensures 0.0 <= Evaluation(ev, symbol, inputs).signalStrength <= 1.0
  {
    var os := Outcomes(ev, inputs, ev.strategy.entryConditions);
    TallyIsPartition(os);
    assert Evaluation(ev, symbol, inputs).signalStrength == SignalStrength(MatchedWeight(os), SumWeights(os));
    MatchedWeightBounded(os);
    StrengthInUnitInterval(MatchedWeight(os), SumWeights(os));
  }

  lemma {:induction false} StrengthInUnitInterval(score: real, totalWeight: real)
    requires 0.0 <= score <= totalWeight
    ensures 0.0 <= SignalStrength(score, totalWeight) <= 1.0
  {
    if totalWeight > 0.0 {
      assert score / totalWeight <= totalWeight / totalWeight;
    }
  }

  lemma {:induction false} UnitWeightSums(os: seq<Outcome>)
    requires forall j :: 0 <= j < |os| ==> os[j].condition.weight == 1.0
    ensures SumWeights(os) == |os| as real
    ensures MatchedWeight(os) == |KindsWhere(os, true)| as real
  {
    if os != [] {
      assert forall j :: 1 <= j < |os| ==> os[j] == os[1..][j - 1];
      UnitWeightSums(os[1..]);
    }
  }

  /** With unit weights the signal strength is the fraction of conditions met. */
  lemma {:induction false} UnitWeightsGiveFraction(ev: RuleEvaluator, symbol: string, inputs: MarketInputs)
    requires forall j :: 0 <= j < |ev.strategy.entryConditions| ==> ev.strategy.entryConditions[j].weight == 1.0
    requires ev.strategy.entryConditions != []
    ensures var r := Evaluation(ev, symbol, inputs);
      r.signalStrength == |r.conditionsMet| as real / |ev.strategy.entryConditions| as real
  {
    var os := Outcomes(ev, inputs, ev.strategy.entryConditions);
    TallyIsPartition(os);
    UnitWeightSums(os);
  }

  /** The details after the loop has seen `os`: the previous details updated at the last outcome's type. */
  lemma {:induction false} DetailsStep(os: seq<Outcome>)
    requires os != []
    ensures TallyOf(os).details
         == TallyOf(os[..|os| - 1]).details[os[|os| - 1].condition.kind := DetailOf(os[|os| - 1])]
  {
  }

  /** The details map has one entry per condition type that occurs. */
  lemma {:induction false} DetailsKeys(os: seq<Outcome>)
    ensures forall k :: k in TallyOf(os).details <==> exists j :: 0 <= j < |os| && os[j].condition.kind == k
    decreases |os|
  {
    if os != [] {
      var init := os[..|os| - 1];
      var last := os[|os| - 1];
      DetailsStep(os);
      DetailsKeys(init);
      forall k
        ensures k in TallyOf(os).details <==> exists j :: 0 <= j < |os| && os[j].condition.kind == k
      {
        if k in TallyOf(os).details && k != last.condition.kind {
          var j :| 0 <= j < |init| && init[j].condition.kind == k;
          assert os[j].condition.kind == k;
        }
        if exists j :: 0 <= j < |os| && os[j].condition.kind == k {
          var j :| 0 <= j < |os| && os[j].condition.kind == k;
          if j < |init| {
            assert init[j].condition.kind == k;
          }
        }
      }
    }
  }

  /** The entry of a type is the outcome of the last condition of that type: a later duplicate overwrites an earlier one. */
  lemma {:induction false} DetailsLastWins(os: seq<Outcome>, j: int)
    requires 0 <= j < |os|
    requires forall j' :: j < j' < |os| ==> os[j'].condition.kind != os[j].condition.kind
    ensures os[j].condition.kind in TallyOf(os).details
    ensures TallyOf(os).details[os[j].condition.kind] == DetailOf(os[j])
    decreases |os|
  {
    var init := os[..|os| - 1];
    DetailsStep(os);
    if j < |init| {
      assert forall j' :: j < j' < |init| ==> init[j'] == os[j'];
      DetailsLastWins(init, j);
    }
  }

  /** A condition whose check raised leaves an error entry, unless a later condition of its type overwrote it. */
  lemma {:induction false} ErrorRecordedAsMissed(ev: RuleEvaluator, symbol: string, inputs: MarketInputs, j: int)
    requires 0 <= j < |ev.strategy.entryConditions|
    requires EvaluateCondition(ev, inputs, ev.strategy.entryConditions[j]).Err?
    requires var conds := ev.strategy.entryConditions;
      forall j' :: j < j' < |conds| ==> conds[j'].kind != conds[j].kind
    ensures var conds := ev.strategy.entryConditions;
      var r := Evaluation(ev, symbol, inputs);
      && !Matched(ev, inputs, conds[j])
      && !r.matches
      && conds[j].kind in r.details
      && r.details[conds[j].kind] == Errored(EvaluateCondition(ev, inputs, conds[j]).error)
  {
    var conds := ev.strategy.entryConditions;
    var os := Outcomes(ev, inputs, conds);
    DetailsLastWins(os, j);
    EvaluationSpec(ev, symbol, inputs);
  }
}
