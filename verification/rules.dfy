/** The rule service: a first-match chain of threshold tests that labels an
    order intent with a behavioural violation, a severity tier derived from
    the risk score alone, a score-derived cooldown and a fixed explanation. */
module Rules {
  import opened Vocabulary

  datatype RuleInput = RuleInput(riskScore: real, orderType: OrderType, horizon: Horizon, recentActions: int)

  datatype RuleResult = RuleResult(
    violationProb: real,
    violationType: ViolationType,
    severity: Severity,
    cooldownMinutes: nat,
    explanation: seq<string>)

  /** Number of rules in the chain, the final catch-all included. */
  const RuleCount: nat := 5

  /** Rule k of the chain, read as a table: the condition under which it fires. */
  predicate Fires(k: nat, i: RuleInput) {
    if k == 0 then i.riskScore >= 0.75 && i.orderType == Sell && i.horizon == LongTerm
    else if k == 1 then i.riskScore >= 0.6 && i.recentActions >= 5 && i.horizon == ShortTerm
    else if k == 2 then i.riskScore >= 0.5 && i.horizon == ShortTerm && i.orderType == Sell
    else if k == 3 then i.riskScore >= 0.4
    else true
  }

  /** The label rule k assigns. */
  function Label(k: nat): ViolationType {
    if k == 0 then PanicSell
    else if k == 1 then Overtrading
    else if k == 2 then ShortTermism
    else if k == 3 then PlanDeviation
    else NoViolation
  }

  /** The violation chain of evaluateBehaviorViolation. */
  function Classify(i: RuleInput): (v: ViolationType)
    ensures v == NoViolation <==> i.riskScore < 0.4
    ensures v == PanicSell ==> i.riskScore >= 0.75 && i.orderType == Sell && i.horizon == LongTerm
    ensures v == Overtrading ==> i.riskScore >= 0.6 && i.recentActions >= 5 && i.horizon == ShortTerm
    ensures v == ShortTermism ==> i.riskScore >= 0.5 && i.orderType == Sell && i.horizon == ShortTerm
    ensures i.orderType == Buy ==> v in {Overtrading, PlanDeviation, NoViolation}
    ensures i.horizon != ShortTerm ==> v != Overtrading && v != ShortTermism
  {
    if i.riskScore >= 0.75 && i.orderType == Sell && i.horizon == LongTerm then PanicSell
    else if i.riskScore >= 0.6 && i.recentActions >= 5 && i.horizon == ShortTerm then Overtrading
    else if i.riskScore >= 0.5 && i.horizon == ShortTerm && i.orderType == Sell then ShortTermism
    else if i.riskScore >= 0.4 then PlanDeviation
    else NoViolation
  }

  /** Classify returns the label of the FIRST rule of the table that fires:
      rule k fires and no earlier rule does. */
  lemma ClassifyIsFirstMatch(i: RuleInput)
    ensures exists k :: 0 <= k < RuleCount && Fires(k, i) && Classify(i) == Label(k)
              && (forall j :: 0 <= j < k ==> !Fires(j, i))
  {
    var k: nat := if Fires(0, i) then 0 else if Fires(1, i) then 1
                  else if Fires(2, i) then 2 else if Fires(3, i) then 3 else 4;
    assert Fires(k, i) && Classify(i) == Label(k);
    assert forall j :: 0 <= j < k ==> !Fires(j, i);
  }

  /** Priority: a high-risk long-horizon sell is PANIC_SELL whatever the
      action count, even when the overtrading and plan-deviation thresholds
      are also met. */
  lemma PanicSellHasPriority(score: real, recentActions: int)
    requires score >= 0.75
    ensures Classify(RuleInput(score, Sell, LongTerm, recentActions)) == PanicSell
    ensures Fires(3, RuleInput(score, Sell, LongTerm, recentActions))
  {
  }

  /** Severity tier from the score alone: below 0.4 low, below 0.7 medium, else high. */
  function SeverityOf(riskScore: real): (s: Severity)
    ensures s == Low <==> riskScore < 0.4
    ensures s == Medium <==> 0.4 <= riskScore < 0.7
    ensures s == High <==> riskScore >= 0.7
  {
    if riskScore < 0.4 then Low
    else if riskScore < 0.7 then Medium
    else High
  }

  /** Severity is monotone in the score. */
  lemma SeverityMonotone(a: real, b: real)
    requires a <= b
    ensures SeverityOf(a) == High ==> SeverityOf(b) == High
    ensures SeverityOf(b) == Low ==> SeverityOf(a) == Low
  {
  }

  /** Score-derived cooldown: 0, 15, 30 or 60 minutes for a score below 0.4,
      below 0.6, below 0.8, or above.  The cooldown service uses the same
      table as its base duration. */
  function BaseCooldownMinutes(riskScore: real): (m: nat)
    ensures m in {0, 15, 30, 60}
    ensures m == 0 <==> riskScore < 0.4
    ensures m == 60 <==> riskScore >= 0.8
    ensures m == 15 <==> 0.4 <= riskScore < 0.6
  {
    if riskScore < 0.4 then 0
    else if riskScore < 0.6 then 15
    else if riskScore < 0.8 then 30
    else 60
  }

  lemma BaseCooldownMonotone(a: real, b: real)
    requires a <= b
    ensures BaseCooldownMinutes(a) <= BaseCooldownMinutes(b)
  {
  }

  /** The fixed three-line explanation of each label. */
  function Explanation(v: ViolationType): (lines: seq<string>)
    ensures |lines| == 3
  {
    match v
    case PanicSell => [PanicSellText1, PanicSellText2, PanicSellText3]
    case Overtrading => [OvertradingText1, OvertradingText2, OvertradingText3]
    case ShortTermism => [ShortTermismText1, ShortTermismText2, ShortTermismText3]
    case PlanDeviation => [PlanDeviationText1, PlanDeviationText2, PlanDeviationText3]
    case NoViolation => [NoneText1, NoneText2, NoneText3]
  }

  const PanicSellText1: string := "This action shows signs of panic selling."
  const PanicSellText2: string := "Your current decision deviates from a long-term strategy due to short-term market pressure."
  const PanicSellText3: string := "Historical evidence suggests such behavior increases long-term loss probability."
  const OvertradingText1: string := "This indicates overtrading behavior."
  const OvertradingText2: string := "Frequent short-term actions can lead to increased transaction costs and emotional fatigue."
  const OvertradingText3: string := "Consider pausing to reflect on your overall strategy."
  const ShortTermismText1: string := "This reflects short-term focus in decision-making."
  const ShortTermismText2: string := "Selling assets quickly may overlook long-term potential."
  const ShortTermismText3: string := "Behavioral studies show short-termism often leads to suboptimal outcomes."
  const PlanDeviationText1: string := "This action deviates from your planned investment approach."
  const PlanDeviationText2: string := "Sticking to a consistent plan helps mitigate behavioral biases."
  const PlanDeviationText3: string := "Review your original strategy to ensure alignment with long-term goals."
  const NoneText1: string := "No significant behavioral violation detected."
  const NoneText2: string := "Your action aligns with low-risk decision-making."
  const NoneText3: string := "Continue monitoring for consistent, disciplined trading."

  /** Distinct labels get distinct explanations: the text identifies the label. */
  lemma ExplanationInjective(a: ViolationType, b: ViolationType)
    ensures Explanation(a) == Explanation(b) ==> a == b
  {
    // the first lines have five different lengths
    assert |PanicSellText1| == 41 && |OvertradingText1| == 36 && |ShortTermismText1| == 50;
    assert |PlanDeviationText1| == 59 && |NoneText1| == 45;
    if Explanation(a) == Explanation(b) {
      assert |Explanation(a)[0]| == |Explanation(b)[0]|;
    }
  }

  /** evaluateBehaviorViolation. */
  function Evaluate(i: RuleInput): (r: RuleResult)
    ensures r.violationProb == i.riskScore && r.violationType == Classify(i) && r.severity == SeverityOf(i.riskScore)
    ensures r.cooldownMinutes == BaseCooldownMinutes(i.riskScore)
    ensures r.violationType == NoViolation <==> i.riskScore < 0.4
    ensures r.severity == High ==> r.violationType != NoViolation && r.cooldownMinutes >= 30
    ensures r.severity == Low <==> r.violationType == NoViolation
    ensures r.cooldownMinutes == 0 <==> r.violationType == NoViolation
    ensures r.explanation == Explanation(r.violationType) && |r.explanation| == 3
  {
    var v := Classify(i);
    RuleResult(i.riskScore, v, SeverityOf(i.riskScore), BaseCooldownMinutes(i.riskScore), Explanation(v))
  }

  /** Severity, cooldown and violation probability depend on the score alone:
      inputs agreeing on the score agree on them whatever the order type,
      horizon and action count. */
  lemma ScoreOnlyOutputs(i: RuleInput, j: RuleInput)
    requires i.riskScore == j.riskScore
    ensures Evaluate(i).severity == Evaluate(j).severity
    ensures Evaluate(i).cooldownMinutes == Evaluate(j).cooldownMinutes
    ensures Evaluate(i).violationProb == Evaluate(j).violationProb
  {
  }

  /** The explanation is a function of the label alone. */
  lemma ExplanationFollowsLabel(i: RuleInput, j: RuleInput)
    ensures Evaluate(i).explanation == Evaluate(j).explanation
            <==> Evaluate(i).violationType == Evaluate(j).violationType
  {
    ExplanationInjective(Evaluate(i).violationType, Evaluate(j).violationType);
  }
}
