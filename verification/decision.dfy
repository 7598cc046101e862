/** The decision engine: score the order intent, classify it, restart the
    user's cooldown, read the cooldown back, and derive BLOCKED / WARN /
    ALLOW.  The market, horizon and recent-action count are fixed. */
module Decision {
  import opened Vocabulary
  import Rules
  import Cooldown
  import MlService

  const Market: string := "vn30"
  const FixedHorizon: Horizon := LongTerm
  const FixedRecentActions: int := 3

  datatype Verdict = Blocked | Warn | Allow {
    function Name(): string {
      match this
      case Blocked => "BLOCKED"
      case Warn => "WARN"
      case Allow => "ALLOW"
    }
  }

  datatype OrderIntent = OrderIntent(userId: string, orderType: OrderType, amount: real, strategyId: string)

  /** violation.severity is the upper-cased rule severity, as a string. */
  datatype ViolationInfo = ViolationInfo(violationType: ViolationType, severity: string)
  datatype CooldownInfo = CooldownInfo(active: bool, minutes: int)

  datatype Output = Output(
    decision: Verdict,
    riskScore: real,
    violation: ViolationInfo,
    cooldown: CooldownInfo,
    explanation: seq<string>)

  /** The engine's output together with the cooldown store it leaves behind. */
  datatype Evaluated = Evaluated(store: Cooldown.Store, output: Output)

  /** What the engine cannot see: where the scoring script lives, what running
      it with a given argument vector yields, and how its output parses. */
  datatype Environment = Environment(
    scriptPath: string,
    runScript: seq<string> -> MlService.ProcessOutcome,
    parse: string -> MlService.Parsed)

  /** Step 4, the final decision rule. */
  function FinalDecision(severity: Severity, cooldownActive: bool, v: ViolationType): (d: Verdict)
    ensures d == Blocked <==> severity == High && cooldownActive
    ensures d == Warn <==> !(severity == High && cooldownActive) && v != NoViolation
    ensures d == Allow <==> !(severity == High && cooldownActive) && v == NoViolation
  {
    if severity == High && cooldownActive then Blocked
    else if v != NoViolation then Warn
    else Allow
  }

  /** The risk score step 1 obtains for an intent. */
  function ScoreOf(input: OrderIntent, env: Environment): (x: real)
    ensures 0.0 <= x <= 1.0
  {
    var argv := MlService.ScriptArgv(env.scriptPath, input.strategyId, Market, input.orderType.Name());
    MlService.GetRiskScore(env.runScript(argv), env.parse)
  }

  /** The rule input of step 2. */
  function RuleInputOf(riskScore: real, input: OrderIntent): Rules.RuleInput {
    Rules.RuleInput(riskScore, input.orderType, FixedHorizon, FixedRecentActions)
  }

  /** With the horizon fixed to long and three recent actions, only
      PANIC_SELL, PLAN_DEVIATION or NONE can come out of the classifier, and
      a high severity always comes with a cooldown of at least 30 minutes. */
  lemma FixedContextLabels(riskScore: real, input: OrderIntent)
    ensures Rules.Classify(RuleInputOf(riskScore, input)) in {PanicSell, PlanDeviation, NoViolation}
    ensures Rules.SeverityOf(riskScore) == High ==>
              Cooldown.DurationMinutes(riskScore, Rules.Classify(RuleInputOf(riskScore, input))) >= 30
  {
  }

  /** Only the high tier is named "HIGH". */
  lemma HighTierName(s: Severity)
    ensures TierOf(s).Name() == "HIGH" <==> s == High
  {
  }

  /** Step 4 and the response: the rule's findings, the cooldown status read
      back, and the verdict derived from both. */
  function Respond(rule: Rules.RuleResult, status: Cooldown.Status): (o: Output)
    ensures o.violation.severity == TierOf(rule.severity).Name()
  {
    UpperCasedSeverityIsTier(rule.severity);
    Output(
      FinalDecision(rule.severity, status.active, rule.violationType),
      rule.violationProb,
      ViolationInfo(rule.violationType, ToUpperCase(rule.severity.Name())),
      CooldownInfo(status.active, status.cooldownMinutes),
      rule.explanation)
  }

  /** The expiry instant of a window started at startNow for this score and
      label. */
  function ExpiryOf(startNow: int, riskScore: real, v: ViolationType): (e: int)
    ensures e == startNow <==> v == NoViolation
    ensures e >= startNow + 15 * Cooldown.MsPerMinute || e == startNow
  {
    startNow + Cooldown.DurationMinutes(riskScore, v) * Cooldown.MsPerMinute
  }

  /** Step 3: restart the user's cooldown for the classified intent at
      startNow and read it back at statusNow.  The window read back has
      expired when statusNow has reached its expiry, and is then stored
      inactive; otherwise the remaining time is rounded up to whole seconds
      and to whole minutes. */
  function CoolOffCycle(store: Cooldown.Store, input: OrderIntent, riskScore: real, v: ViolationType, startNow: int, statusNow: int): (q: Cooldown.Queried)
    requires startNow <= statusNow
    ensures q.store.Keys == store.Keys + {input.userId}
    ensures forall u :: u in store && u != input.userId ==> q.store[u] == store[u]
    ensures var e := ExpiryOf(startNow, riskScore, v);
            q.store[input.userId] == Cooldown.Window(input.userId, startNow, e, statusNow < e)
    ensures var e := ExpiryOf(startNow, riskScore, v);
            q.status == if statusNow < e
                        then var seconds := Cooldown.CeilDiv(e - statusNow, Cooldown.MsPerSecond);
                             Cooldown.Status(true, seconds, Cooldown.CeilDiv(seconds, Cooldown.SecondsPerMinute))
                        else Cooldown.Inactive
  {
    var started := Cooldown.StartCoolOff(store, input.userId, riskScore, v, startNow);
    Cooldown.GetStatus(started.store, input.userId, statusNow)
  }

  /** evaluateOrderIntent.  The clock is read twice: at startNow when the
      cooldown is started and at statusNow when it is read back. */
  function EvaluateOrderIntent(store: Cooldown.Store, input: OrderIntent, env: Environment, startNow: int, statusNow: int): (r: Evaluated)
    requires startNow <= statusNow
    ensures r.output.riskScore == ScoreOf(input, env) && 0.0 <= r.output.riskScore <= 1.0
    ensures r.output.violation.violationType == Rules.Classify(RuleInputOf(r.output.riskScore, input))
    ensures r.output.violation.violationType in {PanicSell, PlanDeviation, NoViolation}
    ensures r.output.violation.severity == TierOf(Rules.SeverityOf(r.output.riskScore)).Name()
    ensures r.output.explanation == Rules.Explanation(r.output.violation.violationType)
    ensures r.output.decision == Blocked <==> r.output.violation.severity == "HIGH" && r.output.cooldown.active
    ensures r.output.decision == Warn <==> !r.output.decision.Blocked? && r.output.violation.violationType != NoViolation
    ensures r.output.decision == Allow <==> r.output.riskScore < 0.4
    ensures r.output.decision == Allow ==> r.output.cooldown == CooldownInfo(false, 0)
    ensures r.store.Keys == store.Keys + {input.userId}
    ensures forall u :: u in store && u != input.userId ==> r.store[u] == store[u]
    ensures var e := ExpiryOf(startNow, r.output.riskScore, r.output.violation.violationType);
            r.store[input.userId] == Cooldown.Window(input.userId, startNow, e, statusNow < e)
    ensures var e := ExpiryOf(startNow, r.output.riskScore, r.output.violation.violationType);
            r.output.cooldown.active <==> statusNow < e
    ensures var e := ExpiryOf(startNow, r.output.riskScore, r.output.violation.violationType);
            r.output.cooldown.minutes
              == if statusNow < e
                 then Cooldown.CeilDiv(Cooldown.CeilDiv(e - statusNow, Cooldown.MsPerSecond), Cooldown.SecondsPerMinute)
                 else 0
    ensures r.output.violation.violationType == NoViolation ==>
              r.store[input.userId].expiresAt == startNow && !r.store[input.userId].active
  {
    // Step 1: ML scoring
    var riskScore := ScoreOf(input, env);
    // Step 2: rule engine
    var rule := Rules.Evaluate(RuleInputOf(riskScore, input));
    // Step 3: cooldown engine
    var queried := CoolOffCycle(store, input, riskScore, rule.violationType, startNow, statusNow);
    HighTierName(rule.severity);
    FixedContextLabels(riskScore, input);
    // Step 4: final decision
    Evaluated(queried.store, Respond(rule, queried.status))
  }

  /** Read back within 30 minutes of starting it, a high severity blocks and
      nothing else does: every violation with high severity starts a window of
      at least 30 minutes, still running when it is read. */
  lemma HighBlocksWithinHalfHour(store: Cooldown.Store, input: OrderIntent, env: Environment, startNow: int, statusNow: int)
    requires startNow <= statusNow < startNow + 30 * Cooldown.MsPerMinute
    ensures var out := EvaluateOrderIntent(store, input, env, startNow, statusNow).output;
            out.violation.severity == "HIGH" <==> out.decision == Blocked
  {
    var riskScore := ScoreOf(input, env);
    UpperCasedSeverityIsTier(Rules.SeverityOf(riskScore));
    FixedContextLabels(riskScore, input);
  }

  /** Read back at the instant it was started, a high severity always blocks:
      high means a violation, and every violation here starts a window of at
      least 30 minutes, which then reports its full length. */
  lemma HighSeverityBlocksAtStart(store: Cooldown.Store, input: OrderIntent, env: Environment, now: int)
    ensures var out := EvaluateOrderIntent(store, input, env, now, now).output;
            out.violation.severity == "HIGH" ==>
              out.decision == Blocked && out.cooldown.active && out.cooldown.minutes >= 30
  {
    var riskScore := ScoreOf(input, env);
    var v := Rules.Classify(RuleInputOf(riskScore, input));
    Cooldown.StatusRightAfterStart(store, input.userId, riskScore, v, now);
    UpperCasedSeverityIsTier(Rules.SeverityOf(riskScore));
    FixedContextLabels(riskScore, input);
  }

  /** A clean evaluation clears a pre-existing cooldown: whatever window the
      user had, a score below 0.4 leaves ALLOW and an inactive, zero-length
      window starting now. */
  lemma CleanEvaluationResetsCooldown(store: Cooldown.Store, input: OrderIntent, env: Environment, startNow: int, statusNow: int)
    requires startNow <= statusNow
    requires ScoreOf(input, env) < 0.4
    ensures var r := EvaluateOrderIntent(store, input, env, startNow, statusNow);
            r.output.decision == Allow
            && r.store[input.userId] == Cooldown.Window(input.userId, startNow, startNow, false)
  {
  }

  /** The order amount plays no part in the decision. */
  lemma AmountIgnored(store: Cooldown.Store, input: OrderIntent, env: Environment, amount: real, startNow: int, statusNow: int)
    requires startNow <= statusNow
    ensures EvaluateOrderIntent(store, input.(amount := amount), env, startNow, statusNow)
            == EvaluateOrderIntent(store, input, env, startNow, statusNow)
  {
  }
}
