# BlackGuard behavioural-discipline core, modelled in Dafny

BlackGuard is a demo "behavioural trading discipline" platform. Its backend
scores an intended trade's behavioural risk with an external ML script,
labels the trade with a violation (panic selling, overtrading, short-termism,
plan deviation, or none), restarts the user's cool-off window, and answers
BLOCKED, WARN or ALLOW. A blockchain service records commitments and
penalties. The front-end collects a trading plan and can compute a heuristic
"mock" risk score without the model API.

This project models that decision path as pure functions over immutable
datatypes:

- the rule classifier (`Rules`);
- the cool-off store (`Cooldown`), a `map<string, Window>` threaded through
  the calls with an explicit millisecond clock;
- the score sanitiser (`MlService`);
- the decision pipeline (`Decision`);
- the pure parts of the blockchain service and adapter (`Ledger`,
  `LedgerAdapter`).

It also models some small helpers: the UI mock-risk heuristic and its regime
buckets (`MockRisk`), the plan form's state updates (`PlanForm`), and the
Python runner's score categories and weighted portfolio score
(`PortfolioRisk`). `Vocabulary` and `UiTypes` declare the shared
enumerations.

Risk scores are Dafny `real`s, so comparisons are exact. Clock readings are
`int` parameters. The scoring process, JSON parsing, the keccak hash and the
contract write are parameters of the functions that use them.

The penalty is a percent of 0.1, 0.3 or 0.5, printed as "0.1%", "0.3%" or
"0.5%"; the on-chain penalty argument is 10, 30 or 50. The UI's plan
horizon has only short and long; the backend's rule input also has medium.

## Model

| member | source | states |
|---|---|---|
| Rules.Classify | backend/src/services/rule.service.js:7-19 | NONE exactly when the score is below 0.4; PANIC_SELL, OVERTRADING and SHORT_TERMISM only under their rule's conditions; a buy can only yield OVERTRADING, PLAN_DEVIATION or NONE; a non-short horizon never yields OVERTRADING or SHORT_TERMISM |
| Rules.ClassifyIsFirstMatch | backend/src/services/rule.service.js:7-19 | the label is the one of the first rule in the table that fires, and no earlier rule fires |
| Rules.PanicSellHasPriority | backend/src/services/rule.service.js:8-10 | a sell on a long horizon with score ≥ 0.75 is PANIC_SELL for any action count, even though the plan-deviation rule also fires |
| Rules.SeverityOf | backend/src/services/rule.service.js:21-27 | low iff score < 0.4, medium iff 0.4 ≤ score < 0.7, high iff score ≥ 0.7 |
| Rules.SeverityMonotone | backend/src/services/rule.service.js:21-27 | a higher score never has a lower severity |
| Rules.BaseCooldownMinutes | backend/src/services/rule.service.js:29-37 | the minutes are 0, 15, 30 or 60: 0 iff score < 0.4, 15 iff score < 0.6, 60 iff score ≥ 0.8 |
| Rules.BaseCooldownMonotone | backend/src/services/rule.service.js:29-37 | the score-derived cooldown is monotone in the score |
| Rules.Explanation | backend/src/services/rule.service.js:48-81 | each label has a fixed explanation of exactly three lines |
| Rules.ExplanationInjective | backend/src/services/rule.service.js:48-81 | distinct labels have distinct explanations |
| Rules.Evaluate | backend/src/services/rule.service.js:2-47 | violationProb equals the score; the label is the classifier's, the severity the score's band and the minutes the score's cooldown table; high severity implies a violation and at least 30 minutes; low severity iff NONE iff zero minutes; the explanation is the label's three lines |
| Rules.ScoreOnlyOutputs | backend/src/services/rule.service.js:5-37 | severity, cooldown minutes and violationProb depend on the score alone, not on order type, horizon or action count |
| Rules.ExplanationFollowsLabel | backend/src/services/rule.service.js:39 | two evaluations have the same explanation iff they have the same label |
| Cooldown.FloorMinutes | backend/src/services/cooldown.service.ts:39-50 | PANIC_SELL alone has the 60-minute floor, OVERTRADING and SHORT_TERMISM alone 30, PLAN_DEVIATION alone 15, and NONE alone 0 |
| Cooldown.Max | backend/src/services/cooldown.service.ts:41 | Math.max: at least both arguments and equal to one of them |
| Cooldown.DurationMinutes | backend/src/services/cooldown.service.ts:27-50 | the duration is one of 0, 15, 30 or 60 minutes; NONE forces 0; any other label gives at least its floor (60/30/30/15) and at least the score-derived base, and equals one of the two |
| Cooldown.NoneOverridesBase | backend/src/services/cooldown.service.ts:48-49 | NONE gives 0 minutes even when the score-derived base is 60 |
| Cooldown.StartCoolOff | backend/src/services/cooldown.service.ts:24-64 | the new window starts now, expires after the duration in milliseconds, and is active iff it spans time; it is stored under the user; every other user's window is unchanged and no key disappears |
| Cooldown.CeilDiv | backend/src/services/cooldown.service.ts:79-80 | Math.ceil of an integer quotient: the least q with a ≤ q·b |
| Cooldown.GetStatus | backend/src/services/cooldown.service.ts:66-87 | an unknown user gives {false,0,0} with no store change; an expired window gives {false,0,0} and is stored inactive; otherwise the status is active, remainingSeconds is the remaining milliseconds rounded up to seconds (at least 1), and the minutes are those seconds rounded up to minutes |
| Cooldown.StatusIdempotent | backend/src/services/cooldown.service.ts:66-87 | at a fixed instant, a second query returns the same status and store as the first |
| Cooldown.StartPreservesWellFormed | backend/src/services/cooldown.service.ts:52-62 | starting a window keeps the store invariant: one window per user, filed under its user, with a valid duration, active only if it spans time |
| Cooldown.StatusPreservesWellFormed | backend/src/services/cooldown.service.ts:72-76 | the lazy expiry keeps the store invariant |
| Cooldown.CeilDivAtMost | backend/src/services/cooldown.service.ts:79-80 | rounding up never passes a whole-unit bound |
| Cooldown.RemainingWithinDuration | backend/src/services/cooldown.service.ts:78-86 | once a window has started, the reported minutes never exceed its started duration |
| Cooldown.StatusRightAfterStart | backend/src/services/cooldown.service.ts:52-86 | read at its start instant, a window reports exactly its duration: active with m·60 seconds and m minutes when m > 0, otherwise inactive |
| Vocabulary.UpperChar | backend/src/services/decision.engine.ts:84 | lower-case ASCII letters map to upper case; every other character is unchanged |
| Vocabulary.ToUpperCase | backend/src/services/decision.engine.ts:84 | the result has the same length, and each character is upper-cased |
| Vocabulary.UpperCasedSeverityIsTier | backend/src/services/decision.engine.ts:84 | upper-casing "low", "medium" or "high" gives exactly "LOW", "MEDIUM" or "HIGH" |
| Vocabulary.ViolationNameInjective | backend/src/services/blockchain.service.ts:139 | distinct violation labels have distinct names on the wire |
| Decision.FinalDecision | backend/src/services/decision.engine.ts:70-77 | BLOCKED iff severity is high and the cooldown is active; otherwise WARN iff there is a violation; otherwise ALLOW |
| Decision.ScoreOf | backend/src/services/decision.engine.ts:42-48 | the pipeline's score always lies in [0, 1] |
| Decision.FixedContextLabels | backend/src/services/decision.engine.ts:51-57 | with horizon long and 3 recent actions, only PANIC_SELL, PLAN_DEVIATION or NONE occur; high severity always comes with a duration of at least 30 minutes |
| Decision.EvaluateOrderIntent | backend/src/services/decision.engine.ts:39-92 | the score passes through from the sanitiser and lies in [0,1]; the label comes from the fixed-context rules; severity is the upper-cased rule severity; the explanation passes through; ALLOW iff score < 0.4, and then the cooldown is {false, 0}; the reported cooldown is active iff the status is read before the new window's expiry, and its minutes are the remaining milliseconds rounded up to seconds and then to minutes, 0 when inactive; the caller's window is overwritten with one starting now and expiring after the label's duration, stored inactive once expired, and NONE clears it; other users are untouched |
| Decision.CoolOffCycle | backend/src/services/decision.engine.ts:59-67 | the caller's window is replaced by one starting now and expiring after the duration for the score and label, marked inactive when the read finds it expired; other users' windows are kept; the status read back is inactive after expiry and otherwise reports the remaining time rounded up to whole seconds and to whole minutes |
| Decision.ExpiryOf | backend/src/services/cooldown.service.ts:52-58 | a new window expires at its start instant exactly for NONE, and otherwise at least 15 minutes later |
| Decision.Respond | backend/src/services/decision.engine.ts:82-85 | the severity in the response, upper-cased from the rule's lower-case severity, is exactly the name of its tier |
| Decision.HighBlocksWithinHalfHour | backend/src/services/decision.engine.ts:59-77 | if the status is read within 30 minutes of the start, severity HIGH iff BLOCKED |
| Decision.HighSeverityBlocksAtStart | backend/src/services/decision.engine.ts:59-77 | read at the start instant, severity HIGH always gives BLOCKED with an active cooldown of at least 30 minutes |
| Decision.CleanEvaluationResetsCooldown | backend/src/services/decision.engine.ts:66-77 | a score below 0.4 gives ALLOW and replaces any earlier window with an inactive, zero-length one |
| Decision.AmountIgnored | backend/src/services/decision.engine.ts:40-57 | the order amount does not affect the result or the store |
| MlService.ScriptArgv | backend/src/services/ml.service.js:29 | the script gets its path followed by strategy, market and order type, in that order |
| MlService.LeadingSpace | backend/src/services/ml.service.js:42 | the length of the maximal whitespace run at the start |
| MlService.TrailingSpace | backend/src/services/ml.service.js:42 | the length of the maximal whitespace run at the end |
| MlService.Trim | backend/src/services/ml.service.js:42 | the result is the slice of the input after its leading whitespace; it neither starts nor ends with whitespace; everything cut off is whitespace |
| MlService.TrimIdempotent | backend/src/services/ml.service.js:42 | trimming twice equals trimming once |
| MlService.TrimKeepsTrimmed | backend/src/services/ml.service.js:42 | a string without outer whitespace is left unchanged |
| MlService.CallPythonScript | backend/src/services/ml.service.js:40-55 | resolves iff the process closes with exit code 0, and then with the trimmed stdout; a non-zero code, a spawn error or a timeout rejects |
| MlService.ValidatedScore | backend/src/services/ml.service.js:13-19 | a numeric risk_score in [0,1], bounds included, is returned unchanged; anything else gives 0.5; the result is always in [0,1] |
| MlService.GetRiskScore | backend/src/services/ml.service.js:10-26 | always in [0,1]; any rejected run gives 0.5; a successful run gives the validated parse of its trimmed output |
| MlService.RiskScoreCases | backend/src/services/ml.service.js:14-24 | the result is 0.5 or the numeric risk_score of a successful run |
| Ledger.CommitmentPreimage | backend/src/services/blockchain.service.ts:105-108 | the hashed preimage is exactly user, strategy and commitment text, in that order |
| Ledger.PreimageDeterminesCommitment | backend/src/services/blockchain.service.ts:105-108 | two commitments share a preimage iff they agree on user, strategy and text, in that order; the horizon is not part of it |
| Ledger.RegisterCommitment | backend/src/services/blockchain.service.ts:101-121 | writes the hash of the preimage; succeeds iff the write is confirmed, and returns that transaction hash |
| Ledger.PenaltyTenths | backend/src/services/blockchain.service.ts:127-130 | the penalty in tenths of a percent is 1, 3 or 5 |
| Ledger.PenaltyPercent | backend/src/services/blockchain.service.ts:127-130 | the percent lies strictly between 0 and 1 and equals the tenths divided by 10 |
| Ledger.PenaltyStrictlyIncreasing | backend/src/services/blockchain.service.ts:127-130 | 0.1 for low, 0.3 for medium, 0.5 for high, strictly increasing |
| Ledger.DigitChar | backend/src/services/blockchain.service.ts:132 | the decimal digit character of a digit |
| Ledger.PenaltyAmount | backend/src/services/blockchain.service.ts:132 | the text is "0.", the tenths digit, then "%" |
| Ledger.PenaltyAmountValues | backend/src/services/blockchain.service.ts:132 | the penalty text is "0.1%", "0.3%" or "0.5%", by severity alone |
| Ledger.ApplyPenaltyArgs | backend/src/services/blockchain.service.ts:139 | the arguments are the percent ×100, the violation name unchanged, and the score ×100 floored |
| Ledger.EnforceViolation | backend/src/services/blockchain.service.ts:123-145 | succeeds iff the applyPenalty write is confirmed, and returns its hash with the penalty text |
| LedgerAdapter.SeverityMap | backend/src/services/blockchain.adapter.ts:28-32 | LOW→low, MEDIUM→medium, HIGH→high: the inverse of upper-casing |
| LedgerAdapter.SeverityMapRoundTrip | backend/src/services/blockchain.adapter.ts:28-32 | mapping an upper-cased severity gives back the severity |
| LedgerAdapter.ToServiceInput | backend/src/services/blockchain.adapter.ts:33-38 | user id and label are forwarded unchanged; the score is always 0.5; the severity is the mapped tier |
| LedgerAdapter.EnforceViolation | backend/src/services/blockchain.adapter.ts:27-39 | the service's enforceViolation applied to the translated event: for every tier, the write sends ten times the tier's penalty tenths, the violation's name and a score of 50, and succeeds iff that write is confirmed, reporting its hash and the tier's penalty text |
| LedgerAdapter.AdapterPenaltyArgs | backend/src/services/blockchain.adapter.ts:27-38 | the on-chain score argument is always 50; a HIGH event is charged 50 and reports "0.5%" |
| LedgerAdapter.RegisterCommitment | backend/src/services/blockchain.adapter.ts:23-25 | the input is forwarded unmodified to the service |
| MockRisk.VolatileCount | ui/services/geminiService.ts:29 | at most the number of selected tickers, and 0 iff no ticker starts with V or M |
| MockRisk.VolatileCountConcat | ui/services/geminiService.ts:29 | the volatile count of a concatenation is the sum of the counts |
| MockRisk.StrategyBonus | ui/services/geminiService.ts:14-17 | buy-and-hold alone adds nothing, mean reversion alone adds the most (35), and every other strategy adds at least 20 |
| MockRisk.PersonaAdjustment | ui/services/geminiService.ts:19-25 | the score rises only for a conservative persona on a strategy other than buy-and-hold and falls only for an aggressive one, by at most 20 and 10 |
| MockRisk.RawScore | ui/services/geminiService.ts:12-33 | the unclamped heuristic (30, the strategy bonus, the persona adjustment, 3 per V/M ticker, 15 for a short horizon) is never below 20 |
| MockRisk.Clamp | ui/services/geminiService.ts:36 | the result lies in the bounds and equals the input when it already does |
| MockRisk.CalculateMockRisk | ui/services/geminiService.ts:11-37 | the score lies in [5, 95]; it equals the heuristic sum unless that sum exceeds 95 |
| MockRisk.AddTickerMonotone | ui/services/geminiService.ts:29-36 | adding a V/M ticker never lowers the score through the clamp; adding any other ticker leaves it unchanged |
| MockRisk.VolatileCountPermutation | ui/services/geminiService.ts:29 | two selections holding the same tickers with the same multiplicities, in any order, have the same volatile count |
| MockRisk.SelectionOrderIrrelevant | ui/services/geminiService.ts:29-30 | any reordering of the selected tickers (same multiset) gives the same score |
| MockRisk.RegimeOf | ui/services/geminiService.ts:56-64 | Stable iff score ≤ 40, Caution iff 40 < score ≤ 70, Critical iff score > 70 |
| MockRisk.AnalyzeRisks | ui/services/geminiService.ts:43-140 | without an API key, or when the call fails, the result is the mock score with its regime; otherwise the model's reply is returned as given |
| MockRisk.MockAndFallbackAgree | ui/services/geminiService.ts:133-137 | the mock and API-failure branches give the same score and regime, with the score in [5, 95]; only the explanation differs |
| PortfolioRisk.Categorize | ml/run_risk_with_template.py:72-81 | total over ints: Very Low below 20, Low 20–39, Moderate 40–59, High 60–79, Extreme from 80 up, values above 100 included |
| PortfolioRisk.CategorizeMonotone | ml/run_risk_with_template.py:72-81 | a higher score never has a lower category |
| PortfolioRisk.RoundHalfEven | ml/run_risk_with_template.py:171 | Python round: within 1/2 of the input, with ties going to the even integer |
| PortfolioRisk.FirstAbort | ml/run_risk_with_template.py:146-151 | the index of the first run where the forecasting library is missing, or the number of runs |
| PortfolioRisk.PortfolioOf | ml/run_risk_with_template.py:169-171 | a portfolio line exists iff the total weight is positive; its score times the total weight is the weighted sum; its category is that of the rounded score |
| PortfolioRisk.RunStrategies | ml/run_risk_with_template.py:135-171 | lines (score, category and expected maximum drawdown) are reported for the scored assets before the first missing-library run; the portfolio line is absent after such a run; otherwise it is built from the totals over the scored runs |
| PortfolioRisk.RunMain | ml/run_risk_with_template.py:103-175 | a load failure or an empty strategy list reports nothing; otherwise the asset lines are those of the scored runs before the first missing-library run, there is no portfolio line after such a run, and without one the portfolio line comes from the totals |
| PortfolioRisk.SkippedRunsContributeNothing | ml/run_risk_with_template.py:139-166 | runs with no OHLC rows or a failed score add neither weight nor weighted score |
| PlanForm.RemoveAll | ui/pages/Plan.tsx:32 | the ticker no longer occurs; every other ticker keeps its multiplicity |
| PlanForm.RemoveAllConcat | ui/pages/Plan.tsx:32 | filtering distributes over concatenation, so survivors keep their relative order |
| PlanForm.RemoveAbsent | ui/pages/Plan.tsx:32 | removing an absent ticker changes nothing |
| PlanForm.ToggleStock | ui/pages/Plan.tsx:28-36 | afterwards t is selected iff it was not before; other tickers keep their counts; an absent t is appended at the end; a present t has every occurrence removed |
| PlanForm.ToggleTwiceRestores | ui/pages/Plan.tsx:28-36 | toggling an unselected ticker twice restores the original list |
| PlanForm.ToggleTwiceSelected | ui/pages/Plan.tsx:28-36 | toggling a selected ticker twice leaves the other tickers in order with one copy of it at the end |
| PlanForm.HandleChange | ui/pages/Plan.tsx:24-26 | only the named field takes the new value; every other field is unchanged |
| PlanForm.AnalyzeEnablement | ui/pages/Plan.tsx:15-22 | with AnalyzeDisabled modelling the button's disabled test of Plan.tsx:213, the form starts with Analyze disabled; selecting one ticker and entering an amount enables it |
| PlanForm.ToggleAffectsEnablement | ui/pages/Plan.tsx:213 | after a ticker is added, Analyze is disabled iff the amount is empty; removing the only ticker disables it |

## Left out

- Child-process plumbing (`spawn`, stream accumulation, `setTimeout`, `kill`): a run is an abstract `ProcessOutcome`. The 10-second timeout is the `TimedOut` outcome, not a measured time. stderr only feeds the error message, which is logged and then discarded.
- `JSON.parse` is a parameter returning the parsed `risk_score` field. JSON syntax is not modelled.
- `keccak256`, `encodeAbiParameters`, `writeContract` and `waitForTransactionReceipt` are foreign crypto and network calls. They are the `hash` and `send` parameters. The viem clients, environment variables and contract addresses are not modelled.
- Ledger.ApplyPenaltyArgs: does not model IEEE-754 rounding, because scores are exact reals here. `Math.floor(0.29 * 100)` is 28, not 29.
- The score thresholds (0.4, 0.5, 0.6, 0.7, 0.75, 0.8) are compared on exact reals. Behaviour at those exact decimal edges is not claimed for doubles.
- The portfolio's weighted average and its rounding are computed on exact reals, not Python floats. A float sum can land on the other side of a rounding tie or category edge; that is not claimed.
- Console logging (`console.warn`, `console.error`) is not modelled. It has no effect on any returned value.
- HTTP routes, server wiring, config loading and caching, and contract deployment and tooling: these are I/O and framework code. So is the non-routed duplicate pipeline in the routes folder.
- The compiled `.js` twins and `.d.ts` declarations: they carry the same logic as the `.ts` files. decision.engine.ts imports the services through their `.js` names.
- The forecasting model and its numerics (`compute_risk_score`, pandas, numpy): each asset's score is an input. CSV and JSON loading are modelled only as success or failure of the whole load. The report keeps the per-asset lines (score, category, expected maximum drawdown) and the portfolio line as data. The skip, error and load-failure messages, and the number formatting of the printed lines (such as the portfolio score's one decimal), are not modelled.
- Concurrency on the cooldown map: calls are sequential. The map is threaded through each call.
- `Date.now()`: every clock reading is an explicit parameter. The pipeline's two readings must be in order.
- The cooldown input's `severity` field: the cooldown service never reads it, so it is not passed.
- The order type is the TypeScript union buy/sell. Other request strings are not modelled.
- Vocabulary.ToUpperCase: covers only ASCII letters. It is only ever applied to the severity names.
- Vocabulary.UpperChar: maps only the ASCII letters a-z; the full Unicode case mapping of toUpperCase is not modelled, for the same reason.
- UI rendering, styling, i18n tables, the Gemini request and prompt, the fake 1.2-second delay, risk ids built from `Date.now()`, and the gauge arithmetic: these are presentational or foreign. Explanation texts are tags (`Heuristic`, `FromModel`, `Unreachable`), not their interpolated wording.
- The mock branch's if-chain and the fallback's ternary for the regime are one definition, `MockRisk.RegimeOf`. They compare the same thresholds.
- `handleChange`'s untyped value is modelled as a typed field update. The button's extra `isLoading` disabling belongs to the Button component, not the plan form, and is not modelled.
