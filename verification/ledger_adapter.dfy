/** The blockchain adapter: translates the upper-case violation event of the
    HTTP layer into the blockchain service's input, and passes commitments
    through untouched. */
module LedgerAdapter {
  import opened Vocabulary
  import Ledger

  datatype ViolationEvent = ViolationEvent(userId: string, violationType: ViolationType, severity: Tier)

  /** The score the adapter forwards for every event. */
  const ForwardedRiskScore: real := 0.5

  /** severityMap: LOW to low, MEDIUM to medium, HIGH to high. */
  function SeverityMap(t: Tier): (s: Severity)
    ensures TierOf(s) == t
  {
    match t
    case LOW => Low
    case MEDIUM => Medium
    case HIGH => High
  }

  /** The map is the inverse of upper-casing: translating an upper-cased
      severity gives back the severity. */
  lemma SeverityMapRoundTrip(s: Severity)
    ensures SeverityMap(TierOf(s)) == s
    ensures ToUpperCase(SeverityMap(TierOf(s)).Name()) == TierOf(s).Name()
  {
    UpperCasedSeverityIsTier(s);
  }

  /** The service input built from an event. */
  function ToServiceInput(e: ViolationEvent): (input: Ledger.ViolationInput)
    ensures input.userId == e.userId && input.violationType == e.violationType
    ensures input.riskScore == ForwardedRiskScore
    ensures TierOf(input.severity) == e.severity
  {
    Ledger.ViolationInput(e.userId, e.violationType, ForwardedRiskScore, SeverityMap(e.severity))
  }

  function EnforceViolation(e: ViolationEvent, send: Ledger.ContractCall -> Ledger.TxOutcome): (r: Ledger.Result<Ledger.ViolationResult>)
    ensures r == Ledger.EnforceViolation(ToServiceInput(e), send)
    ensures var call := Ledger.ApplyPenaltyCall(Ledger.PenaltyTenths(SeverityMap(e.severity)) * 10, e.violationType.Name(), 50);
            (r.Ok? <==> send(call).Confirmed?)
            && (r.Ok? ==> r.value == Ledger.ViolationResult(send(call).txHash, Ledger.PenaltyAmount(SeverityMap(e.severity))))
  {
    Ledger.EnforceViolation(ToServiceInput(e), send)
  }

  /** Through the adapter, whatever the event, the on-chain score argument is
      50; a HIGH event is charged 50 (0.5%) and reports "0.5%". */
  lemma AdapterPenaltyArgs(e: ViolationEvent, send: Ledger.ContractCall -> Ledger.TxOutcome)
    ensures Ledger.ApplyPenaltyArgs(ToServiceInput(e)).riskScore == 50
    ensures Ledger.ApplyPenaltyArgs(ToServiceInput(e)).violationType == e.violationType.Name()
    ensures e.severity == HIGH ==> Ledger.ApplyPenaltyArgs(ToServiceInput(e)).penalty == 50
    ensures e.severity == HIGH && EnforceViolation(e, send).Ok? ==>
              EnforceViolation(e, send).value.penaltyAmount == "0.5%"
  {
    Ledger.PenaltyAmountValues();
  }

  /** registerCommitment is a pass-through. */
  function RegisterCommitment(input: Ledger.CommitmentInput, hash: seq<string> -> string, send: Ledger.ContractCall -> Ledger.TxOutcome): (r: Ledger.Result<Ledger.CommitmentResult>)
    ensures r == Ledger.RegisterCommitment(input, hash, send)
  {
    Ledger.RegisterCommitment(input, hash, send)
  }
}
