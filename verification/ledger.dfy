/** The pure part of the blockchain service: what it hashes for a commitment,
    how it turns a severity into a penalty, and the arguments it hands to the
    penalty-vault contract.  The hash, the contract write and the wait for
    the receipt are parameters. */
module Ledger {
  import opened Vocabulary

  datatype CommitmentInput = CommitmentInput(userId: string, strategyId: string, horizon: string, commitmentText: string)

  datatype ViolationInput = ViolationInput(userId: string, violationType: ViolationType, riskScore: real, severity: Severity)

  /** A contract write: registerCommitment(bytes32) or applyPenalty(uint256, string, uint256). */
  datatype ContractCall =
    | RegisterCommitmentCall(commitmentHash: string)
    | ApplyPenaltyCall(penalty: int, violationType: string, riskScore: int)

  /** A write that was mined (with its transaction hash) or that failed; a
      failure propagates to the caller, there is no retry. */
  datatype TxOutcome = Confirmed(txHash: string) | TxFailed

  datatype CommitmentResult = CommitmentResult(txHash: string)
  datatype ViolationResult = ViolationResult(txHash: string, penaltyAmount: string)

  datatype Result<T> = Ok(value: T) | Failed

  /** The values hashed for a commitment, in ABI order: user, strategy,
      commitment text.  The horizon is not among them. */
  function CommitmentPreimage(input: CommitmentInput): (values: seq<string>)
    ensures |values| == 3
    ensures values[0] == input.userId && values[1] == input.strategyId && values[2] == input.commitmentText
  {
    [input.userId, input.strategyId, input.commitmentText]
  }

  /** Two commitments hash the same preimage exactly when they agree on user,
      strategy and text; the horizon never matters. */
  lemma PreimageDeterminesCommitment(a: CommitmentInput, b: CommitmentInput)
    ensures CommitmentPreimage(a) == CommitmentPreimage(b)
            <==> a.userId == b.userId && a.strategyId == b.strategyId && a.commitmentText == b.commitmentText
  {
    if CommitmentPreimage(a) == CommitmentPreimage(b) {
      assert CommitmentPreimage(a)[0] == CommitmentPreimage(b)[0];
      assert CommitmentPreimage(a)[1] == CommitmentPreimage(b)[1];
      assert CommitmentPreimage(a)[2] == CommitmentPreimage(b)[2];
    }
  }

  /** registerCommitment: hash the preimage, write the hash, return the
      transaction hash once confirmed. */
  function RegisterCommitment(input: CommitmentInput, hash: seq<string> -> string, send: ContractCall -> TxOutcome): (r: Result<CommitmentResult>)
    ensures send(RegisterCommitmentCall(hash(CommitmentPreimage(input)))).Confirmed?
            <==> r.Ok?
    ensures r.Ok? ==> r.value.txHash == send(RegisterCommitmentCall(hash(CommitmentPreimage(input)))).txHash
  {
    match send(RegisterCommitmentCall(hash(CommitmentPreimage(input))))
    case Confirmed(tx) => Ok(CommitmentResult(tx))
    case TxFailed => Failed
  }

  /** The penalty in tenths of a percent: low 1, medium 3, anything else 5. */
  function PenaltyTenths(s: Severity): (t: nat)
    ensures t in {1, 3, 5}
  {
    if s == Low then 1
    else if s == Medium then 3
    else 5
  }

  /** penaltyPercent: 0.1, 0.3 or 0.5. */
  function PenaltyPercent(s: Severity): (p: real)
    ensures 0.0 < p < 1.0
    ensures p * 10.0 == PenaltyTenths(s) as real
  {
    PenaltyTenths(s) as real / 10.0
  }

  /** The penalty grows strictly with the severity. */
  lemma PenaltyStrictlyIncreasing()
    ensures PenaltyPercent(Low) < PenaltyPercent(Medium) < PenaltyPercent(High)
    ensures PenaltyPercent(Low) == 0.1 && PenaltyPercent(Medium) == 0.3 && PenaltyPercent(High) == 0.5
  {
  }

  /** The decimal digit character of d. */
  function DigitChar(d: nat): (c: char)
    requires d < 10
    ensures '0' <= c <= '9' && c as int - '0' as int == d
  {
    ('0' as int + d) as char
  }

  /** penaltyAmount: the percent as JavaScript prints a number in (0, 1)
      with one decimal, followed by "%". */
  function PenaltyAmount(s: Severity): (text: string)
    ensures |text| == 4 && text[..2] == "0." && text[3] == '%'
    ensures text[2] as int - '0' as int == PenaltyTenths(s)
  {
    "0." + [DigitChar(PenaltyTenths(s))] + "%"
  }

  /** The three strings a penalty can read, one per severity, independent of
      the violation type and the score. */
  lemma PenaltyAmountValues()
    ensures PenaltyAmount(Low) == "0.1%"
    ensures PenaltyAmount(Medium) == "0.3%"
    ensures PenaltyAmount(High) == "0.5%"
  {
    assert PenaltyAmount(Low) == ['0', '.', '1', '%'];
    assert PenaltyAmount(Medium) == ['0', '.', '3', '%'];
    assert PenaltyAmount(High) == ['0', '.', '5', '%'];
  }

  /** The applyPenalty arguments: the percent scaled by 100, the violation
      name unchanged, and the score scaled by 100 and floored. */
  function ApplyPenaltyArgs(input: ViolationInput): (call: ContractCall)
    ensures call.ApplyPenaltyCall?
    ensures call.penalty as real == PenaltyPercent(input.severity) * 100.0
    ensures call.violationType == input.violationType.Name()
    ensures call.riskScore as real <= input.riskScore * 100.0 < call.riskScore as real + 1.0
  {
    ApplyPenaltyCall(PenaltyTenths(input.severity) * 10, input.violationType.Name(), (input.riskScore * 100.0).Floor)
  }

  /** enforceViolation: write the penalty, return the transaction hash and
      the penalty text once confirmed. */
  function EnforceViolation(input: ViolationInput, send: ContractCall -> TxOutcome): (r: Result<ViolationResult>)
    ensures r.Ok? <==> send(ApplyPenaltyArgs(input)).Confirmed?
    ensures r.Ok? ==> r.value == ViolationResult(send(ApplyPenaltyArgs(input)).txHash, PenaltyAmount(input.severity))
  {
    match send(ApplyPenaltyArgs(input))
    case Confirmed(tx) => Ok(ViolationResult(tx, PenaltyAmount(input.severity)))
    case TxFailed => Failed
  }
}
