/** The ML service: runs the external scoring script once and turns whatever
    comes back into a risk score in [0, 1], falling back to the neutral 0.5 on
    any failure.  The child process is abstracted to its outcome and JSON
    parsing to a caller-supplied function. */
module MlService {

  /** The fallback ("mock") score. */
  const NeutralScore: real := 0.5

  /** How a run of the script ended.  Closed is the 'close' event with its
      exit code; SpawnFailed is the 'error' event; TimedOut is the timer
      firing first (the process is then killed). */
  datatype ProcessOutcome =
    | Closed(code: int, stdout: string, stderr: string)
    | SpawnFailed
    | TimedOut

  /** The settled promise of callPythonScript. */
  datatype ScriptResult = Resolved(output: string) | Rejected

  /** The `risk_score` property of a parsed value. */
  datatype Field = Missing | Number(value: real) | NotANumber

  /** JSON.parse of the script output: a syntax error, null (reading a
      property of it throws), or any other value with its `risk_score`
      property (absent on arrays, numbers and strings). */
  datatype Parsed = SyntaxError | JsonNull | JsonValue(riskScore: Field)

  /** The script's argument vector: the script path, then strategy, market
      and order type, in that order. */
  function ScriptArgv(scriptPath: string, strategy: string, market: string, orderType: string): (argv: seq<string>)
    ensures |argv| == 4 && argv[0] == scriptPath
    ensures argv[1..] == [strategy, market, orderType]
  {
    [scriptPath, strategy, market, orderType]
  }

  /** ECMAScript WhiteSpace and LineTerminator code points, the set
      String.prototype.trim removes. */
  predicate IsJsWhitespace(c: char) {
    c == '\t' || c == '\n' || c == '\U{000B}' || c == '\U{000C}' || c == '\r' || c == ' '
    || c == '\U{00A0}' || c == '\U{1680}' || ('\U{2000}' <= c <= '\U{200A}')
    || c == '\U{2028}' || c == '\U{2029}' || c == '\U{202F}' || c == '\U{205F}'
    || c == '\U{3000}' || c == '\U{FEFF}'
  }

  /** Length of the whitespace run at the start of s. */
  function LeadingSpace(s: string): (n: nat)
    ensures n <= |s|
    ensures forall k :: 0 <= k < n ==> IsJsWhitespace(s[k])
    ensures n < |s| ==> !IsJsWhitespace(s[n])
  {
    if |s| == 0 || !IsJsWhitespace(s[0]) then 0 else 1 + LeadingSpace(s[1..])
  }

  /** Length of the whitespace run at the end of s. */
  function TrailingSpace(s: string): (n: nat)
    ensures n <= |s|
    ensures forall k :: |s| - n <= k < |s| ==> IsJsWhitespace(s[k])
    ensures n < |s| ==> !IsJsWhitespace(s[|s| - n - 1])
  {
    if |s| == 0 || !IsJsWhitespace(s[|s| - 1]) then 0 else 1 + TrailingSpace(s[..|s| - 1])
  }

  /** String.prototype.trim: s with its leading and trailing whitespace removed. */
  function Trim(s: string): (r: string)
    ensures LeadingSpace(s) + |r| <= |s|
    ensures r == s[LeadingSpace(s)..LeadingSpace(s) + |r|]
    ensures |r| > 0 ==> !IsJsWhitespace(r[0]) && !IsJsWhitespace(r[|r| - 1])
    ensures |r| == 0 ==> forall k :: 0 <= k < |s| ==> IsJsWhitespace(s[k])
    ensures forall k :: LeadingSpace(s) + |r| <= k < |s| ==> IsJsWhitespace(s[k])
  {
    var a := LeadingSpace(s);
    var t := s[a..];
    var b := TrailingSpace(t);
    t[..|t| - b]
  }

  /** Trimming twice is trimming once. */
  lemma TrimIdempotent(s: string)
    ensures Trim(Trim(s)) == Trim(s)
  {
    var r := Trim(s);
    if |r| > 0 {
      assert LeadingSpace(r) == 0;
      assert TrailingSpace(r) == 0;
    }
  }

  /** A string that neither starts nor ends with whitespace is its own trim. */
  lemma TrimKeepsTrimmed(s: string)
    requires |s| > 0 ==> !IsJsWhitespace(s[0]) && !IsJsWhitespace(s[|s| - 1])
    ensures Trim(s) == s
  {
    assert LeadingSpace(s) == 0;
    assert s[0..] == s;
    if |s| > 0 {
      assert TrailingSpace(s) == 0;
    }
  }

  /** callPythonScript: resolves with the trimmed standard output exactly
      when the process closes with exit code 0; a non-zero code, a spawn
      error or the timeout rejects. */
  function CallPythonScript(outcome: ProcessOutcome): (r: ScriptResult)
    ensures r.Resolved? <==> outcome.Closed? && outcome.code == 0
    ensures r.Resolved? ==> r.output == Trim(outcome.stdout)
  {
    match outcome
    case Closed(code, stdout, _) => if code == 0 then Resolved(Trim(stdout)) else Rejected
    case SpawnFailed => Rejected
    case TimedOut => Rejected
  }

  /** The validation of getRiskScore: a numeric risk_score inside [0, 1],
      bounds included, is the score; everything else is the neutral value. */
  function ValidatedScore(p: Parsed): (x: real)
    ensures 0.0 <= x <= 1.0
    ensures p.JsonValue? && p.riskScore.Number? && 0.0 <= p.riskScore.value <= 1.0 ==> x == p.riskScore.value
    ensures !(p.JsonValue? && p.riskScore.Number? && 0.0 <= p.riskScore.value <= 1.0) ==> x == NeutralScore
  {
    match p
    case JsonValue(Number(v)) => if 0.0 <= v <= 1.0 then v else NeutralScore
    case JsonValue(_) => NeutralScore
    case SyntaxError => NeutralScore
    case JsonNull => NeutralScore
  }

  /** getRiskScore: never fails; the score of a successful, well-formed run,
      otherwise 0.5. */
  function GetRiskScore(outcome: ProcessOutcome, parse: string -> Parsed): (x: real)
    ensures 0.0 <= x <= 1.0
    ensures CallPythonScript(outcome).Rejected? ==> x == NeutralScore
    ensures outcome.Closed? && outcome.code == 0 ==> x == ValidatedScore(parse(Trim(outcome.stdout)))
  {
    match CallPythonScript(outcome)
    case Rejected => NeutralScore
    case Resolved(output) => ValidatedScore(parse(output))
  }

  /** The fallback cannot be told apart from a genuine neutral score: the
      result is the reported score only when the run succeeded with an
      in-range number, and is 0.5 otherwise. */
  lemma RiskScoreCases(outcome: ProcessOutcome, parse: string -> Parsed)
    ensures var x := GetRiskScore(outcome, parse);
            x == NeutralScore
            || (outcome.Closed? && outcome.code == 0
                && var p := parse(Trim(outcome.stdout));
                   p.JsonValue? && p.riskScore.Number? && p.riskScore.value == x)
  {
  }
}
