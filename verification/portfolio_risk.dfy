/** The scoring runner: the qualitative bucketing of a 0-100 risk score, and
    the position-weighted portfolio score over the strategies whose asset
    could be scored.  Loading the files and computing each asset's score are
    inputs: each strategy comes with the outcome of scoring its asset. */
module PortfolioRisk {

  datatype Option<T> = None | Some(value: T)

  datatype Category = VeryLow | Low | Moderate | High | Extreme {
    function Name(): string {
      match this
      case VeryLow => "Very Low"
      case Low => "Low"
      case Moderate => "Moderate"
      case High => "High"
      case Extreme => "Extreme"
    }

    function Rank(): nat {
      match this
      case VeryLow => 0
      case Low => 1
      case Moderate => 2
      case High => 3
      case Extreme => 4
    }
  }

  /** categorize_risk_score: total over all integers, bands of width 20,
      with everything from 80 up (past 100 too) Extreme. */
  function Categorize(score: int): (c: Category)
    ensures c == VeryLow <==> score < 20
    ensures c == Low <==> 20 <= score < 40
    ensures c == Moderate <==> 40 <= score < 60
    ensures c == High <==> 60 <= score < 80
    ensures c == Extreme <==> score >= 80
  {
    if score < 20 then VeryLow
    else if score < 40 then Low
    else if score < 60 then Moderate
    else if score < 80 then High
    else Extreme
  }

  lemma CategorizeMonotone(a: int, b: int)
    requires a <= b
    ensures Categorize(a).Rank() <= Categorize(b).Rank()
  {
  }

  /** Python's round() on a number: the nearest integer, ties to even. */
  function RoundHalfEven(x: real): (n: int)
    ensures -0.5 <= x - n as real <= 0.5
    ensures (x - n as real == 0.5 || x - n as real == -0.5) ==> n % 2 == 0
  {
    var f := x.Floor;
    var d := x - f as real;
    if d < 0.5 then f
    else if d > 0.5 then f + 1
    else if f % 2 == 0 then f else f + 1
  }

  /** How scoring one strategy's asset went: no OHLC rows for its symbol, the
      forecasting library missing (which ends the run), any other error, or
      a score with its expected maximum drawdown. */
  datatype AssetOutcome = NoRows | LibraryMissing | ScoreFailed | Scored(score: int, maxDrawdown: real)

  datatype StrategyRun = StrategyRun(symbol: string, positionSizePct: real, outcome: AssetOutcome)

  /** One per-asset line of the report: the score, its category and the
      expected maximum drawdown. */
  datatype AssetLine = AssetLine(symbol: string, score: int, category: Category, maxDrawdown: real)

  datatype PortfolioLine = PortfolioLine(score: real, category: Category)

  datatype Report = Report(assets: seq<AssetLine>, portfolio: Option<PortfolioLine>)

  /** Weight a run contributes: its position size if its asset was scored. */
  function WeightOf(r: StrategyRun): real {
    if r.outcome.Scored? then r.positionSizePct else 0.0
  }

  /** Weighted score a run contributes. */
  function WeightedScoreOf(r: StrategyRun): real {
    if r.outcome.Scored? then r.outcome.score as real * r.positionSizePct else 0.0
  }

  function TotalWeight(runs: seq<StrategyRun>): real {
    if |runs| == 0 then 0.0 else TotalWeight(runs[..|runs| - 1]) + WeightOf(runs[|runs| - 1])
  }

  function WeightedSum(runs: seq<StrategyRun>): real {
    if |runs| == 0 then 0.0 else WeightedSum(runs[..|runs| - 1]) + WeightedScoreOf(runs[|runs| - 1])
  }

  function Lines(runs: seq<StrategyRun>): seq<AssetLine> {
    if |runs| == 0 then []
    else
      var r := runs[|runs| - 1];
      Lines(runs[..|runs| - 1])
      + (if r.outcome.Scored? then [AssetLine(r.symbol, r.outcome.score, Categorize(r.outcome.score), r.outcome.maxDrawdown)] else [])
  }

  /** Index of the first run whose scoring found the library missing, or the
      number of runs when there is none. */
  function FirstAbort(runs: seq<StrategyRun>): (k: nat)
    ensures k <= |runs|
    ensures forall j :: 0 <= j < k ==> !runs[j].outcome.LibraryMissing?
    ensures k < |runs| ==> runs[k].outcome.LibraryMissing?
  {
    if |runs| == 0 then 0
    else if runs[0].outcome.LibraryMissing? then 0
    else 1 + FirstAbort(runs[1..])
  }

  /** The portfolio line for the given totals, printed only when the total
      weight is positive. */
  function PortfolioOf(total: real, weighted: real): (p: Option<PortfolioLine>)
    ensures p.Some? <==> total > 0.0
    ensures p.Some? ==> p.value.score * total == weighted
                        && p.value.category == Categorize(RoundHalfEven(p.value.score))
  {
    if total > 0.0 then
      var score := weighted / total;
      Some(PortfolioLine(score, Categorize(RoundHalfEven(score))))
    else None
  }

  /** The loop of main over the loaded strategies.  A run whose library is
      missing stops everything, portfolio line included; runs without OHLC
      rows or with a failed score are skipped. */
  method RunStrategies(runs: seq<StrategyRun>) returns (report: Report)
    ensures report.assets == Lines(runs[..FirstAbort(runs)])
    ensures FirstAbort(runs) < |runs| ==> report.portfolio == None
    ensures FirstAbort(runs) == |runs| ==> report.portfolio == PortfolioOf(TotalWeight(runs), WeightedSum(runs))
  {
    var totalWeight := 0.0;
    var weightedScoreSum := 0.0;
    var lines: seq<AssetLine> := [];
    var i := 0;
    while i < |runs|
      invariant 0 <= i <= |runs|
      invariant forall j :: 0 <= j < i ==> !runs[j].outcome.LibraryMissing?
      invariant totalWeight == TotalWeight(runs[..i])
      invariant weightedScoreSum == WeightedSum(runs[..i])
      invariant lines == Lines(runs[..i])
    {
      var r := runs[i];
      assert runs[..i + 1][..i] == runs[..i];
      if r.outcome.LibraryMissing? {
        assert FirstAbort(runs) == i;
        return Report(lines, None);
      } else if r.outcome.Scored? {
        var score := r.outcome.score;
        lines := lines + [AssetLine(r.symbol, score, Categorize(score), r.outcome.maxDrawdown)];
        totalWeight := totalWeight + r.positionSizePct;
        weightedScoreSum := weightedScoreSum + score as real * r.positionSizePct;
      }
      // NoRows and ScoreFailed: skipped
      i := i + 1;
    }
    assert runs[..i] == runs;
    report := Report(lines, PortfolioOf(totalWeight, weightedScoreSum));
  }

  /** main: nothing is reported when the data files fail to load or no
      strategy is loaded. */
  method RunMain(loaded: Option<seq<StrategyRun>>) returns (report: Report)
    ensures loaded.None? || loaded.value == [] ==> report == Report([], None)
    ensures loaded.Some? && loaded.value != [] ==>
              report.assets == Lines(loaded.value[..FirstAbort(loaded.value)])
    ensures loaded.Some? && loaded.value != [] && FirstAbort(loaded.value) < |loaded.value| ==>
              report.portfolio == None
    ensures loaded.Some? && loaded.value != [] && FirstAbort(loaded.value) == |loaded.value| ==>
              report.portfolio == PortfolioOf(TotalWeight(loaded.value), WeightedSum(loaded.value))
  {
    if loaded.None? || loaded.value == [] {
      return Report([], None);
    }
    report := RunStrategies(loaded.value);
  }

  /** Skipped runs contribute neither weight nor weighted score: dropping
      every run whose asset was not scored leaves both totals unchanged. */
  function ScoredOnly(runs: seq<StrategyRun>): (s: seq<StrategyRun>)
    ensures forall k :: 0 <= k < |s| ==> s[k].outcome.Scored?
  {
    if |runs| == 0 then []
    else
      var r := runs[|runs| - 1];
      ScoredOnly(runs[..|runs| - 1]) + (if r.outcome.Scored? then [r] else [])
  }

  /** Appending one run adds exactly its own weight and weighted score. */
  lemma AppendRun(runs: seq<StrategyRun>, r: StrategyRun)
    ensures TotalWeight(runs + [r]) == TotalWeight(runs) + WeightOf(r)
    ensures WeightedSum(runs + [r]) == WeightedSum(runs) + WeightedScoreOf(r)
  {
    assert (runs + [r])[..|runs|] == runs;
  }

  /** ScoredOnly of a sequence is ScoredOnly of its prefix plus the last run
      if that one was scored. */
  lemma ScoredOnlyStep(runs: seq<StrategyRun>)
    requires |runs| > 0
    ensures var r := runs[|runs| - 1];
            ScoredOnly(runs) == ScoredOnly(runs[..|runs| - 1]) + (if r.outcome.Scored? then [r] else [])
  {
  }

  lemma {:induction false} SkippedRunsContributeNothing(runs: seq<StrategyRun>)
    ensures TotalWeight(ScoredOnly(runs)) == TotalWeight(runs)
    ensures WeightedSum(ScoredOnly(runs)) == WeightedSum(runs)
  {
    if |runs| > 0 {
      var init := runs[..|runs| - 1];
      var r := runs[|runs| - 1];
      SkippedRunsContributeNothing(init);
      ScoredOnlyStep(runs);
      if r.outcome.Scored? {
        AppendRun(ScoredOnly(init), r);
      } else {
        assert ScoredOnly(runs) == ScoredOnly(init);
      }
    }
  }
}
