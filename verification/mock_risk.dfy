/** The front-end's risk analysis: a heuristic mock score on a 0-100 scale,
    its regime bucket, and the choice between the mock, the model's reply and
    the fallback when the model call fails. */
module MockRisk {
  import opened UiTypes

  const BaseScore: int := 30
  const VolatileBonus: int := 3
  const ShortHorizonBonus: int := 15
  const MinScore: int := 5
  const MaxScore: int := 95

  /** A ticker the heuristic treats as volatile: it starts with 'V' or 'M'. */
  predicate IsVolatile(ticker: string) {
    |ticker| > 0 && (ticker[0] == 'V' || ticker[0] == 'M')
  }

  /** Number of volatile tickers among the selected stocks (duplicates count
      each time). */
  function VolatileCount(stocks: seq<string>): (n: nat)
    ensures n <= |stocks|
    ensures n == 0 <==> forall k :: 0 <= k < |stocks| ==> !IsVolatile(stocks[k])
  {
    if |stocks| == 0 then 0
    else VolatileCount(stocks[..|stocks| - 1]) + (if IsVolatile(stocks[|stocks| - 1]) then 1 else 0)
  }

  lemma {:induction false} VolatileCountConcat(a: seq<string>, b: seq<string>)
    ensures VolatileCount(a + b) == VolatileCount(a) + VolatileCount(b)
    decreases |b|
  {
    if |b| == 0 {
      assert a + b == a;
    } else {
      var b' := b[..|b| - 1];
      assert (a + b)[..|a + b| - 1] == a + b';
      VolatileCountConcat(a, b');
    }
  }

  /** The strategy's risk bonus: mean reversion is riskiest, buy-and-hold
      adds nothing. */
  function StrategyBonus(s: StrategyId): (b: int)
    ensures b == 0 <==> s == BuyHold
    ensures b == 35 <==> s == MeanReversion
    ensures 0 <= b <= 35 && (s != BuyHold ==> b >= 20)
  {
    match s
    case Momentum => 25
    case MeanReversion => 35
    case TrendFollowing => 20
    case BuyHold => 0
  }

  /** A conservative persona on any strategy but buy-and-hold is a mismatch
      (+20); an aggressive one is comfortable with risk (-10). */
  function PersonaAdjustment(p: Persona, s: StrategyId): (a: int)
    ensures a > 0 <==> p == Conservative && s != BuyHold
    ensures a < 0 <==> p == Aggressive
    ensures -10 <= a <= 20
  {
    match p
    case Conservative => if s != BuyHold then 20 else 0
    case Aggressive => -10
    case Balanced => 0
  }

  /** The unclamped heuristic sum. */
  function RawScore(plan: Plan, persona: Persona): (raw: int)
    ensures raw >= 20
  {
    BaseScore + StrategyBonus(plan.strategyId) + PersonaAdjustment(persona, plan.strategyId)
    + VolatileBonus * VolatileCount(plan.stocks)
    + (if plan.horizon == Short then ShortHorizonBonus else 0)
  }

  function Clamp(x: int, lo: int, hi: int): (r: int)
    requires lo <= hi
    ensures lo <= r <= hi
    ensures lo <= x <= hi ==> r == x
    ensures x < lo ==> r == lo
    ensures x > hi ==> r == hi
  {
    if x < lo then lo else if x > hi then hi else x
  }

  /** calculateMockRisk: the heuristic sum clamped into [5, 95]; the sum is
      never below 20, so only the upper bound ever bites. */
  function CalculateMockRisk(plan: Plan, persona: Persona): (score: int)
    ensures MinScore <= score <= MaxScore
    ensures score == RawScore(plan, persona) || (score == MaxScore && RawScore(plan, persona) > MaxScore)
    ensures score >= 20
  {
    Clamp(RawScore(plan, persona), MinScore, MaxScore)
  }

  /** Adding a volatile ticker never lowers the score; adding any other
      ticker leaves it unchanged. */
  lemma AddTickerMonotone(plan: Plan, persona: Persona, t: string)
    ensures IsVolatile(t) ==>
              CalculateMockRisk(plan.(stocks := plan.stocks + [t]), persona) >= CalculateMockRisk(plan, persona)
    ensures !IsVolatile(t) ==>
              CalculateMockRisk(plan.(stocks := plan.stocks + [t]), persona) == CalculateMockRisk(plan, persona)
  {
    VolatileCountConcat(plan.stocks, [t]);
    assert VolatileCount([t]) == (if IsVolatile(t) then 1 else 0) by {
      assert [t][..0] == [];
    }
  }

  /** Taking out the ticker at position i removes one copy of it. */
  lemma RemoveAtMultiset(b: seq<string>, i: nat)
    requires i < |b|
    ensures multiset(b[..i] + b[i + 1..]) == multiset(b) - multiset{b[i]}
  {
    var b1, b2 := b[..i], b[i + 1..];
    assert b == b1 + [b[i]] + b2;
    assert multiset(b) == multiset(b1) + multiset{b[i]} + multiset(b2);
  }

  /** A sequence is its prefix before i, the element at i, and the rest. */
  lemma SplitAt(b: seq<string>, i: nat)
    requires i < |b|
    ensures b == (b[..i] + [b[i]]) + b[i + 1..]
  {
    assert b[i..] == [b[i]] + b[i + 1..];
    assert b == b[..i] + b[i..];
  }

  /** Appending one ticker adds its own share of the volatile count. */
  lemma CountSnoc(s: seq<string>, x: string)
    ensures VolatileCount(s + [x]) == VolatileCount(s) + (if IsVolatile(x) then 1 else 0)
  {
    assert (s + [x])[..|s|] == s;
  }

  /** Taking out the ticker at position i removes its share of the volatile
      count. */
  lemma RemoveAtCount(b: seq<string>, i: nat)
    requires i < |b|
    ensures VolatileCount(b) == VolatileCount(b[..i] + b[i + 1..]) + (if IsVolatile(b[i]) then 1 else 0)
  {
    SplitAt(b, i);
    CountSnoc(b[..i], b[i]);
    VolatileCountConcat(b[..i] + [b[i]], b[i + 1..]);
    VolatileCountConcat(b[..i], b[i + 1..]);
  }

  /** The volatile count depends only on which tickers were selected, with
      their multiplicities, and not on their order. */
  lemma {:induction false} VolatileCountPermutation(a: seq<string>, b: seq<string>)
    requires multiset(a) == multiset(b)
    ensures VolatileCount(a) == VolatileCount(b)
    decreases |a|
  {
    if |a| == 0 {
      assert |b| == |multiset(b)| == 0;
    } else {
      var x := a[|a| - 1];
      assert x in multiset(a);
      var i :| 0 <= i < |b| && b[i] == x;
      RemoveAtMultiset(a, |a| - 1);
      RemoveAtMultiset(b, i);
      RemoveAtCount(a, |a| - 1);
      RemoveAtCount(b, i);
      assert a[..|a| - 1] + a[|a|..] == a[..|a| - 1];
      VolatileCountPermutation(a[..|a| - 1], b[..i] + b[i + 1..]);
    }
  }

  /** The order in which tickers were selected does not matter: any
      reordering of the selection gives the same score. */
  lemma SelectionOrderIrrelevant(plan: Plan, persona: Persona, a: seq<string>, b: seq<string>)
    requires multiset(a) == multiset(b)
    ensures CalculateMockRisk(plan.(stocks := a), persona) == CalculateMockRisk(plan.(stocks := b), persona)
  {
    VolatileCountPermutation(a, b);
  }

  /** The regime bucket of a 0-100 score. */
  function RegimeOf(score: int): (g: Regime)
    ensures g == Stable <==> score <= 40
    ensures g == Caution <==> 40 < score <= 70
    ensures g == Critical <==> score > 70
  {
    if score <= 40 then Stable else if score <= 70 then Caution else Critical
  }

  /** Where a risk's explanation text comes from. */
  datatype ExplanationSource =
    | Heuristic(regime: Regime)   // the mock branch's text for that regime
    | FromModel(text: string)     // the model's own explanation
    | Unreachable                 // "API Unreachable. Estimated risk based on heuristic inputs."

  datatype Risk = Risk(score: int, regime: Regime, explanation: ExplanationSource)

  /** The model's reply: a parsed {score, regime, explanation}, or any failure
      (call error, empty text, unparseable JSON). */
  datatype ApiReply = ApiRisk(score: int, regime: Regime, text: string) | ApiFailed

  /** analyzeRisks: without an API key, the mock; with one, the model's reply
      as given, or the mock score with its regime when the call fails. */
  function AnalyzeRisks(plan: Plan, persona: Persona, apiKey: string, reply: ApiReply): (r: Risk)
    ensures apiKey == "" || reply.ApiFailed? ==>
              r.score == CalculateMockRisk(plan, persona) && r.regime == RegimeOf(r.score)
    ensures apiKey != "" && reply.ApiRisk? ==>
              r == Risk(reply.score, reply.regime, FromModel(reply.text))
  {
    if apiKey == "" then
      var score := CalculateMockRisk(plan, persona);
      Risk(score, RegimeOf(score), Heuristic(RegimeOf(score)))
    else
      match reply
      case ApiRisk(score, regime, text) => Risk(score, regime, FromModel(text))
      case ApiFailed =>
        var score := CalculateMockRisk(plan, persona);
        Risk(score, RegimeOf(score), Unreachable)
  }

  /** The mock branch and the fallback branch agree on score and regime, and
      any heuristic result lies in [5, 95] with the regime its score implies. */
  lemma MockAndFallbackAgree(plan: Plan, persona: Persona, apiKey: string, reply: ApiReply)
    requires apiKey != ""
    ensures var mock := AnalyzeRisks(plan, persona, "", reply);
            var fallback := AnalyzeRisks(plan, persona, apiKey, ApiFailed);
            mock.score == fallback.score && mock.regime == fallback.regime
            && MinScore <= mock.score <= MaxScore && mock.explanation != fallback.explanation
  {
  }
}
