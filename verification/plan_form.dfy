/** The plan form's state updates: toggling a ticker in the selection,
    changing one field, and when the Analyze button is disabled. */
module PlanForm {
  import opened UiTypes

  /** The form's initial state. */
  const InitialPlan: Plan := Plan(BuyHold, Short, "", Buy, "", [])

  /** stocks.filter(x => x !== t): every occurrence of t removed, everything
      else kept with its multiplicity. */
  function RemoveAll(s: seq<string>, t: string): (r: seq<string>)
    ensures t !in r
    ensures multiset(r) == multiset(s)[t := 0]
    ensures |r| <= |s|
  {
    if |s| == 0 then []
    else
      var rest := RemoveAll(s[..|s| - 1], t);
      assert s == s[..|s| - 1] + [s[|s| - 1]];
      if s[|s| - 1] == t then rest else rest + [s[|s| - 1]]
  }

  /** Filtering distributes over concatenation, so the survivors keep their
      relative order. */
  lemma {:induction false} RemoveAllConcat(a: seq<string>, b: seq<string>, t: string)
    ensures RemoveAll(a + b, t) == RemoveAll(a, t) + RemoveAll(b, t)
    decreases |b|
  {
    if |b| == 0 {
      assert a + b == a;
    } else {
      var b' := b[..|b| - 1];
      assert (a + b)[..|a + b| - 1] == a + b';
      RemoveAllConcat(a, b', t);
    }
  }

  /** Removing a ticker that is not there changes nothing. */
  lemma {:induction false} RemoveAbsent(s: seq<string>, t: string)
    requires t !in s
    ensures RemoveAll(s, t) == s
  {
    if |s| > 0 {
      RemoveAbsent(s[..|s| - 1], t);
    }
  }

  /** toggleStock: remove every occurrence of a selected ticker, or append an
      unselected one at the end. */
  function ToggleStock(stocks: seq<string>, t: string): (r: seq<string>)
    ensures t in r <==> t !in stocks
    ensures forall x :: x != t ==> multiset(r)[x] == multiset(stocks)[x]
    ensures t !in stocks ==> r == stocks + [t]
    ensures t in stocks ==> r == RemoveAll(stocks, t)
  {
    if t in stocks then RemoveAll(stocks, t) else stocks + [t]
  }

  /** Toggling an unselected ticker twice restores the selection exactly. */
  lemma ToggleTwiceRestores(stocks: seq<string>, t: string)
    requires t !in stocks
    ensures ToggleStock(ToggleStock(stocks, t), t) == stocks
  {
    RemoveAllConcat(stocks, [t], t);
    RemoveAbsent(stocks, t);
    assert RemoveAll([t], t) == [] by {
      assert [t][..0] == [];
    }
  }

  /** Toggling a selected ticker twice leaves one copy of it, at the end. */
  lemma ToggleTwiceSelected(stocks: seq<string>, t: string)
    requires t in stocks
    ensures ToggleStock(ToggleStock(stocks, t), t) == RemoveAll(stocks, t) + [t]
  {
  }

  /** The argument of handleChange: a field and its new value. */
  datatype FieldUpdate =
    | SetStrategy(strategyId: StrategyId)
    | SetHorizon(horizon: HorizonType)
    | SetCommitment(commitment: string)
    | SetOrderType(orderType: OrderSide)
    | SetAmount(amount: string)
    | SetStocks(stocks: seq<string>)

  /** handleChange: the named field takes the new value; every other field
      keeps its old one. */
  function HandleChange(plan: Plan, u: FieldUpdate): (r: Plan)
    ensures r.strategyId == (if u.SetStrategy? then u.strategyId else plan.strategyId)
    ensures r.horizon == (if u.SetHorizon? then u.horizon else plan.horizon)
    ensures r.commitment == (if u.SetCommitment? then u.commitment else plan.commitment)
    ensures r.orderType == (if u.SetOrderType? then u.orderType else plan.orderType)
    ensures r.amount == (if u.SetAmount? then u.amount else plan.amount)
    ensures r.stocks == (if u.SetStocks? then u.stocks else plan.stocks)
  {
    match u
    case SetStrategy(v) => plan.(strategyId := v)
    case SetHorizon(v) => plan.(horizon := v)
    case SetCommitment(v) => plan.(commitment := v)
    case SetOrderType(v) => plan.(orderType := v)
    case SetAmount(v) => plan.(amount := v)
    case SetStocks(v) => plan.(stocks := v)
  }

  /** The Analyze button is disabled while no ticker is selected or the
      amount box is empty. */
  predicate AnalyzeDisabled(plan: Plan) {
    |plan.stocks| == 0 || plan.amount == ""
  }

  /** The button starts disabled, and becomes enabled once a ticker is
      toggled in and a non-empty amount is entered. */
  lemma AnalyzeEnablement(t: string, amount: string)
    requires amount != ""
    ensures AnalyzeDisabled(InitialPlan)
    ensures var p := HandleChange(InitialPlan.(stocks := ToggleStock(InitialPlan.stocks, t)), SetAmount(amount));
            !AnalyzeDisabled(p) && p.stocks == [t]
  {
  }

  /** Toggling a ticker into a non-empty selection can never disable the
      button; toggling out the only ticker always does. */
  lemma ToggleAffectsEnablement(plan: Plan, t: string)
    ensures t !in plan.stocks ==> (AnalyzeDisabled(plan.(stocks := ToggleStock(plan.stocks, t))) <==> plan.amount == "")
    ensures plan.stocks == [t] ==> AnalyzeDisabled(plan.(stocks := ToggleStock(plan.stocks, t)))
  {
    if plan.stocks == [t] {
      assert multiset(ToggleStock(plan.stocks, t)) == multiset{};
    }
  }
}
