/** The front-end's plan and risk types. */
module UiTypes {

  datatype HorizonType = Short | Long
  datatype OrderSide = Buy | Sell
  datatype Persona = Conservative | Balanced | Aggressive
  datatype StrategyId = BuyHold | Momentum | MeanReversion | TrendFollowing

  /** A trading plan as the plan form edits it; an absent commitment is the
      empty string, and the amount is the raw text of its input box. */
  datatype Plan = Plan(
    strategyId: StrategyId,
    horizon: HorizonType,
    commitment: string,
    orderType: OrderSide,
    amount: string,
    stocks: seq<string>)

  datatype Regime = Stable | Caution | Critical
}
