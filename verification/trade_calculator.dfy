/** Profit, loss, percentages and risk/reward ratio of one trade. */
module TradeCalculator {
  import opened Wrappers
  import opened TradeTypes
  import opened RiskClassifier

  /** Why a trade has no calculation: the entry price is a divisor, and so is the loss. */
  datatype CalcError = ZeroEntryPrice | ZeroLoss

  /** Signed money result of closing at `exit`, scaled by the leveraged position size. */
  function MoneyLeg(t: TradeData, exit: real): real
    requires t.entryPrice != 0.0
  {
    Multiplier(t.tradeType) * (exit - t.entryPrice) * (t.amount * t.leverage) / t.entryPrice
  }

  /** Signed percentage result of closing at `exit`, scaled by leverage. */
  function PercentLeg(t: TradeData, exit: real): real
    requires t.entryPrice != 0.0
  {
    Multiplier(t.tradeType) * ((exit - t.entryPrice) / t.entryPrice) * 100.0 * t.leverage
  }

  /** A money leg is zero exactly when the exit is the entry or the position size is zero. */
  lemma MoneyLegZeroIff(t: TradeData, exit: real)
    requires t.entryPrice != 0.0
    ensures MoneyLeg(t, exit) == 0.0 <==> exit == t.entryPrice || t.amount == 0.0 || t.leverage == 0.0
  {
  }

  /** The calculation of the result panel; a zero entry or a zero loss is reported instead of dividing by it. */
  function CalculateTrade(t: TradeData): (r: Result<TradeCalculation, CalcError>)
    ensures r == Failure(ZeroEntryPrice) <==> t.entryPrice == 0.0
    ensures r == Failure(ZeroLoss) <==>
      t.entryPrice != 0.0 && (t.stopLoss == t.entryPrice || t.amount == 0.0 || t.leverage == 0.0)
    ensures r.Success? ==> && r.value.potentialProfit == MoneyLeg(t, t.takeProfit)
                           && r.value.potentialLoss == MoneyLeg(t, t.stopLoss)
                           && r.value.profitPercentage == PercentLeg(t, t.takeProfit)
                           && r.value.lossPercentage == PercentLeg(t, t.stopLoss)
    ensures r.Success? ==> && r.value.potentialLoss != 0.0
                           && r.value.riskRewardRatio == Abs(r.value.potentialProfit / r.value.potentialLoss)
    ensures r.Success? ==> r.value.riskRewardRatio >= 0.0
    ensures r.Success? ==> r.value.potentialProfit == t.amount * r.value.profitPercentage / 100.0
    ensures r.Success? ==> r.value.potentialLoss == t.amount * r.value.lossPercentage / 100.0
    ensures r.Success? ==> r.value.riskRewardRatio
                           == Abs(t.takeProfit - t.entryPrice) / Abs(t.stopLoss - t.entryPrice)
    ensures r.Success? ==> r.value.riskLevel == CalculateRiskLevel(r.value.riskRewardRatio, t.leverage)
  {
    if t.entryPrice == 0.0 then Failure(ZeroEntryPrice)
    else
      var profit := MoneyLeg(t, t.takeProfit);
      var loss := MoneyLeg(t, t.stopLoss);
      MoneyLegZeroIff(t, t.stopLoss);
      if loss == 0.0 then Failure(ZeroLoss)
      else
        var ratio := Abs(profit / loss);
        LegFacts(t);
        Success(TradeCalculation(
          profit,
          loss,
          PercentLeg(t, t.takeProfit),
          PercentLeg(t, t.stopLoss),
          ratio,
          CalculateRiskLevel(ratio, t.leverage)))
  }

  /** Money and percentage agree: a money leg is the amount times its percentage over 100. */
  lemma MoneyMatchesPercent(t: TradeData, exit: real)
    requires t.entryPrice != 0.0
    ensures MoneyLeg(t, exit) == t.amount * PercentLeg(t, exit) / 100.0
  {
  }

  /** The ratio of two money legs cancels direction, amount, leverage and entry price. */
  lemma LegRatio(t: TradeData)
    requires t.entryPrice != 0.0 && t.stopLoss != t.entryPrice && t.amount != 0.0 && t.leverage != 0.0
    ensures MoneyLeg(t, t.stopLoss) != 0.0
    ensures MoneyLeg(t, t.takeProfit) / MoneyLeg(t, t.stopLoss)
         == (t.takeProfit - t.entryPrice) / (t.stopLoss - t.entryPrice)
  {
  }

  /** What the success branch of `CalculateTrade` relies on: money matches percent on both legs, and the ratio of
      the legs is the ratio of the price distances. */
  lemma LegFacts(t: TradeData)
    requires t.entryPrice != 0.0 && MoneyLeg(t, t.stopLoss) != 0.0
    ensures MoneyLeg(t, t.takeProfit) == t.amount * PercentLeg(t, t.takeProfit) / 100.0
    ensures MoneyLeg(t, t.stopLoss) == t.amount * PercentLeg(t, t.stopLoss) / 100.0
    ensures Abs(MoneyLeg(t, t.takeProfit) / MoneyLeg(t, t.stopLoss))
         == Abs(t.takeProfit - t.entryPrice) / Abs(t.stopLoss - t.entryPrice)
  {
    MoneyLegZeroIff(t, t.stopLoss);
    MoneyMatchesPercent(t, t.takeProfit);
    MoneyMatchesPercent(t, t.stopLoss);
    LegRatio(t);
    AbsQuotient(t.takeProfit - t.entryPrice, t.stopLoss - t.entryPrice);
  }

  /** The absolute value of a quotient is the quotient of the absolute values. */
  lemma AbsQuotient(p: real, q: real)
    requires q != 0.0
    ensures Abs(p / q) == Abs(p) / Abs(q)
  {
  }

  /** Two trades with the same prices get the same ratio, whatever their amount, leverage and direction. */
  lemma RatioIgnoresSizeAndDirection(t1: TradeData, t2: TradeData)
    requires CalculateTrade(t1).Success? && CalculateTrade(t2).Success?
    requires t1.entryPrice == t2.entryPrice && t1.takeProfit == t2.takeProfit && t1.stopLoss == t2.stopLoss
    ensures CalculateTrade(t1).value.riskRewardRatio == CalculateTrade(t2).value.riskRewardRatio
  {
  }

  /** A move in the trade's favour is a gain, and a move against it a loss, for positive size and entry. */
  lemma FavourableMoveSign(t: TradeData, exit: real)
    requires t.amount > 0.0 && t.leverage > 0.0 && t.entryPrice > 0.0
    ensures t.tradeType == Long && exit > t.entryPrice ==> MoneyLeg(t, exit) > 0.0 && PercentLeg(t, exit) > 0.0
    ensures t.tradeType == Short && exit < t.entryPrice ==> MoneyLeg(t, exit) > 0.0 && PercentLeg(t, exit) > 0.0
    ensures t.tradeType == Long && exit < t.entryPrice ==> MoneyLeg(t, exit) < 0.0 && PercentLeg(t, exit) < 0.0
    ensures t.tradeType == Short && exit > t.entryPrice ==> MoneyLeg(t, exit) < 0.0 && PercentLeg(t, exit) < 0.0
  {
  }

  /** On the calculator's output, for positive amount, leverage and entry: the profit is positive exactly
      when the take-profit lies on the favourable side of the entry, and the loss is negative exactly when the
      stop-loss lies on the adverse side; each percentage has the sign of its money leg. */
  lemma CalculateTradeSigns(t: TradeData)
    requires t.amount > 0.0 && t.leverage > 0.0 && t.entryPrice > 0.0 && t.stopLoss != t.entryPrice
    ensures CalculateTrade(t).Success?
    ensures var c := CalculateTrade(t).value;
      && (c.potentialProfit > 0.0 <==>
            (t.tradeType == Long && t.takeProfit > t.entryPrice) || (t.tradeType == Short && t.takeProfit < t.entryPrice))
      && (c.potentialProfit > 0.0 <==> c.profitPercentage > 0.0)
      && (c.potentialLoss < 0.0 <==>
            (t.tradeType == Long && t.stopLoss < t.entryPrice) || (t.tradeType == Short && t.stopLoss > t.entryPrice))
      && (c.potentialLoss < 0.0 <==> c.lossPercentage < 0.0)
  {
  }

  /** Scaling the amount by a factor scales a money leg by that factor and leaves its percentage as it
      was; through the contract of `CalculateTrade` this holds for the calculated profit, loss and percentages. */
  lemma LegScaling(t: TradeData, k: real, exit: real)
    requires t.entryPrice != 0.0
    ensures MoneyLeg(t.(amount := k * t.amount), exit) == k * MoneyLeg(t, exit)
    ensures PercentLeg(t.(amount := k * t.amount), exit) == PercentLeg(t, exit)
  {
  }

  /** Amount 1000, entry 100, take-profit 110, stop-loss 95, leverage 5, long. */
  lemma WorkedExample()
    ensures CalculateTrade(TradeData(1000.0, 100.0, 110.0, 95.0, 5.0, "BTC/EUR", Long))
         == Success(TradeCalculation(500.0, -250.0, 50.0, -25.0, 2.0, VeryHigh))
  {
  }
}
