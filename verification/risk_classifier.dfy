/** The five-tier classifier of the result panel. */
module RiskClassifier {
  import opened TradeTypes

  /** The risk/reward ratio per unit of leverage. */
  function AdjustedRatio(ratio: real, leverage: real): real
    requires leverage != 0.0
  {
    ratio * (1.0 / leverage)
  }

  /** First matching rule wins: two leverage rules, then four thresholds on the adjusted ratio. */
  function CalculateRiskLevel(ratio: real, leverage: real): (level: RiskLevel)
    requires leverage != 0.0
    ensures leverage >= 50.0 ==> level == VeryHigh
    ensures 20.0 <= leverage < 50.0 ==> level == High
  {
    var adjusted := AdjustedRatio(ratio, leverage);
    if leverage >= 50.0 then VeryHigh
    else if leverage >= 20.0 then High
    else if adjusted <= 0.5 then VeryHigh
    else if adjusted <= 1.0 then High
    else if adjusted <= 2.0 then Medium
    else if adjusted <= 3.0 then Low
    else VeryLow
  }

  /** Below leverage 20 each tier is one band of the adjusted ratio. */
  lemma LowLeverageBands(ratio: real, leverage: real)
    requires leverage != 0.0 && leverage < 20.0
    ensures var a := AdjustedRatio(ratio, leverage);
      var level := CalculateRiskLevel(ratio, leverage);
      && (level == VeryHigh <==> a <= 0.5)
      && (level == High <==> 0.5 < a <= 1.0)
      && (level == Medium <==> 1.0 < a <= 2.0)
      && (level == Low <==> 2.0 < a <= 3.0)
      && (level == VeryLow <==> 3.0 < a)
  {
  }

  /** The adjusted ratio grows with the ratio when leverage is positive. */
  lemma AdjustedRatioMonotone(r1: real, r2: real, leverage: real)
    requires leverage > 0.0 && r1 <= r2
    ensures AdjustedRatio(r1, leverage) <= AdjustedRatio(r2, leverage)
  {
  }

  /** At a fixed positive leverage, a larger ratio never gives a riskier tier. */
  lemma MonotoneInRatio(r1: real, r2: real, leverage: real)
    requires leverage > 0.0 && r1 <= r2
    ensures Rank(CalculateRiskLevel(r2, leverage)) <= Rank(CalculateRiskLevel(r1, leverage))
  {
    AdjustedRatioMonotone(r1, r2, leverage);
  }

  /** Raising leverage from 19 to 20 at ratio 1 lowers the tier from very_high to high:
      the leverage rules pre-empt the adjusted-ratio rules, so the tier is not monotone in leverage. */
  lemma NotMonotoneInLeverage()
    ensures CalculateRiskLevel(1.0, 19.0) == VeryHigh
    ensures CalculateRiskLevel(1.0, 20.0) == High
    ensures Rank(CalculateRiskLevel(1.0, 20.0)) < Rank(CalculateRiskLevel(1.0, 19.0))
  {
  }

  /** Leverage 49 with ratio 30 gives an adjusted ratio near 0.612 but is classified high by the leverage rule. */
  lemma BoundaryExample()
    ensures 0.6 < AdjustedRatio(30.0, 49.0) <= 1.0
    ensures CalculateRiskLevel(30.0, 49.0) == High
  {
  }
}
