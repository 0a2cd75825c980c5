/** The history table's own ratio and its four colour bands. */
module HistoryView {
  import opened TradeTypes
  import opened RiskClassifier

  /** The four colours of the ratio column. */
  datatype RiskColor = Red | Orange | Yellow | Green

  /** The unrounded ratio: unsigned profit distance over unsigned loss distance. */
  function RawRiskRatio(t: TradeData): real
    requires t.stopLoss != t.entryPrice
  {
    var m := Multiplier(t.tradeType);
    Abs(m * (t.takeProfit - t.entryPrice)) / Abs(m * (t.stopLoss - t.entryPrice))
  }

  /** The multiplier is cancelled by the absolute values: the raw ratio is the ratio of price distances. */
  lemma RawRiskRatioIsDistanceRatio(t: TradeData)
    requires t.stopLoss != t.entryPrice
    ensures RawRiskRatio(t) == Abs(t.takeProfit - t.entryPrice) / Abs(t.stopLoss - t.entryPrice)
    ensures RawRiskRatio(t) >= 0.0
  {
  }

  /** The direction of a trade does not change its history ratio. */
  lemma RawRiskRatioIgnoresDirection(t: TradeData)
    requires t.stopLoss != t.entryPrice
    ensures RawRiskRatio(t.(tradeType := Long)) == RawRiskRatio(t.(tradeType := Short))
  {
  }

  /** The bounds of rounding `x` to the integer `n` nearest `100 * x`, scaled back by 100. */
  lemma RoundingBounds(x: real, n: int)
    requires x >= 0.0
    requires n as real <= x * 100.0 + 0.5 < n as real + 1.0
    ensures n >= 0
    ensures x - 0.005 < n as real / 100.0 <= x + 0.005
    ensures (n as real / 100.0 * 100.0).Floor as real == n as real / 100.0 * 100.0
  {
  }

  /** Rounding of a non-negative number to two decimals, halves going up, read back as a number. */
  function ToFixed2(x: real): (r: real)
    requires x >= 0.0
    ensures r >= 0.0
    ensures x - 0.005 < r <= x + 0.005
    ensures (r * 100.0).Floor as real == r * 100.0
  {
    var n := (x * 100.0 + 0.5).Floor;
    RoundingBounds(x, n);
    n as real / 100.0
  }

  /** The ratio shown in the history table. */
  function CalculateRiskRatio(t: TradeData): (r: real)
    requires t.stopLoss != t.entryPrice
    ensures r >= 0.0
    ensures RawRiskRatio(t) - 0.005 < r <= RawRiskRatio(t) + 0.005
    ensures (r * 100.0).Floor as real == r * 100.0
  {
    RawRiskRatioIsDistanceRatio(t);
    ToFixed2(RawRiskRatio(t))
  }

  /** The four-band colour: the leverage rules and the ratio rules are joined with `or`. */
  function GetRiskColor(ratio: real, leverage: real): (c: RiskColor)
    requires leverage != 0.0
    ensures leverage >= 50.0 ==> c == Red
    ensures leverage >= 20.0 ==> c == Red || c == Orange
  {
    var adjusted := AdjustedRatio(ratio, leverage);
    if leverage >= 50.0 || adjusted <= 0.5 then Red
    else if leverage >= 20.0 || adjusted <= 1.0 then Orange
    else if adjusted <= 2.0 then Yellow
    else Green
  }

  /** Each colour as a condition on leverage and adjusted ratio, both directions. */
  lemma ColorBands(ratio: real, leverage: real)
    requires leverage != 0.0
    ensures var a := AdjustedRatio(ratio, leverage);
      var c := GetRiskColor(ratio, leverage);
      && (c == Red <==> leverage >= 50.0 || a <= 0.5)
      && (c == Orange <==> leverage < 50.0 && a > 0.5 && (leverage >= 20.0 || a <= 1.0))
      && (c == Yellow <==> leverage < 20.0 && 1.0 < a <= 2.0)
      && (c == Green <==> leverage < 20.0 && a > 2.0)
  {
  }
}
