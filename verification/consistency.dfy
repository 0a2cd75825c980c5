/** How the form, the calculator and the two classifiers fit together. */
module Consistency {
  import opened Wrappers
  import opened TradeTypes
  import opened TradeForm
  import opened RiskClassifier
  import opened TradeCalculator
  import opened HistoryView

  /** The history band a result-panel tier is compared with: both views use red, orange and yellow for their
      three riskiest grades, and the history's single green band covers the panel's two safest tiers. */
  function TierColor(level: RiskLevel): RiskColor
  {
    match level
    case VeryHigh => Red
    case High => Orange
    case Medium => Yellow
    case Low => Green
    case VeryLow => Green
  }

  /** The two classifiers agree on a ratio exactly outside the case of leverage in [20, 50) with adjusted ratio at most 0.5. */
  lemma ClassifiersAgreeIff(ratio: real, leverage: real)
    requires leverage != 0.0
    ensures GetRiskColor(ratio, leverage) == TierColor(CalculateRiskLevel(ratio, leverage))
        <==> !(20.0 <= leverage < 50.0 && AdjustedRatio(ratio, leverage) <= 0.5)
  {
  }

  /** Where they disagree, the history shows red for a trade the result panel calls high. */
  lemma ClassifiersDisagreement(ratio: real, leverage: real)
    requires 20.0 <= leverage < 50.0 && AdjustedRatio(ratio, leverage) <= 0.5
    ensures GetRiskColor(ratio, leverage) == Red
    ensures CalculateRiskLevel(ratio, leverage) == High
  {
  }

  /** Before rounding, the history ratio is the calculator's risk/reward ratio. */
  lemma HistoryRatioMatchesCalculation(t: TradeData)
    requires CalculateTrade(t).Success?
    ensures RawRiskRatio(t) == CalculateTrade(t).value.riskRewardRatio
  {
    RawRiskRatioIsDistanceRatio(t);
  }

  /** A form the browser lets through, with a positive amount, that passes validation always gets a calculation,
      with a positive profit and a negative loss. */
  lemma AcceptedFormCalculates(form: TradeData)
    requires WithinInputBounds(form) && form.amount > 0.0
    requires HandleSubmit(form).Some?
    ensures CalculateTrade(form).Success?
    ensures CalculateTrade(form).value.potentialProfit > 0.0
    ensures CalculateTrade(form).value.potentialLoss < 0.0
  {
    AcceptsIff(form.entryPrice, form.takeProfit, form.stopLoss, form.tradeType);
    AcceptedEntryPositive(form);
    AcceptedPricesDistinct(form.entryPrice, form.takeProfit, form.stopLoss, form.tradeType);
    LeverageOptionsPositive(form.leverage);
    FavourableMoveSign(form, form.takeProfit);
    FavourableMoveSign(form, form.stopLoss);
  }

  /** An amount of zero passes the browser bounds and validation, yet leaves the loss at zero. */
  lemma ZeroAmountPassesValidation()
    ensures var form := TradeData(0.0, 100.0, 110.0, 95.0, 5.0, "BTC/EUR", Long);
      && WithinInputBounds(form)
      && HandleSubmit(form) == Some(form)
      && CalculateTrade(form) == Failure(ZeroLoss)
  {
  }

  /** The two views disagree on a real trade even at leverage 1, because the history rounds the ratio before
      classifying it: ratio 1.51/3 (about 0.503) is high on the panel, but rounds to 0.50, which the history
      colours red. */
  lemma RoundingSplitsClassifiers()
    ensures var t := TradeData(1.0, 100.0, 101.51, 97.0, 1.0, "BTC/EUR", Long);
      && WithinInputBounds(t)
      && HandleSubmit(t) == Some(t)
      && CalculateTrade(t).Success?
      && CalculateTrade(t).value.riskLevel == High
      && CalculateRiskRatio(t) == 0.5
      && GetRiskColor(CalculateRiskRatio(t), t.leverage) == Red
      && GetRiskColor(CalculateRiskRatio(t), t.leverage) != TierColor(CalculateTrade(t).value.riskLevel)
  {
  }
}
