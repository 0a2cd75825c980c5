/** The trade form: its leverage menu, its validation rules and its submit guard. */
module TradeForm {
  import opened Wrappers
  import opened TradeTypes

  /** The leverage choices the form offers; the select starts on 1. */
  const LeverageOptions: seq<real> := [1.0, 2.0, 3.0, 4.0, 5.0, 10.0, 20.0, 50.0, 100.0, 150.0]
  const DefaultLeverage: real := 1.0

  /** The three independent places a validation message can go. */
  datatype ErrorSlot = TakeProfitSlot | StopLossSlot | GeneralSlot

  /** The error record: a slot is set exactly when it is a key. */
  type FormErrors = map<ErrorSlot, string>

  /** Take-profit and stop-loss must be at least this fraction of the entry price apart. */
  const MinDistanceFraction: real := 0.001

  const LongTakeProfitMessage := "Le Take Profit doit être supérieur au prix d'entrée"
  const LongStopLossMessage := "Le Stop Loss doit être inférieur au prix d'entrée"
  const LongOrderMessage := "Le Take Profit doit être supérieur au Stop Loss"
  const ShortTakeProfitMessage := "Le Take Profit doit être inférieur au prix d'entrée"
  const ShortStopLossMessage := "Le Stop Loss doit être supérieur au prix d'entrée"
  const ShortOrderMessage := "Le Take Profit doit être inférieur au Stop Loss"
  const DistanceMessage := "La distance entre TP et SL doit être d'au moins 0.1%"

  /** The bounds the browser enforces on the inputs before submit (`min="0"`, the leverage select). */
  predicate WithinInputBounds(form: TradeData)
  {
    && form.amount >= 0.0
    && form.entryPrice >= 0.0
    && form.takeProfit >= 0.0
    && form.stopLoss >= 0.0
    && form.leverage in LeverageOptions
  }

  /** Take-profit is on the profitable side of the entry for the direction. */
  predicate TakeProfitWellPlaced(entry: real, tp: real, t: TradeType)
  {
    match t
    case Long => tp > entry
    case Short => tp < entry
  }

  /** Stop-loss is on the losing side of the entry for the direction. */
  predicate StopLossWellPlaced(entry: real, sl: real, t: TradeType)
  {
    match t
    case Long => sl < entry
    case Short => sl > entry
  }

  /** Take-profit lies beyond stop-loss in the profitable direction. */
  predicate TargetsWellOrdered(tp: real, sl: real, t: TradeType)
  {
    match t
    case Long => tp > sl
    case Short => tp < sl
  }

  /** The minimum-distance rule fails. */
  predicate TooClose(entry: real, tp: real, sl: real)
  {
    Abs(tp - sl) < entry * MinDistanceFraction
  }

  /** The messages the direction rules produce, before the distance rule runs. */
  function OrderingErrors(entry: real, tp: real, sl: real, t: TradeType): (errs: FormErrors)
    ensures TakeProfitSlot in errs <==> !TakeProfitWellPlaced(entry, tp, t)
    ensures StopLossSlot in errs <==> !StopLossWellPlaced(entry, sl, t)
    ensures GeneralSlot in errs <==> !TargetsWellOrdered(tp, sl, t)
  {
    match t
    case Long =>
      var e0: FormErrors := map[];
      var e1 := if tp <= entry then e0[TakeProfitSlot := LongTakeProfitMessage] else e0;
      var e2 := if sl >= entry then e1[StopLossSlot := LongStopLossMessage] else e1;
      if tp <= sl then e2[GeneralSlot := LongOrderMessage] else e2
    case Short =>
      var e0: FormErrors := map[];
      var e1 := if tp >= entry then e0[TakeProfitSlot := ShortTakeProfitMessage] else e0;
      var e2 := if sl <= entry then e1[StopLossSlot := ShortStopLossMessage] else e1;
      if tp >= sl then e2[GeneralSlot := ShortOrderMessage] else e2
  }

  /** All rules evaluated in order; the distance message overwrites the general slot. */
  function ValidateForm(entry: real, tp: real, sl: real, t: TradeType): (errs: FormErrors)
    ensures TooClose(entry, tp, sl) ==> GeneralSlot in errs && errs[GeneralSlot] == DistanceMessage
  {
    var e := OrderingErrors(entry, tp, sl, t);
    if TooClose(entry, tp, sl) then e[GeneralSlot := DistanceMessage] else e
  }

  /** Validation passes when no slot is set. */
  predicate Accepts(entry: real, tp: real, sl: real, t: TradeType)
  {
    |ValidateForm(entry, tp, sl, t)| == 0
  }

  /** The acceptance condition written independently of the rule table. */
  predicate WellFormedTrade(entry: real, tp: real, sl: real, t: TradeType)
  {
    && (t == Long ==> sl < entry < tp)
    && (t == Short ==> tp < entry < sl)
    && Abs(tp - sl) >= entry * MinDistanceFraction
  }

  /** The submit handler: forwards the parsed form only when validation passes. */
  function HandleSubmit(form: TradeData): (r: Option<TradeData>)
    ensures r.Some? <==> WellFormedTrade(form.entryPrice, form.takeProfit, form.stopLoss, form.tradeType)
    ensures r.Some? ==> r.value == form
  {
    AcceptsIff(form.entryPrice, form.takeProfit, form.stopLoss, form.tradeType);
    if Accepts(form.entryPrice, form.takeProfit, form.stopLoss, form.tradeType) then Some(form) else None
  }

  /** For a long, the field slots are set exactly when the prices sit on the wrong side of the entry. */
  lemma LongFieldSlots(entry: real, tp: real, sl: real)
    ensures var errs := ValidateForm(entry, tp, sl, Long);
      && (TakeProfitSlot in errs <==> tp <= entry)
      && (StopLossSlot in errs <==> sl >= entry)
      && (TakeProfitSlot in errs ==> errs[TakeProfitSlot] == LongTakeProfitMessage)
      && (StopLossSlot in errs ==> errs[StopLossSlot] == LongStopLossMessage)
  {
  }

  /** For a short, the rules mirror the long ones. */
  lemma ShortFieldSlots(entry: real, tp: real, sl: real)
    ensures var errs := ValidateForm(entry, tp, sl, Short);
      && (TakeProfitSlot in errs <==> tp >= entry)
      && (StopLossSlot in errs <==> sl <= entry)
      && (TakeProfitSlot in errs ==> errs[TakeProfitSlot] == ShortTakeProfitMessage)
      && (StopLossSlot in errs ==> errs[StopLossSlot] == ShortStopLossMessage)
  {
  }

  /** The general slot is set when the targets are misordered or too close, and the distance message wins. */
  lemma GeneralSlotContents(entry: real, tp: real, sl: real, t: TradeType)
    ensures var errs := ValidateForm(entry, tp, sl, t);
      && (GeneralSlot in errs <==> !TargetsWellOrdered(tp, sl, t) || TooClose(entry, tp, sl))
      && (GeneralSlot in errs && !TooClose(entry, tp, sl) ==>
            errs[GeneralSlot] == (if t == Long then LongOrderMessage else ShortOrderMessage))
  {
  }

  /** The distance rule never touches the field slots: apart from the general slot, the result is the ordering result. */
  lemma DistanceRuleLeavesFieldSlots(entry: real, tp: real, sl: real, t: TradeType)
    ensures ValidateForm(entry, tp, sl, t) - {GeneralSlot} == OrderingErrors(entry, tp, sl, t) - {GeneralSlot}
  {
  }

  /** The take-profit versus stop-loss ordering error never fires alone. */
  lemma OrderErrorNeverAlone(entry: real, tp: real, sl: real, t: TradeType)
    requires GeneralSlot in OrderingErrors(entry, tp, sl, t)
    ensures TakeProfitSlot in ValidateForm(entry, tp, sl, t) || StopLossSlot in ValidateForm(entry, tp, sl, t)
  {
  }

  /** Acceptance holds exactly for well-formed trades. */
  lemma AcceptsIff(entry: real, tp: real, sl: real, t: TradeType)
    ensures Accepts(entry, tp, sl, t) <==> WellFormedTrade(entry, tp, sl, t)
  {
  }

  /** An accepted trade has both targets away from the entry, so its loss leg is never flat. */
  lemma AcceptedPricesDistinct(entry: real, tp: real, sl: real, t: TradeType)
    requires Accepts(entry, tp, sl, t)
    ensures sl != entry && tp != entry && tp != sl
  {
  }

  /** With the browser's non-negative prices, acceptance forces a positive entry price. */
  lemma AcceptedEntryPositive(form: TradeData)
    requires WithinInputBounds(form)
    requires Accepts(form.entryPrice, form.takeProfit, form.stopLoss, form.tradeType)
    ensures form.entryPrice > 0.0
  {
  }

  /** Every leverage the form offers is at least 1, so no classifier ever divides by a zero leverage. */
  lemma LeverageOptionsPositive(lev: real)
    requires lev in LeverageOptions
    ensures lev >= 1.0
  {
  }

  /** The select's initial leverage is one of the offered options. */
  lemma DefaultLeverageOffered()
    ensures DefaultLeverage in LeverageOptions
  {
  }
}
