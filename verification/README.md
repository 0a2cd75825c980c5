# Trade-risk calculator — Dafny model

A model of the logic inside a browser trade-risk calculator. A user enters a leveraged
position: amount, entry price, take-profit, stop-loss, leverage and direction (long or short).
The form validates the prices. The application then computes the signed profit and loss, in
money and in percent, the risk/reward ratio and a five-tier risk level. Each accepted trade is
recorded at the head of a history list, and the user can delete entries by id. The history
table shows its own rounded ratio with a coarser four-colour risk band.

All arithmetic is over Dafny `real`, so the algebra (sign, scaling, cancellation, threshold
bands) holds exactly. The modules follow the source files:

- `TradeTypes` (`trade_types.dfy`) holds the records of `src/types/trade.ts`: direction, the
  five risk tiers, the submitted trade data, the recorded trade (id and timestamp wrap the data)
  and the calculation. It also holds the ±1 direction multiplier.
- `TradeForm` (`trade_form.dfy`) holds the leverage menu, the validation rules with their three
  independent error slots (`takeProfit`, `stopLoss`, `general`) and the submit guard.
- `RiskClassifier` (`risk_classifier.dfy`) holds the first-match-wins five-tier classifier.
- `TradeCalculator` (`trade_calculator.dfy`) holds profit, loss, percentages and ratio. It
  returns an error value where the source would divide by zero.
- `TradeHistory` (`trade_history.dfy`) holds the newest-first list: prepend on submit and
  filter on delete.
- `HistoryView` (`history_view.dfy`) holds the history table's ratio, its rounding to two
  decimals and the four colour bands.
- `ResultsView` (`results_view.dfy`) holds the map from tier to colour and label.
- `Consistency` (`consistency.dfy`) relates the components. It shows when the two classifiers
  agree, that both compute the same ratio, and that an accepted form gets a calculation.
- `Wrappers` (`wrappers.dfy`) holds `Option` and `Result`.

Behaviour the proofs bring out:

- The five-tier classifier is monotone in the ratio but not in leverage. At ratio 1, leverage
  19 is `very_high`, while leverage 20 is only `high`, because the leverage rules pre-empt the
  ratio rules (`RiskClassifier.NotMonotoneInLeverage`).
- Given the same ratio, the history colour and the result tier disagree exactly when
  20 ≤ leverage < 50 and the adjusted ratio is at most 0.5. There the history shows red and the
  panel says `high` (`Consistency.ClassifiersAgreeIff`).
- The two views do not classify the same ratio, though. The history rounds the ratio to two
  decimals before colouring it, while the panel classifies the unrounded ratio. So they can
  disagree at any leverage near a threshold. At leverage 1, a long at entry 100 with take-profit
  101.51 and stop-loss 97 has ratio about 0.503. The panel says `high`, but the history rounds the
  ratio to 0.50 and shows red (`Consistency.RoundingSplitsClassifiers`).
- The form accepts an amount of 0, since the browser bound is `min="0"`. Validation does not look
  at the amount, so such a trade passes, and its loss is 0. The source then divides 0 by 0 for
  the ratio. The model reports `ZeroLoss` (`Consistency.ZeroAmountPassesValidation`).
- The code keeps two
  separate classifiers, and both are modelled as written. The code never checks that the entry
  price is positive. Under the browser's non-negative price bounds, though, validation can only
  accept a positive entry (`TradeForm.AcceptedEntryPositive`).

## Model

| member | source | states |
|---|---|---|
| TradeTypes.Multiplier | src/App.tsx:34-35 | the multiplier is +1 exactly for a long and −1 otherwise, so it is total over the two directions |
| TradeTypes.TiersDistinct | src/types/trade.ts:1-2 | the five tiers have distinct spellings and distinct riskiness ranks |
| TradeForm.OrderingErrors | src/components/TradeForm.tsx:32-52 | each slot is set exactly when its direction rule fails: take-profit on the wrong side of entry, stop-loss on the wrong side, or targets misordered |
| TradeForm.ValidateForm | src/components/TradeForm.tsx:25-62 | a too-close pair always leaves the distance message in the general slot, whatever the direction rules said |
| TradeForm.HandleSubmit | src/components/TradeForm.tsx:64-77 | a trade is forwarded exactly when it is well-formed for its direction and far enough apart, and it is forwarded unchanged |
| TradeForm.LongFieldSlots | src/components/TradeForm.tsx:32-38 | for a long, the take-profit slot is set iff tp ≤ entry and the stop-loss slot iff sl ≥ entry, each with its long message |
| TradeForm.ShortFieldSlots | src/components/TradeForm.tsx:42-48 | for a short, the take-profit slot is set iff tp ≥ entry and the stop-loss slot iff sl ≤ entry, each with its short message |
| TradeForm.GeneralSlotContents | src/components/TradeForm.tsx:39-58 | the general slot is set iff the targets are misordered or too close; when they are not too close it holds the ordering message |
| TradeForm.DistanceRuleLeavesFieldSlots | src/components/TradeForm.tsx:54-58 | apart from the general slot, the final errors equal the ordering errors: the distance rule touches no field slot |
| TradeForm.OrderErrorNeverAlone | src/components/TradeForm.tsx:33-51 | whenever the take-profit/stop-loss ordering error is raised, a field slot is also set |
| TradeForm.AcceptsIff | src/components/TradeForm.tsx:32-61 | validation passes iff sl < entry < tp for a long, or tp < entry < sl for a short, and \|tp − sl\| ≥ 0.001·entry |
| TradeForm.AcceptedPricesDistinct | src/components/TradeForm.tsx:36-47 | an accepted trade has sl ≠ entry, tp ≠ entry and tp ≠ sl, so its loss leg is not flat |
| TradeForm.AcceptedEntryPositive | src/components/TradeForm.tsx:32-61 | with the browser's non-negative price bounds, an accepted trade has a positive entry price |
| TradeForm.LeverageOptionsPositive | src/components/TradeForm.tsx:9 | every leverage on the menu is at least 1, so neither classifier is ever handed a zero leverage by the form |
| TradeForm.DefaultLeverageOffered | src/components/TradeForm.tsx:9-18 | the leverage the form starts with, 1, is one of the menu options |
| RiskClassifier.CalculateRiskLevel | src/App.tsx:15-29 | leverage ≥ 50 gives very_high and 20 ≤ leverage < 50 gives high, whatever the ratio |
| RiskClassifier.LowLeverageBands | src/App.tsx:19-28 | below leverage 20 each tier is exactly one band of ratio/leverage: ≤0.5, (0.5,1], (1,2], (2,3], >3 |
| RiskClassifier.AdjustedRatioMonotone | src/App.tsx:19 | at positive leverage, the adjusted ratio does not decrease when the ratio grows |
| RiskClassifier.MonotoneInRatio | src/App.tsx:15-29 | at a fixed positive leverage, a larger ratio never gives a riskier tier |
| RiskClassifier.NotMonotoneInLeverage | src/App.tsx:21-24 | at ratio 1, leverage 19 is very_high but leverage 20 is high: more leverage, lower tier |
| RiskClassifier.BoundaryExample | src/App.tsx:19-22 | leverage 49 with ratio 30 has adjusted ratio in (0.6, 1] and is classified high |
| TradeCalculator.MoneyLegZeroIff | src/App.tsx:37-41 | a money leg is zero exactly when the exit equals the entry, or the amount or leverage is zero |
| TradeCalculator.CalculateTrade | src/App.tsx:31-57 | it fails exactly when entry is 0, or when sl = entry or amount or leverage is 0; on success the profit and loss are the money legs at take-profit and stop-loss and the percentages the percent legs, profit = amount·profitPercentage/100 and loss = amount·lossPercentage/100, the loss is non-zero and the ratio is \|profit / loss\|, which equals \|tp − entry\| / \|sl − entry\| (hence non-negative), and the tier is the classifier's tier for that ratio and leverage |
| TradeCalculator.MoneyMatchesPercent | src/App.tsx:37-45 | every money leg equals amount × its percentage / 100 |
| TradeCalculator.LegRatio | src/App.tsx:37-46 | profit/loss equals (tp − entry)/(sl − entry): direction, amount, leverage and entry cancel |
| TradeCalculator.RatioIgnoresSizeAndDirection | src/App.tsx:46 | two trades with the same prices get the same ratio whatever their amount, leverage and direction |
| TradeCalculator.LegScaling | src/App.tsx:37-45 | multiplying the amount by k multiplies a money leg by k and leaves its percentage unchanged; the calculated profit, loss and percentages are these legs |
| TradeCalculator.FavourableMoveSign | src/App.tsx:34-45 | for positive amount, leverage and entry, a favourable exit gives positive money and percent, and an adverse exit negative ones, in both directions |
| TradeCalculator.CalculateTradeSigns | src/App.tsx:34-46 | for positive amount, leverage and entry and sl ≠ entry, the calculation succeeds; its profit is positive iff the take-profit is on the favourable side for the direction, its loss is negative iff the stop-loss is on the adverse side, and each percentage has the sign of its money leg |
| TradeCalculator.WorkedExample | src/App.tsx:31-57 | 1000 at 100, tp 110, sl 95, leverage 5, long gives 500 / −250 / 50 / −25 / ratio 2 / very_high |
| TradeHistory.HandleTradeSubmit | src/App.tsx:59-68 | the new trade carries the data, id and timestamp given, heads the list ahead of the unchanged old list, and is calculated |
| TradeHistory.DeleteTrade | src/App.tsx:80-82 | the result holds exactly the trades of the list whose id differs, and is shorter by the number of trades with that id |
| TradeHistory.DeleteAbsentIsIdentity | src/App.tsx:81 | deleting an id no trade carries leaves the list unchanged |
| TradeHistory.DeleteIdempotent | src/App.tsx:81 | deleting twice equals deleting once |
| TradeHistory.DeleteDistributes | src/App.tsx:81 | deleting from a concatenation concatenates the deletions, so survivors keep their order |
| TradeHistory.DeleteUndoesSubmit | src/App.tsx:66-81 | deleting the trade just submitted under a fresh id gives back the previous list |
| HistoryView.RawRiskRatioIsDistanceRatio | src/components/TradeHistory.tsx:11-18 | before rounding the history ratio is \|tp − entry\| / \|sl − entry\| and non-negative |
| HistoryView.RawRiskRatioIgnoresDirection | src/components/TradeHistory.tsx:12-17 | the history ratio is the same for a long and a short with the same prices |
| HistoryView.ToFixed2 | src/components/TradeHistory.tsx:19 | two-decimal rounding stays non-negative, lies within half a cent of its input, and has at most two decimals |
| HistoryView.CalculateRiskRatio | src/components/TradeHistory.tsx:11-20 | the shown ratio is non-negative, has at most two decimals and lies within 0.005 of the unrounded ratio, which fixes it as the two-decimal rounding |
| HistoryView.GetRiskColor | src/components/TradeHistory.tsx:22-29 | leverage ≥ 50 is always red and leverage ≥ 20 is always red or orange |
| HistoryView.ColorBands | src/components/TradeHistory.tsx:23-28 | red iff leverage ≥ 50 or adjusted ≤ 0.5; orange iff not red and (leverage ≥ 20 or adjusted ≤ 1); yellow iff leverage < 20 and 1 < adjusted ≤ 2; green iff leverage < 20 and adjusted > 2 |
| ResultsView.InfoOf | src/components/TradeResults.tsx:9-20 | very_high is red-600 "Très risqué", high orange-600 "Risqué", medium yellow-600 "Moyen", low green-600 "Modéré", very_low emerald-600 "Très modéré" |
| ResultsView.DefaultUnreachable | src/components/TradeResults.tsx:21-22 | no tier spelling reaches the "Non défini" default |
| ResultsView.InfoInjective | src/components/TradeResults.tsx:9-20 | distinct tiers get distinct colours, backgrounds and labels |
| Consistency.ClassifiersAgreeIff | src/components/TradeHistory.tsx:22-28 | for one ratio and leverage, the history band equals the grade of the five-tier result (red↔very_high, orange↔high, yellow↔medium, green↔low and very_low) iff not (20 ≤ leverage < 50 and adjusted ≤ 0.5); the grade is the band, not the panel's own colour class, which for very_low is emerald rather than green |
| Consistency.ClassifiersDisagreement | src/App.tsx:22 | when 20 ≤ leverage < 50 and adjusted ≤ 0.5, the history says red while the panel says high |
| Consistency.HistoryRatioMatchesCalculation | src/components/TradeHistory.tsx:16-18 | before rounding, the history ratio equals the calculator's risk/reward ratio for the same trade |
| Consistency.AcceptedFormCalculates | src/components/TradeForm.tsx:64-77 | a form within the browser bounds, with a positive amount, that passes validation gets a calculation with positive profit and negative loss |
| Consistency.ZeroAmountPassesValidation | src/components/TradeForm.tsx:114-122 | an amount of 0 is within the input bounds and passes validation, but the calculation fails with a zero loss |
| Consistency.RoundingSplitsClassifiers | src/components/TradeHistory.tsx:19-25 | an accepted leverage-1 trade with ratio about 0.503 is high on the panel, but its history ratio rounds to 0.50 and is coloured red |

## Left out

- Rendering, Tailwind classes, icons and the date format of the history table are not modelled. `getRiskLevelInfo` is modelled only as a map from strings to colour and label.
- Persistence through the local-storage hook is not modelled. The history is a `seq<Trade>` passed in and returned.
- Id and clock generation (`crypto.randomUUID`, `Date.now`) are nondeterministic. The id and timestamp are parameters of `TradeHistory.HandleTradeSubmit`.
- The simulated price walk after submission uses `Math.random` and only feeds a display, so it is not modelled.
- Parsing of the form strings with `Number(...)` is not modelled. The form's input is already a `TradeData`, and non-numeric input is out of scope.
- The form's other state (selected asset list, direction buttons, showing the errors) is not modelled, except for the leverage menu and the `min="0"` bounds.
- IEEE-754 doubles are not modelled: no rounding error, no `Infinity`, no `NaN`.
- TradeCalculator.CalculateTrade: returns `ZeroEntryPrice` when the entry is 0, and `ZeroLoss` when the loss is 0. In those cases the source produces `Infinity` or `NaN` values and renders them.
- RiskClassifier.CalculateRiskLevel: requires leverage ≠ 0, because the source's `1 / leverage` would be infinite. The source calls it unconditionally, but every leverage the form's menu offers is at least 1 (`TradeForm.LeverageOptionsPositive`). In the model the calculator reaches it only after its zero-loss check, which also rules out a zero leverage.
- HistoryView.GetRiskColor: requires leverage ≠ 0 for the same reason; the leverage menu guarantees it for every trade the form submits.
- HistoryView.CalculateRiskRatio: requires sl ≠ entry, where the source shows an infinite ratio, or NaN when the take-profit equals the entry as well. Accepted trades always meet this (`TradeForm.AcceptedPricesDistinct`).
- HistoryView.ToFixed2: rounds the exact real value, halves going up. The source rounds the binary double, which can differ at a tie, and it switches to exponent notation above 10^21.
- The completeness of `TradeCalculation` (all six fields set together) holds because it is one datatype constructor, so it has no separate lemma.
