/** The result panel's tier-to-colour-and-label map. */
module ResultsView {
  import opened TradeTypes

  /** Text colour, background colour and label of a tier. */
  datatype RiskLevelInfo = RiskLevelInfo(color: string, bg: string, text: string)

  const UndefinedInfo := RiskLevelInfo("gray-600", "gray-50", "Non défini")

  /** Looks a tier up by its spelling; any other string falls through to the undefined entry. */
  function GetRiskLevelInfo(riskLevel: string): RiskLevelInfo
  {
    if riskLevel == "very_high" then RiskLevelInfo("red-600", "red-50", "Très risqué")
    else if riskLevel == "high" then RiskLevelInfo("orange-600", "orange-50", "Risqué")
    else if riskLevel == "medium" then RiskLevelInfo("yellow-600", "yellow-50", "Moyen")
    else if riskLevel == "low" then RiskLevelInfo("green-600", "green-50", "Modéré")
    else if riskLevel == "very_low" then RiskLevelInfo("emerald-600", "emerald-50", "Très modéré")
    else UndefinedInfo
  }

  /** The entry each tier gets. */
  function InfoOf(level: RiskLevel): (info: RiskLevelInfo)
    ensures level == VeryHigh ==> info.color == "red-600" && info.text == "Très risqué"
    ensures level == High ==> info.color == "orange-600" && info.text == "Risqué"
    ensures level == Medium ==> info.color == "yellow-600" && info.text == "Moyen"
    ensures level == Low ==> info.color == "green-600" && info.text == "Modéré"
    ensures level == VeryLow ==> info.color == "emerald-600" && info.text == "Très modéré"
  {
    GetRiskLevelInfo(RiskLevelName(level))
  }

  /** No tier reaches the undefined entry. */
  lemma DefaultUnreachable(level: RiskLevel)
    ensures InfoOf(level) != UndefinedInfo
    ensures InfoOf(level).text != "Non défini"
  {
  }

  /** Distinct tiers are shown with distinct colours, backgrounds and labels. */
  lemma InfoInjective(a: RiskLevel, b: RiskLevel)
    requires a != b
    ensures InfoOf(a).color != InfoOf(b).color
    ensures InfoOf(a).bg != InfoOf(b).bg
    ensures InfoOf(a).text != InfoOf(b).text
  {
  }
}
