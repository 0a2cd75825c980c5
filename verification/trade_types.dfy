/** The records shared by every component of the calculator. */
module TradeTypes {

  /** Direction of a position. */
  datatype TradeType = Long | Short

  /** The five risk tiers, from the riskiest to the safest. */
  datatype RiskLevel = VeryHigh | High | Medium | Low | VeryLow

  /** What the form hands over: a trade before it is given an id and a timestamp. */
  datatype TradeData = TradeData(
    amount: real,
    entryPrice: real,
    takeProfit: real,
    stopLoss: real,
    leverage: real,
    asset: string,
    tradeType: TradeType)

  /** A recorded trade: the submitted data plus the identity assigned on acceptance. */
  datatype Trade = Trade(id: string, timestamp: int, data: TradeData)

  /** The derived figures shown for one trade. */
  datatype TradeCalculation = TradeCalculation(
    potentialProfit: real,
    potentialLoss: real,
    profitPercentage: real,
    lossPercentage: real,
    riskRewardRatio: real,
    riskLevel: RiskLevel)

  function Abs(x: real): (r: real)
    ensures r >= 0.0
    ensures r == x || r == -x
  {
    if x < 0.0 then -x else x
  }

  /** The direction multiplier: +1 for a long, -1 for a short, never anything else. */
  function Multiplier(t: TradeType): (m: real)
    ensures m == 1.0 || m == -1.0
    ensures m == 1.0 <==> t == Long
    ensures m * m == 1.0
  {
    if t == Long then 1.0 else -1.0
  }

  /** The string spelling of a tier, as the union type spells it. */
  function RiskLevelName(level: RiskLevel): string
  {
    match level
    case VeryHigh => "very_high"
    case High => "high"
    case Medium => "medium"
    case Low => "low"
    case VeryLow => "very_low"
  }

  /** Riskiness of a tier: very_high is 4, very_low is 0. */
  function Rank(level: RiskLevel): (n: nat)
    ensures n <= 4
  {
    match level
    case VeryHigh => 4
    case High => 3
    case Medium => 2
    case Low => 1
    case VeryLow => 0
  }

  /** Distinct tiers have distinct spellings and distinct ranks, so the tiers are totally ordered. */
  lemma TiersDistinct(a: RiskLevel, b: RiskLevel)
    requires a != b
    ensures RiskLevelName(a) != RiskLevelName(b)
    ensures Rank(a) != Rank(b)
  {
  }
}
