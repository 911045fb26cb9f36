/** Record shapes of the funding-rate service (pydantic models). */
module FundingModels {
  import opened Common

  /** The supported futures venues; `Value` is the enum's string value. */
  datatype ExchangeType = Binance | Bybit | Hyperliquid | Lighter
  {
    function Value(): string
    {
      match this
      case Binance => "binance"
      case Bybit => "bybit"
      case Hyperliquid => "hyperliquid"
      case Lighter => "lighter"
    }
  }

  /** One venue's funding snapshot for one symbol. */
  datatype FundingRateInfo = FundingRateInfo(
    exchange: ExchangeType,
    symbol: string,
    fundingRate: real,
    fundingIntervalHours: int,
    nextFundingTime: Option<Timestamp>,
    markPrice: real,
    indexPrice: real,
    timestamp: Timestamp)

  datatype FundingArbitrageRequest = FundingArbitrageRequest(
    symbol: string,
    longExchange: ExchangeType,
    shortExchange: ExchangeType,
    positionSizeUsdt: real,
    leverage: real,
    holdingPeriodHours: int)

  datatype FundingArbitrageResult = FundingArbitrageResult(
    symbol: string,
    longExchange: ExchangeType,
    shortExchange: ExchangeType,
    longFundingRate: real,
    shortFundingRate: real,
    fundingRateSpread: real,
    longMarkPrice: real,
    shortMarkPrice: real,
    priceSpreadPercent: real,
    perFundingProfitUsdt: real,
    totalFundingCount: int,
    estimatedTotalProfitUsdt: real,
    estimatedProfitPercent: real,
    apr: real,
    positionSizeUsdt: real,
    leverage: real,
    holdingPeriodHours: int,
    requiredMarginUsdt: real,
    timestamp: Timestamp)

  /** A ranked opportunity. The model declares no interval or hourly-rate
      fields, so values passed for them are dropped at construction. */
  datatype TopArbitrageOpportunity = TopArbitrageOpportunity(
    rank: int,
    symbol: string,
    longExchange: ExchangeType,
    shortExchange: ExchangeType,
    longFundingRate: real,
    shortFundingRate: real,
    fundingSpread: real,
    estimatedApr: real,
    longMarkPrice: real,
    shortMarkPrice: real,
    timestamp: Timestamp)
}
