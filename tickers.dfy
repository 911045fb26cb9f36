/** Spot ticker and fee records shared by the spot calculators, as the
    exchange wrappers return them. */
module Tickers {
  import opened Common

  /** A ticker dict: quotes may be missing (`None`). */
  datatype Ticker = Ticker(
    symbol: string,
    bid: Option<real>,
    ask: Option<real>,
    last: Option<real>,
    timestamp: Timestamp,
    exchange: string)

  /** A `{'maker': .., 'taker': ..}` fee dict. */
  datatype Fee = Fee(maker: real, taker: real)

  /** The Binance spot wrapper's constant fee schedule. */
  function BinanceTradingFee(): (f: Fee)
    ensures f.maker == f.taker == 0.001
  {
    Fee(0.001, 0.001)
  }
}
