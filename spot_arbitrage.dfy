/** The Binance/Upbit spot calculator: both trade directions priced with
    taker fees and a transfer fee, the better one reported, plus the raw
    ("kimchi") premium. A division by zero is caught and yields `None`. */
module SpotArbitrage {
  import opened Common
  import opened Tickers

  datatype Direction = BinanceToUpbit | UpbitToBinance

  /** The result dict; `pureArbitragePercent` is the key a websocket cycle adds. */
  datatype Arbitrage = Arbitrage(
    symbol: string,
    direction: Direction,
    profitPercent: real,
    rawPremiumPercent: real,
    binancePriceUsd: real,
    binancePriceKrw: real,
    upbitPriceKrw: real,
    buyPrice: real,
    sellPrice: real,
    exchangeRate: real,
    timestamp: Timestamp,
    isProfitable: bool,
    pureArbitragePercent: Option<real>)

  datatype ProfitEstimate = ProfitEstimate(investment: real, expectedProfit: real, expectedReturn: real, profitPercent: real)

  const DefaultUsdToKrwRate: real := 1300.0
  const DefaultTransferFeePercent: real := 0.001

  /** Percent profit of buying at `buyCost` and selling for `sellRevenue`,
      less the transfer fee in percentage points. */
  function DirectionPercent(buyCost: real, sellRevenue: real, transferFee: real): (p: real)
    requires buyCost != 0.0
    ensures (p + transferFee * 100.0) * buyCost == (sellRevenue - buyCost) * 100.0
  {
    ((sellRevenue - buyCost) / buyCost) * 100.0 - transferFee * 100.0
  }

  /** Both tickers present with all four quotes. */
  predicate Quoted(binance: Option<Ticker>, upbit: Option<Ticker>)
  {
    binance.Some? && upbit.Some?
    && binance.value.ask.Some? && binance.value.bid.Some? && upbit.value.ask.Some? && upbit.value.bid.Some?
  }

  /** The prices of the two round trips, in KRW: Binance's ask converted at
      `rate` against Upbit's bid, each buy with its taker fee added and each
      sell with its taker fee taken off. */
  datatype Legs = Legs(binanceKrw: real, upbitKrw: real,
                       buyBinance: real, sellUpbit: real, buyUpbit: real, sellBinance: real)

  function LegsOf(rate: real, binance: Ticker, upbit: Ticker, binanceFee: Fee, upbitFee: Fee): (l: Legs)
    requires binance.ask.Some? && upbit.bid.Some?
    ensures l.binanceKrw == binance.ask.value * rate && l.upbitKrw == upbit.bid.value
    ensures l.buyBinance == l.binanceKrw * (1.0 + binanceFee.taker) && l.sellUpbit == l.upbitKrw * (1.0 - upbitFee.taker)
    ensures l.buyUpbit == l.upbitKrw * (1.0 + upbitFee.taker) && l.sellBinance == l.binanceKrw * (1.0 - binanceFee.taker)
  {
    var binanceKrw := binance.ask.value * rate;
    var upbitKrw := upbit.bid.value;
    Legs(binanceKrw, upbitKrw,
         binanceKrw * (1.0 + binanceFee.taker), upbitKrw * (1.0 - upbitFee.taker),
         upbitKrw * (1.0 + upbitFee.taker), binanceKrw * (1.0 - binanceFee.taker))
  }

  /** The raw premium of Upbit's price over Binance's, in percent. */
  function RawPremium(upbitKrw: real, binanceKrw: real): (p: real)
    requires binanceKrw != 0.0
    ensures p * binanceKrw == (upbitKrw - binanceKrw) * 100.0
  {
    ((upbitKrw - binanceKrw) / binanceKrw) * 100.0
  }

  /** The result for priced legs: the better direction, ties going to
      Upbit -> Binance. */
  function Best(l: Legs, binance: Ticker, transferFee: real, rate: real): (a: Arbitrage)
    requires l.buyBinance != 0.0 && l.buyUpbit != 0.0 && l.binanceKrw != 0.0 && binance.ask.Some?
    ensures var pBU := DirectionPercent(l.buyBinance, l.sellUpbit, transferFee);
            var pUB := DirectionPercent(l.buyUpbit, l.sellBinance, transferFee);
            && (a.direction == BinanceToUpbit <==> pBU > pUB)
            && a.profitPercent >= pBU && a.profitPercent >= pUB
            && (a.profitPercent == pBU || a.profitPercent == pUB)
    ensures a.isProfitable <==> a.profitPercent > 0.0
    ensures a.symbol == binance.symbol && a.timestamp == binance.timestamp
    ensures a.exchangeRate == rate && a.pureArbitragePercent == None
  {
    var profitPercentBToU := DirectionPercent(l.buyBinance, l.sellUpbit, transferFee);
    var profitPercentUToB := DirectionPercent(l.buyUpbit, l.sellBinance, transferFee);
    var toUpbit := profitPercentBToU > profitPercentUToB;
    var profitPercent := if toUpbit then profitPercentBToU else profitPercentUToB;
    Arbitrage(binance.symbol, if toUpbit then BinanceToUpbit else UpbitToBinance,
      profitPercent, RawPremium(l.upbitKrw, l.binanceKrw), binance.ask.value, l.binanceKrw, l.upbitKrw,
      if toUpbit then l.buyBinance else l.buyUpbit,
      if toUpbit then l.sellUpbit else l.sellBinance,
      rate, binance.timestamp, profitPercent > 0.0, None)
  }

  /** `calculate_arbitrage` with the calculator's rate `rate`: `None` when a
      ticker or quote is missing or a buy cost is zero (the caught division). */
  function CalculateArbitrage(rate: real, binance: Option<Ticker>, upbit: Option<Ticker>,
                              binanceFee: Fee, upbitFee: Fee, transferFee: real): (r: Option<Arbitrage>)
    ensures r.Some? <==> Quoted(binance, upbit)
                         && LegsOf(rate, binance.value, upbit.value, binanceFee, upbitFee).buyBinance != 0.0
                         && LegsOf(rate, binance.value, upbit.value, binanceFee, upbitFee).buyUpbit != 0.0
    ensures r.Some? ==> r.value.symbol == binance.value.symbol && r.value.exchangeRate == rate
                        && r.value.pureArbitragePercent == None
  {
    if !Quoted(binance, upbit) then None
    else
      var l := LegsOf(rate, binance.value, upbit.value, binanceFee, upbitFee);
      if l.buyBinance == 0.0 || l.buyUpbit == 0.0 then None
      else
        assert l.binanceKrw != 0.0;
        Some(Best(l, binance.value, transferFee, rate))
  }

  /** What a computed result holds: the better of the two directions
      (ties going to Upbit -> Binance), its prices, profitability and the raw
      premium of Upbit's bid over Binance's ask in KRW. */
  lemma CalculateArbitrageRule(rate: real, binance: Option<Ticker>, upbit: Option<Ticker>,
                               binanceFee: Fee, upbitFee: Fee, transferFee: real)
    requires CalculateArbitrage(rate, binance, upbit, binanceFee, upbitFee, transferFee).Some?
    ensures var b, a := binance.value, CalculateArbitrage(rate, binance, upbit, binanceFee, upbitFee, transferFee).value;
      var l := LegsOf(rate, b, upbit.value, binanceFee, upbitFee);
      var pBU := DirectionPercent(l.buyBinance, l.sellUpbit, transferFee);
      var pUB := DirectionPercent(l.buyUpbit, l.sellBinance, transferFee);
      && a.binancePriceKrw == l.binanceKrw && a.upbitPriceKrw == l.upbitKrw
      && (a.direction == BinanceToUpbit <==> pBU > pUB)
      && a.profitPercent >= pBU && a.profitPercent >= pUB
      && (a.profitPercent == pBU || a.profitPercent == pUB)
      && (a.direction == BinanceToUpbit ==> a.profitPercent == pBU && a.buyPrice == l.buyBinance && a.sellPrice == l.sellUpbit)
      && (a.direction == UpbitToBinance ==> a.profitPercent == pUB && a.buyPrice == l.buyUpbit && a.sellPrice == l.sellBinance)
      && (a.isProfitable <==> a.profitPercent > 0.0)
      && a.rawPremiumPercent * l.binanceKrw == (l.upbitKrw - l.binanceKrw) * 100.0
      && a.symbol == b.symbol && a.timestamp == b.timestamp && a.binancePriceUsd == b.ask.value
      && a.exchangeRate == rate && a.pureArbitragePercent == None
  {
    var l := LegsOf(rate, binance.value, upbit.value, binanceFee, upbitFee);
    assert l.binanceKrw != 0.0;
    assert CalculateArbitrage(rate, binance, upbit, binanceFee, upbitFee, transferFee).value == Best(l, binance.value, transferFee, rate);
  }

  lemma GainNeedsHigherRevenue(buyCost: real, sellRevenue: real, transferFee: real)
    requires buyCost > 0.0 && transferFee >= 0.0
    requires DirectionPercent(buyCost, sellRevenue, transferFee) > 0.0
    ensures sellRevenue > buyCost
  {
    var p := DirectionPercent(buyCost, sellRevenue, transferFee);
    assert (p + transferFee * 100.0) * buyCost > 0.0;
  }

  lemma PositiveProduct(x: real, y: real)
    requires x > 0.0 && y > 0.0
    ensures x * y > 0.0
  {
  }

  /** Adding a non-negative fee to a positive price never lowers it, taking
      it off never raises it. */
  lemma FeeBounds(price: real, fee: real)
    requires price > 0.0 && fee >= 0.0
    ensures price * (1.0 - fee) <= price <= price * (1.0 + fee)
  {
    assert price * fee >= 0.0;
  }

  /** With non-negative fees, a positive exchange rate and positive quotes,
      the two directions are never profitable together. */
  lemma AtMostOneProfitableDirection(rate: real, binance: Ticker, upbit: Ticker, binanceFee: Fee, upbitFee: Fee, transferFee: real)
    requires rate > 0.0 && binance.ask.Some? && binance.ask.value > 0.0 && upbit.bid.Some? && upbit.bid.value > 0.0
    requires 0.0 <= binanceFee.taker && 0.0 <= upbitFee.taker && transferFee >= 0.0
    ensures var l := LegsOf(rate, binance, upbit, binanceFee, upbitFee);
            !(DirectionPercent(l.buyBinance, l.sellUpbit, transferFee) > 0.0
              && DirectionPercent(l.buyUpbit, l.sellBinance, transferFee) > 0.0)
  {
    var l := LegsOf(rate, binance, upbit, binanceFee, upbitFee);
    PositiveProduct(binance.ask.value, rate);
    FeeBounds(l.binanceKrw, binanceFee.taker);
    FeeBounds(l.upbitKrw, upbitFee.taker);
    if DirectionPercent(l.buyBinance, l.sellUpbit, transferFee) > 0.0
       && DirectionPercent(l.buyUpbit, l.sellBinance, transferFee) > 0.0 {
      GainNeedsHigherRevenue(l.buyBinance, l.sellUpbit, transferFee);
      GainNeedsHigherRevenue(l.buyUpbit, l.sellBinance, transferFee);
      assert false;
    }
  }

  /** The raw premium is positive exactly when Upbit's bid exceeds Binance's
      ask converted to KRW (for a positive converted ask). */
  lemma PremiumSign(a: Arbitrage)
    requires a.binancePriceKrw > 0.0
    requires a.rawPremiumPercent * a.binancePriceKrw == (a.upbitPriceKrw - a.binancePriceKrw) * 100.0
    ensures a.rawPremiumPercent > 0.0 <==> a.upbitPriceKrw > a.binancePriceKrw
  {
    if a.rawPremiumPercent > 0.0 {
      assert a.rawPremiumPercent * a.binancePriceKrw > 0.0;
    } else {
      assert a.rawPremiumPercent * a.binancePriceKrw <= 0.0;
    }
  }

  /** `calculate_profit_for_amount`: nothing for missing or unprofitable
      data, else the amount scaled by the profit percent. */
  function ProfitForAmount(data: Option<Arbitrage>, amount: real): (e: ProfitEstimate)
    ensures e.investment == amount
    ensures e.expectedReturn == e.investment + e.expectedProfit
    ensures data.None? || !data.value.isProfitable ==> e.expectedProfit == 0.0 && e.profitPercent == 0.0
    ensures data.Some? && data.value.isProfitable ==>
              e.profitPercent == data.value.profitPercent && e.expectedProfit * 100.0 == amount * e.profitPercent
  {
    if data.None? || !data.value.isProfitable then ProfitEstimate(amount, 0.0, amount, 0.0)
    else
      var profit := amount * (data.value.profitPercent / 100.0);
      ProfitEstimate(amount, profit, amount + profit, data.value.profitPercent)
  }

  /** A profitable opportunity returns more than a positive investment. */
  lemma ProfitableReturnsMore(a: Arbitrage, amount: real)
    requires a.isProfitable == (a.profitPercent > 0.0) && a.isProfitable && amount > 0.0
    ensures ProfitForAmount(Some(a), amount).expectedReturn > amount
  {
    var e := ProfitForAmount(Some(a), amount);
    assert e.expectedProfit * 100.0 == amount * a.profitPercent;
    assert amount * a.profitPercent > 0.0;
  }

  /** The calculator object: only its exchange rate is state. */
  class ArbitrageCalculator {
    var usdToKrwRate: real

    constructor(usdToKrwRate: real)
      ensures this.usdToKrwRate == usdToKrwRate
    {
      this.usdToKrwRate := usdToKrwRate;
    }

    /** Replaces the rate; later calculations read the new one. */
    method UpdateExchangeRate(rate: real)
      modifies this
      ensures usdToKrwRate == rate
    {
      usdToKrwRate := rate;
    }

    method Calculate(binance: Option<Ticker>, upbit: Option<Ticker>, binanceFee: Fee, upbitFee: Fee, transferFee: real)
      returns (r: Option<Arbitrage>)
      ensures r == CalculateArbitrage(usdToKrwRate, binance, upbit, binanceFee, upbitFee, transferFee)
    {
      r := CalculateArbitrage(usdToKrwRate, binance, upbit, binanceFee, upbitFee, transferFee);
    }
  }

  /** After `update_exchange_rate(rate)`, a calculation prices Binance's ask at `rate`. */
  method UpdateThenCalculate(calculator: ArbitrageCalculator, rate: real, binance: Option<Ticker>, upbit: Option<Ticker>,
                             binanceFee: Fee, upbitFee: Fee, transferFee: real)
    returns (r: Option<Arbitrage>)
    modifies calculator
    ensures r == CalculateArbitrage(rate, binance, upbit, binanceFee, upbitFee, transferFee)
    ensures r.Some? ==> r.value.exchangeRate == rate && r.value.binancePriceKrw == binance.value.ask.value * rate
  {
    calculator.UpdateExchangeRate(rate);
    r := calculator.Calculate(binance, upbit, binanceFee, upbitFee, transferFee);
  }
}
