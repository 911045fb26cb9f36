/** The multi-exchange spot calculator: for every unordered pair of venues
    with tickers, both buy/sell directions priced in USD with taker fees and
    a transfer fee, then all results sorted by profit percent. */
module MultiArbitrage {
  import opened Common
  import opened Tickers
  import opened Sorting
  import opened Combinations

  /** One direction's result dict. */
  datatype Opportunity = Opportunity(
    symbol: string,
    buyExchange: string,
    sellExchange: string,
    direction: string,
    action: string,
    profitPercent: real,
    rawPremiumPercent: real,
    buyPriceUsd: real,
    sellPriceUsd: real,
    buyCostUsd: real,
    sellRevenueUsd: real,
    priceDifferenceUsd: real,
    profitUsd: real,
    timestamp: Timestamp,
    isProfitable: bool)

  /** The tickers dict (venue name to ticker, `None` for a falsy one), in key order. */
  type TickerMap = seq<(string, Option<Ticker>)>

  /** The fees dict. */
  type FeeMap = seq<(string, Fee)>

  const DefaultFee: Fee := Fee(0.002, 0.002)
  const DefaultUsdToKrwRate: real := 1300.0
  const DefaultTransferFeePercent: real := 0.001

  /** `fees.get(exchange, {'maker': 0.002, 'taker': 0.002})`. */
  function FeeFor(fees: FeeMap, exchange: string): (f: Fee)
    ensures exchange !in Keys(fees) ==> f == DefaultFee
    ensures exchange in Keys(fees) ==> (exchange, f) in fees
  {
    match Lookup(fees, exchange)
    case Some(fee) => fee
    case None => DefaultFee
  }

  function Arrow(buyExchange: string, sellExchange: string): string
  {
    Upper(buyExchange) + " \U{2192} " + Upper(sellExchange)
  }

  function Action(buyExchange: string, sellExchange: string): string
  {
    "LONG @ " + Upper(buyExchange) + ", SHORT @ " + Upper(sellExchange)
  }

  function BuyCost(buyTicker: Ticker, buyFee: Fee): real
    requires buyTicker.ask.Some?
  {
    buyTicker.ask.value * (1.0 + buyFee.taker)
  }

  function SellRevenue(sellTicker: Ticker, sellFee: Fee, transferFee: real): real
    requires sellTicker.bid.Some?
  {
    sellTicker.bid.value * (1.0 - sellFee.taker) * (1.0 - transferFee)
  }

  /** `_calculate_single_arbitrage`: buy at `buyTicker`'s ask, sell at
      `sellTicker`'s bid. A missing quote gives `None`, and so does a zero
      buy cost (the division raises and is caught). */
  function SingleArbitrage(buyExchange: string, sellExchange: string, buyTicker: Ticker, sellTicker: Ticker,
                           buyFee: Fee, sellFee: Fee, transferFee: real): (r: Option<Opportunity>)
    ensures r.Some? <==> buyTicker.ask.Some? && sellTicker.bid.Some? && BuyCost(buyTicker, buyFee) != 0.0
  {
    if buyTicker.ask.None? || sellTicker.bid.None? then None
    else
      var buyPriceUsd := buyTicker.ask.value;
      var sellPriceUsd := sellTicker.bid.value;
      var buyCost := BuyCost(buyTicker, buyFee);
      var sellRevenue := SellRevenue(sellTicker, sellFee, transferFee);
      if buyCost == 0.0 then None
      else
        var profit := sellRevenue - buyCost;
        var profitPercent := (profit / buyCost) * 100.0;
        assert buyPriceUsd != 0.0;
        var rawPremiumPercent := ((sellPriceUsd - buyPriceUsd) / buyPriceUsd) * 100.0;
        Some(Opportunity(buyTicker.symbol, Upper(buyExchange), Upper(sellExchange),
          Arrow(buyExchange, sellExchange), Action(buyExchange, sellExchange),
          profitPercent, rawPremiumPercent, buyPriceUsd, sellPriceUsd, buyCost, sellRevenue,
          sellPriceUsd - buyPriceUsd, profit, buyTicker.timestamp, profitPercent > 0.0))
  }

  /** A computed direction: the cost and revenue with fees, the profit as
      their difference and as a percentage of the cost, and the raw premium. */
  lemma SingleArbitrageRule(buyExchange: string, sellExchange: string, buyTicker: Ticker, sellTicker: Ticker,
                            buyFee: Fee, sellFee: Fee, transferFee: real)
    requires SingleArbitrage(buyExchange, sellExchange, buyTicker, sellTicker, buyFee, sellFee, transferFee).Some?
    ensures var o := SingleArbitrage(buyExchange, sellExchange, buyTicker, sellTicker, buyFee, sellFee, transferFee).value;
      && o.buyPriceUsd == buyTicker.ask.value && o.sellPriceUsd == sellTicker.bid.value
      && o.buyCostUsd == buyTicker.ask.value * (1.0 + buyFee.taker)
      && o.sellRevenueUsd == sellTicker.bid.value * (1.0 - sellFee.taker) * (1.0 - transferFee)
      && o.profitUsd == o.sellRevenueUsd - o.buyCostUsd
      && o.profitPercent * o.buyCostUsd == o.profitUsd * 100.0
      && (o.isProfitable <==> o.profitPercent > 0.0)
      && o.rawPremiumPercent * o.buyPriceUsd == (o.sellPriceUsd - o.buyPriceUsd) * 100.0
      && o.priceDifferenceUsd == o.sellPriceUsd - o.buyPriceUsd
      && o.buyExchange == Upper(buyExchange) && o.sellExchange == Upper(sellExchange)
      && o.direction == o.buyExchange + " \U{2192} " + o.sellExchange
      && o.action == "LONG @ " + o.buyExchange + ", SHORT @ " + o.sellExchange
      && o.symbol == buyTicker.symbol && o.timestamp == buyTicker.timestamp
  {
    var buyCost := BuyCost(buyTicker, buyFee);
    var profit := SellRevenue(sellTicker, sellFee, transferFee) - buyCost;
    var buyPrice := buyTicker.ask.value;
    assert buyPrice != 0.0;
    var raw := ((sellTicker.bid.value - buyPrice) / buyPrice) * 100.0;
    assert raw * buyPrice == (sellTicker.bid.value - buyPrice) * 100.0;
    assert ((profit / buyCost) * 100.0) * buyCost == profit * 100.0;
  }

  /** With a positive cost, a direction is profitable exactly when its
      revenue after fees exceeds its cost. */
  lemma ProfitableIffRevenueExceedsCost(o: Opportunity)
    requires o.buyCostUsd > 0.0
    requires o.profitUsd == o.sellRevenueUsd - o.buyCostUsd
    requires o.profitPercent * o.buyCostUsd == o.profitUsd * 100.0
    requires o.isProfitable <==> o.profitPercent > 0.0
    ensures o.isProfitable <==> o.sellRevenueUsd > o.buyCostUsd
  {
    if o.profitPercent > 0.0 {
      assert o.profitPercent * o.buyCostUsd > 0.0;
    } else {
      assert o.profitPercent * o.buyCostUsd <= 0.0;
    }
  }

  /** Buying at venue `a` and selling at venue `b`, with each venue's fee:
      nothing when either ticker is falsy (the pair is skipped). */
  function Direction(tickers: TickerMap, fees: FeeMap, transferFee: real, a: nat, b: nat): (r: Option<Opportunity>)
    requires a < |tickers| && b < |tickers|
    ensures tickers[a].1.None? || tickers[b].1.None? ==> r == None
  {
    var (buyExchange, buyTicker) := tickers[a];
    var (sellExchange, sellTicker) := tickers[b];
    if buyTicker.None? || sellTicker.None? then None
    else SingleArbitrage(buyExchange, sellExchange, buyTicker.value, sellTicker.value,
                         FeeFor(fees, buyExchange), FeeFor(fees, sellExchange), transferFee)
  }

  function AsSeq(o: Option<Opportunity>): (s: seq<Opportunity>)
    ensures |s| <= 1
    ensures forall x :: x in s <==> o == Some(x)
  {
    if o.Some? then [o.value] else []
  }

  /** The results of the pair (a, b) of distinct venues: buying at a
      first, then buying at b. */
  function PairResults(tickers: TickerMap, fees: FeeMap, transferFee: real, a: nat, b: nat): (r: seq<Opportunity>)
    requires a < |tickers| && b < |tickers|
    ensures |r| <= 2
  {
    AsSeq(Direction(tickers, fees, transferFee, a, b)) + AsSeq(Direction(tickers, fees, transferFee, b, a))
  }

  /** A pair's results are exactly the directions of it that give one. */
  lemma PairResultsMember(tickers: TickerMap, fees: FeeMap, transferFee: real, a: nat, b: nat, o: Opportunity)
    requires a < |tickers| && b < |tickers|
    ensures o in PairResults(tickers, fees, transferFee, a, b)
        <==> Some(o) == Direction(tickers, fees, transferFee, a, b) || Some(o) == Direction(tickers, fees, transferFee, b, a)
  {
  }

  /** `PairResults` as a function of any two indices, for the pair
      enumeration. */
  function Pairs(tickers: TickerMap, fees: FeeMap, transferFee: real): (nat, nat) -> seq<Opportunity>
  {
    (a: nat, b: nat) => if a < |tickers| && b < |tickers| then PairResults(tickers, fees, transferFee, a, b) else []
  }

  lemma PairsAt(tickers: TickerMap, fees: FeeMap, transferFee: real, a: nat, b: nat)
    requires a < |tickers| && b < |tickers|
    ensures Pairs(tickers, fees, transferFee)(a, b) == PairResults(tickers, fees, transferFee, a, b)
  {
  }

  /** Results in `itertools.combinations` order, before sorting. */
  function AllResults(tickers: TickerMap, fees: FeeMap, transferFee: real): seq<Opportunity>
  {
    RowsBefore(Pairs(tickers, fees, transferFee), |tickers|, |tickers|)
  }

  function ProfitPercent(o: Opportunity): real { o.profitPercent }

  /** What `calculate_arbitrage_opportunities` returns. */
  function Opportunities(tickers: TickerMap, fees: FeeMap, transferFee: real): (r: seq<Opportunity>)
    ensures |r| == |AllResults(tickers, fees, transferFee)|
  {
    SortDesc(AllResults(tickers, fees, transferFee), ProfitPercent)
  }

  /** n venues give at most two results per unordered pair: n(n-1) in all. */
  lemma OpportunitiesBound(tickers: TickerMap, fees: FeeMap, transferFee: real)
    ensures |Opportunities(tickers, fees, transferFee)| <= |tickers| * (|tickers| - 1)
  {
    var n := |tickers|;
    var pairs := Pairs(tickers, fees, transferFee);
    forall a: nat, b: nat | a < b < n
      ensures |pairs(a, b)| <= 2
    {
    }
    RowsBeforeBound(pairs, n, n, 2);
    PairsBeforeCount(n, n);
    assert 2 * n - n - 1 == n - 1;
  }

  /** Every result is one direction of a pair of venues that both have tickers. */
  lemma OpportunitiesFromPairs(tickers: TickerMap, fees: FeeMap, transferFee: real, o: Opportunity)
    requires o in Opportunities(tickers, fees, transferFee)
    ensures exists a: nat, b: nat :: a < b < |tickers| && tickers[a].1.Some? && tickers[b].1.Some?
              && (Some(o) == Direction(tickers, fees, transferFee, a, b) || Some(o) == Direction(tickers, fees, transferFee, b, a))
  {
    assert o in multiset(AllResults(tickers, fees, transferFee));
    var a, b := RowsBeforeMember(Pairs(tickers, fees, transferFee), |tickers|, |tickers|, o);
    PairResultsMember(tickers, fees, transferFee, a, b, o);
  }

  /** Every direction that yields a result, of any two distinct venues, is
      in the output. */
  lemma OpportunitiesCoverPairs(tickers: TickerMap, fees: FeeMap, transferFee: real, a: nat, b: nat)
    requires a < |tickers| && b < |tickers| && a != b
    requires Direction(tickers, fees, transferFee, a, b).Some?
    ensures Direction(tickers, fees, transferFee, a, b).value in Opportunities(tickers, fees, transferFee)
  {
    var pairs := Pairs(tickers, fees, transferFee);
    var o := Direction(tickers, fees, transferFee, a, b).value;
    PairResultsMember(tickers, fees, transferFee, a, b, o);
    PairResultsMember(tickers, fees, transferFee, b, a, o);
    if a < b {
      assert o in pairs(a, b);
      RowsBeforeContains(pairs, |tickers|, |tickers|, a, b, o);
    } else {
      assert o in pairs(b, a);
      RowsBeforeContains(pairs, |tickers|, |tickers|, b, a, o);
    }
    assert o in multiset(Opportunities(tickers, fees, transferFee));
  }

  /** The result is sorted by profit percent, non-increasing, and holds
      exactly the directions computed, each as often as computed. */
  lemma OpportunitiesSorted(tickers: TickerMap, fees: FeeMap, transferFee: real)
    ensures NonIncreasing(Opportunities(tickers, fees, transferFee), ProfitPercent)
    ensures multiset(Opportunities(tickers, fees, transferFee)) == multiset(AllResults(tickers, fees, transferFee))
  {
    SortDescSorted(AllResults(tickers, fees, transferFee), ProfitPercent);
  }

  /** One pass of the pair loop: skip a pair with a falsy ticker, else
      append each direction that gives a result. */
  method EvaluatePair(tickers: TickerMap, fees: FeeMap, transferFee: real, i: nat, j: nat)
    returns (results: seq<Opportunity>)
    requires i < |tickers| && j < |tickers|
    ensures results == PairResults(tickers, fees, transferFee, i, j)
  {
    results := [];
    var (exchange1, ticker1) := tickers[i];
    var (exchange2, ticker2) := tickers[j];
    if ticker1.None? || ticker2.None? {
      return;
    }
    var opp1 := SingleArbitrage(exchange1, exchange2, ticker1.value, ticker2.value,
                                FeeFor(fees, exchange1), FeeFor(fees, exchange2), transferFee);
    if opp1.Some? {
      results := results + [opp1.value];
    }
    var opp2 := SingleArbitrage(exchange2, exchange1, ticker2.value, ticker1.value,
                                FeeFor(fees, exchange2), FeeFor(fees, exchange1), transferFee);
    if opp2.Some? {
      results := results + [opp2.value];
    }
  }

  /** One pass of the inner pair loop: the pair (i, j) appends its results
      to the row. */
  method AppendPair(tickers: TickerMap, fees: FeeMap, transferFee: real, i: nat, j: nat,
                    ghost pairs: (nat, nat) -> seq<Opportunity>, row: seq<Opportunity>)
    returns (next: seq<Opportunity>)
    requires i < j < |tickers| && pairs(i, j) == PairResults(tickers, fees, transferFee, i, j)
    requires row == Row(pairs, i, j)
    ensures next == Row(pairs, i, j + 1)
  {
    var results := EvaluatePair(tickers, fees, transferFee, i, j);
    RowSnoc(pairs, i, j, row, results);
    next := row + results;
  }

  /** The inner pair loop for venue i: its pairs with every later venue. */
  method EvaluateRow(tickers: TickerMap, fees: FeeMap, transferFee: real, i: nat,
                     ghost pairs: (nat, nat) -> seq<Opportunity>)
    returns (row: seq<Opportunity>)
    requires i < |tickers|
    requires forall b :: i < b < |tickers| ==> pairs(i, b) == PairResults(tickers, fees, transferFee, i, b)
    ensures row == Row(pairs, i, |tickers|)
  {
    row := [];
    for j := i + 1 to |tickers|
      invariant row == Row(pairs, i, j)
    {
      row := AppendPair(tickers, fees, transferFee, i, j, pairs, row);
    }
  }

  /** The calculator object. `update_exchange_rate` replaces its USD/KRW
      rate, but no calculation reads it: every venue is quoted in USD. */
  class MultiArbitrageCalculator {
    var usdToKrwRate: real

    constructor(usdToKrwRate: real)
      ensures this.usdToKrwRate == usdToKrwRate
    {
      this.usdToKrwRate := usdToKrwRate;
    }

    method UpdateExchangeRate(rate: real)
      modifies this
      ensures usdToKrwRate == rate
    {
      usdToKrwRate := rate;
    }

    /** `calculate_arbitrage_opportunities`: the pair loops, then the sort. */
    method CalculateArbitrageOpportunities(tickers: TickerMap, fees: FeeMap, transferFee: real)
      returns (opportunities: seq<Opportunity>)
      ensures opportunities == Opportunities(tickers, fees, transferFee)
    {
      ghost var pairs := Pairs(tickers, fees, transferFee);
      opportunities := [];
      for i := 0 to |tickers|
        invariant opportunities == RowsBefore(pairs, |tickers|, i)
      {
        forall b | i < b < |tickers| {
          PairsAt(tickers, fees, transferFee, i, b);
        }
        var row := EvaluateRow(tickers, fees, transferFee, i, pairs);
        opportunities := opportunities + row;
      }
      opportunities := SortDesc(opportunities, ProfitPercent);
    }
  }
}
