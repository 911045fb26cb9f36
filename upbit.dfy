/** The Upbit spot wrapper's own logic: the KRW symbol conversion, the
    bid/ask fallback of `fetch_ticker`, the keying of `fetch_multiple_tickers`
    and the constant fee. The exchange's replies are parameters. */
module Upbit {
  import opened Common
  import opened Tickers

  /** What the exchange's ticker call returns. */
  datatype RawTicker = RawTicker(bid: Option<real>, ask: Option<real>, last: Option<real>, timestamp: Timestamp)

  /** The top of an order book: the price of each level, best first. */
  datatype OrderBook = OrderBook(bids: seq<real>, asks: seq<real>)

  const ExchangeName: string := "Upbit"

  /** The base before the first '/', quoted in KRW. */
  function ConvertSymbol(symbol: string): (r: string)
    ensures '/' in r
    ensures |r| >= 4 && r[|r| - 4..] == "/KRW"
    // the base is the symbol up to, not including, its first '/'
    ensures r[..|r| - 4] <= symbol && '/' !in r[..|r| - 4]
    ensures r[..|r| - 4] == symbol || symbol[|r| - 4] == '/'
    ensures '/' !in symbol ==> r == symbol + "/KRW"
  {
    var base := Before(symbol, '/');
    assert (base + "/KRW")[|base|] == '/';
    base + "/KRW"
  }

  /** A converted symbol converts to itself. */
  lemma ConvertSymbolIdempotent(symbol: string)
    ensures ConvertSymbol(ConvertSymbol(symbol)) == ConvertSymbol(symbol)
  {
    var base := Before(symbol, '/');
    assert base + "/KRW" == base + ['/'] + "KRW";
    BeforeOfCleanPrefix(base, '/', "KRW");
  }

  /** `fetch_ticker`: `fetched` is the ticker call's outcome and `book` the
      outcome of the order-book call, which is made only when a quote is
      missing (`None` stands for an empty or incomplete book). */
  method FetchTicker(symbol: string, fetched: Outcome<RawTicker>, book: Outcome<Option<OrderBook>>)
    returns (r: Option<Ticker>, consultedBook: bool)
    ensures fetched.Raised? ==> r == None && !consultedBook
    ensures fetched.Returned? ==>
      var t := fetched.value;
      && r.Some?
      && r.value.symbol == symbol && r.value.last == t.last && r.value.timestamp == t.timestamp
      && r.value.exchange == ExchangeName
      // a fully quoted ticker is used as is
      && (consultedBook <==> t.bid.None? || t.ask.None?)
      && (!consultedBook ==> r.value.bid == t.bid && r.value.ask == t.ask)
      // a failing book leaves both sides at the last trade price
      && (consultedBook && book.Raised? ==> r.value.bid == t.last && r.value.ask == t.last)
      // a usable book overwrites each side it has a level for
      && (consultedBook && book.Returned? && book.value.Some? ==>
            var ob := book.value.value;
            && r.value.bid == (if |ob.bids| > 0 then Some(ob.bids[0]) else t.bid)
            && r.value.ask == (if |ob.asks| > 0 then Some(ob.asks[0]) else t.ask))
      && (consultedBook && book == Returned(None) ==> r.value.bid == t.bid && r.value.ask == t.ask)
      // a side the ticker quoted is lost only when the book call fails
      && (!book.Raised? ==> (t.bid.Some? ==> r.value.bid.Some?) && (t.ask.Some? ==> r.value.ask.Some?))
  {
    consultedBook := false;
    if fetched.Raised? {
      return None, consultedBook;
    }
    var ticker := fetched.value;
    var bid := ticker.bid;
    var ask := ticker.ask;
    if bid.None? || ask.None? {
      consultedBook := true;
      match book {
        case Raised =>
          bid := ticker.last;
          ask := ticker.last;
        case Returned(orderbook) =>
          if orderbook.Some? {
            if |orderbook.value.bids| > 0 {
              bid := Some(orderbook.value.bids[0]);
            }
            if |orderbook.value.asks| > 0 {
              ask := Some(orderbook.value.asks[0]);
            }
          }
      }
    }
    r := Some(Ticker(symbol, bid, ask, ticker.last, ticker.timestamp, ExchangeName));
  }

  /** `fetch_multiple_tickers`: `fetchTicker` gives `fetch_ticker`'s result
      for an Upbit symbol. Results are keyed by the caller's own symbol. */
  method FetchMultipleTickers(symbols: seq<string>, fetchTicker: string -> Option<Ticker>)
    returns (result: seq<(string, Ticker)>)
    ensures DistinctKeys(result)
    ensures forall s :: s in Keys(result) <==> s in symbols && fetchTicker(ConvertSymbol(s)).Some?
    ensures forall s :: s in symbols ==> Lookup(result, s) == fetchTicker(ConvertSymbol(s))
  {
    result := [];
    for i := 0 to |symbols|
      invariant DistinctKeys(result)
      invariant forall s :: s in Keys(result) <==> s in symbols[..i] && fetchTicker(ConvertSymbol(s)).Some?
      invariant forall s :: s in symbols[..i] ==> Lookup(result, s) == fetchTicker(ConvertSymbol(s))
    {
      var symbol := symbols[i];
      var ticker := fetchTicker(ConvertSymbol(symbol));
      assert symbols[..i + 1] == symbols[..i] + [symbol];
      if ticker.Some? {
        FetchMultipleStep(result, symbol, ticker.value, symbols[..i], fetchTicker);
        result := Put(result, symbol, ticker.value);
      }
    }
    assert symbols[..|symbols|] == symbols;
  }

  /** One fetched ticker stored under its symbol keeps the loop's invariant. */
  lemma FetchMultipleStep(result: seq<(string, Ticker)>, symbol: string, ticker: Ticker,
                          done: seq<string>, fetchTicker: string -> Option<Ticker>)
    requires DistinctKeys(result) && fetchTicker(ConvertSymbol(symbol)) == Some(ticker)
    requires forall s :: s in Keys(result) <==> s in done && fetchTicker(ConvertSymbol(s)).Some?
    requires forall s :: s in done ==> Lookup(result, s) == fetchTicker(ConvertSymbol(s))
    ensures var r := Put(result, symbol, ticker);
            && (forall s :: s in Keys(r) <==> s in done + [symbol] && fetchTicker(ConvertSymbol(s)).Some?)
            && (forall s :: s in done + [symbol] ==> Lookup(r, s) == fetchTicker(ConvertSymbol(s)))
  {
    var r := Put(result, symbol, ticker);
    forall s | s in done + [symbol]
      ensures Lookup(r, s) == fetchTicker(ConvertSymbol(s))
    {
      PutLookup(result, symbol, ticker, s);
    }
  }

  /** `get_trading_fee`: the same constant for every symbol. */
  function TradingFee(symbol: Option<string>): (f: Fee)
    ensures f.maker == f.taker == 0.0005
  {
    Fee(0.0005, 0.0005)
  }
}
