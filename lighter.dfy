/** The Lighter venue client's own logic: its symbol format, the search of
    the markets list for one symbol, the numeric-field fallback, and the
    conversion of every market. The HTTP reply is a parameter: `None` for a
    non-200 status or a failed request, else the decoded markets list. */
module Lighter {
  import opened Common
  import opened FundingModels

  /** A decoded JSON value. */
  datatype Json =
    | JNull
    | JBool(b: bool)
    | JNum(n: real)
    | JStr(s: string)
    | JArray(items: seq<Json>)
    | JObject(fields: seq<(string, Json)>)

  /** Every Lighter record carries the venue's one-hour interval. */
  const FundingIntervalHours: int := 1

  /** `btc/usdt:usdt`-style symbols to Lighter's `btc_usdt`. */
  function ConvertSymbol(symbol: string): (r: string)
    ensures |r| >= 5 && r[|r| - 5..] == "_usdt"
    // the base: the symbol up to its first '/', lower-cased
    ensures var base := r[..|r| - 5];
            && |base| <= |symbol| && '/' !in base
            && (|base| == |symbol| || symbol[|base|] == '/')
            && forall i :: 0 <= i < |base| ==> base[i] == LowerChar(symbol[i]) && !IsUpperAscii(base[i])
  {
    Lower(Before(symbol, '/')) + "_usdt"
  }

  /** Lighter's `btc_usdt` to `BTC/USDT:USDT`. */
  function ToCcxtSymbol(lighterSymbol: string): (r: string)
    ensures |r| >= 10 && r[|r| - 10..] == "/USDT:USDT"
    // the base: the symbol up to its first '_', upper-cased
    ensures var base := r[..|r| - 10];
            && |base| <= |lighterSymbol| && '_' !in base
            && (|base| == |lighterSymbol| || lighterSymbol[|base|] == '_')
            && forall i :: 0 <= i < |base| ==> base[i] == UpperChar(lighterSymbol[i]) && !IsLowerAscii(base[i])
  {
    Upper(Before(lighterSymbol, '_')) + "/USDT:USDT"
  }

  lemma UpperOfLower(s: string)
    requires forall i :: 0 <= i < |s| ==> !IsLowerAscii(s[i])
    ensures Upper(Lower(s)) == s
  {
  }

  lemma LowerOfUpper(s: string)
    requires forall i :: 0 <= i < |s| ==> !IsUpperAscii(s[i])
    ensures Lower(Upper(s)) == s
  {
  }

  /** Case mapping neither creates nor removes a separator. */
  lemma CaseKeepsSeparator(s: string, c: char)
    requires !IsLowerAscii(c) && !IsUpperAscii(c) && c !in s
    ensures c !in Lower(s) && c !in Upper(s)
  {
    assert forall i :: 0 <= i < |s| ==> Lower(s)[i] == LowerChar(s[i]) && LowerChar(s[i]) != c;
    assert forall i :: 0 <= i < |s| ==> Upper(s)[i] == UpperChar(s[i]) && UpperChar(s[i]) != c;
  }

  /** A CCXT perpetual symbol survives the trip through Lighter's format. */
  lemma CcxtRoundTrip(base: string)
    requires '/' !in base && '_' !in base
    requires forall i :: 0 <= i < |base| ==> !IsLowerAscii(base[i])
    ensures ToCcxtSymbol(ConvertSymbol(base + "/USDT:USDT")) == base + "/USDT:USDT"
  {
    assert base + "/USDT:USDT" == base + ['/'] + "USDT:USDT";
    BeforeOfCleanPrefix(base, '/', "USDT:USDT");
    CaseKeepsSeparator(base, '_');
    assert Lower(base) + "_usdt" == Lower(base) + ['_'] + "usdt";
    BeforeOfCleanPrefix(Lower(base), '_', "usdt");
    UpperOfLower(base);
  }

  /** A Lighter symbol survives the trip through the CCXT format. */
  lemma LighterRoundTrip(base: string)
    requires '/' !in base && '_' !in base
    requires forall i :: 0 <= i < |base| ==> !IsUpperAscii(base[i])
    ensures ConvertSymbol(ToCcxtSymbol(base + "_usdt")) == base + "_usdt"
  {
    assert base + "_usdt" == base + ['_'] + "usdt";
    BeforeOfCleanPrefix(base, '_', "usdt");
    CaseKeepsSeparator(base, '/');
    assert Upper(base) + "/USDT:USDT" == Upper(base) + ['/'] + "USDT:USDT";
    BeforeOfCleanPrefix(Upper(base), '/', "USDT:USDT");
    LowerOfUpper(base);
  }

  /** Python truthiness. */
  predicate Truthy(v: Json)
  {
    match v
    case JNull => false
    case JBool(b) => b
    case JNum(n) => n != 0.0
    case JStr(s) => s != ""
    case JArray(items) => items != []
    case JObject(fields) => fields != []
  }

  /** `float(v)`; `parse` is `float` on a string, `None` where it raises. */
  function Float(v: Json, parse: string -> Option<real>): (r: Outcome<real>)
    ensures v.JNum? ==> r == Returned(v.n)
    ensures v.JNull? || v.JArray? || v.JObject? ==> r == Raised
  {
    match v
    case JNum(n) => Returned(n)
    case JBool(b) => Returned(if b then 1.0 else 0.0)
    case JStr(s) => (match parse(s) case Some(x) => Returned(x) case None => Raised)
    case _ => Raised
  }

  /** `d.get(key, 0)`. */
  function Get(fields: seq<(string, Json)>, key: string): Json
  {
    match Lookup(fields, key)
    case Some(v) => v
    case None => JNum(0.0)
  }

  /** `float(d.get(snake, 0) or d.get(camel, 0) or 0)`. */
  function Field(fields: seq<(string, Json)>, snake: string, camel: string, parse: string -> Option<real>): (r: Outcome<real>)
    ensures Truthy(Get(fields, snake)) ==> r == Float(Get(fields, snake), parse)
    // only a truthy value that `float` rejects raises
    ensures r.Raised? ==> Truthy(Get(fields, snake)) || Truthy(Get(fields, camel))
  {
    var first := Get(fields, snake);
    if Truthy(first) then Float(first, parse)
    else
      var second := Get(fields, camel);
      if Truthy(second) then Float(second, parse) else Returned(0.0)
  }

  /** A truthy snake_case value decides the field, whatever the camelCase key holds. */
  lemma FieldSnakeWins(fields: seq<(string, Json)>, other: seq<(string, Json)>, snake: string, camel: string,
                       parse: string -> Option<real>)
    requires Get(fields, snake) == Get(other, snake) && Truthy(Get(fields, snake))
    ensures Field(fields, snake, camel, parse) == Field(other, snake, camel, parse) == Float(Get(fields, snake), parse)
  {
  }

  /** A falsy or missing snake_case value falls through to the camelCase
      key: its own value no longer matters. */
  lemma FieldFalsyFallsThrough(fields: seq<(string, Json)>, other: seq<(string, Json)>, snake: string, camel: string,
                               parse: string -> Option<real>)
    requires !Truthy(Get(fields, snake)) && !Truthy(Get(other, snake)) && Get(fields, camel) == Get(other, camel)
    ensures Field(fields, snake, camel, parse) == Field(other, snake, camel, parse)
  {
  }

  /** Neither key truthy (missing, null, zero, empty) reads as 0. */
  lemma FieldDefaultsToZero(fields: seq<(string, Json)>, snake: string, camel: string, parse: string -> Option<real>)
    requires !Truthy(Get(fields, snake)) && !Truthy(Get(fields, camel))
    ensures Field(fields, snake, camel, parse) == Returned(0.0)
  {
  }

  /** A missing key reads as falsy. */
  lemma MissingIsFalsy(fields: seq<(string, Json)>, key: string)
    requires key !in Keys(fields)
    ensures !Truthy(Get(fields, key))
  {
  }

  /** `market.get('symbol', '')` as text: a non-dict market or a non-string
      symbol raises at the next string operation. */
  function SymbolText(market: Json): (r: Outcome<string>)
    ensures !market.JObject? ==> r == Raised
  {
    match market
    case JObject(fields) =>
      (match Lookup(fields, "symbol")
       case None => Returned("")
       case Some(v) => if v.JStr? then Returned(v.s) else Raised)
    case _ => Raised
  }

  /** The three numeric fields of a market dict, or `Raised`. */
  function Numbers(market: Json, parse: string -> Option<real>): Outcome<(real, real, real)>
  {
    if !market.JObject? then Raised
    else
      var fields := market.fields;
      match (Field(fields, "funding_rate", "fundingRate", parse),
             Field(fields, "mark_price", "markPrice", parse),
             Field(fields, "index_price", "indexPrice", parse))
      case (Returned(rate), Returned(mark), Returned(index)) => Returned((rate, mark, index))
      case _ => Raised
  }

  function Record(symbol: string, numbers: (real, real, real), now: Timestamp): (info: FundingRateInfo)
    ensures info.exchange == Lighter && info.symbol == symbol && info.fundingIntervalHours == FundingIntervalHours
    ensures info.nextFundingTime == None && info.timestamp == now
    ensures info.fundingRate == numbers.0 && info.markPrice == numbers.1 && info.indexPrice == numbers.2
  {
    FundingRateInfo(Lighter, symbol, numbers.0, FundingIntervalHours, None, numbers.1, numbers.2, now)
  }

  /** A market's lower-cased symbol names `lighterSymbol`, with or without its underscore. */
  predicate Matches(marketSymbol: string, lighterSymbol: string)
  {
    Lower(marketSymbol) == lighterSymbol || Lower(marketSymbol) == RemoveChar(lighterSymbol, '_')
  }

  /** The search of `fetch_funding_rate` over the markets from `markets[0]`:
      any raise ends the whole call with `None`. */
  function Search(markets: seq<Json>, lighterSymbol: string, symbol: string, parse: string -> Option<real>, now: Timestamp)
    : (r: Option<FundingRateInfo>)
    ensures markets == [] ==> r == None
    ensures r.Some? ==> r.value.exchange == Lighter && r.value.symbol == symbol
                        && r.value.fundingIntervalHours == FundingIntervalHours && r.value.timestamp == now
  {
    if markets == [] then None
    else
      match SymbolText(markets[0])
      case Raised => None
      case Returned(s) =>
        if Matches(s, lighterSymbol) then
          (match Numbers(markets[0], parse)
           case Raised => None
           case Returned(numbers) => Some(Record(symbol, numbers, now)))
        else Search(markets[1..], lighterSymbol, symbol, parse, now)
  }

  /** What `fetch_funding_rate(symbol)` returns for the reply `reply`. */
  function FundingRateFor(symbol: string, reply: Option<seq<Json>>, parse: string -> Option<real>, now: Timestamp)
    : (r: Option<FundingRateInfo>)
    ensures reply.None? ==> r == None
    ensures r.Some? ==> r.value.exchange == Lighter && r.value.symbol == symbol
                        && r.value.fundingIntervalHours == FundingIntervalHours
  {
    if reply.None? then None else Search(reply.value, ConvertSymbol(symbol), symbol, parse, now)
  }

  /** The market at `k` is the first whose symbol matches, and the markets
      before it all carry string symbols: the result is that market's record. */
  lemma {:induction false} SearchFirstMatch(markets: seq<Json>, lighterSymbol: string, symbol: string,
                                            parse: string -> Option<real>, now: Timestamp, k: nat)
    requires k < |markets|
    requires forall j :: 0 <= j < k ==> SymbolText(markets[j]).Returned? && !Matches(SymbolText(markets[j]).value, lighterSymbol)
    requires SymbolText(markets[k]).Returned? && Matches(SymbolText(markets[k]).value, lighterSymbol)
    ensures Search(markets, lighterSymbol, symbol, parse, now)
            == match Numbers(markets[k], parse)
               case Raised => None
               case Returned(numbers) => Some(Record(symbol, numbers, now))
  {
    if k > 0 {
      SearchFirstMatch(markets[1..], lighterSymbol, symbol, parse, now, k - 1);
    }
  }

  /** With string symbols throughout and none matching, nothing is found. */
  lemma {:induction false} SearchNoMatch(markets: seq<Json>, lighterSymbol: string, symbol: string,
                                         parse: string -> Option<real>, now: Timestamp)
    requires forall j :: 0 <= j < |markets| ==> SymbolText(markets[j]).Returned? && !Matches(SymbolText(markets[j]).value, lighterSymbol)
    ensures Search(markets, lighterSymbol, symbol, parse, now) == None
  {
    if markets != [] {
      SearchNoMatch(markets[1..], lighterSymbol, symbol, parse, now);
    }
  }

  /** A found record is for the requested symbol, from Lighter, hourly, and
      comes from a market whose symbol matches. */
  lemma {:induction false} SearchFound(markets: seq<Json>, lighterSymbol: string, symbol: string,
                                       parse: string -> Option<real>, now: Timestamp)
    requires Search(markets, lighterSymbol, symbol, parse, now).Some?
    ensures var info := Search(markets, lighterSymbol, symbol, parse, now).value;
            && info.exchange == Lighter && info.symbol == symbol
            && info.fundingIntervalHours == FundingIntervalHours && info.nextFundingTime == None
            && exists k :: 0 <= k < |markets| && SymbolText(markets[k]).Returned? && Matches(SymbolText(markets[k]).value, lighterSymbol)
                 && Numbers(markets[k], parse) == Returned((info.fundingRate, info.markPrice, info.indexPrice))
  {
    var s := SymbolText(markets[0]).value;
    if !Matches(s, lighterSymbol) {
      SearchFound(markets[1..], lighterSymbol, symbol, parse, now);
      var info := Search(markets, lighterSymbol, symbol, parse, now).value;
      var k :| 0 <= k < |markets[1..]| && SymbolText(markets[1..][k]).Returned? && Matches(SymbolText(markets[1..][k]).value, lighterSymbol)
                 && Numbers(markets[1..][k], parse) == Returned((info.fundingRate, info.markPrice, info.indexPrice));
      assert markets[1..][k] == markets[k + 1];
    } else {
      assert SymbolText(markets[0]).Returned? && Matches(SymbolText(markets[0]).value, lighterSymbol);
    }
  }

  /** `fetch_funding_rate`: a first-match scan of the markets list. */
  method FetchFundingRate(symbol: string, reply: Option<seq<Json>>, parse: string -> Option<real>, now: Timestamp)
    returns (r: Option<FundingRateInfo>)
    ensures r == FundingRateFor(symbol, reply, parse, now)
  {
    if reply.None? {
      return None;
    }
    var markets := reply.value;
    var lighterSymbol := ConvertSymbol(symbol);
    var i := 0;
    while i < |markets|
      invariant i <= |markets|
      invariant Search(markets, lighterSymbol, symbol, parse, now) == Search(markets[i..], lighterSymbol, symbol, parse, now)
    {
      assert markets[i..][0] == markets[i] && markets[i..][1..] == markets[i + 1..];
      var marketSymbol := SymbolText(markets[i]);
      if marketSymbol.Raised? {
        return None;
      }
      if Matches(marketSymbol.value, lighterSymbol) {
        var numbers := Numbers(markets[i], parse);
        if numbers.Raised? {
          return None;
        }
        return Some(Record(symbol, numbers.value, now));
      }
      i := i + 1;
    }
    return None;
  }

  /** One market's record in `fetch_all_funding_rates`, `None` when it is skipped. */
  function MarketRecord(market: Json, parse: string -> Option<real>, now: Timestamp): (r: Option<FundingRateInfo>)
    ensures r.Some? <==> SymbolText(market).Returned? && Numbers(market, parse).Returned?
    ensures r.Some? ==> r.value == Record(ToCcxtSymbol(SymbolText(market).value), Numbers(market, parse).value, now)
  {
    match (SymbolText(market), Numbers(market, parse))
    case (Returned(s), Returned(numbers)) => Some(Record(ToCcxtSymbol(s), numbers, now))
    case _ => None
  }

  /** The records of every well-formed market, in the list's order. */
  function AllRecords(markets: seq<Json>, parse: string -> Option<real>, now: Timestamp): seq<FundingRateInfo>
  {
    if markets == [] then []
    else
      var prev := AllRecords(markets[..|markets| - 1], parse, now);
      match MarketRecord(markets[|markets| - 1], parse, now)
      case None => prev
      case Some(info) => prev + [info]
  }

  /** A skipped market does not disturb the others: the records of a
      concatenation are the concatenation of the records. */
  lemma {:induction false} AllRecordsAppend(a: seq<Json>, b: seq<Json>, parse: string -> Option<real>, now: Timestamp)
    ensures AllRecords(a + b, parse, now) == AllRecords(a, parse, now) + AllRecords(b, parse, now)
  {
    if b == [] {
      assert a + b == a;
    } else {
      var b' := b[..|b| - 1];
      assert (a + b)[..|a + b| - 1] == a + b';
      assert (a + b)[|a + b| - 1] == b[|b| - 1];
      AllRecordsAppend(a, b', parse, now);
    }
  }

  /** At most one record per market, each an hourly Lighter record in CCXT
      format drawn from some market. */
  lemma {:induction false} AllRecordsShape(markets: seq<Json>, parse: string -> Option<real>, now: Timestamp)
    ensures var r := AllRecords(markets, parse, now);
            && |r| <= |markets|
            && forall info :: info in r ==>
                 && info.exchange == Lighter && info.fundingIntervalHours == FundingIntervalHours
                 && info.nextFundingTime == None && info.timestamp == now
                 && exists k :: 0 <= k < |markets| && MarketRecord(markets[k], parse, now) == Some(info)
  {
    if markets != [] {
      var init := markets[..|markets| - 1];
      AllRecordsShape(init, parse, now);
      forall info | info in AllRecords(markets, parse, now)
        ensures exists k :: 0 <= k < |markets| && MarketRecord(markets[k], parse, now) == Some(info)
      {
        if info in AllRecords(init, parse, now) {
          var k :| 0 <= k < |init| && MarketRecord(init[k], parse, now) == Some(info);
          assert markets[k] == init[k];
        } else {
          assert MarketRecord(markets[|markets| - 1], parse, now) == Some(info);
        }
      }
    }
  }

  /** `fetch_all_funding_rates`: every market converted, malformed ones skipped. */
  method FetchAllFundingRates(reply: Option<seq<Json>>, parse: string -> Option<real>, now: Timestamp)
    returns (rates: seq<FundingRateInfo>)
    ensures reply.None? ==> rates == []
    ensures reply.Some? ==> rates == AllRecords(reply.value, parse, now)
  {
    rates := [];
    if reply.None? {
      return;
    }
    var markets := reply.value;
    for i := 0 to |markets|
      invariant rates == AllRecords(markets[..i], parse, now)
    {
      assert markets[..i + 1][..i] == markets[..i];
      var info := MarketRecord(markets[i], parse, now);
      if info.Some? {
        rates := rates + [info.value];
      }
    }
    assert markets[..|markets|] == markets;
  }
}
