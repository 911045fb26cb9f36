/** `FuturesManager`: the configured venue clients, the funding-interval
    table, and the merge of per-venue funding snapshots for one symbol. The
    clients' network fetches are a parameter: for each venue and symbol, the
    record it returns (or `None`) or the exception it raises. */
module Futures {
  import opened Common
  import opened FundingModels

  /** A venue client as the manager sees it: its kind and display name. */
  datatype Client = Client(kind: ExchangeType, name: string)

  /** The fetch each configured client performs. */
  type Fetch = (ExchangeType, string) -> Outcome<Option<FundingRateInfo>>

  /** One entry of `get_exchange_info`. */
  datatype ExchangeInfo = ExchangeInfo(id: string, name: string, fundingInterval: int)

  /** The class-level `FUNDING_INTERVALS` table. */
  const FundingIntervals: map<ExchangeType, int> := map[Binance := 8, Bybit := 8, Hyperliquid := 1, Lighter := 1]

  /** `FUNDING_INTERVALS.get(exchange, 8)`. */
  function FundingInterval(exchange: ExchangeType): (hours: int)
    ensures exchange == Binance || exchange == Bybit ==> hours == 8
    ensures exchange == Hyperliquid || exchange == Lighter ==> hours == 1
  {
    if exchange in FundingIntervals then FundingIntervals[exchange] else 8
  }

  /** `fetch_rate`: a raised exception is logged and becomes `None`. */
  function FetchRate(exchange: ExchangeType, symbol: string, fetch: Fetch): (r: Option<FundingRateInfo>)
    ensures fetch(exchange, symbol).Raised? ==> r == None
    ensures fetch(exchange, symbol).Returned? ==> r == fetch(exchange, symbol).value
  {
    match fetch(exchange, symbol)
    case Raised => None
    case Returned(rate) => rate
  }

  /** The map built by `get_all_funding_rates` from the venues `keys`, in order. */
  function Merged(keys: seq<ExchangeType>, symbol: string, fetch: Fetch): (r: seq<(ExchangeType, FundingRateInfo)>)
    ensures |r| <= |keys|
    ensures forall e :: e in r ==> e.0 in keys && FetchRate(e.0, symbol, fetch) == Some(e.1)
  {
    if keys == [] then []
    else
      var last := keys[|keys| - 1];
      var prev := Merged(keys[..|keys| - 1], symbol, fetch);
      match FetchRate(last, symbol, fetch)
      case None => prev
      case Some(rate) => prev + [(last, rate)]
  }

  /** The merge keeps exactly the venues whose fetch gave a record, each
      mapped to its own record, in the configured order. */
  lemma {:induction false} MergedCharacterised(keys: seq<ExchangeType>, symbol: string, fetch: Fetch)
    requires forall i, j :: 0 <= i < j < |keys| ==> keys[i] != keys[j]
    ensures DistinctKeys(Merged(keys, symbol, fetch))
    ensures forall e :: e in Keys(Merged(keys, symbol, fetch)) <==> e in keys && FetchRate(e, symbol, fetch).Some?
    ensures forall e :: e in keys ==> Lookup(Merged(keys, symbol, fetch), e) == FetchRate(e, symbol, fetch)
    ensures |Merged(keys, symbol, fetch)| <= |keys|
  {
    if keys != [] {
      var init := keys[..|keys| - 1];
      var last := keys[|keys| - 1];
      MergedCharacterised(init, symbol, fetch);
      var prev := Merged(init, symbol, fetch);
      var m := Merged(keys, symbol, fetch);
      assert last !in init;
      assert keys == init + [last];
      if FetchRate(last, symbol, fetch).Some? {
        var rate := FetchRate(last, symbol, fetch).value;
        assert m == Put(prev, last, rate) by {
          assert last !in Keys(prev);
        }
        forall e | e in keys
          ensures Lookup(m, e) == FetchRate(e, symbol, fetch)
        {
          PutLookup(prev, last, rate, e);
        }
      }
    }
  }

  /** One venue's failure does not disturb another venue's entry. */
  lemma MergeIsolation(keys: seq<ExchangeType>, symbol: string, fetch1: Fetch, fetch2: Fetch, e: ExchangeType)
    requires forall i, j :: 0 <= i < j < |keys| ==> keys[i] != keys[j]
    requires e in keys && fetch1(e, symbol) == fetch2(e, symbol)
    ensures Lookup(Merged(keys, symbol, fetch1), e) == Lookup(Merged(keys, symbol, fetch2), e)
  {
    MergedCharacterised(keys, symbol, fetch1);
    MergedCharacterised(keys, symbol, fetch2);
  }

  /** The client of one venue, when its constructor succeeded. */
  function Entry(name: Option<string>, exchange: ExchangeType): (r: seq<(ExchangeType, Client)>)
    ensures Keys(r) == if name.Some? then [exchange] else []
    ensures forall p :: p in r ==> p.0 == p.1.kind == exchange
  {
    if name.Some? then [(exchange, Client(exchange, name.value))] else []
  }

  /** Storing a venue's client, when it was built, under a new key appends
      its entry. */
  lemma AddEntry(prev: seq<(ExchangeType, Client)>, name: Option<string>, exchange: ExchangeType,
                 next: seq<(ExchangeType, Client)>)
    requires DistinctKeys(prev) && exchange !in Keys(prev)
    requires next == if name.Some? then Put(prev, exchange, Client(exchange, name.value)) else prev
    ensures next == prev + Entry(name, exchange)
    ensures Keys(next) == Keys(prev) + Keys(Entry(name, exchange))
  {
  }

  /** The three guarded stores of `initialize`, made into an empty map,
      build `Built`. */
  lemma InitializeBuilds(binance: Option<string>, bybit: Option<string>, hyperliquid: Option<string>,
                         afterBinance: seq<(ExchangeType, Client)>, afterBybit: seq<(ExchangeType, Client)>,
                         built: seq<(ExchangeType, Client)>)
    requires afterBinance == if binance.Some? then Put([], Binance, Client(Binance, binance.value)) else []
    requires DistinctKeys(afterBinance)
    requires afterBybit == if bybit.Some? then Put(afterBinance, Bybit, Client(Bybit, bybit.value)) else afterBinance
    requires DistinctKeys(afterBybit)
    requires built == if hyperliquid.Some? then Put(afterBybit, Hyperliquid, Client(Hyperliquid, hyperliquid.value)) else afterBybit
    ensures built == Built(binance, bybit, hyperliquid)
  {
    AddEntry([], binance, Binance, afterBinance);
    AddEntry(afterBinance, bybit, Bybit, afterBybit);
    assert Hyperliquid !in Keys(afterBybit);
    AddEntry(afterBybit, hyperliquid, Hyperliquid, built);
  }

  /** The clients built by `initialize`, in its order; `None` stands for a
      constructor that raised. Lighter is not built. */
  function Built(binance: Option<string>, bybit: Option<string>, hyperliquid: Option<string>): seq<(ExchangeType, Client)>
  {
    Entry(binance, Binance) + Entry(bybit, Bybit) + Entry(hyperliquid, Hyperliquid)
  }

  /** The keys of the built map: the venues whose constructor succeeded. */
  lemma BuiltKeys(binance: Option<string>, bybit: Option<string>, hyperliquid: Option<string>)
    ensures Keys(Built(binance, bybit, hyperliquid))
            == (if binance.Some? then [Binance] else []) + (if bybit.Some? then [Bybit] else [])
               + (if hyperliquid.Some? then [Hyperliquid] else [])
  {
    KeysAppend(Entry(binance, Binance), Entry(bybit, Bybit));
    KeysAppend(Entry(binance, Binance) + Entry(bybit, Bybit), Entry(hyperliquid, Hyperliquid));
  }

  /** The built map never holds Lighter, and holds each other venue exactly
      when its constructor succeeded. */
  lemma BuiltVenues(binance: Option<string>, bybit: Option<string>, hyperliquid: Option<string>)
    ensures Lighter !in Keys(Built(binance, bybit, hyperliquid))
    ensures Binance in Keys(Built(binance, bybit, hyperliquid)) <==> binance.Some?
    ensures Bybit in Keys(Built(binance, bybit, hyperliquid)) <==> bybit.Some?
    ensures Hyperliquid in Keys(Built(binance, bybit, hyperliquid)) <==> hyperliquid.Some?
  {
    BuiltKeys(binance, bybit, hyperliquid);
  }

  /** The built map is a dict: no venue twice. */
  lemma BuiltDistinct(binance: Option<string>, bybit: Option<string>, hyperliquid: Option<string>)
    ensures DistinctKeys(Built(binance, bybit, hyperliquid))
  {
    BuiltKeys(binance, bybit, hyperliquid);
    var ks := Keys(Built(binance, bybit, hyperliquid));
    assert forall i, j :: 0 <= i < j < |ks| ==> ks[i] != ks[j];
  }

  /** Each venue is served by a client of its own kind. */
  lemma BuiltKinds(binance: Option<string>, bybit: Option<string>, hyperliquid: Option<string>)
    ensures forall p :: p in Built(binance, bybit, hyperliquid) ==> p.1.kind == p.0
  {
  }

  /** One pass of the merge loop: a record that is not `None` is stored
      under its venue, which the map does not hold yet. */
  method MergeResult(keys: seq<ExchangeType>, i: nat, symbol: string, fetch: Fetch,
                     result: seq<(ExchangeType, FundingRateInfo)>, rate: Option<FundingRateInfo>)
    returns (next: seq<(ExchangeType, FundingRateInfo)>)
    requires i < |keys| && forall a, b :: 0 <= a < b < |keys| ==> keys[a] != keys[b]
    requires result == Merged(keys[..i], symbol, fetch) && rate == FetchRate(keys[i], symbol, fetch)
    ensures next == Merged(keys[..i + 1], symbol, fetch)
  {
    assert keys[..i + 1][..i] == keys[..i];
    next := result;
    if rate.Some? {
      MergedCharacterised(keys[..i], symbol, fetch);
      assert keys[i] !in Keys(result);
      next := Put(result, keys[i], rate.value);
      assert next == result + [(keys[i], rate.value)];
    }
  }

  class FuturesManager {
    /** The configured clients, keyed by venue, in insertion order. */
    var exchanges: seq<(ExchangeType, Client)>
    var initialized: bool

    ghost predicate Valid()
      reads this
    {
      DistinctKeys(exchanges) && (!initialized ==> exchanges == [])
    }

    constructor()
      ensures Valid()
      ensures exchanges == [] && !initialized
    {
      exchanges := [];
      initialized := false;
    }

    /** Builds the clients once; later calls return at once and change nothing. */
    method Initialize(binance: Option<string>, bybit: Option<string>, hyperliquid: Option<string>)
      requires Valid()
      modifies this
      ensures Valid() && initialized
      ensures old(initialized) ==> exchanges == old(exchanges)
      ensures !old(initialized) ==> exchanges == Built(binance, bybit, hyperliquid)
    {
      if initialized {
        return;
      }
      var built := exchanges;
      if binance.Some? {
        built := Put(built, Binance, Client(Binance, binance.value));
      }
      ghost var afterBinance := built;
      if bybit.Some? {
        built := Put(built, Bybit, Client(Bybit, bybit.value));
      }
      ghost var afterBybit := built;
      if hyperliquid.Some? {
        built := Put(built, Hyperliquid, Client(Hyperliquid, hyperliquid.value));
      }
      InitializeBuilds(binance, bybit, hyperliquid, afterBinance, afterBybit, built);
      exchanges := built;
      initialized := true;
    }

    /** An unconfigured venue gives `None` without fetching; otherwise the
        client's own outcome, a raise included. */
    method GetFundingRate(exchange: ExchangeType, symbol: string, fetch: Fetch)
      returns (r: Outcome<Option<FundingRateInfo>>)
      requires Valid()
      ensures exchange !in Keys(exchanges) ==> r == Returned(None)
      ensures exchange in Keys(exchanges) ==> r == fetch(exchange, symbol)
    {
      if Lookup(exchanges, exchange).None? {
        return Returned(None);
      }
      r := fetch(exchange, symbol);
    }

    /** Fetches every configured venue (the gather keeps their order) and
        keeps the records that are not `None`. */
    method GetAllFundingRates(symbol: string, fetch: Fetch)
      returns (result: seq<(ExchangeType, FundingRateInfo)>)
      requires Valid()
      ensures result == Merged(Keys(exchanges), symbol, fetch)
    {
      var keys := Keys(exchanges);
      var results: seq<(ExchangeType, Option<FundingRateInfo>)> := [];
      for i := 0 to |keys|
        invariant |results| == i
        invariant forall j :: 0 <= j < i ==> results[j] == (keys[j], FetchRate(keys[j], symbol, fetch))
      {
        results := results + [(keys[i], FetchRate(keys[i], symbol, fetch))];
      }
      result := [];
      for i := 0 to |results|
        invariant result == Merged(keys[..i], symbol, fetch)
      {
        result := MergeResult(keys, i, symbol, fetch, result, results[i].1);
      }
      assert keys[..|results|] == keys;
    }

    /** One entry per configured venue, in order, with its interval. */
    function ExchangeInfoList(): (r: seq<ExchangeInfo>)
      reads this
      ensures |r| == |exchanges|
      ensures forall i :: 0 <= i < |r| ==>
                r[i].id == exchanges[i].0.Value() && r[i].name == exchanges[i].1.name
                && r[i].fundingInterval == FundingInterval(exchanges[i].0)
    {
      seq(|exchanges|, i requires 0 <= i < |exchanges| reads this =>
        ExchangeInfo(exchanges[i].0.Value(), exchanges[i].1.name, FundingInterval(exchanges[i].0)))
    }
  }
}
