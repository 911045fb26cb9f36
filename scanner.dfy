/** The stand-alone scanner's `ArbitrageCalculator`: symbols are normalised
    and grouped, each group's lowest-rate venue goes long and its highest-rate
    venue goes short, thresholds filter, and the survivors are ranked by APR.
    The fetchers that fill its input map are replaced by that map. */
module Scanner {
  import opened Common
  import opened Sorting

  /** One venue's funding rate as the scanner sees it. */
  datatype ScanRate = ScanRate(
    exchange: string,
    symbol: string,
    fundingRate: real,
    nextFundingTime: Option<Timestamp>,
    fundingIntervalHours: int,
    markPrice: Option<real>)

  datatype ScanOpportunity = ScanOpportunity(
    symbol: string,
    longExchange: string,
    shortExchange: string,
    longFundingRate: real,
    shortFundingRate: real,
    rateDifference: real,
    estimatedApr: real,
    longMarkPrice: Option<real>,
    shortMarkPrice: Option<real>)

  /** Per-venue rate lists, in the input map's order. */
  type RateMap = seq<(string, seq<ScanRate>)>

  /** Groups of rates keyed by normalised symbol, in first-appearance order. */
  type Groups = seq<(string, seq<ScanRate>)>

  /** Upper-case, drop spaces, '-' becomes '/', cut at the first ':'. */
  function NormalizeSymbol(symbol: string): (r: string)
    ensures ' ' !in r && '-' !in r && ':' !in r
    ensures forall i :: 0 <= i < |r| ==> !IsLowerAscii(r[i])
  {
    var upper := Upper(symbol);
    var noSpaces := RemoveChar(upper, ' ');
    var slashed := ReplaceChar(noSpaces, '-', '/');
    var r := Before(slashed, ':');
    assert forall i :: 0 <= i < |r| ==> r[i] == slashed[i];
    forall i | 0 <= i < |r| ensures !IsLowerAscii(r[i]) && r[i] != ' ' && r[i] != '-' {
      if noSpaces[i] != '-' {
        assert noSpaces[i] in upper;
        var j :| 0 <= j < |upper| && upper[j] == noSpaces[i];
      }
    }
    r
  }

  lemma UpperOfUpper(s: string)
    requires forall i :: 0 <= i < |s| ==> !IsLowerAscii(s[i])
    ensures Upper(s) == s
  {
  }

  lemma {:induction false} RemoveAbsent(s: string, c: char)
    requires c !in s
    ensures RemoveChar(s, c) == s
  {
    if s != [] {
      RemoveAbsent(s[1..], c);
      assert s == [s[0]] + s[1..];
    }
  }

  lemma {:induction false} BeforeAbsent(s: string, c: char)
    requires c !in s
    ensures Before(s, c) == s
  {
    if s != [] {
      BeforeAbsent(s[1..], c);
      assert s == [s[0]] + s[1..];
    }
  }

  /** Normalising twice is normalising once. */
  lemma NormalizeIdempotent(symbol: string)
    ensures NormalizeSymbol(NormalizeSymbol(symbol)) == NormalizeSymbol(symbol)
  {
    var n := NormalizeSymbol(symbol);
    UpperOfUpper(n);
    RemoveAbsent(n, ' ');
    assert ReplaceChar(n, '-', '/') == n;
    BeforeAbsent(n, ':');
  }

  /** `(24 / interval) * 365 * rate_difference * 100` with true division; a
      zero interval raises ZeroDivisionError. */
  function CalculateApr(rateDifference: real, fundingIntervalHours: int): (r: Outcome<real>)
    ensures r.Raised? <==> fundingIntervalHours == 0
    ensures r.Returned? ==> r.value * fundingIntervalHours as real == rateDifference * 876000.0
  {
    if fundingIntervalHours == 0 then Raised
    else
      var periodsPerYear := (24.0 / fundingIntervalHours as real) * 365.0;
      Returned(rateDifference * periodsPerYear * 100.0)
  }

  /** The APR is linear in the rate difference. */
  lemma AprLinear(d1: real, d2: real, k: real, interval: int)
    requires interval != 0
    ensures CalculateApr(d1 + d2, interval).value == CalculateApr(d1, interval).value + CalculateApr(d2, interval).value
    ensures CalculateApr(k * d1, interval).value == k * CalculateApr(d1, interval).value
  {
    var c := (24.0 / interval as real) * 365.0;
    assert (d1 + d2) * c * 100.0 == d1 * c * 100.0 + d2 * c * 100.0;
    assert (k * d1) * c * 100.0 == k * (d1 * c * 100.0);
  }

  /** All rate lists of the map, venue after venue. */
  function Flatten(allRates: RateMap): seq<ScanRate>
  {
    if allRates == [] then []
    else Flatten(allRates[..|allRates| - 1]) + allRates[|allRates| - 1].1
  }

  function NormalizeAll(symbols: seq<string>): (r: seq<string>)
    ensures |r| == |symbols|
    ensures forall i :: 0 <= i < |symbols| ==> r[i] == NormalizeSymbol(symbols[i])
  {
    seq(|symbols|, i requires 0 <= i < |symbols| => NormalizeSymbol(symbols[i]))
  }

  /** The `top_symbols` filter: it applies only when the list is non-empty
      (`None` and `[]` both switch it off). */
  predicate Wanted(rate: ScanRate, topSymbols: seq<string>)
  {
    topSymbols == [] || NormalizeSymbol(rate.symbol) in NormalizeAll(topSymbols)
  }

  /** `symbol_rates.setdefault(key, []).append(rate)` on a dict in insertion order. */
  function AddToGroup(groups: Groups, key: string, rate: ScanRate): (g: Groups)
    requires DistinctKeys(groups)
    ensures DistinctKeys(g)
    ensures |g| == if key in Keys(groups) then |groups| else |groups| + 1
    ensures forall i :: 0 <= i < |groups| ==>
              g[i] == (groups[i].0, groups[i].1 + if groups[i].0 == key then [rate] else [])
    ensures key !in Keys(groups) ==> g[|groups|] == (key, [rate])
  {
    var i := KeyIndex(groups, key);
    if i >= 0 then
      assert Keys(groups)[i] == key;
      var g := groups[i := (key, groups[i].1 + [rate])];
      forall j | 0 <= j < |groups| && j != i
        ensures g[j] == (groups[j].0, groups[j].1 + [])
      {
        assert groups[j].0 != groups[i].0;
        assert groups[j].1 + [] == groups[j].1;
      }
      g
    else
      var g := groups + [(key, [rate])];
      forall j | 0 <= j < |groups| ensures g[j] == (groups[j].0, groups[j].1 + []) {
        assert groups[j].1 + [] == groups[j].1;
      }
      g
  }

  /** The grouping loop's result for the flattened rates. */
  function Grouped(flat: seq<ScanRate>, topSymbols: seq<string>): (g: Groups)
    ensures DistinctKeys(g)
  {
    if flat == [] then []
    else
      var last := flat[|flat| - 1];
      var prev := Grouped(flat[..|flat| - 1], topSymbols);
      if Wanted(last, topSymbols) then AddToGroup(prev, NormalizeSymbol(last.symbol), last) else prev
  }

  /** The wanted rates of `flat` whose normalised symbol is `key`, in order. */
  function Matching(flat: seq<ScanRate>, key: string, topSymbols: seq<string>): seq<ScanRate>
  {
    if flat == [] then []
    else
      var last := flat[|flat| - 1];
      Matching(flat[..|flat| - 1], key, topSymbols)
        + if Wanted(last, topSymbols) && NormalizeSymbol(last.symbol) == key then [last] else []
  }

  lemma {:induction false} MatchingMembers(flat: seq<ScanRate>, key: string, topSymbols: seq<string>)
    ensures forall r :: r in Matching(flat, key, topSymbols) ==>
              r in flat && Wanted(r, topSymbols) && NormalizeSymbol(r.symbol) == key
  {
    if flat != [] {
      MatchingMembers(flat[..|flat| - 1], key, topSymbols);
    }
  }

  predicate GroupsExact(flat: seq<ScanRate>, topSymbols: seq<string>, g: Groups)
  {
    && (forall i :: 0 <= i < |g| ==> g[i].1 == Matching(flat, g[i].0, topSymbols) && g[i].1 != [])
    && (forall r :: r in flat && Wanted(r, topSymbols) ==> NormalizeSymbol(r.symbol) in Keys(g))
  }

  /** A key without a group has no matching rates. */
  /** A key with matching rates has a group. */
  lemma MatchHasGroup(flat: seq<ScanRate>, topSymbols: seq<string>, g: Groups, key: string)
    requires GroupsExact(flat, topSymbols, g)
    ensures Matching(flat, key, topSymbols) != [] ==> key in Keys(g)
  {
    var m := Matching(flat, key, topSymbols);
    if m != [] {
      MatchingMembers(flat, key, topSymbols);
      assert m[0] in m;
      assert m[0] in flat && Wanted(m[0], topSymbols) && NormalizeSymbol(m[0].symbol) == key;
    }
  }

  lemma MatchingSnoc(init: seq<ScanRate>, last: ScanRate, key: string, topSymbols: seq<string>)
    ensures Matching(init + [last], key, topSymbols)
            == Matching(init, key, topSymbols) + if Wanted(last, topSymbols) && NormalizeSymbol(last.symbol) == key then [last] else []
  {
    var flat := init + [last];
    assert flat[..|flat| - 1] == init && flat[|flat| - 1] == last;
  }

  /** Appending one wanted rate to its group keeps every group equal to its
      matching rates. */
  lemma AddToGroupExact(init: seq<ScanRate>, last: ScanRate, topSymbols: seq<string>, prev: Groups)
    requires Wanted(last, topSymbols) && DistinctKeys(prev)
    requires GroupsExact(init, topSymbols, prev)
    ensures var g := AddToGroup(prev, NormalizeSymbol(last.symbol), last);
            forall i :: 0 <= i < |g| ==> g[i].1 == Matching(init + [last], g[i].0, topSymbols) && g[i].1 != []
  {
    var key := NormalizeSymbol(last.symbol);
    var g := AddToGroup(prev, key, last);
    MatchHasGroup(init, topSymbols, prev, key);
    forall i | 0 <= i < |g| ensures g[i].1 == Matching(init + [last], g[i].0, topSymbols) && g[i].1 != [] {
      MatchingSnoc(init, last, g[i].0, topSymbols);
      if i < |prev| {
        assert g[i].0 == prev[i].0;
      } else {
        assert key !in Keys(prev) && g[i] == (key, [last]);
        assert Matching(init, key, topSymbols) == [];
      }
    }
  }

  /** Adding one wanted rate keeps every group equal to its matching rates. */
  lemma GroupedStepGroups(init: seq<ScanRate>, last: ScanRate, topSymbols: seq<string>)
    requires Wanted(last, topSymbols)
    requires GroupsExact(init, topSymbols, Grouped(init, topSymbols))
    ensures var g := Grouped(init + [last], topSymbols);
            forall i :: 0 <= i < |g| ==> g[i].1 == Matching(init + [last], g[i].0, topSymbols) && g[i].1 != []
  {
    var flat := init + [last];
    assert flat[..|flat| - 1] == init && flat[|flat| - 1] == last;
    var prev := Grouped(init, topSymbols);
    assert Grouped(flat, topSymbols) == AddToGroup(prev, NormalizeSymbol(last.symbol), last);
    AddToGroupExact(init, last, topSymbols, prev);
  }

  /** Appending to a group keeps every key and adds the new one. */
  lemma AddToGroupKeys(groups: Groups, key: string, rate: ScanRate)
    requires DistinctKeys(groups)
    ensures forall k :: k in Keys(AddToGroup(groups, key, rate)) <==> k in Keys(groups) || k == key
  {
    var g := AddToGroup(groups, key, rate);
    forall k | k in Keys(groups) || k == key ensures k in Keys(g) {
      if k in Keys(groups) {
        var j :| 0 <= j < |groups| && Keys(groups)[j] == k;
        assert Keys(g)[j] == k;
      } else if key !in Keys(groups) {
        assert Keys(g)[|groups|] == key;
      }
    }
    forall k | k in Keys(g) ensures k in Keys(groups) || k == key {
      var j :| 0 <= j < |g| && Keys(g)[j] == k;
      if j < |groups| {
        assert Keys(groups)[j] == k;
      }
    }
  }

  /** Adding one wanted rate keeps a group for every wanted symbol. */
  lemma GroupedStepKeys(init: seq<ScanRate>, last: ScanRate, topSymbols: seq<string>)
    requires Wanted(last, topSymbols)
    requires GroupsExact(init, topSymbols, Grouped(init, topSymbols))
    ensures forall r :: r in init + [last] && Wanted(r, topSymbols) ==>
              NormalizeSymbol(r.symbol) in Keys(Grouped(init + [last], topSymbols))
  {
    var flat := init + [last];
    assert flat[..|flat| - 1] == init && flat[|flat| - 1] == last;
    var prev := Grouped(init, topSymbols);
    var key := NormalizeSymbol(last.symbol);
    assert Grouped(flat, topSymbols) == AddToGroup(prev, key, last);
    AddToGroupKeys(prev, key, last);
    forall r | r in flat && Wanted(r, topSymbols) ensures r == last || r in init {
    }
  }

  /** Adding one unwanted rate changes nothing. */
  lemma GroupedSkip(init: seq<ScanRate>, last: ScanRate, topSymbols: seq<string>)
    requires !Wanted(last, topSymbols)
    requires GroupsExact(init, topSymbols, Grouped(init, topSymbols))
    ensures GroupsExact(init + [last], topSymbols, Grouped(init + [last], topSymbols))
  {
    var flat := init + [last];
    assert flat[..|flat| - 1] == init && flat[|flat| - 1] == last;
    forall r | r in flat && Wanted(r, topSymbols) ensures r in init {
    }
  }

  /** Grouping: one group per normalised symbol of a wanted rate, holding
      exactly the wanted rates of that symbol in input order. */
  lemma {:induction false} GroupedCharacterised(flat: seq<ScanRate>, topSymbols: seq<string>)
    ensures GroupsExact(flat, topSymbols, Grouped(flat, topSymbols))
  {
    if flat != [] {
      var init := flat[..|flat| - 1];
      var last := flat[|flat| - 1];
      GroupedCharacterised(init, topSymbols);
      assert flat == init + [last];
      if Wanted(last, topSymbols) {
        GroupedStepGroups(init, last, topSymbols);
        GroupedStepKeys(init, last, topSymbols);
      } else {
        GroupedSkip(init, last, topSymbols);
      }
    }
  }

  /** Sort key of the ascending sort by funding rate. */
  function NegatedRate(r: ScanRate): real { -r.fundingRate }

  /** Sort key of the final ranking. */
  function Apr(o: ScanOpportunity): real { o.estimatedApr }

  /** What one symbol's group yields: nothing, an opportunity, or a raise
      when the smaller interval is zero. `rates.sort(key=funding_rate)` is a
      stable ascending sort; its first entry goes long, its last goes short. */
  function SymbolOpportunity(symbol: string, rates: seq<ScanRate>, minApr: real): (r: Outcome<Option<ScanOpportunity>>)
    ensures |rates| < 2 ==> r == Returned(None)
    ensures r.Raised? ==> |rates| >= 2
    ensures r.Returned? && r.value.Some? ==>
              var o := r.value.value;
              && o.symbol == symbol && o.longExchange != o.shortExchange
              && o.rateDifference == o.shortFundingRate - o.longFundingRate > 0.0
              && o.estimatedApr >= minApr
  {
    if |rates| < 2 then Returned(None)
    else
      var sorted := SortDesc(rates, NegatedRate);
      var bestLong := sorted[0];
      var bestShort := sorted[|sorted| - 1];
      if bestLong.exchange == bestShort.exchange then Returned(None)
      else
        var rateDifference := bestShort.fundingRate - bestLong.fundingRate;
        if rateDifference <= 0.0 then Returned(None)
        else
          var minInterval := Min(bestLong.fundingIntervalHours, bestShort.fundingIntervalHours);
          match CalculateApr(rateDifference, minInterval)
          case Raised => Raised
          case Returned(apr) =>
            if apr >= minApr then
              Returned(Some(ScanOpportunity(symbol, bestLong.exchange, bestShort.exchange,
                bestLong.fundingRate, bestShort.fundingRate, rateDifference, apr,
                bestLong.markPrice, bestShort.markPrice)))
            else Returned(None)
  }

  /** An emitted opportunity goes long on a lowest-rate entry and short on a
      highest-rate entry of the group, on different venues, with a positive
      difference and an APR (on the smaller interval) of at least `minApr`. */
  lemma SymbolOpportunityRule(symbol: string, rates: seq<ScanRate>, minApr: real)
    ensures |rates| < 2 ==> SymbolOpportunity(symbol, rates, minApr) == Returned(None)
    ensures SymbolOpportunity(symbol, rates, minApr).Returned? && SymbolOpportunity(symbol, rates, minApr).value.Some? ==>
              var o := SymbolOpportunity(symbol, rates, minApr).value.value;
              && o.symbol == symbol
              && o.longExchange != o.shortExchange
              && o.rateDifference == o.shortFundingRate - o.longFundingRate > 0.0
              && o.estimatedApr >= minApr
              && (forall r :: r in rates ==> o.longFundingRate <= r.fundingRate <= o.shortFundingRate)
              && (exists l, s :: l in rates && s in rates
                   && l.exchange == o.longExchange && l.fundingRate == o.longFundingRate && l.markPrice == o.longMarkPrice
                   && s.exchange == o.shortExchange && s.fundingRate == o.shortFundingRate && s.markPrice == o.shortMarkPrice
                   && CalculateApr(o.rateDifference, Min(l.fundingIntervalHours, s.fundingIntervalHours)) == Returned(o.estimatedApr))
    ensures SymbolOpportunity(symbol, rates, minApr).Raised? ==> |rates| >= 2
  {
    var r := SymbolOpportunity(symbol, rates, minApr);
    if |rates| >= 2 && r.Returned? && r.value.Some? {
      var l, s := SortedEnds(rates);
      var d := s.fundingRate - l.fundingRate;
      var m := Min(l.fundingIntervalHours, s.fundingIntervalHours);
      var apr := CalculateApr(d, m);
      assert apr.Returned?;
      var o := r.value.value;
      assert o == ScanOpportunity(symbol, l.exchange, s.exchange, l.fundingRate, s.fundingRate,
                                  d, apr.value, l.markPrice, s.markPrice);
      assert l in rates && s in rates
             && l.exchange == o.longExchange && l.fundingRate == o.longFundingRate && l.markPrice == o.longMarkPrice
             && s.exchange == o.shortExchange && s.fundingRate == o.shortFundingRate && s.markPrice == o.shortMarkPrice;
    }
  }

  /** The two ends of the ascending sort: entries of the group with the
      lowest and the highest rate. */
  lemma SortedEnds(rates: seq<ScanRate>) returns (l: ScanRate, s: ScanRate)
    requires |rates| >= 2
    ensures var sorted := SortDesc(rates, NegatedRate);
            l == sorted[0] && s == sorted[|sorted| - 1]
    ensures l in rates && s in rates
    ensures forall x :: x in rates ==> l.fundingRate <= x.fundingRate <= s.fundingRate
  {
    var sorted := SortDesc(rates, NegatedRate);
    l, s := sorted[0], sorted[|sorted| - 1];
    SortDescHeadIsMax(rates, NegatedRate);
    SortDescLastIsMin(rates, NegatedRate);
    forall x | x in rates ensures l.fundingRate <= x.fundingRate <= s.fundingRate {
      assert NegatedRate(l) >= NegatedRate(x) >= NegatedRate(s);
    }
    assert l in multiset(rates) && s in multiset(rates);
  }

  lemma OpportunityKeepsSymbol(symbol: string, rates: seq<ScanRate>, minApr: real)
    ensures SymbolOpportunity(symbol, rates, minApr).Returned? && SymbolOpportunity(symbol, rates, minApr).value.Some? ==>
              SymbolOpportunity(symbol, rates, minApr).value.value.symbol == symbol
  {
  }

  function Min(a: int, b: int): int { if a <= b then a else b }

  /** The opportunities of the groups, in group order (before the final sort);
      a raise in any group raises the whole call. */
  function Scan(groups: Groups, minApr: real): Outcome<seq<ScanOpportunity>>
  {
    if groups == [] then Returned([])
    else
      var last := groups[|groups| - 1];
      match Scan(groups[..|groups| - 1], minApr)
      case Raised => Raised
      case Returned(prev) =>
        match SymbolOpportunity(last.0, last.1, minApr)
        case Raised => Raised
        case Returned(None) => Returned(prev)
        case Returned(Some(o)) => Returned(prev + [o])
  }

  /** At most one opportunity per group, each the group's own, and (the
      groups' keys being distinct) never two for one symbol. */
  lemma {:induction false} ScanOnePerSymbol(groups: Groups, minApr: real)
    ensures Scan(groups, minApr).Returned? ==>
              var s := Scan(groups, minApr).value;
              && |s| <= |groups|
              && (forall o :: o in s ==> exists k :: 0 <= k < |groups| && SymbolOpportunity(groups[k].0, groups[k].1, minApr) == Returned(Some(o)))
              && (DistinctKeys(groups) ==> forall i, j :: 0 <= i < j < |s| ==> s[i].symbol != s[j].symbol)
  {
    if groups != [] && Scan(groups, minApr).Returned? {
      var init := groups[..|groups| - 1];
      var last := groups[|groups| - 1];
      ScanOnePerSymbol(init, minApr);
      var prev := Scan(init, minApr).value;
      var s := Scan(groups, minApr).value;
      forall o | o in prev
        ensures exists k :: 0 <= k < |groups| && SymbolOpportunity(groups[k].0, groups[k].1, minApr) == Returned(Some(o))
      {
        var k :| 0 <= k < |init| && SymbolOpportunity(init[k].0, init[k].1, minApr) == Returned(Some(o));
        assert groups[k] == init[k];
      }
      if s != prev {
        var o := s[|s| - 1];
        assert SymbolOpportunity(last.0, last.1, minApr) == Returned(Some(o));
        OpportunityKeepsSymbol(last.0, last.1, minApr);
        if DistinctKeys(groups) {
          forall i | 0 <= i < |prev| ensures prev[i].symbol != o.symbol {
            assert prev[i] in prev;
            var k :| 0 <= k < |init| && SymbolOpportunity(init[k].0, init[k].1, minApr) == Returned(Some(prev[i]));
            OpportunityKeepsSymbol(init[k].0, init[k].1, minApr);
            assert groups[k].0 != groups[|groups| - 1].0;
          }
        }
      }
    }
  }

  /** What `find_arbitrage_opportunities` returns. */
  function FindArbitrage(allRates: RateMap, minApr: real, topSymbols: seq<string>): Outcome<seq<ScanOpportunity>>
  {
    match Scan(Grouped(Flatten(allRates), topSymbols), minApr)
    case Raised => Raised
    case Returned(opportunities) => Returned(SortDesc(opportunities, Apr))
  }

  /** The result is non-increasing in APR, a permutation of the per-symbol
      opportunities, at most one per normalised symbol, each above the thresholds. */
  lemma FindArbitrageShape(allRates: RateMap, minApr: real, topSymbols: seq<string>)
    ensures FindArbitrage(allRates, minApr, topSymbols).Returned? ==>
              var r := FindArbitrage(allRates, minApr, topSymbols).value;
              var g := Grouped(Flatten(allRates), topSymbols);
              && NonIncreasing(r, Apr)
              && multiset(r) == multiset(Scan(g, minApr).value)
              && |r| <= |g|
              && (forall o :: o in r ==> o.estimatedApr >= minApr && o.rateDifference > 0.0 && o.longExchange != o.shortExchange)
              && (forall o :: o in r ==>
                    (exists k :: 0 <= k < |g| && o.symbol == g[k].0 && SymbolOpportunity(g[k].0, g[k].1, minApr) == Returned(Some(o))))
  {
    var g := Grouped(Flatten(allRates), topSymbols);
    if Scan(g, minApr).Returned? {
      var s := Scan(g, minApr).value;
      var r := SortDesc(s, Apr);
      SortDescSorted(s, Apr);
      ScanOnePerSymbol(g, minApr);
      forall o | o in r
        ensures o.estimatedApr >= minApr && o.rateDifference > 0.0 && o.longExchange != o.shortExchange
        ensures exists k :: 0 <= k < |g| && o.symbol == g[k].0 && SymbolOpportunity(g[k].0, g[k].1, minApr) == Returned(Some(o))
      {
        assert o in multiset(s);
        var k :| 0 <= k < |g| && SymbolOpportunity(g[k].0, g[k].1, minApr) == Returned(Some(o));
        SymbolOpportunityRule(g[k].0, g[k].1, minApr);
      }
    }
  }

  // ---------------------------------------------------------------------------
  // The imperative operation

  /** One group of the scan loop: sort, pick the legs, apply the thresholds. */
  method EvaluateSymbol(symbol: string, rates: seq<ScanRate>, minApr: real)
    returns (r: Outcome<Option<ScanOpportunity>>)
    ensures r == SymbolOpportunity(symbol, rates, minApr)
  {
    if |rates| < 2 {
      return Returned(None);
    }
    var sorted := SortDesc(rates, NegatedRate);
    var bestLong := sorted[0];
    var bestShort := sorted[|sorted| - 1];
    if bestLong.exchange == bestShort.exchange {
      return Returned(None);
    }
    var rateDifference := bestShort.fundingRate - bestLong.fundingRate;
    if rateDifference <= 0.0 {
      return Returned(None);
    }
    var minInterval := Min(bestLong.fundingIntervalHours, bestShort.fundingIntervalHours);
    var apr := CalculateApr(rateDifference, minInterval);
    if apr.Raised? {
      return Raised;
    }
    if apr.value >= minApr {
      r := Returned(Some(ScanOpportunity(symbol, bestLong.exchange, bestShort.exchange,
        bestLong.fundingRate, bestShort.fundingRate, rateDifference, apr.value,
        bestLong.markPrice, bestShort.markPrice)));
    } else {
      r := Returned(None);
    }
  }

  /** The grouping loop's body: a wanted rate joins its symbol's group. */
  function GroupStep(groups: Groups, rate: ScanRate, topSymbols: seq<string>): Groups
    requires DistinctKeys(groups)
  {
    if Wanted(rate, topSymbols) then AddToGroup(groups, NormalizeSymbol(rate.symbol), rate) else groups
  }

  lemma GroupedSnoc(done: seq<ScanRate>, rate: ScanRate, topSymbols: seq<string>)
    ensures Grouped(done + [rate], topSymbols) == GroupStep(Grouped(done, topSymbols), rate, topSymbols)
  {
    var flat := done + [rate];
    assert flat[..|flat| - 1] == done && flat[|flat| - 1] == rate;
  }

  /** The rates seen after one more rate of a venue. */
  lemma VenuePrefixSnoc(done: seq<ScanRate>, rates: seq<ScanRate>, k: nat)
    requires k < |rates|
    ensures done + rates[..k] + [rates[k]] == done + rates[..k + 1]
  {
    assert rates[..k + 1] == rates[..k] + [rates[k]];
  }

  /** The inner loop's body: a wanted rate joins its normalised symbol's group. */
  method GroupRate(symbolRates: Groups, rate: ScanRate, topSymbols: seq<string>) returns (grouped: Groups)
    requires DistinctKeys(symbolRates)
    ensures grouped == GroupStep(symbolRates, rate, topSymbols)
  {
    grouped := symbolRates;
    if Wanted(rate, topSymbols) {
      var normalized := NormalizeSymbol(rate.symbol);
      grouped := AddToGroup(grouped, normalized, rate);
    }
  }

  /** The inner grouping loop over one venue's rates. */
  method GroupVenue(symbolRates: Groups, done: seq<ScanRate>, rates: seq<ScanRate>, topSymbols: seq<string>)
    returns (grouped: Groups)
    requires symbolRates == Grouped(done, topSymbols)
    ensures grouped == Grouped(done + rates, topSymbols)
  {
    grouped := symbolRates;
    ghost var seen := done;
    var k := 0;
    assert done + rates[..0] == done;
    while k < |rates|
      invariant 0 <= k <= |rates|
      invariant seen == done + rates[..k]
      invariant grouped == Grouped(seen, topSymbols)
    {
      GroupedSnoc(seen, rates[k], topSymbols);
      VenuePrefixSnoc(done, rates, k);
      grouped := GroupRate(grouped, rates[k], topSymbols);
      seen := seen + [rates[k]];
      k := k + 1;
    }
    assert rates[..k] == rates;
  }

  /** The grouping loops: every wanted rate appended to its symbol's group. */
  method GroupRates(allRates: RateMap, topSymbols: seq<string>) returns (symbolRates: Groups)
    ensures symbolRates == Grouped(Flatten(allRates), topSymbols)
  {
    symbolRates := [];
    var e := 0;
    while e < |allRates|
      invariant 0 <= e <= |allRates|
      invariant symbolRates == Grouped(Flatten(allRates[..e]), topSymbols)
    {
      symbolRates := GroupVenue(symbolRates, Flatten(allRates[..e]), allRates[e].1, topSymbols);
      assert allRates[..e + 1][..e] == allRates[..e];
      e := e + 1;
    }
    assert allRates[..|allRates|] == allRates;
  }

  /** The evaluation loop: every group in order, stopping at a raise. */
  method ScanGroups(symbolRates: Groups, minApr: real) returns (r: Outcome<seq<ScanOpportunity>>)
    ensures r == Scan(symbolRates, minApr)
  {
    var opportunities: seq<ScanOpportunity> := [];
    var i := 0;
    while i < |symbolRates|
      invariant 0 <= i <= |symbolRates|
      invariant Scan(symbolRates[..i], minApr) == Returned(opportunities)
    {
      assert symbolRates[..i + 1][..i] == symbolRates[..i];
      var opportunity := EvaluateSymbol(symbolRates[i].0, symbolRates[i].1, minApr);
      match opportunity {
        case Raised =>
          ScanRaisedSticks(symbolRates, i + 1, minApr);
          return Raised;
        case Returned(None) =>
        case Returned(Some(o)) =>
          opportunities := opportunities + [o];
      }
      i := i + 1;
    }
    assert symbolRates[..i] == symbolRates;
    r := Returned(opportunities);
  }

  /** Groups the rates by normalised symbol, evaluates every group in order,
      and sorts the opportunities by APR, highest first. */
  method FindArbitrageOpportunities(allRates: RateMap, minApr: real, topSymbols: seq<string>)
    returns (r: Outcome<seq<ScanOpportunity>>)
    ensures r == FindArbitrage(allRates, minApr, topSymbols)
  {
    var symbolRates := GroupRates(allRates, topSymbols);
    var opportunities := ScanGroups(symbolRates, minApr);
    if opportunities.Raised? {
      return Raised;
    }
    r := Returned(SortDesc(opportunities.value, Apr));
  }

  /** Once a group raises, the whole scan raises. */
  lemma {:induction false} ScanRaisedSticks(groups: Groups, n: nat, minApr: real)
    requires n <= |groups| && Scan(groups[..n], minApr).Raised?
    ensures Scan(groups, minApr).Raised?
    decreases |groups| - n
  {
    if n < |groups| {
      assert groups[..n + 1][..n] == groups[..n];
      ScanRaisedSticks(groups, n + 1, minApr);
    } else {
      assert groups[..n] == groups;
    }
  }
}
