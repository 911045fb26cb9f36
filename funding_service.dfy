/** The funding-rate arbitrage ranker: one long/short leg pair priced by
    `CalculateArbitrage`, every exchange pair of a symbol ranked by
    `FindTopOpportunities`, and several symbols merged by
    `FindAllOpportunities`. Fetching is replaced by the snapshot it returns. */
module FundingService {
  import opened Common
  import opened FundingModels
  import opened Sorting
  import opened Combinations

  /** Position parameters shared by every pair of one query, and the instant
      that `datetime.now()` would give. */
  datatype Params = Params(position: real, leverage: real, hours: int, now: Timestamp)

  /** One entry of the per-exchange snapshot map, in the map's order. */
  type Entry = (ExchangeType, FundingRateInfo)

  function Abs(x: real): (a: real)
    ensures a >= 0.0 && (a == x || a == -x)
  {
    if x < 0.0 then -x else x
  }

  function Min(a: real, b: real): real { if a <= b then a else b }
  function Max(a: real, b: real): real { if a >= b then a else b }

  /** Fundings per day on the short leg: `24 // interval`, or 3 for a
      non-positive interval. */
  function FundingsPerDay(interval: int): (n: nat)
    ensures interval <= 0 ==> n == 3
  {
    if interval > 0 then 24 / interval else 3
  }

  /** For a positive interval, the number of whole intervals in a day. */
  lemma FundingsPerDayFloor(interval: int)
    requires interval > 0
    ensures FundingsPerDay(interval) * interval <= 24 < (FundingsPerDay(interval) + 1) * interval
  {
  }

  /** Fundings during the holding period: `hours // interval`, with 8 hours
      standing in for a non-positive interval (floor division). */
  function FundingCount(hours: int, interval: int): (n: int)
    ensures var d := if interval > 0 then interval else 8;
            n * d <= hours < (n + 1) * d
  {
    if interval > 0 then hours / interval else hours / 8
  }

  /** The profit of `count` fundings of `perFunding` each. */
  function Times(perFunding: real, count: int): real { perFunding * count as real }

  /** Margin for both legs: `(position / leverage) * 2`. */
  function RequiredMargin(position: real, leverage: real): (m: real)
    requires leverage != 0.0
    ensures m * leverage == 2.0 * position
  {
    (position / leverage) * 2.0
  }

  /** Profit as a percent of the margin, 0 unless the margin is positive. */
  function ProfitPercent(total: real, margin: real): (pct: real)
    ensures margin > 0.0 ==> pct * margin == 100.0 * total
    ensures margin <= 0.0 ==> pct == 0.0
  {
    if margin > 0.0 then (total / margin) * 100.0 else 0.0
  }

  /** APR of a native spread: `|spread| * fundings per day * 365 * 100`. */
  function SpreadApr(spread: real, shortInterval: int): (apr: real)
    ensures apr >= 0.0
    ensures apr == Abs(spread) * FundingsPerDay(shortInterval) as real * 36500.0
  {
    Abs(spread) * FundingsPerDay(shortInterval) as real * 365.0 * 100.0
  }

  /** Price spread as a percent of the smaller mark price when both are
      positive, of the larger one otherwise, and 0 when that is not positive. */
  function PriceSpreadPercent(longMark: real, shortMark: real): (pct: real)
    ensures longMark > 0.0 && shortMark > 0.0 ==> pct * Min(longMark, shortMark) == 100.0 * Abs(longMark - shortMark)
    ensures (longMark > 0.0) != (shortMark > 0.0) ==> pct * Max(longMark, shortMark) == 100.0 * Abs(longMark - shortMark)
    ensures longMark <= 0.0 && shortMark <= 0.0 ==> pct == 0.0
    ensures pct >= 0.0
  {
    var minPrice := if longMark > 0.0 && shortMark > 0.0 then Min(longMark, shortMark) else Max(longMark, shortMark);
    var priceSpread := Abs(longMark - shortMark);
    if minPrice > 0.0 then (priceSpread / minPrice) * 100.0 else 0.0
  }

  /** The price of one orientation: long leg `longRate`, short leg `shortRate`.
      A zero leverage divides by zero and raises. */
  function CalculateArbitrage(request: FundingArbitrageRequest, longRate: FundingRateInfo,
                              shortRate: FundingRateInfo, now: Timestamp): (r: Outcome<FundingArbitrageResult>)
    ensures r.Raised? <==> request.leverage == 0.0
    // both legs need margin
    ensures r.Returned? ==> r.value.requiredMarginUsdt * request.leverage == 2.0 * request.positionSizeUsdt
    // the short leg receives its rate, the long leg pays its rate
    ensures r.Returned? ==> r.value.fundingRateSpread == shortRate.fundingRate - longRate.fundingRate
    ensures r.Returned? ==> r.value.perFundingProfitUsdt == r.value.fundingRateSpread * request.positionSizeUsdt
    // the short leg's interval sets the number of fundings
    ensures r.Returned? ==> r.value.totalFundingCount == FundingCount(request.holdingPeriodHours, shortRate.fundingIntervalHours)
    ensures r.Returned? ==> r.value.estimatedTotalProfitUsdt == Times(r.value.perFundingProfitUsdt, r.value.totalFundingCount)
    ensures r.Returned? ==> r.value.estimatedProfitPercent == ProfitPercent(r.value.estimatedTotalProfitUsdt, r.value.requiredMarginUsdt)
    // APR on the native spread and the short leg's fundings per day
    ensures r.Returned? ==> r.value.apr == SpreadApr(r.value.fundingRateSpread, shortRate.fundingIntervalHours)
    ensures r.Returned? ==> r.value.priceSpreadPercent == PriceSpreadPercent(longRate.markPrice, shortRate.markPrice)
    // the request and the legs are echoed unchanged
    ensures r.Returned? ==>
      var v := r.value;
      && v.symbol == request.symbol
      && v.longExchange == request.longExchange && v.shortExchange == request.shortExchange
      && v.longFundingRate == longRate.fundingRate && v.shortFundingRate == shortRate.fundingRate
      && v.longMarkPrice == longRate.markPrice && v.shortMarkPrice == shortRate.markPrice
  {
    if request.leverage == 0.0 then Raised
    else
      var requiredMargin := RequiredMargin(request.positionSizeUsdt, request.leverage);
      var spread := shortRate.fundingRate - longRate.fundingRate;
      var shortInterval := shortRate.fundingIntervalHours;
      var count := FundingCount(request.holdingPeriodHours, shortInterval);
      var perFunding := spread * request.positionSizeUsdt;
      var total := Times(perFunding, count);
      Returned(FundingArbitrageResult(
        request.symbol, request.longExchange, request.shortExchange,
        longRate.fundingRate, shortRate.fundingRate, spread,
        longRate.markPrice, shortRate.markPrice, PriceSpreadPercent(longRate.markPrice, shortRate.markPrice),
        perFunding, count, total, ProfitPercent(total, requiredMargin), SpreadApr(spread, shortInterval),
        request.positionSizeUsdt, request.leverage, request.holdingPeriodHours,
        requiredMargin, now))
  }

  /** A rate per hour: `rate / interval`, or the raw rate for a non-positive interval. */
  function HourlyRate(rate: real, interval: int): (h: real)
    ensures interval > 0 ==> h * interval as real == rate
    ensures interval <= 0 ==> h == rate
  {
    if interval > 0 then rate / interval as real else rate
  }

  /** The hourly spread of the chosen legs (computed for the output record,
      which does not keep it). */
  function HourlySpread(longRate: FundingRateInfo, shortRate: FundingRateInfo): real
  {
    HourlyRate(shortRate.fundingRate, shortRate.fundingIntervalHours)
      - HourlyRate(longRate.fundingRate, longRate.fundingIntervalHours)
  }

  function RequestFor(symbol: string, p: Params, longEx: ExchangeType, shortEx: ExchangeType): FundingArbitrageRequest
  {
    FundingArbitrageRequest(symbol, longEx, shortEx, p.position, p.leverage, p.hours)
  }

  /** The opportunity kept for the pair (e1, e2): (long e1, short e2) when its
      APR is strictly greater, (long e2, short e1) otherwise. */
  function PairOpportunity(symbol: string, p: Params, e1: Entry, e2: Entry): (o: TopArbitrageOpportunity)
    requires p.leverage != 0.0
    ensures o.rank == 0 && o.symbol == symbol && o.timestamp == p.now
    ensures o.fundingSpread == o.shortFundingRate - o.longFundingRate
    ensures o.estimatedApr >= 0.0
  {
    var result1 := CalculateArbitrage(RequestFor(symbol, p, e1.0, e2.0), e1.1, e2.1, p.now).value;
    var result2 := CalculateArbitrage(RequestFor(symbol, p, e2.0, e1.0), e2.1, e1.1, p.now).value;
    var firstWins := result1.apr > result2.apr;
    var best := if firstWins then result1 else result2;
    var bestLong := if firstWins then e1.1 else e2.1;
    var bestShort := if firstWins then e2.1 else e1.1;
    TopArbitrageOpportunity(0, symbol, best.longExchange, best.shortExchange,
      best.longFundingRate, best.shortFundingRate, best.fundingRateSpread, best.apr,
      bestLong.markPrice, bestShort.markPrice, p.now)
  }

  /** Sort key of every ranking. */
  function EstimatedApr(o: TopArbitrageOpportunity): real { o.estimatedApr }

  /** The candidate of the pair (a, b) of snapshot entries, as the one-entry
      contribution of that pair to the enumeration of `Combinations`. */
  function Kept(symbol: string, p: Params, rates: seq<Entry>): (nat, nat) -> seq<TopArbitrageOpportunity>
  {
    (a: nat, b: nat) =>
      if p.leverage != 0.0 && a < |rates| && b < |rates| then [PairOpportunity(symbol, p, rates[a], rates[b])] else []
  }

  lemma KeptAt(symbol: string, p: Params, rates: seq<Entry>, a: nat, b: nat)
    requires p.leverage != 0.0 && a < |rates| && b < |rates|
    ensures Kept(symbol, p, rates)(a, b) == [PairOpportunity(symbol, p, rates[a], rates[b])]
  {
  }

  /** One candidate per unordered pair, in `itertools.combinations` order. */
  function Candidates(symbol: string, p: Params, rates: seq<Entry>): seq<TopArbitrageOpportunity>
  {
    RowsBefore(Kept(symbol, p, rates), |rates|, |rates|)
  }

  /** Ranks 1..n written into the list in its order. */
  function Ranked(s: seq<TopArbitrageOpportunity>): (r: seq<TopArbitrageOpportunity>)
    ensures |r| == |s|
    ensures forall i :: 0 <= i < |s| ==> r[i].rank == i + 1 && r[i].(rank := s[i].rank) == s[i]
  {
    seq(|s|, i requires 0 <= i < |s| => s[i].(rank := i + 1))
  }

  /** What `find_top_opportunities` returns for one symbol's snapshot map. */
  function TopOpportunities(symbol: string, p: Params, allRates: seq<Entry>): (r: Outcome<seq<TopArbitrageOpportunity>>)
    ensures |allRates| < 2 ==> r == Returned([])
    ensures r.Raised? <==> |allRates| >= 2 && p.leverage == 0.0
    ensures r.Returned? ==> forall i :: 0 <= i < |r.value| ==> r.value[i].rank == i + 1
  {
    if |allRates| < 2 then Returned([])
    else if p.leverage == 0.0 then Raised
    else Returned(Ranked(SortDesc(Candidates(symbol, p, allRates), EstimatedApr)))
  }

  /** What one symbol adds to the merged list: nothing when its lookup raised,
      its first (best) opportunity when `onePerSymbol`, else all of them. */
  function Contribution(symbol: string, snapshot: seq<Entry>, p: Params, onePerSymbol: bool): seq<TopArbitrageOpportunity>
  {
    match TopOpportunities(symbol, p, snapshot)
    case Raised => []
    case Returned(opps) => if onePerSymbol && opps != [] then [opps[0]] else opps
  }

  /** The merged list before sorting, symbol after symbol. */
  function Collected(symbols: seq<string>, fetch: string -> seq<Entry>, p: Params, onePerSymbol: bool): seq<TopArbitrageOpportunity>
  {
    if symbols == [] then []
    else
      var last := symbols[|symbols| - 1];
      Collected(symbols[..|symbols| - 1], fetch, p, onePerSymbol) + Contribution(last, fetch(last), p, onePerSymbol)
  }

  /** What `find_all_opportunities` returns. */
  function AllOpportunities(symbols: seq<string>, fetch: string -> seq<Entry>, p: Params,
                            limit: int, onePerSymbol: bool): (r: seq<TopArbitrageOpportunity>)
    ensures |r| == SliceEnd(|Collected(symbols, fetch, p, onePerSymbol)|, limit)
    ensures forall i :: 0 <= i < |r| ==> r[i].rank == i + 1
  {
    Merged(Collected(symbols, fetch, p, onePerSymbol), limit)
  }

  /** The stable APR-descending sort of the merged list, cut at `limit`, ranked. */
  function Merged(collected: seq<TopArbitrageOpportunity>, limit: int): seq<TopArbitrageOpportunity>
  {
    var sorted := SortDesc(collected, EstimatedApr);
    Ranked(sorted[..SliceEnd(|sorted|, limit)])
  }

  // ---------------------------------------------------------------------------
  // The imperative operations

  /** `for i, opp in enumerate(opportunities): opp.rank = i + 1` */
  method AssignRanks(opportunities: seq<TopArbitrageOpportunity>) returns (ranked: seq<TopArbitrageOpportunity>)
    ensures |ranked| == |opportunities|
    ensures forall i :: 0 <= i < |ranked| ==> ranked[i].rank == i + 1
    ensures ranked == Ranked(opportunities)
  {
    ranked := opportunities;
    var i := 0;
    while i < |ranked|
      invariant 0 <= i <= |ranked| == |opportunities|
      invariant forall k :: 0 <= k < i ==> ranked[k] == opportunities[k].(rank := k + 1)
      invariant forall k :: i <= k < |ranked| ==> ranked[k] == opportunities[k]
    {
      ranked := ranked[i := ranked[i].(rank := i + 1)];
      i := i + 1;
    }
  }

  /** The body of the pair loop: both orientations priced, the better kept. */
  method EvaluatePair(symbol: string, p: Params, e1: Entry, e2: Entry)
    returns (r: Outcome<TopArbitrageOpportunity>)
    ensures r.Raised? <==> p.leverage == 0.0
    ensures r.Returned? ==> r.value == PairOpportunity(symbol, p, e1, e2)
  {
    var ex1, rate1 := e1.0, e1.1;
    var ex2, rate2 := e2.0, e2.1;
    var result1 := CalculateArbitrage(RequestFor(symbol, p, ex1, ex2), rate1, rate2, p.now);
    var result2 := CalculateArbitrage(RequestFor(symbol, p, ex2, ex1), rate2, rate1, p.now);
    if result1.Raised? || result2.Raised? {
      return Raised;
    }
    var best, bestLongRate, bestShortRate;
    if result1.value.apr > result2.value.apr {
      best, bestLongRate, bestShortRate := result1.value, rate1, rate2;
    } else {
      best, bestLongRate, bestShortRate := result2.value, rate2, rate1;
    }
    // the hourly-normalised rates are computed here but the record drops them
    var fundingSpreadHourly := HourlySpread(bestLongRate, bestShortRate);
    r := Returned(TopArbitrageOpportunity(0, symbol, best.longExchange, best.shortExchange,
      best.longFundingRate, best.shortFundingRate, best.fundingRateSpread, best.apr,
      bestLongRate.markPrice, bestShortRate.markPrice, p.now));
  }

  /** The inner pair loop for the first exchange i: its pair with every later
      exchange, each evaluated and appended; a zero leverage raises at the
      first pair. */
  method PairRow(symbol: string, p: Params, rates: seq<Entry>, i: nat, ghost kept: (nat, nat) -> seq<TopArbitrageOpportunity>)
    returns (r: Outcome<seq<TopArbitrageOpportunity>>)
    requires i < |rates| && kept == Kept(symbol, p, rates)
    ensures r.Raised? <==> p.leverage == 0.0 && i + 1 < |rates|
    ensures r.Returned? ==> r.value == Row(kept, i, |rates|)
  {
    var row: seq<TopArbitrageOpportunity> := [];
    for j := i + 1 to |rates|
      invariant j > i + 1 ==> p.leverage != 0.0
      invariant row == Row(kept, i, j)
    {
      var next := AppendCandidate(symbol, p, rates, i, j, kept, row);
      if next.Raised? {
        return Raised;
      }
      row := next.value;
    }
    r := Returned(row);
  }

  /** One pass of the inner pair loop: the pair (i, j) is evaluated and its
      kept orientation appended. */
  method AppendCandidate(symbol: string, p: Params, rates: seq<Entry>, i: nat, j: nat,
                         ghost kept: (nat, nat) -> seq<TopArbitrageOpportunity>, row: seq<TopArbitrageOpportunity>)
    returns (r: Outcome<seq<TopArbitrageOpportunity>>)
    requires i < j < |rates| && kept == Kept(symbol, p, rates)
    requires row == Row(kept, i, j)
    ensures r.Raised? <==> p.leverage == 0.0
    ensures r.Returned? ==> r.value == Row(kept, i, j + 1)
  {
    var opportunity := EvaluatePair(symbol, p, rates[i], rates[j]);
    if opportunity.Raised? {
      return Raised;
    }
    KeptAt(symbol, p, rates, i, j);
    RowSnoc(kept, i, j, row, [opportunity.value]);
    r := Returned(row + [opportunity.value]);
  }

  /** The nested pair loops of `find_top_opportunities` over at least two
      exchanges: every pair's kept orientation, or a raise for a zero leverage. */
  method AllPairs(symbol: string, p: Params, rates: seq<Entry>)
    returns (r: Outcome<seq<TopArbitrageOpportunity>>)
    requires |rates| >= 2
    ensures r.Raised? <==> p.leverage == 0.0
    ensures r.Returned? ==> r.value == Candidates(symbol, p, rates)
  {
    var opportunities: seq<TopArbitrageOpportunity> := [];
    var n := |rates|;
    ghost var kept := Kept(symbol, p, rates);
    for i := 0 to n
      invariant i > 0 ==> p.leverage != 0.0
      invariant p.leverage != 0.0 ==> opportunities == RowsBefore(kept, n, i)
    {
      var row := PairRow(symbol, p, rates, i, kept);
      if row.Raised? {
        return Raised;
      }
      opportunities := opportunities + row.value;
    }
    r := Returned(opportunities);
  }

  /** Every unordered exchange pair, both orientations, the better one kept;
      then a stable sort by APR and ranks 1..n. A zero leverage raises. */
  method FindTopOpportunities(symbol: string, p: Params, allRates: seq<Entry>)
    returns (r: Outcome<seq<TopArbitrageOpportunity>>)
    ensures r == TopOpportunities(symbol, p, allRates)
  {
    // FundingRateInfo.funding_rate is a required float: every entry is valid
    var validRates := allRates;
    if |validRates| < 2 {
      return Returned([]);
    }
    var candidates := AllPairs(symbol, p, validRates);
    if candidates.Raised? {
      return Raised;
    }
    var opportunities := SortDesc(candidates.value, EstimatedApr);
    var ranked := AssignRanks(opportunities);
    return Returned(ranked);
  }

  /** Ranks several symbols, skipping any whose lookup raises, keeps one or all
      opportunities per symbol, re-sorts by APR, truncates to `limit` and re-ranks. */
  method FindAllOpportunities(symbols: seq<string>, fetch: string -> seq<Entry>, p: Params,
                              limit: int, onePerSymbol: bool)
    returns (r: seq<TopArbitrageOpportunity>)
    ensures r == AllOpportunities(symbols, fetch, p, limit, onePerSymbol)
  {
    var allOpportunities: seq<TopArbitrageOpportunity> := [];
    for k := 0 to |symbols|
      invariant allOpportunities == Collected(symbols[..k], fetch, p, onePerSymbol)
    {
      assert symbols[..k + 1][..k] == symbols[..k];
      var opps := FindTopOpportunities(symbols[k], p, fetch(symbols[k]));
      match opps {
        case Raised =>
          // logged and skipped
        case Returned(os) =>
          if onePerSymbol && os != [] {
            allOpportunities := allOpportunities + [os[0]];
          } else {
            allOpportunities := allOpportunities + os;
          }
      }
    }
    assert symbols[..|symbols|] == symbols;
    allOpportunities := SortDesc(allOpportunities, EstimatedApr);
    var end := SliceEnd(|allOpportunities|, limit);
    r := AssignRanks(allOpportunities[..end]);
  }

  // ---------------------------------------------------------------------------
  // Properties of the ranking

  /** For a >= 0, a scaled-up x exceeds the same scaling of y exactly when
      a is positive and x exceeds y. */
  lemma ScaledCompare(a: real, x: real, y: real, u: real, v: real)
    requires a >= 0.0 && u == a * x * 36500.0 && v == a * y * 36500.0
    ensures u > v <==> a > 0.0 && x > y
  {
    assert u - v == (a * 36500.0) * (x - y);
    if a > 0.0 && x > y {
      assert (a * 36500.0) * (x - y) > 0.0;
    } else if a > 0.0 {
      assert (a * 36500.0) * (y - x) >= 0.0;
    }
  }

  /** The orientation (long e1, short e2) has the strictly larger APR exactly
      when the spread is non-zero and e2 funds more often per day. */
  lemma FirstOrientationWins(rate1: real, interval1: int, rate2: real, interval2: int)
    ensures SpreadApr(rate2 - rate1, interval2) > SpreadApr(rate1 - rate2, interval1)
            <==> rate1 != rate2 && FundingsPerDay(interval2) > FundingsPerDay(interval1)
  {
    var a := Abs(rate2 - rate1);
    var x := FundingsPerDay(interval2) as real;
    var y := FundingsPerDay(interval1) as real;
    assert Abs(rate1 - rate2) == a;
    assert a > 0.0 <==> rate1 != rate2;
    assert x > y <==> FundingsPerDay(interval2) > FundingsPerDay(interval1);
    ScaledCompare(a, x, y, SpreadApr(rate2 - rate1, interval2), SpreadApr(rate1 - rate2, interval1));
  }

  /** Orientation, ignoring the rounding of the APR: the pair's first exchange
      is long only when the spread is non-zero and the second exchange funds
      more often per day; the kept APR is the larger of the two orientations. */
  lemma OrientationRule(symbol: string, p: Params, e1: Entry, e2: Entry)
    requires p.leverage != 0.0
    ensures var o := PairOpportunity(symbol, p, e1, e2);
            var firstWins := e1.1.fundingRate != e2.1.fundingRate
                             && FundingsPerDay(e2.1.fundingIntervalHours) > FundingsPerDay(e1.1.fundingIntervalHours);
            && o.longExchange == (if firstWins then e1.0 else e2.0)
            && o.shortExchange == (if firstWins then e2.0 else e1.0)
            && o.longFundingRate == (if firstWins then e1.1.fundingRate else e2.1.fundingRate)
            && o.shortFundingRate == (if firstWins then e2.1.fundingRate else e1.1.fundingRate)
            && o.fundingSpread == o.shortFundingRate - o.longFundingRate
            && o.estimatedApr == Max(SpreadApr(e2.1.fundingRate - e1.1.fundingRate, e2.1.fundingIntervalHours),
                                     SpreadApr(e1.1.fundingRate - e2.1.fundingRate, e1.1.fundingIntervalHours))
            && o.estimatedApr >= 0.0
  {
    var result1 := CalculateArbitrage(RequestFor(symbol, p, e1.0, e2.0), e1.1, e2.1, p.now);
    var result2 := CalculateArbitrage(RequestFor(symbol, p, e2.0, e1.0), e2.1, e1.1, p.now);
    var apr1 := SpreadApr(e2.1.fundingRate - e1.1.fundingRate, e2.1.fundingIntervalHours);
    var apr2 := SpreadApr(e1.1.fundingRate - e2.1.fundingRate, e1.1.fundingIntervalHours);
    assert result1.value.apr == apr1 && result2.value.apr == apr2;
    FirstOrientationWins(e1.1.fundingRate, e1.1.fundingIntervalHours, e2.1.fundingRate, e2.1.fundingIntervalHours);
  }

  /** The exchanges of a kept pair are the pair's two exchanges. */
  lemma PairLegs(symbol: string, p: Params, e1: Entry, e2: Entry)
    requires p.leverage != 0.0
    ensures var o := PairOpportunity(symbol, p, e1, e2);
            (o.longExchange == e1.0 && o.shortExchange == e2.0) || (o.longExchange == e2.0 && o.shortExchange == e1.0)
  {
    OrientationRule(symbol, p, e1, e2);
  }

  /** For legs on the same positive interval, the hourly spread is the native
      spread spread over that interval. */
  lemma HourlySpreadSameInterval(longRate: FundingRateInfo, shortRate: FundingRateInfo)
    requires longRate.fundingIntervalHours == shortRate.fundingIntervalHours > 0
    ensures HourlySpread(longRate, shortRate) * longRate.fundingIntervalHours as real
            == shortRate.fundingRate - longRate.fundingRate
  {
    var i := longRate.fundingIntervalHours as real;
    var hs := HourlyRate(shortRate.fundingRate, shortRate.fundingIntervalHours);
    var hl := HourlyRate(longRate.fundingRate, longRate.fundingIntervalHours);
    assert (hs - hl) * i == hs * i - hl * i;
  }

  /** n exchanges give n(n-1)/2 candidates. */
  lemma CandidatesCount(symbol: string, p: Params, rates: seq<Entry>)
    requires p.leverage != 0.0
    ensures 2 * |Candidates(symbol, p, rates)| == |rates| * (|rates| - 1)
  {
    var n := |rates|;
    var kept := Kept(symbol, p, rates);
    forall a: nat, b: nat | a < b < n
      ensures |kept(a, b)| == 1
    {
      KeptAt(symbol, p, rates, a, b);
    }
    RowsBeforeCount(kept, n, n);
    PairsBeforeCount(n, n);
    assert 2 * n - n - 1 == n - 1;
  }

  /** Each candidate is the kept orientation of a pair (a, b) with a < b. */
  lemma CandidatesAreKeptPairs(symbol: string, p: Params, rates: seq<Entry>)
    requires p.leverage != 0.0
    ensures forall o :: o in Candidates(symbol, p, rates) ==>
              exists a, b :: 0 <= a < b < |rates| && o == PairOpportunity(symbol, p, rates[a], rates[b])
  {
    forall o | o in Candidates(symbol, p, rates)
      ensures exists a, b :: 0 <= a < b < |rates| && o == PairOpportunity(symbol, p, rates[a], rates[b])
    {
      var a, b := RowsBeforeMember(Kept(symbol, p, rates), |rates|, |rates|, o);
      KeptAt(symbol, p, rates, a, b);
    }
  }

  /** Every pair (a, b) with a < b has its candidate. */
  lemma CandidatesContainPairs(symbol: string, p: Params, rates: seq<Entry>)
    requires p.leverage != 0.0
    ensures forall a, b :: 0 <= a < b < |rates| ==> PairOpportunity(symbol, p, rates[a], rates[b]) in Candidates(symbol, p, rates)
  {
    forall a, b | 0 <= a < b < |rates|
      ensures PairOpportunity(symbol, p, rates[a], rates[b]) in Candidates(symbol, p, rates)
    {
      KeptAt(symbol, p, rates, a, b);
      RowsBeforeContains(Kept(symbol, p, rates), |rates|, |rates|, a, b, PairOpportunity(symbol, p, rates[a], rates[b]));
    }
  }

  /** The snapshot map's keys being distinct, long and short are always
      different exchanges. */
  lemma CandidateLegsDiffer(symbol: string, p: Params, rates: seq<Entry>)
    requires p.leverage != 0.0 && DistinctKeys(rates)
    ensures forall o :: o in Candidates(symbol, p, rates) ==> o.longExchange != o.shortExchange
  {
    forall o | o in Candidates(symbol, p, rates) ensures o.longExchange != o.shortExchange {
      var a, b := RowsBeforeMember(Kept(symbol, p, rates), |rates|, |rates|, o);
      KeptAt(symbol, p, rates, a, b);
      PairLegs(symbol, p, rates[a], rates[b]);
      assert Keys(rates)[a] != Keys(rates)[b];
    }
  }

  lemma RankedKeepsOrder(s: seq<TopArbitrageOpportunity>)
    requires NonIncreasing(s, EstimatedApr)
    ensures NonIncreasing(Ranked(s), EstimatedApr)
  {
    var r := Ranked(s);
    forall i | 0 <= i < |r| ensures r[i].estimatedApr == s[i].estimatedApr {
      assert r[i].(rank := s[i].rank) == s[i];
    }
  }

  /** One symbol: fewer than two exchanges give no opportunity; otherwise a
      zero leverage raises, and else there is one opportunity per pair, in
      non-increasing APR order, ranked 1..n, long and short on different exchanges. */
  lemma TopOpportunitiesShape(symbol: string, p: Params, rates: seq<Entry>)
    ensures |rates| < 2 ==> TopOpportunities(symbol, p, rates) == Returned([])
    ensures TopOpportunities(symbol, p, rates).Raised? <==> |rates| >= 2 && p.leverage == 0.0
    ensures TopOpportunities(symbol, p, rates).Returned? ==>
              var r := TopOpportunities(symbol, p, rates).value;
              && 2 * |r| == |rates| * (|rates| - 1)
              && NonIncreasing(r, EstimatedApr)
              && (forall i :: 0 <= i < |r| ==> r[i].rank == i + 1)
              && (exists s :: multiset(s) == multiset(Candidates(symbol, p, rates)) && r == Ranked(s))
              && (DistinctKeys(rates) ==> forall i :: 0 <= i < |r| ==> r[i].longExchange != r[i].shortExchange)
  {
    if |rates| >= 2 && p.leverage != 0.0 {
      var c := Candidates(symbol, p, rates);
      var sorted := SortDesc(c, EstimatedApr);
      var r := Ranked(sorted);
      CandidatesCount(symbol, p, rates);
      SortDescSorted(c, EstimatedApr);
      RankedKeepsOrder(sorted);
      assert multiset(sorted) == multiset(c) && r == Ranked(sorted);
      if DistinctKeys(rates) {
        CandidateLegsDiffer(symbol, p, rates);
        forall i | 0 <= i < |r| ensures r[i].longExchange != r[i].shortExchange {
          assert sorted[i] in multiset(c);
          assert r[i].(rank := sorted[i].rank) == sorted[i];
        }
      }
    } else if |rates| < 2 {
      assert |rates| * (|rates| - 1) == 0;
      var none: seq<TopArbitrageOpportunity> := [];
      RowsBeforeCount(Kept(symbol, p, rates), |rates|, |rates|);
      PairsBeforeCount(|rates|, |rates|);
      assert Candidates(symbol, p, rates) == [];
      assert Ranked(none) == [];
    }
  }

  /** A symbol whose lookup raises adds nothing; with `onePerSymbol` a symbol
      adds at most one opportunity, and that is one with its highest APR. */
  lemma ContributionRule(symbol: string, snapshot: seq<Entry>, p: Params, onePerSymbol: bool)
    ensures TopOpportunities(symbol, p, snapshot).Raised? ==> Contribution(symbol, snapshot, p, onePerSymbol) == []
    ensures onePerSymbol ==> |Contribution(symbol, snapshot, p, onePerSymbol)| <= 1
    ensures onePerSymbol && TopOpportunities(symbol, p, snapshot).Returned? ==>
              forall x, o :: x in Contribution(symbol, snapshot, p, onePerSymbol) && o in TopOpportunities(symbol, p, snapshot).value
                ==> x.estimatedApr >= o.estimatedApr
  {
    TopOpportunitiesShape(symbol, p, snapshot);
    match TopOpportunities(symbol, p, snapshot)
    case Raised =>
    case Returned(opps) =>
      if onePerSymbol && opps != [] {
        forall o | o in opps ensures opps[0].estimatedApr >= o.estimatedApr {
          var j :| 0 <= j < |opps| && opps[j] == o;
        }
      }
  }

  /** Everything merged comes from some symbol's contribution; with
      `onePerSymbol` there are at most as many entries as symbols. */
  lemma {:induction false} CollectedFromSymbols(symbols: seq<string>, fetch: string -> seq<Entry>, p: Params, onePerSymbol: bool)
    ensures forall x :: x in Collected(symbols, fetch, p, onePerSymbol) ==>
              exists k :: 0 <= k < |symbols| && x in Contribution(symbols[k], fetch(symbols[k]), p, onePerSymbol)
    ensures onePerSymbol ==> |Collected(symbols, fetch, p, onePerSymbol)| <= |symbols|
  {
    if symbols != [] {
      var init := symbols[..|symbols| - 1];
      var last := symbols[|symbols| - 1];
      CollectedFromSymbols(init, fetch, p, onePerSymbol);
      ContributionRule(last, fetch(last), p, onePerSymbol);
      forall x | x in Collected(symbols, fetch, p, onePerSymbol)
        ensures exists k :: 0 <= k < |symbols| && x in Contribution(symbols[k], fetch(symbols[k]), p, onePerSymbol)
      {
        if x in Collected(init, fetch, p, onePerSymbol) {
          var k :| 0 <= k < |init| && x in Contribution(init[k], fetch(init[k]), p, onePerSymbol);
          assert symbols[k] == init[k];
        } else {
          assert x in Contribution(symbols[|symbols| - 1], fetch(last), p, onePerSymbol);
        }
      }
    }
  }

  lemma MergedOrder(c: seq<TopArbitrageOpportunity>, limit: int)
    ensures var r := Merged(c, limit);
            && |r| == SliceEnd(|c|, limit)
            && NonIncreasing(r, EstimatedApr)
            && (forall i :: 0 <= i < |r| ==> r[i].rank == i + 1)
  {
    var sorted := SortDesc(c, EstimatedApr);
    var end := SliceEnd(|sorted|, limit);
    SortDescSorted(c, EstimatedApr);
    assert NonIncreasing(sorted[..end], EstimatedApr);
    RankedKeepsOrder(sorted[..end]);
  }

  lemma MergedMembers(c: seq<TopArbitrageOpportunity>, limit: int)
    ensures var r := Merged(c, limit);
            && (forall i :: 0 <= i < |r| ==> exists x :: x in c && r[i] == x.(rank := i + 1))
            && (r != [] ==> forall x :: x in c ==> r[0].estimatedApr >= x.estimatedApr)
  {
    var sorted := SortDesc(c, EstimatedApr);
    var end := SliceEnd(|sorted|, limit);
    var r := Ranked(sorted[..end]);
    forall i | 0 <= i < |r| ensures exists x :: x in c && r[i] == x.(rank := i + 1) {
      assert sorted[i] in multiset(c);
      assert r[i] == sorted[..end][i].(rank := i + 1);
    }
    if r != [] {
      SortDescHeadIsMax(c, EstimatedApr);
      assert r[0].(rank := sorted[0].rank) == sorted[0];
    }
  }

  /** The global list: the first `limit` entries (Python slice) of the stable
      APR-descending merge, ranked 1..len, its head the best APR of the merge;
      no dropped entry outranks a kept one. */
  lemma AllOpportunitiesShape(symbols: seq<string>, fetch: string -> seq<Entry>, p: Params, limit: int, onePerSymbol: bool)
    ensures var c := Collected(symbols, fetch, p, onePerSymbol);
            var r := AllOpportunities(symbols, fetch, p, limit, onePerSymbol);
            && |r| == SliceEnd(|c|, limit)
            && (limit >= 0 ==> |r| == if limit < |c| then limit else |c|)
            && NonIncreasing(r, EstimatedApr)
            && (forall i :: 0 <= i < |r| ==> r[i].rank == i + 1)
            && (forall i :: 0 <= i < |r| ==> exists x :: x in c && r[i] == x.(rank := i + 1))
            && (r != [] ==> forall x :: x in c ==> r[0].estimatedApr >= x.estimatedApr)
            && (exists s :: multiset(s) == multiset(c) && NonIncreasing(s, EstimatedApr)
                            && r == Ranked(s[..SliceEnd(|c|, limit)]))
  {
    var c := Collected(symbols, fetch, p, onePerSymbol);
    MergedOrder(c, limit);
    MergedMembers(c, limit);
    var sorted := SortDesc(c, EstimatedApr);
    SortDescSorted(c, EstimatedApr);
    assert multiset(sorted) == multiset(c) && NonIncreasing(sorted, EstimatedApr)
           && AllOpportunities(symbols, fetch, p, limit, onePerSymbol) == Ranked(sorted[..SliceEnd(|c|, limit)]);
  }
}
