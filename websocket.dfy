/** The live spot feed: the set of subscribed sockets with its broadcast,
    and one update cycle of `handle_websocket` (collect the Binance/Upbit
    arbitrage of every symbol, spread the average premium, sort, send). The
    exchanges' ticker fetches and each socket's delivery are parameters. */
module Websocket {
  import opened Common
  import opened Tickers
  import opened Sorting
  import SpotArbitrage
  import Upbit

  /** A socket's identity. */
  type SocketId = nat

  /** A ticker fetch of one exchange wrapper: the dict, or `None` when the
      wrapper caught an error. */
  type TickerFetch = string -> Option<Ticker>

  /** The message sent each cycle. */
  datatype Message = Message(kind: string, data: seq<SpotArbitrage.Arbitrage>, avgKimchiPremium: real, timestamp: Option<Timestamp>)

  const UpdateKind: string := "arbitrage_update"

  /** The sockets whose delivery fails among `sockets`. */
  ghost function Failed(sockets: set<SocketId>, delivers: SocketId -> bool): set<SocketId>
  {
    set c | c in sockets && !delivers(c)
  }

  class ConnectionManager {
    var active: set<SocketId>

    constructor()
      ensures active == {}
    {
      active := {};
    }

    /** A set: connecting twice leaves the socket present once. */
    method Connect(socket: SocketId)
      modifies this
      ensures active == old(active) + {socket}
    {
      active := active + {socket};
    }

    /** A discard: removing an absent socket changes nothing. */
    method Disconnect(socket: SocketId)
      modifies this
      ensures active == old(active) - {socket}
    {
      active := active - {socket};
    }

    /** Sends to a snapshot of the set, collecting the sockets whose send
        raised, and drops them only after the pass. */
    method Broadcast(delivers: SocketId -> bool) returns (attempted: set<SocketId>, failed: set<SocketId>)
      modifies this
      ensures attempted == old(active)
      ensures failed == Failed(old(active), delivers)
      ensures active == old(active) - failed
    {
      attempted, failed := {}, {};
      if active == {} {
        return;
      }
      var snapshot := active;
      attempted, failed := SendAll(snapshot, delivers);
      var rest := failed;
      while rest != {}
        invariant rest <= failed
        invariant active == snapshot - (failed - rest)
        decreases |rest|
      {
        var connection :| connection in rest;
        RemovalStep(snapshot, failed, rest, connection);
        Disconnect(connection);
        rest := rest - {connection};
      }
    }
  }

  /** The send pass of a broadcast: every socket of the snapshot is tried
      once, and those whose send raised are collected. */
  method SendAll(snapshot: set<SocketId>, delivers: SocketId -> bool) returns (attempted: set<SocketId>, failed: set<SocketId>)
    ensures attempted == snapshot
    ensures failed == Failed(snapshot, delivers)
  {
    attempted, failed := {}, {};
    var pending := snapshot;
    while pending != {}
      invariant pending <= snapshot && attempted == snapshot - pending
      invariant failed == Failed(attempted, delivers)
      decreases |pending|
    {
      var connection :| connection in pending;
      FailedStep(attempted, connection, delivers);
      if !delivers(connection) {
        failed := failed + {connection};
      }
      attempted := attempted + {connection};
      pending := pending - {connection};
    }
  }

  lemma FailedStep(attempted: set<SocketId>, c: SocketId, delivers: SocketId -> bool)
    ensures Failed(attempted + {c}, delivers) == Failed(attempted, delivers) + (if delivers(c) then {} else {c})
  {
  }

  lemma RemovalStep(snapshot: set<SocketId>, failed: set<SocketId>, rest: set<SocketId>, c: SocketId)
    requires c in rest && rest <= failed
    ensures (snapshot - (failed - rest)) - {c} == snapshot - (failed - (rest - {c}))
  {
  }

  /** A send that reaches everyone leaves the set as it was. */
  lemma BroadcastKeepsDelivered(sockets: set<SocketId>, delivers: SocketId -> bool)
    requires forall c :: c in sockets ==> delivers(c)
    ensures sockets - Failed(sockets, delivers) == sockets
  {
  }

  /** One symbol's arbitrage with the exchanges' constant fees and the
      default transfer fee; `None` when a ticker is missing. */
  function SymbolArbitrage(rate: real, symbol: string, binance: TickerFetch, upbit: TickerFetch): (r: Option<SpotArbitrage.Arbitrage>)
    ensures binance(symbol).None? || upbit(Upbit.ConvertSymbol(symbol)).None? ==> r == None
    ensures r.Some? ==> r.value.symbol == binance(symbol).value.symbol && r.value.exchangeRate == rate
                        && r.value.pureArbitragePercent == None
  {
    var binanceTicker := binance(symbol);
    var upbitTicker := upbit(Upbit.ConvertSymbol(symbol));
    if binanceTicker.None? || upbitTicker.None? then None
    else SpotArbitrage.CalculateArbitrage(rate, binanceTicker, upbitTicker,
           BinanceTradingFee(), Upbit.TradingFee(None), SpotArbitrage.DefaultTransferFeePercent)
  }

  /** The opportunities of `symbols`, in their order. */
  function Collected(rate: real, symbols: seq<string>, binance: TickerFetch, upbit: TickerFetch): (r: seq<SpotArbitrage.Arbitrage>)
    ensures |r| <= |symbols|
    ensures forall a :: a in r ==> a.exchangeRate == rate && a.pureArbitragePercent == None
  {
    if symbols == [] then []
    else
      var prev := Collected(rate, symbols[..|symbols| - 1], binance, upbit);
      match SymbolArbitrage(rate, symbols[|symbols| - 1], binance, upbit)
      case None => prev
      case Some(a) => prev + [a]
  }

  /** One more symbol adds its own opportunity, if any, at the end. */
  lemma CollectedSnoc(rate: real, symbols: seq<string>, i: nat, binance: TickerFetch, upbit: TickerFetch)
    requires i < |symbols|
    ensures Collected(rate, symbols[..i + 1], binance, upbit)
            == Collected(rate, symbols[..i], binance, upbit)
               + match SymbolArbitrage(rate, symbols[i], binance, upbit) case None => [] case Some(a) => [a]
  {
    assert symbols[..i + 1][..i] == symbols[..i];
  }

  function RawSum(s: seq<SpotArbitrage.Arbitrage>): real
  {
    if s == [] then 0.0 else RawSum(s[..|s| - 1]) + s[|s| - 1].rawPremiumPercent
  }

  /** The mean raw premium, 0 for an empty cycle. */
  function Average(s: seq<SpotArbitrage.Arbitrage>): (avg: real)
    ensures s != [] ==> avg * (|s| as real) == RawSum(s)
    ensures s == [] ==> avg == 0.0
  {
    if s == [] then 0.0 else RawSum(s) / (|s| as real)
  }

  /** Each entry with its premium net of the average. */
  function WithPure(s: seq<SpotArbitrage.Arbitrage>, avg: real): (r: seq<SpotArbitrage.Arbitrage>)
    ensures |r| == |s|
    ensures forall i :: 0 <= i < |s| ==>
              r[i].pureArbitragePercent == Some(s[i].rawPremiumPercent - avg)
              && r[i].(pureArbitragePercent := s[i].pureArbitragePercent) == s[i]
  {
    seq(|s|, i requires 0 <= i < |s| => s[i].(pureArbitragePercent := Some(s[i].rawPremiumPercent - avg)))
  }

  function PureSum(s: seq<SpotArbitrage.Arbitrage>): real
  {
    if s == [] then 0.0
    else PureSum(s[..|s| - 1]) + (match s[|s| - 1].pureArbitragePercent case Some(p) => p case None => 0.0)
  }

  lemma {:induction false} PureSumShift(s: seq<SpotArbitrage.Arbitrage>, avg: real)
    ensures PureSum(WithPure(s, avg)) == RawSum(s) - (|s| as real) * avg
  {
    if s != [] {
      var init := s[..|s| - 1];
      assert WithPure(s, avg)[..|s| - 1] == WithPure(init, avg);
      PureSumShift(init, avg);
    }
  }

  /** The premiums net of the cycle's average sum to zero. */
  lemma PureSumsToZero(s: seq<SpotArbitrage.Arbitrage>)
    requires s != []
    ensures PureSum(WithPure(s, Average(s))) == 0.0
  {
    PureSumShift(s, Average(s));
  }

  function ProfitPercent(a: SpotArbitrage.Arbitrage): real { a.profitPercent }

  /** The message one cycle sends. */
  function CycleMessage(rate: real, symbols: seq<string>, binance: TickerFetch, upbit: TickerFetch): Message
  {
    MessageOf(Collected(rate, symbols, binance, upbit))
  }

  /** The message for the opportunities a cycle collected. */
  function MessageOf(collected: seq<SpotArbitrage.Arbitrage>): (m: Message)
    ensures m.kind == UpdateKind && m.avgKimchiPremium == Average(collected)
    ensures |m.data| == |collected|
    ensures m.timestamp.None? <==> collected == []
  {
    var avg := Average(collected);
    var data := SortDesc(WithPure(collected, avg), ProfitPercent);
    Message(UpdateKind, data, avg, if data == [] then None else Some(data[0].timestamp))
  }

  /** Every entry of `WithPure` carries its premium net of `avg`. */
  lemma WithPureMembers(s: seq<SpotArbitrage.Arbitrage>, avg: real)
    ensures forall a :: a in WithPure(s, avg) ==> a.pureArbitragePercent == Some(a.rawPremiumPercent - avg)
  {
    var w := WithPure(s, avg);
    forall a | a in w
      ensures a.pureArbitragePercent == Some(a.rawPremiumPercent - avg)
    {
      var i :| 0 <= i < |w| && w[i] == a;
      assert w[i].(pureArbitragePercent := s[i].pureArbitragePercent) == s[i];
    }
  }

  /** Sorting keeps the net premiums of `WithPure`'s entries. */
  lemma SortedMembers(unsorted: seq<SpotArbitrage.Arbitrage>, avg: real)
    requires forall a :: a in unsorted ==> a.pureArbitragePercent == Some(a.rawPremiumPercent - avg)
    ensures forall a :: a in SortDesc(unsorted, ProfitPercent) ==> a.pureArbitragePercent == Some(a.rawPremiumPercent - avg)
  {
    var data := SortDesc(unsorted, ProfitPercent);
    forall a | a in data
      ensures a.pureArbitragePercent == Some(a.rawPremiumPercent - avg)
    {
      assert a in multiset(data);
      assert a in multiset(unsorted);
    }
  }

  /** A cycle's message: its data are the collected opportunities with their
      net premiums, sorted by profit percent, highest first; the timestamp is
      the first entry's, absent for an empty cycle. */
  lemma MessageShape(collected: seq<SpotArbitrage.Arbitrage>)
    ensures var m := MessageOf(collected);
            && m.kind == UpdateKind
            && m.avgKimchiPremium == Average(collected)
            && NonIncreasing(m.data, ProfitPercent)
            && |m.data| == |collected|
            && multiset(m.data) == multiset(WithPure(collected, m.avgKimchiPremium))
            && (m.timestamp.None? <==> collected == [])
            && (m.data != [] ==> m.timestamp == Some(m.data[0].timestamp))
  {
    SortDescSorted(WithPure(collected, Average(collected)), ProfitPercent);
  }

  /** Every opportunity a cycle sends carries its premium net of the
      cycle's average. */
  lemma MessageNetPremiums(collected: seq<SpotArbitrage.Arbitrage>)
    ensures var m := MessageOf(collected);
            forall a :: a in m.data ==> a.pureArbitragePercent == Some(a.rawPremiumPercent - m.avgKimchiPremium)
  {
    var avg := Average(collected);
    WithPureMembers(collected, avg);
    SortedMembers(WithPure(collected, avg), avg);
  }

  /** The symbol loop of one cycle. */
  method CollectOpportunities(calculator: SpotArbitrage.ArbitrageCalculator, symbols: seq<string>,
                              binance: TickerFetch, upbit: TickerFetch)
    returns (opportunities: seq<SpotArbitrage.Arbitrage>)
    ensures opportunities == Collected(calculator.usdToKrwRate, symbols, binance, upbit)
  {
    opportunities := [];
    for i := 0 to |symbols|
      invariant opportunities == Collected(calculator.usdToKrwRate, symbols[..i], binance, upbit)
    {
      var arbitrage := ArbitrageFor(calculator, symbols[i], binance, upbit);
      CollectedSnoc(calculator.usdToKrwRate, symbols, i, binance, upbit);
      if arbitrage.Some? {
        opportunities := opportunities + [arbitrage.value];
      }
    }
    assert symbols[..|symbols|] == symbols;
  }

  /** The body of the symbol loop for one symbol: both tickers, then the
      calculator, when both venues quoted it. */
  method ArbitrageFor(calculator: SpotArbitrage.ArbitrageCalculator, symbol: string,
                      binance: TickerFetch, upbit: TickerFetch)
    returns (arbitrage: Option<SpotArbitrage.Arbitrage>)
    ensures arbitrage == SymbolArbitrage(calculator.usdToKrwRate, symbol, binance, upbit)
  {
    arbitrage := None;
    var binanceTicker := binance(symbol);
    var upbitTicker := upbit(Upbit.ConvertSymbol(symbol));
    if binanceTicker.Some? && upbitTicker.Some? {
      arbitrage := calculator.Calculate(binanceTicker, upbitTicker, BinanceTradingFee(), Upbit.TradingFee(None),
                                        SpotArbitrage.DefaultTransferFeePercent);
    }
  }

  /** The sum of the raw premiums of a cycle's opportunities. */
  method TotalPremium(opportunities: seq<SpotArbitrage.Arbitrage>) returns (total: real)
    ensures total == RawSum(opportunities)
  {
    total := 0.0;
    for i := 0 to |opportunities|
      invariant total == RawSum(opportunities[..i])
    {
      assert opportunities[..i + 1][..i] == opportunities[..i];
      total := total + opportunities[i].rawPremiumPercent;
    }
    assert opportunities[..|opportunities|] == opportunities;
  }

  /** The loop that stores each entry's premium net of `avg`. */
  method SetPure(opportunities: seq<SpotArbitrage.Arbitrage>, avg: real) returns (result: seq<SpotArbitrage.Arbitrage>)
    ensures result == WithPure(opportunities, avg)
  {
    result := opportunities;
    for i := 0 to |result|
      invariant |result| == |opportunities|
      invariant forall j :: 0 <= j < i ==> result[j] == WithPure(opportunities, avg)[j]
      invariant forall j :: i <= j < |result| ==> result[j] == opportunities[j]
    {
      result := result[i := result[i].(pureArbitragePercent := Some(result[i].rawPremiumPercent - avg))];
    }
  }

  /** The averaging step: the sum, the mean, then each entry's net premium. */
  method AddPureArbitrage(opportunities: seq<SpotArbitrage.Arbitrage>)
    returns (avg: real, result: seq<SpotArbitrage.Arbitrage>)
    ensures avg == Average(opportunities)
    ensures result == WithPure(opportunities, avg)
  {
    avg := 0.0;
    result := opportunities;
    if opportunities == [] {
      return;
    }
    var total := TotalPremium(opportunities);
    avg := total / (|opportunities| as real);
    result := SetPure(opportunities, avg);
  }

  /** One pass of the endless loop: collect, average, sort, broadcast. */
  method RunCycle(manager: ConnectionManager, calculator: SpotArbitrage.ArbitrageCalculator, symbols: seq<string>,
                  binance: TickerFetch, upbit: TickerFetch, delivers: SocketId -> bool)
    returns (message: Message)
    modifies manager
    ensures message == CycleMessage(calculator.usdToKrwRate, symbols, binance, upbit)
    ensures manager.active == old(manager.active) - Failed(old(manager.active), delivers)
  {
    var opportunities := CollectOpportunities(calculator, symbols, binance, upbit);
    var avg;
    avg, opportunities := AddPureArbitrage(opportunities);
    opportunities := SortDesc(opportunities, ProfitPercent);
    message := Message(UpdateKind, opportunities, avg, if opportunities == [] then None else Some(opportunities[0].timestamp));
    var _, _ := manager.Broadcast(delivers);
  }

  /** The messages of the first `n` cycles, in order, cycle k sending `message(k)`. */
  function Sent(message: nat -> Message, n: nat): seq<Message>
  {
    if n == 0 then [] else Sent(message, n - 1) + [message(n - 1)]
  }

  lemma {:induction false} SentShape(message: nat -> Message, n: nat)
    ensures |Sent(message, n)| == n
    ensures forall k :: 0 <= k < n ==> Sent(message, n)[k] == message(k)
  {
    if n > 0 {
      SentShape(message, n - 1);
    }
  }

  /** Cycle k's message, for the k-th snapshots of the two exchanges. */
  function CycleMessages(rate: real, symbols: seq<string>, binance: nat -> TickerFetch, upbit: nat -> TickerFetch): nat -> Message
  {
    (k: nat) => CycleMessage(rate, symbols, binance(k), upbit(k))
  }

  /** The socket set after `n` broadcasts from `start`, cycle k dropping the
      sockets whose send fails under `delivers(k)`. */
  ghost function AfterCycles(start: set<SocketId>, delivers: nat -> (SocketId -> bool), n: nat): set<SocketId>
  {
    if n == 0 then start
    else
      var prev := AfterCycles(start, delivers, n - 1);
      prev - Failed(prev, delivers(n - 1))
  }

  /** The cycles only remove sockets, and a socket stays exactly when it was
      there at the start and no cycle's send to it failed. */
  lemma {:induction false} AfterCyclesSurvivors(start: set<SocketId>, delivers: nat -> (SocketId -> bool), n: nat, s: SocketId)
    ensures AfterCycles(start, delivers, n) <= start
    ensures s in AfterCycles(start, delivers, n) <==> s in start && forall k :: 0 <= k < n ==> delivers(k)(s)
  {
    if n > 0 {
      AfterCyclesSurvivors(start, delivers, n - 1, s);
      var prev := AfterCycles(start, delivers, n - 1);
      assert s in Failed(prev, delivers(n - 1)) <==> s in prev && !delivers(n - 1)(s);
      forall t | t in AfterCycles(start, delivers, n) ensures t in start {
        AfterCyclesSurvivors(start, delivers, n - 1, t);
      }
    }
  }

  /** `handle_websocket` for a socket whose loop runs `cycles` passes and
      then ends by an exception: each cycle drops the sockets whose send
      fails, and the handler's own socket is gone from the set afterwards. Cycle k uses `binance(k)`, `upbit(k)`
      and `delivers(k)`. */
  method HandleWebsocket(manager: ConnectionManager, calculator: SpotArbitrage.ArbitrageCalculator, socket: SocketId,
                         symbols: seq<string>, cycles: nat,
                         binance: nat -> TickerFetch, upbit: nat -> TickerFetch, delivers: nat -> (SocketId -> bool))
    returns (messages: seq<Message>)
    modifies manager
    ensures |messages| == cycles
    ensures forall k :: 0 <= k < cycles ==> messages[k] == CycleMessage(calculator.usdToKrwRate, symbols, binance(k), upbit(k))
    ensures manager.active == AfterCycles(old(manager.active) + {socket}, delivers, cycles) - {socket}
    ensures socket !in manager.active
    ensures manager.active <= old(manager.active)
  {
    var rate := calculator.usdToKrwRate;
    manager.Connect(socket);
    messages := [];
    for k := 0 to cycles
      invariant messages == Sent(CycleMessages(rate, symbols, binance, upbit), k)
      invariant manager.active == AfterCycles(old(manager.active) + {socket}, delivers, k)
      invariant manager.active <= old(manager.active) + {socket}
      invariant calculator.usdToKrwRate == rate
    {
      var message := RunCycle(manager, calculator, symbols, binance(k), upbit(k), delivers(k));
      messages := messages + [message];
    }
    SentShape(CycleMessages(rate, symbols, binance, upbit), cycles);
    manager.Disconnect(socket);
  }
}
