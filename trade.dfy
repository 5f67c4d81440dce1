// The trade actor: one open position. On start it sends the entry order and
// the "create" record; on every candle it asks the time series for the
// latest candles, evaluates the take-profit and stop-loss windows and, when
// either is reached, sends the exit order and the "finish" record and stops.
// Exchange calls, the time series and the resolution predicates are inputs.

module Trades {
  import opened Domain
  import Strategies

  /** The actor's configuration, as TradeBuilder assembles it. */
  datatype Trade = Trade(
    id: Uuid,
    setup: Setup,
    quantity: F64,
    dollarValue: F64,
    source: DataSource,
    notificationsEnabled: bool,
    tradingEnabled: bool,
    resolutionStrategy: ResolutionStrategy,
    tradingStrategy: Strategies.Strategy,
    timeseries: TsAddr,
    dbAddr: DbAddr)

  /** The persisted trade row. Display strings of interval, orientation and
      data source are kept as the values they render. */
  datatype DbTrade = DbTrade(
    id: Uuid,
    symbol: string,
    interval: Interval,
    orientation: Orientation,
    tradingStrategy: string,
    resolutionStrategy: ResolutionKind,
    dataSource: DataSource,
    enteredAt: Timestamp,
    exitedAt: Option<Timestamp>,
    barsInTrade: Option<int>,
    entryPrice: F64,
    exitPrice: Option<F64>,
    quantity: F64,
    dollarValue: F64,
    entryFee: F64,
    exitFee: Option<F64>,
    comments: Option<string>)

  datatype FinishDbTradePayload = FinishDbTradePayload(id: Uuid, exitedAt: Timestamp, barsInTrade: int, exitPrice: F64)

  /** What a handler step sends, in order. Panic ends the step. */
  datatype TradeEffect =
    | EnterTrade(symbol: string, dollarValue: F64)
    | CreateDbTrade(record: DbTrade)
    | RequestLatestCandles(n: nat)
    | ExitTrade(symbol: string)
    | FinishDbTrade(payload: FinishDbTradePayload)
    | Stop
    | Panic(reason: string)

  /** A take-profit or stop-loss predicate of the resolution strategy; it
      may fail. */
  type ResolutionCheck = (ResolutionStrategy, Orientation, seq<Candle>) -> Result<bool, string>

  const TakeProfitWindowTooLong := "take-profit window longer than the response"
  const TakeProfitCheckFailed := "Unable to perform take-profit check in Active Trade"
  const StopLossWindowTooLong := "stop-loss window longer than the response"
  const StopLossCheckFailed := "Unable to perform stop-loss check in Active Trade"

  /** Rust's i64 division, which truncates toward zero. */
  function TruncDiv(a: int, d: nat): (q: int)
    requires d > 0
    ensures a >= 0 ==> 0 <= q && q * d <= a < q * d + d
    ensures a < 0 ==> q <= 0 && q * d - d < a <= q * d
  {
    if a >= 0 then a / d else -((-a) / d)
  }

  /** get_bars_in_trade: whole bars between entry and exit, with a 10-second
      grace, truncated toward zero. */
  function BarsInTrade(enteredAt: Timestamp, exitedAt: Timestamp, interval: Interval): (bars: int)
    ensures var total, d := exitedAt - enteredAt + 10, IntervalSeconds(interval);
            && (total >= 0 ==> 0 <= bars && bars * d <= total < bars * d + d)
            && (total < 0 ==> bars <= 0 && bars * d - d < total <= bars * d)
  {
    TruncDiv(exitedAt - enteredAt + 10, IntervalSeconds(interval))
  }

  /** Entered at T, exited at T + 125 s on the one-minute interval: 2 bars. */
  lemma BarsInTradeExample(t: Timestamp)
    ensures BarsInTrade(t, t + 125, Minute1) == 2
  {
  }

  lemma TruncDivMonotone(a: int, b: int, d: nat)
    requires d > 0 && a <= b
    ensures TruncDiv(a, d) <= TruncDiv(b, d)
  {
    var qa, qb := TruncDiv(a, d), TruncDiv(b, d);
    if qa > qb {
      MulLe(qb + 1, qa, d);
    }
  }

  lemma {:induction false} MulLe(u: int, v: int, d: nat)
    requires u <= v
    ensures u * d <= v * d
    decreases v - u
  {
    if u < v {
      MulLe(u, v - 1, d);
      assert (v - 1) * d + d == v * d;
    }
  }

  /** For a fixed entry and interval, more time in the trade never means fewer bars. */
  lemma BarsInTradeMonotone(enteredAt: Timestamp, exitedAt: Timestamp, laterExit: Timestamp, interval: Interval)
    requires exitedAt <= laterExit
    ensures BarsInTrade(enteredAt, exitedAt, interval) <= BarsInTrade(enteredAt, laterExit, interval)
  {
    TruncDivMonotone(exitedAt - enteredAt + 10, laterExit - enteredAt + 10, IntervalSeconds(interval));
  }

  function Max(a: nat, b: nat): nat {
    if a >= b then a else b
  }

  /** The last n elements of s. */
  function LastN<T>(s: seq<T>, n: nat): (w: seq<T>)
    requires n <= |s|
    ensures |w| == n && s == s[..|s| - n] + w
  {
    s[|s| - n..]
  }

  /** When the response has exactly max(tp, sl) candles, the longer window is
      the whole response and the shorter one is the tail of the longer one. */
  lemma WindowsOfResponse<T>(candles: seq<T>, tp: nat, sl: nat)
    requires |candles| == Max(tp, sl)
    ensures LastN(candles, Max(tp, sl)) == candles
    ensures tp <= sl ==> LastN(candles, tp) == LastN(LastN(candles, sl), tp)
    ensures sl <= tp ==> LastN(candles, sl) == LastN(LastN(candles, tp), sl)
  {
  }

  /** The exit decision on one response: the take-profit window is sliced and
      checked first, then the stop-loss window. Err carries the reason the
      handler panics: a window longer than the response or a failed check. */
  function ExitDecision(rs: ResolutionStrategy, o: Orientation, candles: seq<Candle>,
                        takeProfit: ResolutionCheck, stopLoss: ResolutionCheck): (d: Result<bool, string>)
    ensures d.Ok? <==> rs.nCandlesTakeProfit <= |candles| && rs.nCandlesStopLoss <= |candles|
                       && takeProfit(rs, o, LastN(candles, rs.nCandlesTakeProfit)).Ok?
                       && stopLoss(rs, o, LastN(candles, rs.nCandlesStopLoss)).Ok?
    ensures d.Ok? ==> (d.value <==> takeProfit(rs, o, LastN(candles, rs.nCandlesTakeProfit)).value
                                    || stopLoss(rs, o, LastN(candles, rs.nCandlesStopLoss)).value)
    ensures rs.nCandlesTakeProfit <= |candles| && takeProfit(rs, o, LastN(candles, rs.nCandlesTakeProfit)).Err?
            ==> d == Err(TakeProfitCheckFailed)
    ensures d.Err? && d.error in {StopLossWindowTooLong, StopLossCheckFailed}
            ==> rs.nCandlesTakeProfit <= |candles| && takeProfit(rs, o, LastN(candles, rs.nCandlesTakeProfit)).Ok?
  {
    if |candles| < rs.nCandlesTakeProfit then Err(TakeProfitWindowTooLong)
    else
      var tp := takeProfit(rs, o, LastN(candles, rs.nCandlesTakeProfit));
      if tp.Err? then Err(TakeProfitCheckFailed)
      else if |candles| < rs.nCandlesStopLoss then Err(StopLossWindowTooLong)
      else
        var sl := stopLoss(rs, o, LastN(candles, rs.nCandlesStopLoss));
        if sl.Err? then Err(StopLossCheckFailed)
        else Ok(tp.value || sl.value)
  }

  /** Older candles in front of the response change nothing: the decision
      depends only on the last max(tp, sl) candles. */
  lemma ExitDecisionIgnoresOlderCandles(rs: ResolutionStrategy, o: Orientation, older: seq<Candle>, candles: seq<Candle>,
                                        takeProfit: ResolutionCheck, stopLoss: ResolutionCheck)
    requires Max(rs.nCandlesTakeProfit, rs.nCandlesStopLoss) <= |candles|
    ensures ExitDecision(rs, o, older + candles, takeProfit, stopLoss) == ExitDecision(rs, o, candles, takeProfit, stopLoss)
  {
    LastNOfLonger(older, candles, rs.nCandlesTakeProfit);
    LastNOfLonger(older, candles, rs.nCandlesStopLoss);
  }

  /** A response of the requested max(tp, sl) candles never panics on a
      window: only a failed check can. */
  lemma RequestedResponseFitsWindows(rs: ResolutionStrategy, o: Orientation, candles: seq<Candle>,
                                     takeProfit: ResolutionCheck, stopLoss: ResolutionCheck)
    requires |candles| == Max(rs.nCandlesTakeProfit, rs.nCandlesStopLoss)
    ensures var d := ExitDecision(rs, o, candles, takeProfit, stopLoss);
            d.Err? ==> d.error == TakeProfitCheckFailed || d.error == StopLossCheckFailed
  {
  }

  lemma LastNOfLonger<T>(older: seq<T>, s: seq<T>, n: nat)
    requires n <= |s|
    ensures LastN(older + s, n) == LastN(s, n)
  {
    assert (older + s)[|older + s| - n..] == s[|s| - n..];
  }

  /** The "create" row sent when the actor starts. */
  function CreateRecord(t: Trade, rs: ResolutionStrategy): (r: DbTrade)
    ensures r.id == t.id && r.symbol == t.setup.symbol && r.interval == t.setup.interval
    ensures r.orientation == t.setup.orientation
    ensures r.enteredAt == t.setup.candle.timestamp && r.entryPrice == t.setup.candle.close
    ensures r.quantity == t.quantity && r.dollarValue == t.dollarValue && r.dataSource == t.source
    ensures r.tradingStrategy == Strategies.Name(t.tradingStrategy) && r.resolutionStrategy == rs.kind
    ensures r.exitedAt.None? && r.barsInTrade.None? && r.exitPrice.None? && r.exitFee.None? && r.comments.None?
    ensures r.entryFee == ZeroF64
  {
    DbTrade(
      id := t.id,
      symbol := t.setup.symbol,
      interval := t.setup.interval,
      orientation := t.setup.orientation,
      tradingStrategy := Strategies.Name(t.tradingStrategy),
      resolutionStrategy := rs.kind,
      dataSource := t.source,
      enteredAt := t.setup.candle.timestamp,
      exitedAt := None,
      barsInTrade := None,
      entryPrice := t.setup.candle.close,
      exitPrice := None,
      quantity := t.quantity,
      dollarValue := t.dollarValue,
      entryFee := ZeroF64,
      exitFee := None,
      comments := None)
  }

  /** The "finish" update for an exit on the notified candle. */
  function FinishRecord(t: Trade, candle: Candle): (p: FinishDbTradePayload)
    ensures p.id == t.id && p.exitedAt == candle.timestamp && p.exitPrice == candle.close
    ensures p.barsInTrade == BarsInTrade(t.setup.candle.timestamp, candle.timestamp, t.setup.interval)
  {
    FinishDbTradePayload(t.id, candle.timestamp, BarsInTrade(t.setup.candle.timestamp, candle.timestamp, t.setup.interval), candle.close)
  }

  /** The running actor. */
  class TradeActor {
    const trade: Trade
    var resolutionStrategy: ResolutionStrategy
    var running: bool

    /** trade.start(). */
    constructor (t: Trade)
      ensures trade == t && resolutionStrategy == t.resolutionStrategy && running
    {
      trade := t;
      resolutionStrategy := t.resolutionStrategy;
      running := true;
    }

    /** Actor::started: initialise the resolution strategy from the setup,
        send the entry order and then the "create" record, whatever the
        order's result. */
    method Started(setInitialValues: (ResolutionStrategy, Setup) -> Result<ResolutionStrategy, string>,
                   entryResult: Result<(), string>)
      returns (effects: seq<TradeEffect>)
      requires running
      modifies this
      ensures running
      ensures var init := setInitialValues(old(resolutionStrategy), trade.setup);
              && (init.Err? ==> resolutionStrategy == old(resolutionStrategy) && |effects| == 1 && effects[0].Panic?)
              && (init.Ok? ==> resolutionStrategy == init.value
                               && effects == [EnterTrade(trade.setup.symbol, trade.dollarValue),
                                              CreateDbTrade(CreateRecord(trade, init.value))])
    {
      var init := setInitialValues(resolutionStrategy, trade.setup);
      if init.Err? {
        effects := [Panic("Unable to set initial values resolution strategy when starting Trade.")];
        return;
      }
      resolutionStrategy := init.value;
      effects := [EnterTrade(trade.setup.symbol, trade.dollarValue)];
      // The order's result is only logged.
      effects := effects + [CreateDbTrade(CreateRecord(trade, resolutionStrategy))];
    }

    /** StopPayload: ctx.stop(). */
    method HandleStop()
      modifies this
      ensures !running && resolutionStrategy == old(resolutionStrategy)
    {
      running := false;
    }

    /** CandleAddedPayload: one atomic step, the StopPayload it sends to
        itself applied at the end. The outer Err of the response is a failed
        send to the time series, the inner one its own error answer. */
    method HandleCandleAdded(candle: Candle, response: Result<Result<seq<Candle>, string>, string>,
                             takeProfit: ResolutionCheck, stopLoss: ResolutionCheck,
                             exitResult: Result<(), string>)
      returns (effects: seq<TradeEffect>)
      requires running
      modifies this
      ensures resolutionStrategy == old(resolutionStrategy)
      ensures var rs := resolutionStrategy;
              var request := RequestLatestCandles(Max(rs.nCandlesTakeProfit, rs.nCandlesStopLoss));
              if response.Err? then
                running && effects == [request, Panic("Unable to fetch timeseries data in Trade.")]
              else if response.value.Err? then
                running && effects == [request, Panic("Unable to parse LatestCandleResponse in Trade.")]
              else match ExitDecision(rs, trade.setup.orientation, response.value.value, takeProfit, stopLoss)
                case Err(reason) => running && effects == [request, Panic(reason)]
                case Ok(true) => !running && effects == [request, ExitTrade(trade.setup.symbol), FinishDbTrade(FinishRecord(trade, candle)), Stop]
                case Ok(false) => running && effects == [request]
    {
      var rs := resolutionStrategy;
      var tpNeeded, slNeeded := rs.nCandlesTakeProfit, rs.nCandlesStopLoss;
      effects := [RequestLatestCandles(Max(tpNeeded, slNeeded))];
      if response.Err? {
        effects := effects + [Panic("Unable to fetch timeseries data in Trade.")];
        return;
      }
      if response.value.Err? {
        effects := effects + [Panic("Unable to parse LatestCandleResponse in Trade.")];
        return;
      }
      var candles := response.value.value;
      var end := |candles|;
      if end < tpNeeded {
        effects := effects + [Panic(TakeProfitWindowTooLong)];
        return;
      }
      var tpCandles := candles[end - tpNeeded..end];
      assert tpCandles == LastN(candles, tpNeeded);
      var takeProfitReached := takeProfit(rs, trade.setup.orientation, tpCandles);
      if takeProfitReached.Err? {
        effects := effects + [Panic(TakeProfitCheckFailed)];
        return;
      }
      if end < slNeeded {
        effects := effects + [Panic(StopLossWindowTooLong)];
        return;
      }
      var slCandles := candles[end - slNeeded..end];
      assert slCandles == LastN(candles, slNeeded);
      var stopLossReached := stopLoss(rs, trade.setup.orientation, slCandles);
      if stopLossReached.Err? {
        effects := effects + [Panic(StopLossCheckFailed)];
        return;
      }
      if takeProfitReached.value || stopLossReached.value {
        // The exit order's result is only logged.
        effects := effects + [ExitTrade(trade.setup.symbol)];
        var exitedAt := candle.timestamp;
        var bars := BarsInTrade(trade.setup.candle.timestamp, exitedAt, trade.setup.interval);
        effects := effects + [FinishDbTrade(FinishDbTradePayload(trade.id, exitedAt, bars, candle.close))];
        effects := effects + [Stop];
        HandleStop();
      }
    }
  }
}
