// Shared records of the trading engine: the values that flow between the
// market-data feed, the strategies, the setup finder and the trade actor.
// Prices and amounts are IEEE-754 doubles in the original; the model never
// computes with them and keeps each one as its bit pattern.

module Domain {

  datatype Option<+T> = None | Some(value: T)

  datatype Result<+T, +E> = Ok(value: T) | Err(error: E)

  /** A 64-bit float, kept opaque as its bit pattern. */
  datatype F64 = F64(bits: bv64)

  /** +0.0 */
  const ZeroF64: F64 := F64(0)

  /** A UTC instant, in whole seconds since the Unix epoch. */
  type Timestamp = int

  /** Opaque identities: a trade's UUID and actor addresses. */
  type Uuid = nat
  type TradeAddr = nat
  type TsAddr = nat
  type DbAddr = nat

  /** The exchange connector a trade or finder talks to. */
  datatype DataSource = DataSource(name: string)

  datatype Interval =
    | Minute1 | Minute5 | Minute15 | Minute30
    | Hour1 | Hour4 | Hour12
    | Day1 | Day5 | Week1

  /** Length of one bar of the interval, in seconds: the divisor table of
      get_bars_in_trade. */
  function IntervalSeconds(interval: Interval): (d: nat)
    ensures d > 0 && d % 60 == 0
  {
    match interval
    case Minute1 => 60
    case Minute5 => 5 * 60
    case Minute15 => 15 * 60
    case Minute30 => 30 * 60
    case Hour1 => 60 * 60
    case Hour4 => 4 * 60 * 60
    case Hour12 => 12 * 60 * 60
    case Day1 => 24 * 60 * 60
    case Day5 => 5 * 24 * 60 * 60
    case Week1 => 7 * 24 * 60 * 60
  }

  datatype Orientation = Long | Short

  datatype Weekday = Mon | Tue | Wed | Thu | Fri | Sat | Sun

  const AllWeekdays: set<Weekday> := {Mon, Tue, Wed, Thu, Fri, Sat, Sun}

  lemma AllWeekdaysComplete()
    ensures forall d: Weekday :: d in AllWeekdays
  {
    forall d: Weekday ensures d in AllWeekdays {
      match d
      case Mon => case Tue => case Wed => case Thu => case Fri => case Sat => case Sun =>
    }
  }

  /** An indicator kind (ATR, RSI, ...); its maths is outside the model. */
  datatype IndicatorType = IndicatorType(id: nat)

  /** A run of strategy asks in which every window holds at least one candle. */
  ghost predicate AllNonEmpty(windows: seq<seq<Candle>>) {
    forall i :: 0 <= i < |windows| ==> |windows[i]| > 0
  }

  /** One closed OHLCV bar. */
  datatype Candle = Candle(timestamp: Timestamp, open: F64, high: F64, low: F64, close: F64, volume: F64)

  /** The time series' answer to a latest-candles request. */
  datatype LatestCandles = LatestCandles(candles: seq<Candle>, symbol: string, interval: Interval)

  /** The immutable snapshot taken when a strategy fires. */
  datatype Setup = Setup(symbol: string, interval: Interval, candle: Candle, orientation: Orientation)

  /** Partially filled setup, as a strategy hands it to the finder. */
  datatype SetupBuilder = SetupBuilder(
    candle: Option<Candle>,
    symbol: Option<string>,
    interval: Option<Interval>,
    orientation: Option<Orientation>)
  {
    static function New(): SetupBuilder {
      SetupBuilder(None, None, None, None)
    }

    function WithCandle(c: Candle): SetupBuilder { this.(candle := Some(c)) }

    function WithSymbol(s: string): SetupBuilder { this.(symbol := Some(s)) }

    function WithInterval(i: Interval): SetupBuilder { this.(interval := Some(i)) }

    function WithOrientation(o: Orientation): SetupBuilder { this.(orientation := Some(o)) }

    /** Succeeds exactly when all four parts are present. */
    function Build(): (r: Result<Setup, string>)
      ensures r.Ok? <==> candle.Some? && symbol.Some? && interval.Some? && orientation.Some?
      ensures r.Ok? ==> r.value == Setup(symbol.value, interval.value, candle.value, orientation.value)
    {
      if candle.None? then Err("Candle is required to build Setup.")
      else if symbol.None? then Err("Symbol is required to build Setup.")
      else if interval.None? then Err("Interval is required to build Setup.")
      else if orientation.None? then Err("Orientation is required to build Setup.")
      else Ok(Setup(symbol.value, interval.value, candle.value, orientation.value))
    }
  }

  datatype ResolutionKind = Instant | Named(name: string)

  /** Exit policy: the sizes of its take-profit and stop-loss windows and its
      trailing state (peaks, troughs), which only its own code interprets. */
  datatype ResolutionStrategy = ResolutionStrategy(
    kind: ResolutionKind,
    nCandlesTakeProfit: nat,
    nCandlesStopLoss: nat,
    trail: seq<F64>)

  /** ResolutionStrategy::Instant(InstantResolution). */
  const InstantResolution: ResolutionStrategy := ResolutionStrategy(Instant, 1, 1, [])
}
