// The TradingStrategy interface, as a closed set of variants: the two test
// strategies, and Custom for every other strategy (KQ12, KQ14, ...), whose
// entry predicate is an oracle the caller supplies.

module Strategies {
  import opened Domain
  import TrueOnce
  import TrueTwice

  /** What the engine can ask any other strategy without running it. */
  datatype Descriptor = Descriptor(
    name: string,
    interval: Interval,
    minLength: nat,
    candlesNeeded: nat,
    indicators: seq<IndicatorType>,
    orientation: Orientation,
    resolution: ResolutionStrategy,
    state: seq<F64>)

  datatype Strategy =
    | TrueOnce(once: TrueOnce.TrueOnceStrategy)
    | TrueTwice(twice: TrueTwice.TrueTwiceStrategy)
    | Custom(descriptor: Descriptor)

  /** The entry predicate of a Custom strategy: new descriptor state and an
      optional setup builder for the window. */
  type CustomCheck = (Descriptor, seq<Candle>) -> (Descriptor, Option<SetupBuilder>)

  /** interval(): one-minute candles for both test strategies. */
  function IntervalOf(s: Strategy): (i: Interval)
    ensures !s.Custom? ==> i == Minute1
    ensures s.Custom? ==> i == s.descriptor.interval
  {
    match s
    case TrueOnce(_) => TrueOnce.StrategyInterval()
    case TrueTwice(_) => TrueTwice.StrategyInterval()
    case Custom(d) => d.interval
  }

  /** min_length(): one candle for both test strategies. */
  function MinLength(s: Strategy): (n: nat)
    ensures !s.Custom? ==> n == 1
    ensures s.Custom? ==> n == s.descriptor.minLength
  {
    match s
    case TrueOnce(_) => TrueOnce.MinLength()
    case TrueTwice(_) => TrueTwice.MinLength()
    case Custom(d) => d.minLength
  }

  /** candles_needed_for_setup(): a one-candle window for both test strategies. */
  function CandlesNeededForSetup(s: Strategy): (n: nat)
    ensures !s.Custom? ==> n == 1
    ensures s.Custom? ==> n == s.descriptor.candlesNeeded
  {
    match s
    case TrueOnce(_) => TrueOnce.CandlesNeededForSetup()
    case TrueTwice(_) => TrueTwice.CandlesNeededForSetup()
    case Custom(d) => d.candlesNeeded
  }

  /** required_indicators(): none for the test strategies. */
  function RequiredIndicators(s: Strategy): (r: seq<IndicatorType>)
    ensures !s.Custom? ==> r == []
    ensures s.Custom? ==> r == s.descriptor.indicators
  {
    match s
    case TrueOnce(_) => TrueOnce.RequiredIndicators()
    case TrueTwice(_) => TrueTwice.RequiredIndicators()
    case Custom(d) => d.indicators
  }

  /** orientation(): long for the test strategies. */
  function OrientationOf(s: Strategy): (o: Orientation)
    ensures !s.Custom? ==> o == Long
    ensures s.Custom? ==> o == s.descriptor.orientation
  {
    match s
    case TrueOnce(_) => TrueOnce.StrategyOrientation()
    case TrueTwice(_) => TrueTwice.StrategyOrientation()
    case Custom(d) => d.orientation
  }

  /** default_resolution_strategy(): instant resolution for the test strategies. */
  function DefaultResolutionStrategy(s: Strategy): (r: ResolutionStrategy)
    ensures !s.Custom? ==> r == InstantResolution
    ensures s.Custom? ==> r == s.descriptor.resolution
  {
    match s
    case TrueOnce(_) => InstantResolution
    case TrueTwice(_) => InstantResolution
    case Custom(d) => d.resolution
  }

  /** The Display name: each test strategy's type name. */
  function Name(s: Strategy): (n: string)
    ensures s.TrueOnce? ==> n == "TrueOnceStrategy"
    ensures s.TrueTwice? ==> n == "TrueTwiceStrategy"
    ensures s.Custom? ==> n == s.descriptor.name
  {
    match s
    case TrueOnce(_) => TrueOnce.Name()
    case TrueTwice(_) => TrueTwice.Name()
    case Custom(d) => d.name
  }

  /** clone_box: an independent copy, equal to the original in every field. */
  function CloneBox(s: Strategy): (c: Strategy)
    ensures c == s
  {
    match s
    case TrueOnce(o) => TrueOnce(TrueOnce.CloneBox(o))
    case TrueTwice(t) => TrueTwice(TrueTwice.CloneBox(t))
    case Custom(d) => Custom(d)
  }

  /** The test strategies index candles[0] when they fire; an empty window
      then panics in the original. Custom strategies handle any window. */
  predicate Indexable(s: Strategy, candles: seq<Candle>) {
    match s
    case TrueOnce(o) => o.triggered || |candles| > 0
    case TrueTwice(t) => !TrueTwice.WouldFire(t) || |candles| > 0
    case Custom(_) => true
  }

  /** check_last_for_setup, dispatched to the variant. */
  function CheckLastForSetup(s: Strategy, candles: seq<Candle>, custom: CustomCheck): (r: (Strategy, Option<SetupBuilder>))
    requires Indexable(s, candles)
    ensures s.Custom? <==> r.0.Custom?
    ensures IntervalOf(r.0) == IntervalOf(s) || s.Custom?
    ensures s.TrueOnce? ==> r.0.TrueOnce? && (r.1.Some? <==> !s.once.triggered)
    ensures s.TrueTwice? ==> r.0.TrueTwice? && (r.1.Some? <==> TrueTwice.WouldFire(s.twice))
    ensures s.TrueOnce? ==> r == (TrueOnce(TrueOnce.CheckLastForSetup(s.once, candles).0), TrueOnce.CheckLastForSetup(s.once, candles).1)
    ensures s.TrueTwice? ==> r == (TrueTwice(TrueTwice.CheckLastForSetup(s.twice, candles).0), TrueTwice.CheckLastForSetup(s.twice, candles).1)
    ensures s.Custom? ==> r == (Custom(custom(s.descriptor, candles).0), custom(s.descriptor, candles).1)
  {
    match s
    case TrueOnce(o) =>
      var (o', sb) := TrueOnce.CheckLastForSetup(o, candles);
      (TrueOnce(o'), sb)
    case TrueTwice(t) =>
      var (t', sb) := TrueTwice.CheckLastForSetup(t, candles);
      (TrueTwice(t'), sb)
    case Custom(d) =>
      var (d', sb) := custom(d, candles);
      (Custom(d'), sb)
  }

  /** clone_box copies the trigger state: a clone of a TrueOnce instance that
      has fired never fires. */
  lemma ClonedFiredTrueOnceNeverFires(o: TrueOnce.TrueOnceStrategy, candles: seq<Candle>, custom: CustomCheck)
    requires o.triggered
    ensures CheckLastForSetup(CloneBox(TrueOnce(o)), candles, custom).1.None?
  {
  }
}
