// The test strategy that reports a long setup on its first ask and never
// again. The Rust struct is cloned by value (clone_box), so the model keeps
// it as a value and threads its state through CheckLastForSetup.

module TrueOnce {
  import opened Domain

  datatype TrueOnceStrategy = TrueOnceStrategy(tradingDays: set<Weekday>, triggered: bool)

  /** min_length: one candle of history, enough for the setup window. */
  function MinLength(): (n: nat)
    ensures n == 1 && CandlesNeededForSetup() <= n
  {
    1
  }

  /** candles_needed_for_setup: a window of one candle, which holds the
      candles[0] a firing check reads. */
  function CandlesNeededForSetup(): (n: nat)
    ensures n == 1
  {
    1
  }

  /** required_indicators: none. */
  function RequiredIndicators(): (r: seq<IndicatorType>)
    ensures r == []
  {
    []
  }

  /** orientation: long, the orientation a firing check puts on its builder. */
  function StrategyOrientation(): (o: Orientation)
    ensures o == Long
  {
    Long
  }

  /** interval: one-minute candles. */
  function StrategyInterval(): (i: Interval)
    ensures i == Minute1 && IntervalSeconds(i) == 60
  {
    Minute1
  }

  /** The Display name, stored in the trade row. */
  function Name(): (n: string)
    ensures n == "TrueOnceStrategy"
  {
    "TrueOnceStrategy"
  }

  /** A fresh instance: trades on every weekday and has not fired yet. */
  function New(): (s: TrueOnceStrategy)
    ensures !s.triggered
    ensures forall d: Weekday :: d in s.tradingDays
  {
    AllWeekdaysComplete();
    TrueOnceStrategy(AllWeekdays, false)
  }

  /** One ask. Indexes candles[0] when it fires, so the window must then be
      non-empty. Returns the new state and the setup builder, if any. */
  function CheckLastForSetup(s: TrueOnceStrategy, candles: seq<Candle>): (r: (TrueOnceStrategy, Option<SetupBuilder>))
    requires s.triggered || |candles| > 0
    ensures r.0.triggered && r.0.tradingDays == s.tradingDays
    ensures r.1.Some? <==> !s.triggered
    ensures r.1.Some? ==> r.1.value.candle == Some(candles[0]) && r.1.value.orientation == Some(Long)
                          && r.1.value.symbol.None? && r.1.value.interval.None?
  {
    if s.triggered then (s, None)
    else (s.(triggered := true), Some(SetupBuilder.New().WithCandle(candles[0]).WithOrientation(Long)))
  }

  /** The declared accessors agree with the check: a window of
      candles_needed_for_setup candles always meets its precondition, and a
      returned builder carries the declared orientation. */
  lemma AccessorsAgreeWithCheck(s: TrueOnceStrategy, candles: seq<Candle>)
    requires |candles| == CandlesNeededForSetup()
    ensures s.triggered || |candles| > 0
    ensures var r := CheckLastForSetup(s, candles);
            r.1.Some? ==> r.1.value.orientation == Some(StrategyOrientation()) && r.1.value.candle == Some(candles[0])
  {
  }

  /** clone_box: an independent copy carrying the same trigger state. */
  function CloneBox(s: TrueOnceStrategy): (c: TrueOnceStrategy)
    ensures c.triggered == s.triggered && c.tradingDays == s.tradingDays
  {
    s
  }

  /** A boxed instance whose check updates its trigger flag in place. */
  class TrueOnceInstance {
    var tradingDays: set<Weekday>
    var triggered: bool

    function Value(): TrueOnceStrategy
      reads this
    {
      TrueOnceStrategy(tradingDays, triggered)
    }

    constructor (s: TrueOnceStrategy)
      ensures Value() == s
    {
      tradingDays := s.tradingDays;
      triggered := s.triggered;
    }

    /** check_last_for_setup(&mut self). */
    method Check(candles: seq<Candle>) returns (sb: Option<SetupBuilder>)
      requires triggered || |candles| > 0
      modifies this
      ensures (Value(), sb) == CheckLastForSetup(old(Value()), candles)
    {
      if triggered {
        return None;
      }
      sb := Some(SetupBuilder.New().WithCandle(candles[0]).WithOrientation(Long));
      triggered := true;
    }

    /** clone_box: a new box with the same state; later checks on either
        leave the other alone. */
    method CloneBox() returns (c: TrueOnceInstance)
      ensures fresh(c) && c.Value() == Value()
    {
      c := new TrueOnceInstance(Value());
    }
  }

  /** Asks the same instance once per window, in order. */
  function Run(s: TrueOnceStrategy, windows: seq<seq<Candle>>): (r: (TrueOnceStrategy, seq<Option<SetupBuilder>>))
    requires AllNonEmpty(windows)
    ensures |r.1| == |windows|
    decreases |windows|
  {
    if windows == [] then (s, [])
    else
      var (s1, out) := CheckLastForSetup(s, windows[0]);
      var (s2, outs) := Run(s1, windows[1..]);
      (s2, [out] + outs)
  }

  function CountSome(outs: seq<Option<SetupBuilder>>): nat {
    if outs == [] then 0 else (if outs[0].Some? then 1 else 0) + CountSome(outs[1..])
  }

  /** Once fired, an instance (or any clone of it) never fires again. */
  lemma {:induction false} FiredNeverFires(s: TrueOnceStrategy, windows: seq<seq<Candle>>)
    requires AllNonEmpty(windows)
    requires s.triggered
    ensures CountSome(Run(s, windows).1) == 0
    decreases |windows|
  {
    if windows != [] {
      FiredNeverFires(s, windows[1..]);
    }
  }

  /** Over any sequence of asks, at most one answer is a setup; a fresh
      instance gives it on the first ask. */
  lemma {:induction false} FiresAtMostOnce(s: TrueOnceStrategy, windows: seq<seq<Candle>>)
    requires AllNonEmpty(windows)
    ensures CountSome(Run(s, windows).1) == (if s.triggered || windows == [] then 0 else 1)
    ensures !s.triggered && windows != [] ==> Run(s, windows).1[0].Some?
  {
    if windows != [] {
      var (s1, out) := CheckLastForSetup(s, windows[0]);
      FiredNeverFires(s1, windows[1..]);
    } else {
      assert Run(s, windows).1 == [];
    }
  }
}
