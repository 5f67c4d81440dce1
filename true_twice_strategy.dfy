// The test strategy that reports a long setup on its second ask and never
// otherwise. Kept as a value, like TrueOnce.

module TrueTwice {
  import opened Domain

  datatype TrueTwiceStrategy = TrueTwiceStrategy(tradingDays: set<Weekday>, triggered: bool, triggers: nat)

  /** min_length: one candle of history, enough for the setup window. */
  function MinLength(): (n: nat)
    ensures n == 1 && CandlesNeededForSetup() <= n
  {
    1
  }

  /** candles_needed_for_setup: a window of one candle, which holds the
      candles[0] a firing check reads. */
  function CandlesNeededForSetup(): (n: nat)
    ensures n == 1
  {
    1
  }

  /** required_indicators: none. */
  function RequiredIndicators(): (r: seq<IndicatorType>)
    ensures r == []
  {
    []
  }

  /** orientation: long, the orientation a firing check puts on its builder. */
  function StrategyOrientation(): (o: Orientation)
    ensures o == Long
  {
    Long
  }

  /** interval: one-minute candles. */
  function StrategyInterval(): (i: Interval)
    ensures i == Minute1 && IntervalSeconds(i) == 60
  {
    Minute1
  }

  /** The Display name, stored in the trade row. */
  function Name(): (n: string)
    ensures n == "TrueTwiceStrategy"
  {
    "TrueTwiceStrategy"
  }

  function New(): (s: TrueTwiceStrategy)
    ensures !s.triggered && s.triggers == 0
    ensures forall d: Weekday :: d in s.tradingDays
  {
    AllWeekdaysComplete();
    TrueTwiceStrategy(AllWeekdays, false, 0)
  }

  /** Whether this ask would index candles[0]. */
  predicate WouldFire(s: TrueTwiceStrategy) {
    !s.triggered && s.triggers >= 1
  }

  /** One ask: the first one only counts, the second one fires. */
  function CheckLastForSetup(s: TrueTwiceStrategy, candles: seq<Candle>): (r: (TrueTwiceStrategy, Option<SetupBuilder>))
    requires WouldFire(s) ==> |candles| > 0
    ensures r.1.Some? <==> WouldFire(s)
    ensures r.1.Some? ==> r.1.value.candle == Some(candles[0]) && r.1.value.orientation == Some(Long)
                          && r.1.value.symbol.None? && r.1.value.interval.None?
    ensures r.0.triggered <==> s.triggered || WouldFire(s)
    ensures s.triggers <= 1 ==> r.0.triggers <= 1
    ensures !s.triggered && s.triggers == 0 ==> r.0.triggers == 1
    ensures r.0.tradingDays == s.tradingDays
  {
    if s.triggered then (s, None)
    else if s.triggers < 1 then (s.(triggers := s.triggers + 1), None)
    else (s.(triggered := true), Some(SetupBuilder.New().WithCandle(candles[0]).WithOrientation(Long)))
  }

  /** The declared accessors agree with the check: a window of
      candles_needed_for_setup candles always meets its precondition, and a
      returned builder carries the declared orientation. */
  lemma AccessorsAgreeWithCheck(s: TrueTwiceStrategy, candles: seq<Candle>)
    requires |candles| == CandlesNeededForSetup()
    ensures WouldFire(s) ==> |candles| > 0
    ensures var r := CheckLastForSetup(s, candles);
            r.1.Some? ==> r.1.value.orientation == Some(StrategyOrientation()) && r.1.value.candle == Some(candles[0])
  {
  }

  function CloneBox(s: TrueTwiceStrategy): (c: TrueTwiceStrategy)
    ensures c.triggered == s.triggered && c.triggers == s.triggers && c.tradingDays == s.tradingDays
  {
    s
  }

  /** A boxed instance whose check updates its counter and flag in place. */
  class TrueTwiceInstance {
    var tradingDays: set<Weekday>
    var triggered: bool
    var triggers: nat

    function Value(): TrueTwiceStrategy
      reads this
    {
      TrueTwiceStrategy(tradingDays, triggered, triggers)
    }

    constructor (s: TrueTwiceStrategy)
      ensures Value() == s
    {
      tradingDays := s.tradingDays;
      triggered := s.triggered;
      triggers := s.triggers;
    }

    /** check_last_for_setup(&mut self). */
    method Check(candles: seq<Candle>) returns (sb: Option<SetupBuilder>)
      requires WouldFire(Value()) ==> |candles| > 0
      modifies this
      ensures (Value(), sb) == CheckLastForSetup(old(Value()), candles)
    {
      if triggered {
        return None;
      }
      if triggers < 1 {
        triggers := triggers + 1;
        return None;
      }
      sb := Some(SetupBuilder.New().WithCandle(candles[0]).WithOrientation(Long));
      triggered := true;
    }

    method CloneBox() returns (c: TrueTwiceInstance)
      ensures fresh(c) && c.Value() == Value()
    {
      c := new TrueTwiceInstance(Value());
    }
  }

  function Run(s: TrueTwiceStrategy, windows: seq<seq<Candle>>): (r: (TrueTwiceStrategy, seq<Option<SetupBuilder>>))
    requires AllNonEmpty(windows)
    ensures |r.1| == |windows|
    decreases |windows|
  {
    if windows == [] then (s, [])
    else
      var (s1, out) := CheckLastForSetup(s, windows[0]);
      var (s2, outs) := Run(s1, windows[1..]);
      (s2, [out] + outs)
  }

  lemma {:induction false} FiredNeverFires(s: TrueTwiceStrategy, windows: seq<seq<Candle>>)
    requires AllNonEmpty(windows)
    requires s.triggered
    ensures forall i :: 0 <= i < |windows| ==> Run(s, windows).1[i].None?
    decreases |windows|
  {
    if windows != [] {
      FiredNeverFires(s, windows[1..]);
    }
  }

  /** An instance that has counted one ask fires on the next and never after. */
  lemma {:induction false} ArmedFiresFirst(s: TrueTwiceStrategy, windows: seq<seq<Candle>>)
    requires AllNonEmpty(windows)
    requires WouldFire(s)
    ensures forall i :: 0 <= i < |windows| ==> (Run(s, windows).1[i].Some? <==> i == 0)
  {
    if windows != [] {
      var (s1, out) := CheckLastForSetup(s, windows[0]);
      FiredNeverFires(s1, windows[1..]);
    }
  }

  /** On a fresh instance exactly the second ask returns a setup, and the
      trigger counter never goes past 1. */
  lemma {:induction false} FreshFiresOnSecondAsk(windows: seq<seq<Candle>>)
    requires AllNonEmpty(windows)
    ensures forall i :: 0 <= i < |windows| ==> (Run(New(), windows).1[i].Some? <==> i == 1)
    ensures Run(New(), windows).0.triggers <= 1
  {
    if windows != [] {
      var (s1, out) := CheckLastForSetup(New(), windows[0]);
      assert out.None? && s1.triggers == 1 && !s1.triggered;
      ArmedFiresFirst(s1, windows[1..]);
      TriggersStayAtMostOne(s1, windows[1..]);
    }
  }

  lemma {:induction false} TriggersStayAtMostOne(s: TrueTwiceStrategy, windows: seq<seq<Candle>>)
    requires AllNonEmpty(windows)
    requires s.triggers <= 1
    ensures Run(s, windows).0.triggers <= 1
    decreases |windows|
  {
    if windows != [] {
      var (s1, out) := CheckLastForSetup(s, windows[0]);
      TriggersStayAtMostOne(s1, windows[1..]);
    }
  }
}
