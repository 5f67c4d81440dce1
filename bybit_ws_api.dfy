// The Bybit v5 public kline stream: the interval codes of the subscribe
// request, and the candle-close detector. The stream sends the bar that is
// still forming again and again; a bar is complete once a kline with a
// different bucket start arrives, and only then is it forwarded, converted to
// a candle. The detector's state is the one slot holding the previous kline.
//
// Decoding the response (get_kline) and Kline::to_candle are inputs: a
// response is None when get_kline fails, and the conversion is a function
// that may fail.

module BybitWs {
  import opened Domain

  /** One kline of the stream; start is the bucket start. */
  datatype Kline = Kline(start: Timestamp, open: F64, high: F64, low: F64, close: F64, volume: F64)

  type ToCandle = Kline -> Option<Candle>

  datatype OutgoingMessageArg = OutgoingMessageArg(stream: string, interval: string, symbol: string)

  datatype OutgoingMessage = OutgoingMessage(op: string, args: seq<OutgoingMessageArg>)

  // ----- interval codes -----

  /** The decimal digits of n. */
  function DecimalString(n: nat): (s: string)
    ensures |s| > 0
    ensures forall i :: 0 <= i < |s| ==> '0' <= s[i] <= '9'
  {
    var digit := ['0' + (n % 10) as char];
    if n < 10 then digit else DecimalString(n / 10) + digit
  }

  /** Bybit's code for a kline interval; Hour4, Hour12 and Day5 have none. */
  function IntervalAsString(interval: Interval): (r: Result<string, string>)
    ensures r.Ok? <==> interval !in {Hour4, Hour12, Day5}
    ensures r.Ok? ==> |r.value| > 0
  {
    match interval
    case Minute1 => Ok("1")
    case Minute5 => Ok("5")
    case Minute15 => Ok("15")
    case Minute30 => Ok("30")
    case Hour1 => Ok("60")
    case Day1 => Ok("D")
    case Week1 => Ok("W")
    case _ => Err("Bybit does not support this interval.")
  }

  /** Intraday codes count the bar's minutes; the daily and weekly codes are
      the letters D and W. */
  lemma IntervalCodeCountsMinutes(interval: Interval)
    requires IntervalAsString(interval).Ok?
    ensures interval in {Minute1, Minute5, Minute15, Minute30, Hour1}
            ==> IntervalAsString(interval).value == DecimalString(IntervalSeconds(interval) / 60)
    ensures interval == Day1 ==> IntervalAsString(interval).value == "D"
    ensures interval == Week1 ==> IntervalAsString(interval).value == "W"
  {
    match interval
    case Minute1 =>
    case Minute5 =>
    case Minute15 =>
      assert DecimalString(15) == DecimalString(1) + "5";
    case Minute30 =>
      assert DecimalString(30) == DecimalString(3) + "0";
    case Hour1 =>
      assert DecimalString(60) == DecimalString(6) + "0";
    case Day1 =>
    case Week1 =>
  }

  /** No two supported intervals share a code. */
  lemma IntervalCodesDistinct(a: Interval, b: Interval)
    requires IntervalAsString(a).Ok? && IntervalAsString(a) == IntervalAsString(b)
    ensures a == b
  {
  }

  /** subscribe_to_kline's request: one kline argument on BTCUSDT with the
      interval's code, or the interval's error. */
  function SubscribeToKline(interval: Interval): (r: Result<OutgoingMessage, string>)
    ensures r.Ok? <==> IntervalAsString(interval).Ok?
    ensures r.Ok? ==> r.value.op == "subscribe" && |r.value.args| == 1
                      && r.value.args[0] == OutgoingMessageArg("kline", IntervalAsString(interval).value, "BTCUSDT")
  {
    match IntervalAsString(interval)
    case Err(e) => Err(e)
    case Ok(code) => Ok(OutgoingMessage("subscribe", [OutgoingMessageArg("kline", code, "BTCUSDT")]))
  }

  // ----- the candle-close detector -----

  /** One kline response: the new previous kline and what the handler
      returns, Ok(Some(c)) when it forwards the closed candle c. */
  function KlineStep(prev: Option<Kline>, response: Option<Kline>, toCandle: ToCandle): (r: (Option<Kline>, Result<Option<Candle>, string>))
    ensures response.None? ==> r == (prev, Err("no kline in response"))
    ensures response.Some? && prev.None? ==> r == (response, Ok(None))
    ensures response.Some? && prev.Some? && response.value.start == prev.value.start ==> r == (response, Ok(None))
    ensures response.Some? && prev.Some? && response.value.start != prev.value.start ==>
              if toCandle(prev.value).Some? then r == (response, Ok(toCandle(prev.value)))
              else r.0 == prev && r.1.Err?
  {
    match response
    case None => (prev, Err("no kline in response"))
    case Some(kline) =>
      var p := if prev.None? then kline else prev.value;
      if kline.start != p.start then
        match toCandle(p)
        case None => (Some(p), Err("kline conversion failed"))
        case Some(candle) => (Some(kline), Ok(Some(candle)))
      else (Some(kline), Ok(None))
  }

  /** The slot the connection loop lends to the handler. */
  class KlineFeed {
    var prevKline: Option<Kline>

    constructor ()
      ensures prevKline.None?
    {
      prevKline := None;
    }

    /** handle_kline, updating the slot in place. */
    method HandleKline(response: Option<Kline>, toCandle: ToCandle) returns (result: Result<Option<Candle>, string>)
      modifies this
      ensures (prevKline, result) == KlineStep(old(prevKline), response, toCandle)
    {
      if response.None? {
        return Err("no kline in response");
      }
      var kline := response.value;
      if prevKline.None? {
        prevKline := Some(kline);
      }
      var prev := prevKline.value;
      if kline.start != prev.start {
        var candle := toCandle(prev);
        if candle.None? {
          return Err("kline conversion failed");
        }
        result := Ok(candle);
      } else {
        result := Ok(None);
      }
      prevKline := Some(kline);
    }
  }

  /** The candles forwarded while the connection loop feeds the responses in
      order; a failing response is logged and the loop goes on. */
  function FeedRun(prev: Option<Kline>, responses: seq<Option<Kline>>, toCandle: ToCandle): (r: (Option<Kline>, seq<Candle>))
    ensures |r.1| <= |responses|
    ensures (forall i :: 0 <= i < |responses| ==> responses[i].None?) ==> r == (prev, [])
    decreases |responses|
  {
    if responses == [] then (prev, [])
    else
      var (prev1, result) := KlineStep(prev, responses[0], toCandle);
      var emitted := if result.Ok? && result.value.Some? then [result.value.value] else [];
      var (prev2, rest) := FeedRun(prev1, responses[1..], toCandle);
      (prev2, emitted + rest)
  }

  /** A response that carries no kline is logged and skipped: wherever it
      comes in the stream, the loop goes on and forwards exactly what it
      would have forwarded without it. */
  lemma {:induction false} FeedSkipsFailedResponse(prev: Option<Kline>, before: seq<Option<Kline>>,
                                                   after: seq<Option<Kline>>, toCandle: ToCandle)
    ensures FeedRun(prev, before + [None] + after, toCandle) == FeedRun(prev, before + after, toCandle)
    decreases |before|
  {
    if before == [] {
      var xs := [None] + after;
      assert before + [None] + after == xs && before + after == after;
      assert xs[0] == None && xs[1..] == after;
      var rest := FeedRun(prev, after, toCandle);
      assert FeedRun(prev, xs, toCandle) == (rest.0, [] + rest.1);
      assert [] + rest.1 == rest.1;
    } else {
      var (prev1, _) := KlineStep(prev, before[0], toCandle);
      FeedSkipsFailedResponse(prev1, before[1..], after, toCandle);
      assert (before + [None] + after)[1..] == before[1..] + [None] + after;
      assert (before + after)[1..] == before[1..] + after;
    }
  }

  /** Every kline decoded. */
  function Responses(ks: seq<Kline>): (r: seq<Option<Kline>>)
    ensures |r| == |ks| && forall i :: 0 <= i < |ks| ==> r[i] == Some(ks[i])
  {
    if ks == [] then [] else [Some(ks[0])] + Responses(ks[1..])
  }

  /** Reference definition: the klines followed by one with another bucket
      start, in order. These are the completed bars. */
  function ClosedBars(ks: seq<Kline>): seq<Kline>
    decreases |ks|
  {
    if |ks| < 2 then []
    else (if ks[0].start != ks[1].start then [ks[0]] else []) + ClosedBars(ks[1..])
  }

  ghost predicate AlwaysConverts(toCandle: ToCandle) {
    forall k :: toCandle(k).Some?
  }

  function Converted(ks: seq<Kline>, toCandle: ToCandle): (cs: seq<Candle>)
    requires AlwaysConverts(toCandle)
    ensures |cs| == |ks|
  {
    if ks == [] then [] else [toCandle(ks[0]).value] + Converted(ks[1..], toCandle)
  }

  lemma {:induction false} ConvertedAppend(a: seq<Kline>, b: seq<Kline>, toCandle: ToCandle)
    requires AlwaysConverts(toCandle)
    ensures Converted(a + b, toCandle) == Converted(a, toCandle) + Converted(b, toCandle)
    decreases |a|
  {
    if a == [] {
      assert a + b == b;
    } else {
      assert (a + b)[1..] == a[1..] + b;
      ConvertedAppend(a[1..], b, toCandle);
      assert Converted(a + b, toCandle) == [toCandle(a[0]).value] + Converted(a[1..] + b, toCandle);
    }
  }

  /** With a previous kline p in the slot, the detector forwards exactly the
      closed bars of p followed by the stream, and ends holding the last
      kline seen. */
  lemma {:induction false} FeedForwardsClosedBars(p: Kline, ks: seq<Kline>, toCandle: ToCandle)
    requires AlwaysConverts(toCandle)
    ensures FeedRun(Some(p), Responses(ks), toCandle).1 == Converted(ClosedBars([p] + ks), toCandle)
    ensures FeedRun(Some(p), Responses(ks), toCandle).0 == Some(([p] + ks)[|ks|])
    decreases |ks|
  {
    var all := [p] + ks;
    if ks == [] {
      assert ClosedBars(all) == [];
    } else {
      var k := ks[0];
      var rs := Responses(ks);
      assert rs[0] == Some(k);
      assert rs[1..] == Responses(ks[1..]);
      FeedForwardsClosedBars(k, ks[1..], toCandle);
      assert all[1..] == [k] + ks[1..];
      var head := if p.start != k.start then [p] else [];
      assert ClosedBars(all) == head + ClosedBars([k] + ks[1..]);
      ConvertedAppend(head, ClosedBars([k] + ks[1..]), toCandle);
      assert ([k] + ks[1..])[|ks| - 1] == all[|ks|];
    }
  }

  /** From an empty slot the first kline is only stored: the detector
      forwards the closed bars of the stream itself. */
  lemma FeedFromEmptySlot(ks: seq<Kline>, toCandle: ToCandle)
    requires AlwaysConverts(toCandle) && ks != []
    ensures FeedRun(None, Responses(ks), toCandle).1 == Converted(ClosedBars(ks), toCandle)
  {
    var rs := Responses(ks);
    assert rs[1..] == Responses(ks[1..]);
    FeedForwardsClosedBars(ks[0], ks[1..], toCandle);
    assert [ks[0]] + ks[1..] == ks;
  }

  /** Three ticks of bucket T and one of bucket T + d: one candle, that of
      the third tick, forwarded on the fourth response. */
  lemma FourTickExample(k1: Kline, k2: Kline, k3: Kline, k4: Kline, toCandle: ToCandle)
    requires AlwaysConverts(toCandle)
    requires k1.start == k2.start == k3.start != k4.start
    ensures FeedRun(None, Responses([k1, k2, k3]), toCandle).1 == []
    ensures FeedRun(None, Responses([k1, k2, k3, k4]), toCandle).1 == [toCandle(k3).value]
  {
    FeedFromEmptySlot([k1, k2, k3], toCandle);
    FeedFromEmptySlot([k1, k2, k3, k4], toCandle);
    assert [k1, k2, k3][1..] == [k2, k3] && [k2, k3][1..] == [k3];
    assert ClosedBars([k2, k3]) == [] + ClosedBars([k3]);
    assert ClosedBars([k1, k2, k3]) == [] + ClosedBars([k2, k3]);
    assert [k1, k2, k3, k4][1..] == [k2, k3, k4] && [k2, k3, k4][1..] == [k3, k4];
    assert ClosedBars([k3, k4]) == [k3] + ClosedBars([k4]);
    assert ClosedBars([k1, k2, k3, k4]) == [k3];
  }

  /** A kline the conversion rejects stays in the slot: every later kline of
      another bucket retries it and nothing more is forwarded. */
  lemma {:induction false} FailedConversionStalls(p: Kline, ks: seq<Kline>, toCandle: ToCandle)
    requires toCandle(p).None?
    requires forall i :: 0 <= i < |ks| ==> ks[i].start != p.start
    ensures FeedRun(Some(p), Responses(ks), toCandle) == (Some(p), [])
    decreases |ks|
  {
    if ks != [] {
      var rs := Responses(ks);
      assert rs[1..] == Responses(ks[1..]);
      assert KlineStep(Some(p), rs[0], toCandle).0 == Some(p);
      FailedConversionStalls(p, ks[1..], toCandle);
      var none: seq<Candle> := [];
      assert none + none == none;
    }
  }
}
