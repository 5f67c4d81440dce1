// Planning a multi-strategy run: which time series to fetch (one per distinct
// strategy interval, each long enough for the most demanding strategy),
// which indicators each time series must carry, and which time series each
// strategy's setup finder listens to. Fetching, starting the actors and the
// indicator computations themselves are outside the model.

module MultipleStrategies {
  import opened Domain
  import Strategies

  // ----- first-seen de-duplication (IndexSet insertion order) -----

  /** The distinct elements of xs, each at the place it first occurs. */
  function FirstSeen<T(==)>(xs: seq<T>): seq<T>
    decreases |xs|
  {
    if xs == [] then []
    else
      var init := xs[..|xs| - 1];
      var x := xs[|xs| - 1];
      FirstSeen(init) + (if x in init then [] else [x])
  }

  lemma FirstSeenSnoc<T>(xs: seq<T>, x: T)
    ensures FirstSeen(xs + [x]) == FirstSeen(xs) + (if x in xs then [] else [x])
  {
    assert (xs + [x])[..|xs|] == xs;
  }

  lemma {:induction false} FirstSeenMembership<T>(xs: seq<T>, x: T)
    ensures x in FirstSeen(xs) <==> x in xs
    decreases |xs|
  {
    if xs != [] {
      var init := xs[..|xs| - 1];
      FirstSeenMembership(init, x);
      assert xs == init + [xs[|xs| - 1]];
    }
  }

  predicate NoDuplicates<T(==)>(xs: seq<T>) {
    forall i, j :: 0 <= i < j < |xs| ==> xs[i] != xs[j]
  }

  lemma {:induction false} FirstSeenNoDuplicates<T>(xs: seq<T>)
    ensures NoDuplicates(FirstSeen(xs))
    decreases |xs|
  {
    if xs != [] {
      var init := xs[..|xs| - 1];
      var x := xs[|xs| - 1];
      FirstSeenNoDuplicates(init);
      FirstSeenMembership(init, x);
    }
  }

  /** The index of the first occurrence of x in xs. */
  function FirstIndex<T(==)>(xs: seq<T>, x: T): (i: nat)
    requires x in xs
    ensures i < |xs| && xs[i] == x && x !in xs[..i]
  {
    if xs[0] == x then 0
    else
      var i := 1 + FirstIndex(xs[1..], x);
      assert xs[..i] == [xs[0]] + xs[1..][..i - 1];
      i
  }

  /** The first occurrence is the only index holding x with no x before it. */
  lemma {:induction false} FirstIndexUnique<T>(xs: seq<T>, x: T, k: nat)
    requires k < |xs| && xs[k] == x && x !in xs[..k]
    ensures FirstIndex(xs, x) == k
    decreases k
  {
    if k > 0 {
      assert xs[..k][0] == xs[0];
      assert xs[1..][..k - 1] == xs[..k][1..];
      FirstIndexUnique(xs[1..], x, k - 1);
    }
  }

  lemma FirstIndexSnoc<T>(xs: seq<T>, x: T, y: T)
    requires y in xs
    ensures FirstIndex(xs + [x], y) == FirstIndex(xs, y)
  {
    var i := FirstIndex(xs, y);
    assert (xs + [x])[..i] == xs[..i];
    FirstIndexUnique(xs + [x], y, i);
  }

  /** The distinct elements appear in the order of their first occurrence. */
  lemma {:induction false} FirstSeenOrderPair<T>(xs: seq<T>, i: int, j: int)
    requires 0 <= i < j < |FirstSeen(xs)|
    ensures FirstSeen(xs)[i] in xs && FirstSeen(xs)[j] in xs
    ensures FirstIndex(xs, FirstSeen(xs)[i]) < FirstIndex(xs, FirstSeen(xs)[j])
    decreases |xs|
  {
    var init := xs[..|xs| - 1];
    var x := xs[|xs| - 1];
    assert xs == init + [x];
    var r := FirstSeen(xs);
    var r0 := FirstSeen(init);
    assert r == r0 + (if x in init then [] else [x]);
    FirstSeenMembership(init, r[i]);
    FirstIndexSnoc(init, x, r[i]);
    if j < |r0| {
      FirstSeenOrderPair(init, i, j);
      FirstSeenMembership(init, r[j]);
      FirstIndexSnoc(init, x, r[j]);
    } else {
      assert r[j] == x && x !in init;
      FirstIndexUnique(xs, x, |init|);
    }
  }

  lemma FirstSeenOrder<T>(xs: seq<T>)
    ensures forall i :: 0 <= i < |FirstSeen(xs)| ==> FirstSeen(xs)[i] in xs
    ensures forall i, j :: 0 <= i < j < |FirstSeen(xs)| ==>
              FirstIndex(xs, FirstSeen(xs)[i]) < FirstIndex(xs, FirstSeen(xs)[j])
  {
    var r := FirstSeen(xs);
    forall i | 0 <= i < |r|
      ensures r[i] in xs
    {
      FirstSeenMembership(xs, r[i]);
    }
    forall i, j | 0 <= i < j < |r|
      ensures FirstIndex(xs, r[i]) < FirstIndex(xs, r[j])
    {
      FirstSeenOrderPair(xs, i, j);
    }
  }

  // ----- the interval / min-length fold -----

  /** Each strategy's interval, in strategy order. */
  function IntervalsOf(strats: seq<Strategies.Strategy>): (ivs: seq<Interval>)
    ensures |ivs| == |strats| && forall k :: 0 <= k < |strats| ==> ivs[k] == Strategies.IntervalOf(strats[k])
  {
    seq(|strats|, k requires 0 <= k < |strats| => Strategies.IntervalOf(strats[k]))
  }

  /** The fold over the strategies: the intervals not seen before, and the
      largest min_length (0 for no strategies). */
  function IntervalsAndMinLen(strats: seq<Strategies.Strategy>): (r: (seq<Interval>, nat))
    ensures forall k :: 0 <= k < |strats| ==> Strategies.MinLength(strats[k]) <= r.1
    ensures strats == [] ==> r.1 == 0
    ensures strats != [] ==> exists k :: 0 <= k < |strats| && Strategies.MinLength(strats[k]) == r.1
    decreases |strats|
  {
    if strats == [] then ([], 0)
    else
      var init := strats[..|strats| - 1];
      var s := strats[|strats| - 1];
      var (intervals, minLen) := IntervalsAndMinLen(init);
      assert forall k :: 0 <= k < |init| ==> init[k] == strats[k];
      (if Strategies.IntervalOf(s) in intervals then intervals else intervals + [Strategies.IntervalOf(s)],
       if Strategies.MinLength(s) > minLen then Strategies.MinLength(s) else minLen)
  }

  /** The fold's interval list is the strategies' intervals de-duplicated in
      first-seen order. */
  lemma {:induction false} PlannedIntervalsAreFirstSeen(strats: seq<Strategies.Strategy>)
    ensures IntervalsAndMinLen(strats).0 == FirstSeen(IntervalsOf(strats))
    decreases |strats|
  {
    if strats != [] {
      var init := strats[..|strats| - 1];
      var s := strats[|strats| - 1];
      PlannedIntervalsAreFirstSeen(init);
      assert IntervalsOf(strats) == IntervalsOf(init) + [Strategies.IntervalOf(s)];
      FirstSeenSnoc(IntervalsOf(init), Strategies.IntervalOf(s));
      FirstSeenMembership(IntervalsOf(init), Strategies.IntervalOf(s));
    }
  }

  /** Every strategy's interval is planned exactly once, in first-seen order. */
  lemma PlannedIntervals(strats: seq<Strategies.Strategy>)
    ensures forall iv :: iv in IntervalsAndMinLen(strats).0 <==> iv in IntervalsOf(strats)
    ensures NoDuplicates(IntervalsAndMinLen(strats).0)
    ensures forall i, j :: 0 <= i < j < |IntervalsAndMinLen(strats).0| ==>
              FirstIndex(IntervalsOf(strats), IntervalsAndMinLen(strats).0[i])
              < FirstIndex(IntervalsOf(strats), IntervalsAndMinLen(strats).0[j])
  {
    PlannedIntervalsAreFirstSeen(strats);
    forall iv {
      FirstSeenMembership(IntervalsOf(strats), iv);
    }
    FirstSeenNoDuplicates(IntervalsOf(strats));
    FirstSeenOrder(IntervalsOf(strats));
  }

  /** One historical-data request per planned interval, in the same order,
      each for min_len + 300 candles. */
  function HistoricalRequests(intervals: seq<Interval>, minLen: nat): (reqs: seq<(Interval, nat)>)
    ensures |reqs| == |intervals|
    ensures forall k :: 0 <= k < |reqs| ==> reqs[k] == (intervals[k], minLen + 300)
  {
    seq(|intervals|, k requires 0 <= k < |intervals| => (intervals[k], minLen + 300))
  }

  /** The intervals a list of requests fetches, in order. */
  function RequestedIntervals(reqs: seq<(Interval, nat)>): (ivs: seq<Interval>)
    ensures |ivs| == |reqs| && forall k :: 0 <= k < |reqs| ==> ivs[k] == reqs[k].0
  {
    seq(|reqs|, k requires 0 <= k < |reqs| => reqs[k].0)
  }

  /** The plan's fetches: one per distinct strategy interval, none twice, in
      first-seen order, each for the largest min_length plus 300 candles. */
  lemma PlannedRequests(strats: seq<Strategies.Strategy>)
    ensures var reqs := HistoricalRequests(IntervalsAndMinLen(strats).0, IntervalsAndMinLen(strats).1);
            && (forall iv :: iv in RequestedIntervals(reqs) <==> iv in IntervalsOf(strats))
            && NoDuplicates(RequestedIntervals(reqs))
            && (forall i, j :: 0 <= i < j < |reqs| ==>
                  FirstIndex(IntervalsOf(strats), reqs[i].0) < FirstIndex(IntervalsOf(strats), reqs[j].0))
            && (forall k, s :: 0 <= k < |reqs| && s in strats ==> Strategies.MinLength(s) + 300 <= reqs[k].1)
            && (forall k :: 0 <= k < |reqs| ==> exists s :: s in strats && reqs[k].1 == Strategies.MinLength(s) + 300)
  {
    var (ivs, minLen) := IntervalsAndMinLen(strats);
    var reqs := HistoricalRequests(ivs, minLen);
    PlannedIntervals(strats);
    assert RequestedIntervals(reqs) == ivs;
    forall k | 0 <= k < |reqs|
      ensures exists s :: s in strats && reqs[k].1 == Strategies.MinLength(s) + 300
    {
      assert ivs[k] in IntervalsOf(strats);
      var j :| 0 <= j < |strats| && Strategies.MinLength(strats[j]) == minLen;
      assert strats[j] in strats;
    }
    forall k, s | 0 <= k < |reqs| && s in strats
      ensures Strategies.MinLength(s) + 300 <= reqs[k].1
    {
      var j :| 0 <= j < |strats| && strats[j] == s;
    }
  }

  // ----- the indicator map -----

  /** The required indicators of the strategies on interval iv, concatenated
      in strategy order (duplicates kept). */
  function Gathered(strats: seq<Strategies.Strategy>, iv: Interval): seq<IndicatorType>
    decreases |strats|
  {
    if strats == [] then []
    else
      var s := strats[|strats| - 1];
      Gathered(strats[..|strats| - 1], iv)
      + (if Strategies.IntervalOf(s) == iv then Strategies.RequiredIndicators(s) else [])
  }

  lemma {:induction false} GatheredHasStrategy(strats: seq<Strategies.Strategy>, iv: Interval)
    requires Gathered(strats, iv) != []
    ensures iv in IntervalsOf(strats)
    decreases |strats|
  {
    var init := strats[..|strats| - 1];
    var s := strats[|strats| - 1];
    if Strategies.IntervalOf(s) != iv || Strategies.RequiredIndicators(s) == [] {
      GatheredHasStrategy(init, iv);
      var k := FirstIndex(IntervalsOf(init), iv);
      assert IntervalsOf(strats)[k] == iv;
    } else {
      assert IntervalsOf(strats)[|strats| - 1] == iv;
    }
  }

  lemma GatheredSnoc(strats: seq<Strategies.Strategy>, i: nat)
    requires i < |strats|
    ensures forall iv :: Gathered(strats[..i + 1], iv) == Gathered(strats[..i], iv)
              + (if iv == Strategies.IntervalOf(strats[i]) then Strategies.RequiredIndicators(strats[i]) else [])
  {
    assert strats[..i + 1][..i] == strats[..i];
  }

  /** The map the nested loops build: an entry for each interval some of
      whose strategies require indicators, holding those indicators without
      duplicates in first-seen order. */
  function IndicatorMap(strats: seq<Strategies.Strategy>): map<Interval, seq<IndicatorType>> {
    map iv | iv in IntervalsOf(strats) && Gathered(strats, iv) != [] :: FirstSeen(Gathered(strats, iv))
  }

  /** Adding x to the de-duplicated list keeps it de-duplicated. */
  lemma FirstSeenInsert<T>(xs: seq<T>, x: T)
    ensures FirstSeen(xs + [x]) == if x in FirstSeen(xs) then FirstSeen(xs) else FirstSeen(xs) + [x]
  {
    FirstSeenSnoc(xs, x);
    FirstSeenMembership(xs, x);
  }

  lemma FirstSeenEmpty<T>(xs: seq<T>)
    ensures FirstSeen(xs) == [] <==> xs == []
  {
    if xs != [] {
      FirstSeenMembership(xs, xs[0]);
    }
  }

  /** One indicator inserted into its interval's set unless the set holds it
      already; the set is created if the interval has none. acc is what the
      entry has gathered so far on top of m0. */
  method InsertIndicator(m: map<Interval, seq<IndicatorType>>, interval: Interval, indicator: IndicatorType,
                         ghost m0: map<Interval, seq<IndicatorType>>, ghost acc: seq<IndicatorType>)
    returns (m': map<Interval, seq<IndicatorType>>)
    requires acc == [] ==> m == m0 && interval !in m0
    requires acc != [] ==> m == m0[interval := FirstSeen(acc)]
    ensures m' == m0[interval := FirstSeen(acc + [indicator])]
  {
    FirstSeenInsert(acc, indicator);
    if interval in m {
      if indicator !in m[interval] {
        m' := m[interval := m[interval] + [indicator]];
      } else {
        m' := m;
      }
    } else {
      m' := m[interval := [indicator]];
    }
  }

  /** One strategy's indicators inserted into its interval's set, skipping
      those the set already holds; a set that does not exist yet is created
      on the first insertion. g is what the interval's entry has gathered
      so far. */
  method InsertIndicators(m0: map<Interval, seq<IndicatorType>>, interval: Interval,
                          indicators: seq<IndicatorType>, ghost g: seq<IndicatorType>)
    returns (m: map<Interval, seq<IndicatorType>>)
    requires interval in m0 <==> g != []
    requires interval in m0 ==> m0[interval] == FirstSeen(g)
    ensures g + indicators == [] ==> m == m0
    ensures g + indicators != [] ==> m == m0[interval := FirstSeen(g + indicators)]
  {
    m := m0;
    ghost var acc := g;
    FirstSeenEmpty(g);
    for j := 0 to |indicators|
      invariant acc == g + indicators[..j]
      invariant acc == [] ==> m == m0
      invariant acc != [] ==> m == m0[interval := FirstSeen(acc)]
    {
      var indicator := indicators[j];
      m := InsertIndicator(m, interval, indicator, m0, acc);
      acc := acc + [indicator];
      assert indicators[..j + 1] == indicators[..j] + [indicator];
    }
    assert indicators[..|indicators|] == indicators;
  }

  method BuildIndicatorMap(strats: seq<Strategies.Strategy>) returns (m: map<Interval, seq<IndicatorType>>)
    ensures m == IndicatorMap(strats)
  {
    m := map[];
    for i := 0 to |strats|
      invariant forall iv :: iv in m <==> Gathered(strats[..i], iv) != []
      invariant forall iv :: iv in m ==> m[iv] == FirstSeen(Gathered(strats[..i], iv))
    {
      var interval := Strategies.IntervalOf(strats[i]);
      var indicators := Strategies.RequiredIndicators(strats[i]);
      GatheredSnoc(strats, i);
      m := InsertIndicators(m, interval, indicators, Gathered(strats[..i], interval));
      forall iv
        ensures iv in m <==> Gathered(strats[..i + 1], iv) != []
        ensures iv in m ==> m[iv] == FirstSeen(Gathered(strats[..i + 1], iv))
      {
        if iv != interval {
          assert Gathered(strats[..i + 1], iv) == Gathered(strats[..i], iv);
        }
      }
    }
    assert strats[..|strats|] == strats;
    forall iv | Gathered(strats, iv) != [] {
      GatheredHasStrategy(strats, iv);
    }
  }

  /** A planned time series: its interval and the indicators added to it. */
  datatype TimeSeriesPlan = TimeSeriesPlan(interval: Interval, indicators: seq<IndicatorType>)

  /** Every time series has an entry in the map, so the populate loop's
      expect never fires. */
  predicate Covers(m: map<Interval, seq<IndicatorType>>, ts: seq<TimeSeriesPlan>) {
    forall k :: 0 <= k < |ts| ==> ts[k].interval in m
  }

  /** Adds each interval's indicators to its time series, in place; false
      where the original panics on an interval without an entry. */
  method PopulateIndicators(ts: array<TimeSeriesPlan>, m: map<Interval, seq<IndicatorType>>) returns (ok: bool)
    modifies ts
    ensures ok <==> Covers(m, old(ts[..]))
    ensures ok ==> forall k :: 0 <= k < ts.Length ==>
                     ts[k] == old(ts[k]).(indicators := old(ts[k]).indicators + m[old(ts[k]).interval])
  {
    for k := 0 to ts.Length
      invariant forall q :: 0 <= q < k ==> old(ts[q]).interval in m
      invariant forall q :: 0 <= q < k ==> ts[q] == old(ts[q]).(indicators := old(ts[q]).indicators + m[old(ts[q]).interval])
      invariant forall q :: k <= q < ts.Length ==> ts[q] == old(ts[q])
    {
      var interval := ts[k].interval;
      if interval !in m {
        assert !Covers(m, old(ts[..])) by {
          assert old(ts[..])[k].interval !in m;
        }
        return false;
      }
      var indicators := m[interval];
      for j := 0 to |indicators|
        invariant ts[k] == old(ts[k]).(indicators := old(ts[k]).indicators + indicators[..j])
        invariant forall q :: 0 <= q < k ==> ts[q] == old(ts[q]).(indicators := old(ts[q]).indicators + m[old(ts[q]).interval])
        invariant forall q :: k < q < ts.Length ==> ts[q] == old(ts[q])
      {
        assert indicators[..j + 1] == indicators[..j] + [indicators[j]];
        ts[k] := ts[k].(indicators := ts[k].indicators + [indicators[j]]);
      }
      assert indicators[..|indicators|] == indicators;
    }
    return true;
  }

  /** Fresh time series for the planned intervals, before indicators. */
  function FetchedSeries(intervals: seq<Interval>): (ts: seq<TimeSeriesPlan>)
    ensures |ts| == |intervals| && forall k :: 0 <= k < |ts| ==> ts[k] == TimeSeriesPlan(intervals[k], [])
  {
    seq(|intervals|, k requires 0 <= k < |intervals| => TimeSeriesPlan(intervals[k], []))
  }

  /** A strategy interval none of whose strategies requires an indicator has
      no map entry, so populating the planned time series fails. */
  lemma IntervalWithoutIndicatorsFails(strats: seq<Strategies.Strategy>, iv: Interval)
    requires iv in IntervalsOf(strats) && Gathered(strats, iv) == []
    ensures iv !in IndicatorMap(strats)
    ensures !Covers(IndicatorMap(strats), FetchedSeries(IntervalsAndMinLen(strats).0))
  {
    PlannedIntervals(strats);
    var intervals := IntervalsAndMinLen(strats).0;
    var k :| 0 <= k < |intervals| && intervals[k] == iv;
    assert FetchedSeries(intervals)[k].interval == iv;
  }

  /** The two test strategies require no indicators: a run of them alone
      cannot be planned. */
  lemma TestStrategiesCannotBePlanned(strats: seq<Strategies.Strategy>)
    requires strats != []
    requires forall k :: 0 <= k < |strats| ==> !strats[k].Custom?
    ensures !Covers(IndicatorMap(strats), FetchedSeries(IntervalsAndMinLen(strats).0))
  {
    var iv := Strategies.IntervalOf(strats[0]);
    assert IntervalsOf(strats)[0] == iv;
    NoIndicators(strats, iv);
    IntervalWithoutIndicatorsFails(strats, iv);
  }

  lemma {:induction false} NoIndicators(strats: seq<Strategies.Strategy>, iv: Interval)
    requires forall k :: 0 <= k < |strats| ==> !strats[k].Custom?
    ensures Gathered(strats, iv) == []
    decreases |strats|
  {
    if strats != [] {
      NoIndicators(strats[..|strats| - 1], iv);
    }
  }

  // ----- strategy to time series -----

  /** The index of the first time series on interval iv. */
  function Position(tsIntervals: seq<Interval>, iv: Interval): (r: Option<nat>)
    ensures r.Some? <==> iv in tsIntervals
    ensures r.Some? ==> r.value < |tsIntervals| && tsIntervals[r.value] == iv && iv !in tsIntervals[..r.value]
  {
    if iv in tsIntervals then Some(FirstIndex(tsIntervals, iv)) else None
  }

  /** Each strategy paired with the index of its time series, or the error
      where the original panics. */
  function StrategyIndices(strats: seq<Strategies.Strategy>, tsIntervals: seq<Interval>): (r: Result<seq<nat>, string>)
    ensures r.Ok? <==> forall k :: 0 <= k < |strats| ==> Strategies.IntervalOf(strats[k]) in tsIntervals
    ensures r.Ok? ==> |r.value| == |strats|
    ensures r.Ok? ==> forall k :: 0 <= k < |strats| ==>
              r.value[k] < |tsIntervals| && tsIntervals[r.value[k]] == Strategies.IntervalOf(strats[k])
              && Strategies.IntervalOf(strats[k]) !in tsIntervals[..r.value[k]]
    decreases |strats|
  {
    if strats == [] then Ok([])
    else
      match Position(tsIntervals, Strategies.IntervalOf(strats[0]))
      case None => Err("Expected there to exist a timeseries with correct interval.")
      case Some(i) =>
        match StrategyIndices(strats[1..], tsIntervals)
        case Err(e) => Err(e)
        case Ok(rest) =>
          assert forall k :: 1 <= k < |strats| ==> strats[k] == strats[1..][k - 1];
          Ok([i] + rest)
  }

  /** The planned time series serve every strategy. */
  lemma PlannedSeriesServeEveryStrategy(strats: seq<Strategies.Strategy>)
    ensures StrategyIndices(strats, IntervalsAndMinLen(strats).0).Ok?
  {
    PlannedIntervals(strats);
    forall k | 0 <= k < |strats|
      ensures Strategies.IntervalOf(strats[k]) in IntervalsAndMinLen(strats).0
    {
      assert IntervalsOf(strats)[k] == Strategies.IntervalOf(strats[k]);
    }
  }
}
