// The setup finder: one actor per strategy. On every candle the time series
// adds, it prunes the trades it spawned that no longer answer a ping, asks the
// time series for the strategy's window, asks a clone of the strategy for a
// setup and, when one builds, marks itself triggered and (unless a trade was
// already open when the candle arrived) starts a live trade and notifies.
//
// The handler's asynchronous part and the self-messages it sends
// (TriggeredPayload, TradeSpawnedMsg) are one atomic step here: the messages
// take effect at the end of the step. Liveness probes, the time series'
// answer, the custom strategy predicate, wallet and price lookups, the fresh
// trade id and the started trade's address are inputs of the step.

module Finder {
  import opened Domain
  import Strategies
  import Trades
  import TradeBuilders
  import TrueOnce

  /** The fields SetupFinder::new fixes for the actor's lifetime. */
  datatype FinderConfig = FinderConfig(
    tsAddr: TsAddr,
    dbAddr: DbAddr,
    source: DataSource,
    notificationsEnabled: bool,
    liveTradingEnabled: bool,
    onlyTriggerOnce: bool)

  /** The arguments SetupFinder::new receives. */
  datatype FinderInit = FinderInit(config: FinderConfig, strategy: Strategies.Strategy, spawned: seq<TradeAddr>)

  /** Position size: half the available balance, and that over the last price. */
  datatype Sizing = Sizing(dollarValue: F64, quantity: F64)

  /** What the outside world answers during one candle-added step. */
  datatype FinderInputs = FinderInputs(
    alive: TradeAddr -> bool,
    // outer Err: the request never reached the time series; inner Err: it answered with an error
    response: Result<Result<LatestCandles, string>, string>,
    customCheck: Strategies.CustomCheck,
    sizing: Result<Sizing, string>,
    tradeId: Uuid,
    tradeAddr: TradeAddr)

  /** What a step sends, in order. Panic ends the step. */
  datatype FinderEffect =
    | RequestLatestCandles(n: nat)
    | StartTrade(trade: Trades.Trade, addr: TradeAddr)
    | SubscribeToTimeSeries(ts: TsAddr, observer: TradeAddr)
    | Notify(setup: Setup, strategy: Strategies.Strategy)
    | Panic(reason: string)

  /** The fields the handlers change. */
  datatype FinderState = FinderState(strategy: Strategies.Strategy, triggered: bool, spawned: seq<TradeAddr>)

  // ----- clear_closed_trades -----

  /** The handles whose liveness probe succeeds, in their original order. */
  function Survivors(addrs: seq<TradeAddr>, alive: TradeAddr -> bool): (r: seq<TradeAddr>)
    ensures |r| <= |addrs|
  {
    if addrs == [] then []
    else
      var last := addrs[|addrs| - 1];
      Survivors(addrs[..|addrs| - 1], alive) + (if alive(last) then [last] else [])
  }

  /** a can be obtained from b by deleting elements. */
  predicate IsSubsequence(a: seq<TradeAddr>, b: seq<TradeAddr>)
    decreases |b|
  {
    if a == [] then true
    else if b == [] then false
    else if a[|a| - 1] == b[|b| - 1] then IsSubsequence(a[..|a| - 1], b[..|b| - 1])
    else IsSubsequence(a, b[..|b| - 1])
  }

  /** A handle survives exactly when it was there and it answers. */
  lemma {:induction false} SurvivorsMembership(addrs: seq<TradeAddr>, alive: TradeAddr -> bool, x: TradeAddr)
    ensures x in Survivors(addrs, alive) <==> x in addrs && alive(x)
    decreases |addrs|
  {
    if addrs != [] {
      var init := addrs[..|addrs| - 1];
      SurvivorsMembership(init, alive, x);
      assert addrs == init + [addrs[|addrs| - 1]];
    }
  }

  /** Pruning keeps every live handle as often as it occurred and drops
      every dead one: nothing is added or duplicated. */
  lemma {:induction false} SurvivorsCounts(addrs: seq<TradeAddr>, alive: TradeAddr -> bool)
    ensures forall x :: multiset(Survivors(addrs, alive))[x] == if alive(x) then multiset(addrs)[x] else 0
    decreases |addrs|
  {
    if addrs != [] {
      var init := addrs[..|addrs| - 1];
      SurvivorsCounts(init, alive);
      assert addrs == init + [addrs[|addrs| - 1]];
    }
  }

  /** Extending the longer sequence keeps a subsequence one. */
  lemma {:induction false} SubsequenceExtend(a: seq<TradeAddr>, b: seq<TradeAddr>, y: TradeAddr)
    requires IsSubsequence(a, b)
    ensures IsSubsequence(a, b + [y])
    decreases |b|, 1
  {
    var b' := b + [y];
    assert b'[..|b'| - 1] == b;
    if a != [] && a[|a| - 1] == y {
      SubsequenceDropLast(a, b);
    }
  }

  /** Dropping the last element of the shorter sequence keeps a subsequence one. */
  lemma {:induction false} SubsequenceDropLast(a: seq<TradeAddr>, b: seq<TradeAddr>)
    requires a != [] && IsSubsequence(a, b)
    ensures IsSubsequence(a[..|a| - 1], b)
    decreases |b|, 0
  {
    var init := b[..|b| - 1];
    assert init + [b[|b| - 1]] == b;
    if a[|a| - 1] != b[|b| - 1] {
      SubsequenceDropLast(a, init);
    }
    SubsequenceExtend(a[..|a| - 1], init, b[|b| - 1]);
  }

  /** Pruning keeps the original order: the survivors are a subsequence. */
  lemma {:induction false} SurvivorsInOrder(addrs: seq<TradeAddr>, alive: TradeAddr -> bool)
    ensures IsSubsequence(Survivors(addrs, alive), addrs)
    decreases |addrs|
  {
    if addrs != [] {
      var init := addrs[..|addrs| - 1];
      var last := addrs[|addrs| - 1];
      SurvivorsInOrder(init, alive);
      assert init + [last] == addrs;
      if alive(last) {
        var s := Survivors(init, alive) + [last];
        assert Survivors(addrs, alive) == s;
        assert s[..|s| - 1] == Survivors(init, alive);
        assert s != [] && s[|s| - 1] == addrs[|addrs| - 1];
      } else {
        assert Survivors(addrs, alive) == Survivors(init, alive);
        SubsequenceExtend(Survivors(init, alive), init, last);
        assert IsSubsequence(Survivors(init, alive), init + [last]);
      }
    }
  }

  // ----- the candle-added handler -----

  /** The setup the strategy reports for the response, paired with the
      strategy's state after the check, when the report builds into a setup
      once the response's symbol and interval are added. */
  function FoundSetup(strategy: Strategies.Strategy, resp: LatestCandles, custom: Strategies.CustomCheck): (r: Option<(Setup, Strategies.Strategy)>)
    requires Strategies.Indexable(strategy, resp.candles)
    ensures var (checked, sb) := Strategies.CheckLastForSetup(strategy, resp.candles, custom);
            && (r.Some? <==> sb.Some? && sb.value.candle.Some? && sb.value.orientation.Some?)
            && (r.Some? ==> r.value == (Setup(resp.symbol, resp.interval, sb.value.candle.value, sb.value.orientation.value), checked))
  {
    var (checked, sb) := Strategies.CheckLastForSetup(strategy, resp.candles, custom);
    if sb.None? then None
    else
      match sb.value.WithSymbol(resp.symbol).WithInterval(resp.interval).Build()
      case Err(_) => None
      case Ok(setup) => Some((setup, checked))
  }

  /** The request reached the time series (the outer result) and the time
      series answered with candles (the inner result). */
  predicate Answered(inp: FinderInputs) {
    inp.response.Ok? && inp.response.value.Ok?
  }

  /** The strategy reports a setup for the step's response and it builds. */
  predicate SetupBuilt(strategy: Strategies.Strategy, inp: FinderInputs) {
    Answered(inp)
    && Strategies.Indexable(strategy, inp.response.value.value.candles)
    && FoundSetup(strategy, inp.response.value.value, inp.customCheck).Some?
  }

  /** The TradeBuilder chain of the live-trading branch. Every required field
      is set, so the build's expect never fires. */
  function BuildTrade(cfg: FinderConfig, setup: Setup, checked: Strategies.Strategy, sizing: Sizing, id: Uuid): (r: Result<Trades.Trade, TradeBuilders.TradeField>)
    ensures r.Ok?
    ensures r.value.id == id && r.value.setup == setup && r.value.tradingEnabled
    ensures r.value.quantity == sizing.quantity && r.value.dollarValue == sizing.dollarValue
    ensures r.value.source == cfg.source && r.value.notificationsEnabled == cfg.notificationsEnabled
    ensures r.value.timeseries == cfg.tsAddr && r.value.dbAddr == cfg.dbAddr
    ensures r.value.resolutionStrategy == Strategies.DefaultResolutionStrategy(checked)
    ensures r.value.tradingStrategy == checked
  {
    var b0 := TradeBuilders.New(id);
    var b1 := TradeBuilders.WithSetup(b0, setup);
    var b2 := TradeBuilders.WithQuantity(b1, sizing.quantity);
    var b3 := TradeBuilders.WithDollarValue(b2, sizing.dollarValue);
    var b4 := TradeBuilders.WithSource(b3, cfg.source);
    var b5 := TradeBuilders.WithNotificationsEnabled(b4, cfg.notificationsEnabled);
    var b6 := TradeBuilders.WithTradingEnabled(b5, true);
    var b7 := TradeBuilders.WithResolutionStrategy(b6, Strategies.DefaultResolutionStrategy(checked));
    var b8 := TradeBuilders.WithOrientation(b7, Strategies.OrientationOf(checked));
    var b9 := TradeBuilders.WithTimeseriesAddr(b8, cfg.tsAddr);
    var b10 := TradeBuilders.WithTradingStrategy(b9, Strategies.CloneBox(checked));
    var b11 := TradeBuilders.WithDbAddr(b10, cfg.dbAddr);
    assert b11 == TradeBuilders.TradeBuilder(id, Some(setup), Some(sizing.quantity), Some(sizing.dollarValue),
                                             Some(cfg.source), cfg.notificationsEnabled, true,
                                             Some(Strategies.DefaultResolutionStrategy(checked)),
                                             Some(Strategies.OrientationOf(checked)), Some(cfg.tsAddr),
                                             Some(checked), Some(cfg.dbAddr));
    TradeBuilders.MissingRequired(b11);
    TradeBuilders.Build(b11)
  }

  /** What the handler's future decides: the effects after the candle
      request, whether it sends TriggeredPayload, and the address it reports
      in TradeSpawnedMsg. */
  datatype Outcome = Outcome(effects: seq<FinderEffect>, triggered: bool, spawned: Option<TradeAddr>)

  /** The future of one candle-added notification, run on the strategy clone
      with the spawned-trades snapshot taken before pruning. */
  function Decide(cfg: FinderConfig, strategy: Strategies.Strategy, snapshot: seq<TradeAddr>, inp: FinderInputs): (o: Outcome)
    ensures o.triggered <==> SetupBuilt(strategy, inp)
    ensures o.spawned.Some? <==> SetupBuilt(strategy, inp) && snapshot == [] && cfg.liveTradingEnabled && inp.sizing.Ok?
    ensures o.spawned.Some? ==> o.spawned.value == inp.tradeAddr
    ensures Spawns(o.effects) <==> o.spawned.Some?
    ensures Notifies(o.effects) <==> SetupBuilt(strategy, inp) && snapshot == [] && cfg.notificationsEnabled
                                     && (cfg.liveTradingEnabled ==> inp.sizing.Ok?)
    ensures inp.response.Err? ==> o.effects == [Panic("Failed to request latest candles")]
    ensures inp.response.Ok? && inp.response.value.Err? ==> o.effects == [Panic("Failed to unwrap LatestCandleResponse")]
    ensures Answered(inp) && !Strategies.Indexable(strategy, inp.response.value.value.candles)
            ==> o.effects == [Panic("index out of bounds")]
    ensures Answered(inp) && Strategies.Indexable(strategy, inp.response.value.value.candles) && !SetupBuilt(strategy, inp)
            ==> o.effects == []
    ensures SetupBuilt(strategy, inp) && snapshot == [] && cfg.liveTradingEnabled && inp.sizing.Err?
            ==> o.effects == [Panic("Unable to fetch data when creating Trade.")]
    ensures SetupBuilt(strategy, inp) ==>
              var found := FoundSetup(strategy, inp.response.value.value, inp.customCheck).value;
              && (snapshot != [] ==> o.effects == [])
              && (snapshot == [] && (cfg.liveTradingEnabled ==> inp.sizing.Ok?) ==>
                    o.effects == (if cfg.liveTradingEnabled
                                  then [StartTrade(BuildTrade(cfg, found.0, found.1, inp.sizing.value, inp.tradeId).value, inp.tradeAddr),
                                        SubscribeToTimeSeries(cfg.tsAddr, inp.tradeAddr)]
                                  else [])
                                 + (if cfg.notificationsEnabled then [Notify(found.0, found.1)] else []))
              && (o.spawned.Some? && inp.sizing.Ok? ==>
                    |o.effects| >= 2
                    && o.effects[0] == StartTrade(BuildTrade(cfg, found.0, found.1, inp.sizing.value, inp.tradeId).value, inp.tradeAddr)
                    && o.effects[1] == SubscribeToTimeSeries(cfg.tsAddr, inp.tradeAddr))
              && (forall e :: e in o.effects && e.Notify? ==> e == Notify(found.0, found.1))
  {
    if inp.response.Err? then Outcome([Panic("Failed to request latest candles")], false, None)
    else if inp.response.value.Err? then Outcome([Panic("Failed to unwrap LatestCandleResponse")], false, None)
    else
      var resp := inp.response.value.value;
      if !Strategies.Indexable(strategy, resp.candles) then Outcome([Panic("index out of bounds")], false, None)
      else
        match FoundSetup(strategy, resp, inp.customCheck)
        case None => Outcome([], false, None)
        case Some((setup, checked)) => ActOnSetup(cfg, setup, checked, snapshot, inp)
  }

  /** The rest of the future once a setup has built: it is triggered; with
      an empty snapshot it sizes and starts a live trade and subscribes it to
      the time series, then notifies. */
  function ActOnSetup(cfg: FinderConfig, setup: Setup, checked: Strategies.Strategy, snapshot: seq<TradeAddr>,
                      inp: FinderInputs): (o: Outcome)
    ensures o.triggered
    ensures o.spawned.Some? <==> snapshot == [] && cfg.liveTradingEnabled && inp.sizing.Ok?
    ensures o.spawned.Some? ==> o.spawned.value == inp.tradeAddr
    ensures Spawns(o.effects) <==> o.spawned.Some?
    ensures o.spawned.Some? && inp.sizing.Ok? ==>
              |o.effects| >= 2
              && o.effects[0] == StartTrade(BuildTrade(cfg, setup, checked, inp.sizing.value, inp.tradeId).value, inp.tradeAddr)
              && o.effects[1] == SubscribeToTimeSeries(cfg.tsAddr, inp.tradeAddr)
    ensures Notifies(o.effects) <==> snapshot == [] && cfg.notificationsEnabled && (cfg.liveTradingEnabled ==> inp.sizing.Ok?)
    ensures forall e :: e in o.effects && e.Notify? ==> e == Notify(setup, checked)
    ensures snapshot == [] && cfg.liveTradingEnabled && inp.sizing.Err?
            ==> o.effects == [Panic("Unable to fetch data when creating Trade.")]
    ensures snapshot != [] ==> o.effects == []
    ensures snapshot == [] && (cfg.liveTradingEnabled ==> inp.sizing.Ok?) ==>
              o.effects == (if cfg.liveTradingEnabled
                            then [StartTrade(BuildTrade(cfg, setup, checked, inp.sizing.value, inp.tradeId).value, inp.tradeAddr),
                                  SubscribeToTimeSeries(cfg.tsAddr, inp.tradeAddr)]
                            else [])
                           + (if cfg.notificationsEnabled then [Notify(setup, checked)] else [])
  {
    if |snapshot| > 0 then Outcome([], true, None)
    else if cfg.liveTradingEnabled && inp.sizing.Err? then
      Outcome([Panic("Unable to fetch data when creating Trade.")], true, None)
    else if !cfg.liveTradingEnabled then Outcome(SetupEffects(cfg, setup, checked, inp), true, None)
    else
      match BuildTrade(cfg, setup, checked, inp.sizing.value, inp.tradeId)
      case Err(_) => Outcome([Panic("Unable to build Trade in SetupFinder")], true, None)
      case Ok(_) => Outcome(SetupEffects(cfg, setup, checked, inp), true, Some(inp.tradeAddr))
  }

  /** What the future sends once a setup has built with an empty snapshot and,
      under live trading, a sizing: the trade start and its time-series
      subscription when live trading is on, then the notification when
      notifications are on. */
  function SetupEffects(cfg: FinderConfig, setup: Setup, checked: Strategies.Strategy, inp: FinderInputs): (e: seq<FinderEffect>)
    requires cfg.liveTradingEnabled ==> inp.sizing.Ok?
    ensures Spawns(e) <==> cfg.liveTradingEnabled
    ensures Notifies(e) <==> cfg.notificationsEnabled
    ensures forall x :: x in e && x.Notify? ==> x == Notify(setup, checked)
    ensures cfg.liveTradingEnabled ==>
              |e| >= 2
              && e[0] == StartTrade(BuildTrade(cfg, setup, checked, inp.sizing.value, inp.tradeId).value, inp.tradeAddr)
              && e[1] == SubscribeToTimeSeries(cfg.tsAddr, inp.tradeAddr)
  {
    var notify := if cfg.notificationsEnabled then [Notify(setup, checked)] else [];
    assert cfg.notificationsEnabled ==> notify[0] in notify;
    if !cfg.liveTradingEnabled then notify
    else
      var effects := [StartTrade(BuildTrade(cfg, setup, checked, inp.sizing.value, inp.tradeId).value, inp.tradeAddr),
                      SubscribeToTimeSeries(cfg.tsAddr, inp.tradeAddr)] + notify;
      assert effects[0] in effects;
      assert cfg.notificationsEnabled ==> effects[2] in effects;
      effects
  }

  /** The effects start a trade. */
  predicate Spawns(effects: seq<FinderEffect>) {
    exists e :: e in effects && e.StartTrade?
  }

  /** The effects send a notification. */
  predicate Notifies(effects: seq<FinderEffect>) {
    exists e :: e in effects && e.Notify?
  }

  /** The once-only guard holds: the handler returns at once. */
  predicate Guarded(cfg: FinderConfig, st: FinderState) {
    cfg.onlyTriggerOnce && st.triggered
  }

  /** One CandleAddedPayload, with TriggeredPayload and TradeSpawnedMsg
      applied at its end. */
  function Step(cfg: FinderConfig, st: FinderState, inp: FinderInputs): (r: (FinderState, seq<FinderEffect>))
    ensures Guarded(cfg, st) ==> r == (st, [])
    ensures r.0.strategy == st.strategy
    ensures r.0.triggered <==> st.triggered || SetupBuilt(st.strategy, inp)
    ensures !Guarded(cfg, st) ==> r.1 != [] && r.1[0] == RequestLatestCandles(Strategies.CandlesNeededForSetup(st.strategy))
    ensures !Guarded(cfg, st) ==> r.1[1..] == Decide(cfg, st.strategy, st.spawned, inp).effects
    ensures Spawns(r.1) <==> !Guarded(cfg, st) && SetupBuilt(st.strategy, inp) && st.spawned == []
                             && cfg.liveTradingEnabled && inp.sizing.Ok?
    ensures !Guarded(cfg, st) ==> r.0.spawned == Survivors(st.spawned, inp.alive) + (if Spawns(r.1) then [inp.tradeAddr] else [])
    ensures Notifies(r.1) <==> !Guarded(cfg, st) && SetupBuilt(st.strategy, inp) && st.spawned == []
                               && cfg.notificationsEnabled && (cfg.liveTradingEnabled ==> inp.sizing.Ok?)
  {
    if Guarded(cfg, st) then (st, [])
    else
      var strategy := Strategies.CloneBox(st.strategy);
      var snapshot := st.spawned;
      var pruned := Survivors(st.spawned, inp.alive);
      var o := Decide(cfg, strategy, snapshot, inp);
      var spawned := if o.spawned.Some? then pruned + [o.spawned.value] else pruned;
      (FinderState(st.strategy, st.triggered || o.triggered, spawned),
       [RequestLatestCandles(Strategies.CandlesNeededForSetup(strategy))] + o.effects)
  }

  // ----- behaviour over many candles -----

  /** The finder's state and everything it sends over a sequence of candles. */
  function Run(cfg: FinderConfig, st: FinderState, inps: seq<FinderInputs>): (r: (FinderState, seq<FinderEffect>))
    decreases |inps|
  {
    if inps == [] then (st, [])
    else
      var (st1, effects) := Step(cfg, st, inps[0]);
      var (st2, rest) := Run(cfg, st1, inps[1..]);
      (st2, effects + rest)
  }

  /** With only_trigger_once, a finder that has triggered is inert: no prune,
      no query, no trade and no notification, whatever comes. */
  lemma {:induction false} OnceOnlyQuiescent(cfg: FinderConfig, st: FinderState, inps: seq<FinderInputs>)
    requires cfg.onlyTriggerOnce && st.triggered
    ensures Run(cfg, st, inps) == (st, [])
    decreases |inps|
  {
    if inps != [] {
      assert Step(cfg, st, inps[0]) == (st, []);
      OnceOnlyQuiescent(cfg, st, inps[1..]);
      var none: seq<FinderEffect> := [];
      assert none + none == none;
    }
  }

  /** triggered is never reset and the stored strategy never changes: every
      check runs on a clone. */
  lemma {:induction false} RunKeepsStrategyAndTrigger(cfg: FinderConfig, st: FinderState, inps: seq<FinderInputs>)
    ensures Run(cfg, st, inps).0.strategy == st.strategy
    ensures st.triggered ==> Run(cfg, st, inps).0.triggered
    decreases |inps|
  {
    if inps != [] {
      var (st1, _) := Step(cfg, st, inps[0]);
      RunKeepsStrategyAndTrigger(cfg, st1, inps[1..]);
    }
  }

  /** A finder that starts with at most one spawned trade never holds more
      than one: it only spawns when the pre-prune snapshot is empty. */
  lemma {:induction false} AtMostOneSpawnedTrade(cfg: FinderConfig, st: FinderState, inps: seq<FinderInputs>)
    requires |st.spawned| <= 1
    ensures |Run(cfg, st, inps).0.spawned| <= 1
    decreases |inps|
  {
    if inps != [] {
      var (st1, effects) := Step(cfg, st, inps[0]);
      assert |st1.spawned| <= 1 by {
        if !Guarded(cfg, st) && Spawns(effects) {
          assert Survivors(st.spawned, inps[0].alive) == [];
        }
      }
      AtMostOneSpawnedTrade(cfg, st1, inps[1..]);
    }
  }

  /** Because the strategy is checked on a clone, a finder holding a fresh
      TrueOnce strategy without only_trigger_once finds a setup on every
      candle whose window is non-empty, not just the first. */
  lemma StoredTrueOnceFiresEveryCandle(cfg: FinderConfig, st: FinderState, inp: FinderInputs)
    requires st.strategy == Strategies.TrueOnce(TrueOnce.New())
    requires Answered(inp) && |inp.response.value.value.candles| > 0
    ensures SetupBuilt(st.strategy, inp)
    ensures Step(cfg, st, inp).0.strategy == st.strategy
  {
  }

  /** The snapshot is taken before pruning: a trade that has already
      stopped still blocks spawning and notifying on this candle, although
      the step prunes it and sets triggered. */
  lemma DeadTradeStillBlocks(c: Candle, custom: Strategies.CustomCheck, sizing: Result<Sizing, string>)
    ensures var cfg := FinderConfig(0, 0, DataSource("bybit"), true, true, false);
            var st := FinderState(Strategies.TrueOnce(TrueOnce.New()), false, [7]);
            var inp := FinderInputs(_ => false, Ok(Ok(LatestCandles([c], "BTCUSDT", Minute1))), custom, sizing, 1, 8);
            var r := Step(cfg, st, inp);
            r.0.triggered && r.0.spawned == [] && !Spawns(r.1) && !Notifies(r.1)
  {
    var st := FinderState(Strategies.TrueOnce(TrueOnce.New()), false, [7]);
    var inp := FinderInputs(_ => false, Ok(Ok(LatestCandles([c], "BTCUSDT", Minute1))), custom, sizing, 1, 8);
    assert Survivors([7], inp.alive) == Survivors([], inp.alive) + [];
    assert SetupBuilt(st.strategy, inp);
  }

  // ----- the actor -----

  class SetupFinder {
    const config: FinderConfig
    var strategy: Strategies.Strategy
    var triggered: bool
    var spawnedTradeAddrs: seq<TradeAddr>

    function State(): FinderState
      reads this
    {
      FinderState(strategy, triggered, spawnedTradeAddrs)
    }

    /** SetupFinder::new: not triggered, with the given spawned trades. */
    constructor (init: FinderInit)
      ensures config == init.config && strategy == init.strategy
      ensures !triggered && spawnedTradeAddrs == init.spawned
    {
      config := init.config;
      strategy := init.strategy;
      triggered := false;
      spawnedTradeAddrs := init.spawned;
    }

    /** Keeps the trades that answer a ping, in order. */
    method ClearClosedTrades(alive: TradeAddr -> bool)
      modifies this
      ensures spawnedTradeAddrs == Survivors(old(spawnedTradeAddrs), alive)
      ensures strategy == old(strategy) && triggered == old(triggered)
    {
      var tradeAddrs := [];
      var i := 0;
      while i < |spawnedTradeAddrs|
        invariant 0 <= i <= |spawnedTradeAddrs|
        invariant tradeAddrs == Survivors(spawnedTradeAddrs[..i], alive)
      {
        assert spawnedTradeAddrs[..i + 1][..i] == spawnedTradeAddrs[..i];
        if alive(spawnedTradeAddrs[i]) {
          tradeAddrs := tradeAddrs + [spawnedTradeAddrs[i]];
        }
        i := i + 1;
      }
      assert spawnedTradeAddrs[..i] == spawnedTradeAddrs;
      spawnedTradeAddrs := tradeAddrs;
    }

    /** TradeSpawnedMsg: records the new trade's address. */
    method HandleTradeSpawned(addr: TradeAddr)
      modifies this
      ensures spawnedTradeAddrs == old(spawnedTradeAddrs) + [addr]
      ensures strategy == old(strategy) && triggered == old(triggered)
    {
      spawnedTradeAddrs := spawnedTradeAddrs + [addr];
    }

    /** TriggeredPayload. */
    method HandleTriggered()
      modifies this
      ensures triggered
      ensures strategy == old(strategy) && spawnedTradeAddrs == old(spawnedTradeAddrs)
    {
      triggered := true;
    }

    /** CandleAddedPayload: the guard, the snapshot, the prune, the future,
        then the self-messages the future sent. */
    method HandleCandleAdded(inp: FinderInputs) returns (effects: seq<FinderEffect>)
      modifies this
      ensures (State(), effects) == Step(config, old(State()), inp)
    {
      if config.onlyTriggerOnce && triggered {
        return [];
      }
      var clone := Strategies.CloneBox(strategy);
      var spawnedTrades := spawnedTradeAddrs;
      ClearClosedTrades(inp.alive);
      var outcome := Decide(config, clone, spawnedTrades, inp);
      effects := [RequestLatestCandles(Strategies.CandlesNeededForSetup(clone))] + outcome.effects;
      if outcome.triggered {
        HandleTriggered();
      }
      if outcome.spawned.Some? {
        HandleTradeSpawned(outcome.spawned.value);
      }
    }
  }
}
