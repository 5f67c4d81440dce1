# rust-bot trading engine: the decision logic, in Dafny

This project models the decision logic of the rust-bot trading engine, without its
actor runtime, network and exchange plumbing. It covers eight pieces:

- **The setup finder** (`Finder`). There is one actor per strategy. On each candle the
  time series adds:
  - it honours the once-only guard;
  - it takes a snapshot of the trades it has spawned, then prunes the ones that no longer
    answer a ping;
  - it asks the time series for the strategy's window and checks a *clone* of the strategy;
  - when a setup builds, it marks itself triggered and, if the snapshot was empty, starts a
    live trade and/or sends a notification.
- **The trade actor** (`Trades`). Its start sends the entry order and the "create" row.
  On each candle it evaluates the take-profit and stop-loss windows (the last `tp` and last
  `sl` candles of the response) and exits exactly when either predicate holds; a window
  longer than the response or a failing predicate panics. The exit
  sends the exit order and the "finish" row, then stops. `get_bars_in_trade` is the
  whole-second bar count with a 10-second grace and Rust's truncating division.
- **The Bybit kline candle-close detector** (`BybitWs`). This is a one-slot state machine
  over the previous kline. It forwards the previous bar exactly when the bucket start
  changes. The module also holds the Bybit v5 interval codes and the subscribe request.
- **The two builders** (`TradeBuilders`, `FinderBuilders`). Each setter replaces one field.
  `build` checks the required fields in a fixed order and reports the first missing one.
- **The test strategies** (`TrueOnce`, `TrueTwice`). One fires on its first ask, the other
  on its second, and neither fires again.
- **Multi-strategy planning** (`MultipleStrategies`):
  - the distinct intervals, in first-seen order;
  - the largest `min_length`;
  - the per-interval indicator map, without duplicates;
  - the populate loop over the time series;
  - each strategy's time-series index.

`Domain` holds the shared records: candles, setups, the setup builder, intervals and
resolution strategies. `Strategies` stands in for the `TradingStrategy` trait. It has the
two test strategies plus a `Custom` variant whose entry predicate is supplied by the caller.

Modelling conventions:

- Each actor handler is one atomic step. The messages a handler sends to itself
  (`TriggeredPayload`, `TradeSpawnedMsg`, `StopPayload`) take effect at the end of the step.
- The candle handlers of `SetupFinder` and `KlineFeed` are proved equal to pure step
  functions (`Finder.Step`, `BybitWs.KlineStep`), and the behavioural properties are lemmas
  about those functions. The finder's other handlers (`ClearClosedTrades`,
  `HandleTradeSpawned`, `HandleTriggered`) and the `TradeActor` handlers state the new
  fields and the effects directly; `TradeActor.HandleCandleAdded` states them through the
  exit decision `Trades.ExitDecision`.
- The outside world is a set of inputs:
  - the liveness probe;
  - the time series' answer;
  - the custom strategy predicate;
  - wallet-based sizing, the new trade's id and address;
  - the exchange's order results;
  - the resolution predicates;
  - `Kline::to_candle`.
- An `expect` or an out-of-bounds index that would panic becomes a final `Panic` effect.
- Prices and amounts are IEEE-754 doubles that the model never computes with. Each one is
  kept as an opaque bit pattern (`F64`).
- Timestamps are whole seconds. Actor addresses and ids are opaque numbers.

Two behaviours of the code deserve a note:

- The kline ingestion loop does not end on a decode or socket error. `handle_websocket_message`
  logs the error and the loop goes on (src/data_sources/bybit/ws/bybit_ws_api.rs:120-157).
  `BybitWs.FeedRun` therefore keeps feeding after a failed response, and
  `BybitWs.FeedSkipsFailedResponse` shows that such a response changes nothing forwarded.
- The once-per-trade guard tests the snapshot of spawned trades taken *before* pruning
  (src/models/setups/setup_finder.rs:59, 64, 105). So a trade that has already stopped still
  blocks spawning and notifying on the candle that prunes it. `Finder.DeadTradeStillBlocks`
  states this.

## Model

| member | source | states |
|---|---|---|
| Domain.IntervalSeconds | src/models/trade.rs:203-214 | every bar length in the divisor table is a positive whole number of minutes |
| Domain.AllWeekdaysComplete | src/trading_strategies/public/true_once_strategy.rs:110-122 | the trading-day set built for the test strategies holds all seven weekdays |
| TrueOnce.New | src/trading_strategies/public/true_once_strategy.rs:60-68 | a new instance has not fired and trades on every weekday |
| TrueOnce.CheckLastForSetup | src/trading_strategies/public/true_once_strategy.rs:74-86 | a builder is returned exactly when the instance had not fired. It holds candles[0] and orientation Long, with no symbol or interval. The instance is fired afterwards and keeps its days. A non-empty window is needed only when it fires |
| TrueOnce.MinLength | src/trading_strategies/public/true_once_strategy.rs:53-57 | one candle of history, which covers the setup window |
| TrueOnce.CandlesNeededForSetup | src/trading_strategies/public/true_once_strategy.rs:70-72 | the setup window is one candle |
| TrueOnce.RequiredIndicators | src/trading_strategies/public/true_once_strategy.rs:125-129 | no indicators are required |
| TrueOnce.StrategyOrientation | src/trading_strategies/public/true_once_strategy.rs:96-98 | the strategy trades long |
| TrueOnce.StrategyInterval | src/trading_strategies/public/true_once_strategy.rs:100-102 | the strategy runs on one-minute candles (60 s bars) |
| TrueOnce.Name | src/trading_strategies/public/true_once_strategy.rs:131-135 | the Display name is "TrueOnceStrategy" |
| TrueOnce.AccessorsAgreeWithCheck | src/trading_strategies/public/true_once_strategy.rs:70-86 | a window of candles_needed_for_setup candles always meets the check's need for candles[0], and a returned builder carries the declared orientation |
| TrueOnce.CloneBox | src/trading_strategies/public/true_once_strategy.rs:88-90 | the clone carries the same trigger flag and trading days |
| TrueOnce.TrueOnceInstance.constructor | src/trading_strategies/public/true_once_strategy.rs:88-90 | a box holds exactly the given strategy state |
| TrueOnce.TrueOnceInstance.Check | src/trading_strategies/public/true_once_strategy.rs:74-86 | the in-place check leaves the box in the state `CheckLastForSetup` computes and returns its answer |
| TrueOnce.TrueOnceInstance.CloneBox | src/trading_strategies/public/true_once_strategy.rs:88-90 | clone_box gives a new box with the same state |
| TrueOnce.Run | src/trading_strategies/public/true_once_strategy.rs:74-86 | asking one instance once per window gives one answer per window |
| TrueOnce.FiredNeverFires | src/trading_strategies/public/true_once_strategy.rs:75-77 | an instance that has fired returns no setup on any later ask |
| TrueOnce.FiresAtMostOnce | src/trading_strategies/public/true_once_strategy.rs:74-86 | over any sequence of asks at most one setup is returned. A fresh instance returns it on the first ask |
| TrueTwice.New | src/trading_strategies/public/true_twice_strategy.rs:60-69 | a new instance has not fired, has counted no asks, and trades every weekday |
| TrueTwice.CheckLastForSetup | src/trading_strategies/public/true_twice_strategy.rs:75-92 | a builder on candles[0] with orientation Long is returned exactly when the instance has one counted ask and has not fired. The first ask only counts. The counter stays at most 1, and the trigger flag is set exactly when the instance fires |
| TrueTwice.MinLength | src/trading_strategies/public/true_twice_strategy.rs:53-57 | one candle of history, which covers the setup window |
| TrueTwice.CandlesNeededForSetup | src/trading_strategies/public/true_twice_strategy.rs:71-73 | the setup window is one candle |
| TrueTwice.RequiredIndicators | src/trading_strategies/public/true_twice_strategy.rs:131-135 | no indicators are required |
| TrueTwice.StrategyOrientation | src/trading_strategies/public/true_twice_strategy.rs:102-104 | the strategy trades long |
| TrueTwice.StrategyInterval | src/trading_strategies/public/true_twice_strategy.rs:106-108 | the strategy runs on one-minute candles (60 s bars) |
| TrueTwice.Name | src/trading_strategies/public/true_twice_strategy.rs:137-141 | the Display name is "TrueTwiceStrategy" |
| TrueTwice.AccessorsAgreeWithCheck | src/trading_strategies/public/true_twice_strategy.rs:71-92 | a window of candles_needed_for_setup candles always meets the check's need for candles[0], and a returned builder carries the declared orientation |
| TrueTwice.CloneBox | src/trading_strategies/public/true_twice_strategy.rs:94-96 | the clone carries the same flag, counter and days |
| TrueTwice.TrueTwiceInstance.constructor | src/trading_strategies/public/true_twice_strategy.rs:94-96 | a box holds exactly the given strategy state |
| TrueTwice.TrueTwiceInstance.Check | src/trading_strategies/public/true_twice_strategy.rs:75-92 | the in-place check leaves the box in the state `CheckLastForSetup` computes and returns its answer |
| TrueTwice.TrueTwiceInstance.CloneBox | src/trading_strategies/public/true_twice_strategy.rs:94-96 | clone_box gives a new box with the same state |
| TrueTwice.Run | src/trading_strategies/public/true_twice_strategy.rs:75-92 | asking one instance once per window gives one answer per window |
| TrueTwice.FiredNeverFires | src/trading_strategies/public/true_twice_strategy.rs:76-78 | after firing, every later ask returns None |
| TrueTwice.ArmedFiresFirst | src/trading_strategies/public/true_twice_strategy.rs:85-91 | an instance with one counted ask fires on the next ask and never after |
| TrueTwice.FreshFiresOnSecondAsk | src/trading_strategies/public/true_twice_strategy.rs:75-92 | on a fresh instance exactly the second ask returns a setup. The counter ends at most 1 |
| TrueTwice.TriggersStayAtMostOne | src/trading_strategies/public/true_twice_strategy.rs:80-83 | the trigger counter never goes past 1 |
| Strategies.IntervalOf | src/run_configs/multiple_strategies.rs:38-39 | both test strategies report one-minute candles; a custom strategy reports its descriptor's interval |
| Strategies.MinLength | src/run_configs/multiple_strategies.rs:42-43 | both test strategies need one candle of history; a custom strategy its descriptor's |
| Strategies.CandlesNeededForSetup | src/models/setups/setup_finder.rs:67-69 | both test strategies ask for a one-candle window; a custom strategy for its descriptor's |
| Strategies.RequiredIndicators | src/run_configs/multiple_strategies.rs:64 | the test strategies require no indicators; a custom strategy its descriptor's |
| Strategies.OrientationOf | src/models/setups/setup_finder.rs:130 | the test strategies trade long; a custom strategy in its descriptor's orientation |
| Strategies.DefaultResolutionStrategy | src/models/setups/setup_finder.rs:84 | the test strategies resolve instantly; a custom strategy by its descriptor's resolution |
| Strategies.Name | src/models/trade.rs:53 | each test strategy's Display name is its type name; a custom strategy's is its descriptor's |
| Strategies.CloneBox | src/trading_strategies/public/true_once_strategy.rs:88-90 | clone_box is a copy equal to the original in every field |
| Strategies.CheckLastForSetup | src/models/setups/setup_finder.rs:77 | the dispatched check keeps the variant and the interval. For each test strategy the new state and the builder are exactly those of its own check, and a custom strategy's are those of its entry predicate |
| Strategies.ClonedFiredTrueOnceNeverFires | src/trading_strategies/public/true_once_strategy.rs:74-90 | a clone of a TrueOnce instance that has fired never fires |
| Trades.TruncDiv | src/models/trade.rs:200-216 | the quotient truncates toward zero. For a non-negative dividend, q·d ≤ a < q·d + d; for a negative one, the mirrored bounds hold |
| Trades.BarsInTrade | src/models/trade.rs:193-217 | bars is the number of whole bar lengths in (exit − entry + 10 s), truncated toward zero |
| Trades.BarsInTradeExample | src/models/trade.rs:200-204 | entry T and exit T + 125 s on Minute1 give 2 bars |
| Trades.TruncDivMonotone | src/models/trade.rs:200-216 | truncating division by a positive divisor is monotone |
| Trades.BarsInTradeMonotone | src/models/trade.rs:193-217 | for a fixed entry and interval, a later exit never gives fewer bars |
| Trades.LastN | src/models/trade.rs:149-156 | a window is the last n candles: its length is n and it ends the response |
| Trades.WindowsOfResponse | src/models/trade.rs:138-156 | with a response of max(tp, sl) candles, the longer window is the whole response and the shorter is the tail of the longer |
| Trades.ExitDecision | src/models/trade.rs:149-161 | the decision is made exactly when both windows fit the response and both predicates succeed, and it is to exit exactly when either reports reached. A failing take-profit check is reported before the stop-loss window is taken |
| Trades.ExitDecisionIgnoresOlderCandles | src/models/trade.rs:149-161 | older candles in front of a response of at least max(tp, sl) candles do not change the decision |
| Trades.RequestedResponseFitsWindows | src/models/trade.rs:138-161 | with a response of the requested max(tp, sl) candles, only a failing predicate can make the decision panic |
| Trades.CreateRecord | src/models/trade.rs:47-88 | the "create" row carries the trade's id, symbol, interval, orientation, quantity, dollar value, source and strategy names. Its entry time and price are the setup candle's. Every exit field and the comment are empty, and the entry fee is 0 |
| Trades.FinishRecord | src/models/trade.rs:169-180 | the "finish" update carries the trade's id, the notified candle's timestamp and close, and the bar count from entry to that timestamp |
| Trades.TradeActor.constructor | src/models/trade.rs:24-37 | a started actor runs with the trade's resolution strategy |
| Trades.TradeActor.Started | src/models/trade.rs:42-98 | if initialising the resolution strategy fails, the step panics. Otherwise the resolution strategy is updated, the entry order is sent, then the create row, whatever the order's result |
| Trades.TradeActor.HandleStop | src/models/trade.rs:101-107 | the actor stops and nothing else changes |
| Trades.TradeActor.HandleCandleAdded | src/models/trade.rs:115-190 | it requests max(tp, sl) candles. A failed send to the time series and an error answer from it each panic with their own message, and so does every error of the exit decision, with its reason. If the decision is to exit, it sends the exit order, the finish row and Stop, and the actor stops. Otherwise it only requests |
| TradeBuilders.MissingRequired | src/models/trade_builder.rs:111-145 | the missing required fields are listed in build's checking order |
| TradeBuilders.New | src/models/trade_builder.rs:30-45 | every option field is None, both flags are false, and all eight required fields are missing |
| TradeBuilders.WithQuantity | src/models/trade_builder.rs:47-50 | sets quantity and changes no other field |
| TradeBuilders.WithDollarValue | src/models/trade_builder.rs:52-55 | sets dollar_value and changes no other field |
| TradeBuilders.WithSource | src/models/trade_builder.rs:57-60 | sets source and changes no other field |
| TradeBuilders.WithNotificationsEnabled | src/models/trade_builder.rs:62-65 | sets the notifications flag and changes no other field |
| TradeBuilders.WithTradingEnabled | src/models/trade_builder.rs:67-70 | sets the trading flag and changes no other field |
| TradeBuilders.WithResolutionStrategy | src/models/trade_builder.rs:72-75 | sets the resolution strategy and changes no other field |
| TradeBuilders.WithOrientation | src/models/trade_builder.rs:77-80 | sets orientation and changes no other field |
| TradeBuilders.WithTimeseriesAddr | src/models/trade_builder.rs:82-85 | sets the time-series address and changes no other field |
| TradeBuilders.WithSetup | src/models/trade_builder.rs:87-90 | sets setup and changes no other field |
| TradeBuilders.WithDbAddr | src/models/trade_builder.rs:92-95 | sets the database address and changes no other field |
| TradeBuilders.WithId | src/models/trade_builder.rs:98-101 | replaces the id and changes no other field |
| TradeBuilders.WithTradingStrategy | src/models/trade_builder.rs:103-106 | sets the trading strategy and changes no other field |
| TradeBuilders.Build | src/models/trade_builder.rs:108-162 | fails exactly when a required field is missing, reporting the first in checking order. On success every trade field is the builder's, id included, and the strategy is a clone |
| TradeBuilders.BuildIgnoresOrientation | src/models/trade_builder.rs:108-162 | setting the orientation never changes what build returns |
| FinderBuilders.MissingRequired | src/models/setups/setup_finder_builder.rs:77-93 | the missing options are listed in build's checking order: strategy, time series, source, database |
| FinderBuilders.New | src/models/setups/setup_finder_builder.rs:23-34 | the four options are None, the flags false, the spawned list empty, and all four options are missing |
| FinderBuilders.WithStrategy | src/models/setups/setup_finder_builder.rs:36-39 | sets the strategy and changes no other field |
| FinderBuilders.WithSource | src/models/setups/setup_finder_builder.rs:41-44 | sets the source and changes no other field |
| FinderBuilders.WithTsAddr | src/models/setups/setup_finder_builder.rs:46-49 | sets the time-series address and changes no other field |
| FinderBuilders.WithDbAddr | src/models/setups/setup_finder_builder.rs:51-54 | sets the database address and changes no other field |
| FinderBuilders.WithNotificationsEnabled | src/models/setups/setup_finder_builder.rs:56-59 | sets the notifications flag and changes no other field |
| FinderBuilders.WithLiveTradingEnabled | src/models/setups/setup_finder_builder.rs:61-64 | sets the live-trading flag and changes no other field |
| FinderBuilders.WithOnlyTriggerOnce | src/models/setups/setup_finder_builder.rs:66-69 | sets the once-only flag and changes no other field |
| FinderBuilders.WithSpawnedTrades | src/models/setups/setup_finder_builder.rs:71-75 | sets the spawned list and changes no other field |
| FinderBuilders.Build | src/models/setups/setup_finder_builder.rs:77-105 | fails exactly when an option is missing, reporting the first in checking order. Otherwise the finder's arguments are the builder's options, the three flags unchanged, and the spawned list |
| FinderBuilders.BuildFinder | src/models/setups/setup_finder_builder.rs:77-105 | a successful build yields a new finder that has not triggered and holds the builder's configuration, strategy and spawned list |
| Finder.Survivors | src/models/setups/setup_finder.rs:212-224 | pruning never lengthens the list |
| Finder.SurvivorsMembership | src/models/setups/setup_finder.rs:212-224 | a handle survives exactly when it was listed and answers the ping |
| Finder.SurvivorsCounts | src/models/setups/setup_finder.rs:212-224 | every live handle is kept as often as it occurred and every dead one is dropped. Nothing is added |
| Finder.SurvivorsInOrder | src/models/setups/setup_finder.rs:212-224 | the survivors are a subsequence of the original list, in the original order |
| Finder.FoundSetup | src/models/setups/setup_finder.rs:77-96 | a setup is found exactly when the strategy returned a builder that has a candle and an orientation. The setup is that candle and orientation with the response's symbol and interval, paired with the strategy as left by the check |
| Finder.BuildTrade | src/models/setups/setup_finder.rs:122-135 | the builder chain always builds, so its expect cannot fire. The trade carries the fresh id, the setup, the sizing, the finder's source, flags and addresses, the strategy's resolution and a clone of the checked strategy, with trading enabled |
| Finder.Decide | src/models/setups/setup_finder.rs:66-159 | triggered iff a setup built. A trade is spawned iff a setup built, the snapshot is empty, live trading is on and sizing succeeded, and it gets the new address. A notification goes out iff a setup built, the snapshot is empty, notifications are on, and sizing succeeded where live trading needs it. A started trade is the builder chain's trade on the found setup and the checked strategy, followed by the time-series subscription; every notification carries the found setup and the checked strategy. A failed send to the time series, an error answer from it, a window the strategy cannot index, and a failed sizing fetch under live trading each end the future with its own panic alone; when no setup builds nothing is sent. Once a setup builds without a panic, the effects are exactly the trade start and subscription (live trading only) followed by the notification (notifications only), and nothing with a non-empty snapshot |
| Finder.ActOnSetup | src/models/setups/setup_finder.rs:105-158 | once a setup has built the finder is triggered. With an empty snapshot: under live trading a failed sizing fetch panics, otherwise the builder chain's trade on the setup and the checked strategy is started and subscribed to the time series; with notifications on, the notification carries the setup and the checked strategy. The effects are exactly that start and subscription followed by that notification. A non-empty snapshot sends nothing |
| Finder.SetupEffects | src/models/setups/setup_finder.rs:110-158 | the effects after a built setup: a trade start and the time-series subscription exactly when live trading is on, first, holding the builder chain's trade on the setup and checked strategy; a notification exactly when notifications are on, carrying the setup and the checked strategy |
| Finder.Step | src/models/setups/setup_finder.rs:46-185 | when the once-only guard holds, nothing changes and nothing is sent. Otherwise: the first message requests candles_needed_for_setup candles; the spawned list becomes the ping survivors plus the new trade, if one was spawned; triggered becomes true iff it was true or a setup built. The stored strategy never changes. Everything after the request is exactly what Decide sends for the stored strategy and the pre-prune snapshot |
| Finder.OnceOnlyQuiescent | src/models/setups/setup_finder.rs:50-52 | with only_trigger_once, a finder that has triggered never changes and sends nothing, over any sequence of candles |
| Finder.RunKeepsStrategyAndTrigger | src/models/setups/setup_finder.rs:54-98 | over any sequence of candles the stored strategy never changes and triggered is never reset |
| Finder.AtMostOneSpawnedTrade | src/models/setups/setup_finder.rs:105-147 | a finder that starts with at most one spawned trade never holds more than one |
| Finder.StoredTrueOnceFiresEveryCandle | src/models/setups/setup_finder.rs:56-77 | because each check runs on a clone, a stored fresh TrueOnce strategy finds a setup on every non-empty window and stays fresh |
| Finder.DeadTradeStillBlocks | src/models/setups/setup_finder.rs:59-108 | a spawned trade that no longer answers still blocks spawning and notifying on the candle that prunes it. The finder triggers and ends with no spawned trade |
| Finder.SetupFinder.constructor | src/models/setups/setup_finder.rs:189-210 | a new finder holds the given configuration, strategy and spawned list, and has not triggered |
| Finder.SetupFinder.ClearClosedTrades | src/models/setups/setup_finder.rs:212-224 | the spawned list becomes the survivors of the old list; nothing else changes |
| Finder.SetupFinder.HandleTradeSpawned | src/models/setups/setup_finder.rs:172-177 | appends the new address; nothing else changes |
| Finder.SetupFinder.HandleTriggered | src/models/setups/setup_finder.rs:180-185 | sets triggered; nothing else changes |
| Finder.SetupFinder.HandleCandleAdded | src/models/setups/setup_finder.rs:46-163 | the handler, including the self-messages it sends, leaves the finder in the state `Step` computes and sends what `Step` sends |
| BybitWs.IntervalAsString | src/data_sources/bybit/ws/bybit_ws_api.rs:75-88 | Hour4, Hour12 and Day5 have no code. Every other interval has a non-empty one |
| BybitWs.IntervalCodeCountsMinutes | src/data_sources/bybit/ws/bybit_ws_api.rs:75-88 | intraday codes are the bar's length in minutes, in decimal. Day1 and Week1 are "D" and "W" |
| BybitWs.IntervalCodesDistinct | src/data_sources/bybit/ws/bybit_ws_api.rs:75-88 | no two supported intervals share a code |
| BybitWs.SubscribeToKline | src/data_sources/bybit/ws/bybit_ws_api.rs:58-73 | the request is built exactly when the interval has a code. It is a "subscribe" with one argument: stream "kline", the interval's code, symbol "BTCUSDT" |
| BybitWs.KlineStep | src/data_sources/bybit/ws/bybit_ws_api.rs:183-217 | a failed response is an error and leaves the slot alone. The first kline is only stored, and one in the same bucket replaces the slot. One in a new bucket forwards the previous kline converted to a candle and takes the slot; if the conversion fails, it is an error and the slot keeps the previous kline |
| BybitWs.KlineFeed.constructor | src/data_sources/bybit/ws/bybit_ws_api.rs:118 | the slot starts empty |
| BybitWs.KlineFeed.HandleKline | src/data_sources/bybit/ws/bybit_ws_api.rs:183-217 | the in-place handler leaves the slot as `KlineStep` computes and returns its result |
| BybitWs.FeedRun | src/data_sources/bybit/ws/bybit_ws_api.rs:120-157 | the loop forwards at most one candle per response, and a stream of failed responses forwards nothing and leaves the slot alone |
| BybitWs.FeedSkipsFailedResponse | src/data_sources/bybit/ws/bybit_ws_api.rs:145-158 | a failed response anywhere in the stream is logged and skipped: the loop forwards exactly what it forwards without it and ends in the same slot |
| BybitWs.FeedForwardsClosedBars | src/data_sources/bybit/ws/bybit_ws_api.rs:183-217 | from a stored kline, the feed forwards exactly the closed bars of the stream, in order, and ends holding the last kline |
| BybitWs.FeedFromEmptySlot | src/data_sources/bybit/ws/bybit_ws_api.rs:190-214 | from an empty slot, the feed forwards exactly the closed bars of the stream |
| BybitWs.FourTickExample | src/data_sources/bybit/ws/bybit_ws_api.rs:183-217 | three ticks of one bucket forward nothing. A fourth tick in a new bucket forwards the third tick's candle |
| BybitWs.FailedConversionStalls | src/data_sources/bybit/ws/bybit_ws_api.rs:199-214 | a kline whose conversion fails stays in the slot. Every later kline of another bucket retries it, and nothing is forwarded |
| MultipleStrategies.FirstSeenMembership | src/run_configs/multiple_strategies.rs:35-41 | the de-duplicated list holds exactly the elements of the input |
| MultipleStrategies.FirstSeenNoDuplicates | src/run_configs/multiple_strategies.rs:35-41 | the de-duplicated list has no repeated element |
| MultipleStrategies.FirstSeenOrder | src/run_configs/multiple_strategies.rs:35-41 | the de-duplicated list is ordered by each element's first occurrence |
| MultipleStrategies.FirstSeenInsert | src/run_configs/multiple_strategies.rs:64-67 | inserting into an insertion-ordered set appends the element only if it is new |
| MultipleStrategies.IntervalsAndMinLen | src/run_configs/multiple_strategies.rs:35-48 | min_len bounds every strategy's min_length and is attained by one of them, or is 0 when there are no strategies |
| MultipleStrategies.PlannedIntervalsAreFirstSeen | src/run_configs/multiple_strategies.rs:35-41 | the fold's interval set is the strategies' intervals de-duplicated in first-seen order |
| MultipleStrategies.PlannedIntervals | src/run_configs/multiple_strategies.rs:35-41 | every strategy's interval is planned, only those are, none twice, in order of first occurrence |
| MultipleStrategies.HistoricalRequests | src/run_configs/multiple_strategies.rs:51-56 | one historical request per planned interval, in the same order, each for min_len + 300 candles |
| MultipleStrategies.PlannedRequests | src/run_configs/multiple_strategies.rs:35-56 | the run fetches one series per distinct strategy interval, none twice, in first-seen order, each for the largest min_length plus 300 candles |
| MultipleStrategies.InsertIndicator | src/run_configs/multiple_strategies.rs:64-72 | inserting one indicator leaves the interval's entry equal to the de-duplicated indicators gathered so far; no other entry changes |
| MultipleStrategies.InsertIndicators | src/run_configs/multiple_strategies.rs:62-73 | after one strategy's indicators, the interval's entry is the de-duplicated concatenation. The entry exists only if something was gathered, and no other entry changes |
| MultipleStrategies.BuildIndicatorMap | src/run_configs/multiple_strategies.rs:59-75 | the map has an entry exactly for each interval whose strategies require indicators. The entry holds those indicators, de-duplicated in first-seen order |
| MultipleStrategies.PopulateIndicators | src/run_configs/multiple_strategies.rs:79-88 | succeeds exactly when every time series' interval has a map entry. Each time series then gets its entry's indicators appended, in order |
| MultipleStrategies.IntervalWithoutIndicatorsFails | src/run_configs/multiple_strategies.rs:59-88 | a planned interval whose strategies require no indicators has no entry, so populating the planned time series fails |
| MultipleStrategies.TestStrategiesCannotBePlanned | src/run_configs/multiple_strategies.rs:59-88 | a run of only the test strategies, which require no indicators, cannot be populated |
| MultipleStrategies.Position | src/run_configs/multiple_strategies.rs:94-97 | the index found is that of the first time series on the interval, and it is missing exactly when no time series has it |
| MultipleStrategies.StrategyIndices | src/run_configs/multiple_strategies.rs:91-102 | pairing succeeds exactly when every strategy's interval has a time series. Each strategy then gets the index of the first time series on its interval |
| MultipleStrategies.PlannedSeriesServeEveryStrategy | src/run_configs/multiple_strategies.rs:91-102 | pairing the strategies with the planned time series never fails |

## Left out

- Sockets, the ping task and the `select!` message loop are not modelled
  (src/data_sources/bybit/ws/bybit_ws_api.rs:38-56, 90-158), and neither is JSON encoding
  (`to_json`). `BybitWs.FeedRun` stands for the loop feeding decoded responses, one at a time.
  The loop reads the next websocket message before `select!` (bybit_ws_api.rs:122-126); when
  the ping branch completes first, the message branch is dropped unpolled and that kline is
  lost. `BybitWs.FeedRun` and `BybitWs.FeedForwardsClosedBars` therefore describe the klines
  that reach `handle_kline`, not every kline the socket delivers.
- Actix mailbox semantics are not modelled: `ctx.wait` against `ctx.spawn`, and the delayed
  delivery of `TriggeredPayload` and `TradeSpawnedMsg`. A candle that arrives before those
  self-messages cannot be expressed, because every handler is one atomic step.
- Float arithmetic is left out: the position size (half the balance, over the price), the
  exit quantity `quantity * 0.99`, prices and indicator values. The sizing is an input of
  the finder's step, and the exit order carries only the symbol.
- Wallet and price lookups, entry and exit orders, notification delivery and the
  resolution-strategy predicates are inputs. So are `set_initial_values`,
  `Kline::to_candle`, `get_kline`, the time series' answer and the ping's liveness.
  A notification failure is only logged in the original, so the model records only the
  attempt.
- Persistence (SQL) is left out. The database receives the create and finish payloads as
  effects.
- Start-up wiring, run configurations other than the planning part of
  `multiple_strategies::start`, and the fetch and actor-start parts of that function (lines
  51-56 as I/O, 104-140) are left out. `MultipleStrategies.HistoricalRequests` and
  `FetchedSeries` stand for the requests and their fresh time series.
- `Trades.BarsInTrade` does not model the final `i64 → i32` cast. It returns the unbounded
  quotient, which agrees with the cast for any trade shorter than about 4000 years.
- `TimeSeries::add_indicator` can fail in the original. `MultipleStrategies.PopulateIndicators`
  treats every addition as succeeding and records only which indicators each time series
  receives.
- No step models the state after a `Panic`. In the original, the panic aborts that
  actor's future or task.
- The setup builder, the time series, the instant resolution strategy and the incoming and
  outgoing message types are not part of this model. `SetupBuilder.Build` assumes all four
  parts are required, and `InstantResolution` assumes one-candle windows.
- The trade's `PingPayload` handler has an empty body (src/models/trade.rs:109-113). Its
  only observable effect, whether the actor still takes messages, is the finder's `alive`
  input below, so it has no member of its own.
- The finder's pruning probe is `try_send`, which fails only when the mailbox is full or
  the actor has stopped. The model treats it as an input predicate, `alive`.
- `Strategies.Custom` abstracts every strategy other than the two test strategies. Its check
  is an input, and its interval, indicators and window size are fields of its descriptor.
