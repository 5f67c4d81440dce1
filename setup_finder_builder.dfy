// SetupFinderBuilder: optional strategy, time-series address, data source and
// database address, three flags and an initial list of spawned trades. build
// checks the four options in a fixed order and hands the rest to
// SetupFinder::new.

module FinderBuilders {
  import opened Domain
  import Strategies
  import Finder

  datatype SetupFinderBuilder = SetupFinderBuilder(
    strategy: Option<Strategies.Strategy>,
    tsAddr: Option<TsAddr>,
    source: Option<DataSource>,
    dbAddr: Option<DbAddr>,
    notificationsEnabled: bool,
    liveTradingEnabled: bool,
    onlyTriggerOnce: bool,
    spawnedTrades: seq<TradeAddr>)

  /** The options build insists on. */
  datatype FinderField = StrategyField | TsAddrField | SourceField | DbAddrField

  /** The order build checks them in. */
  const RequiredOrder: seq<FinderField> :=
    [StrategyField] + ([TsAddrField] + ([SourceField] + [DbAddrField]))

  predicate IsSet(b: SetupFinderBuilder, f: FinderField) {
    match f
    case StrategyField => b.strategy.Some?
    case TsAddrField => b.tsAddr.Some?
    case SourceField => b.source.Some?
    case DbAddrField => b.dbAddr.Some?
  }

  function IfMissing(b: SetupFinderBuilder, f: FinderField): seq<FinderField> {
    if IsSet(b, f) then [] else [f]
  }

  /** The required options b lacks, in checking order. */
  function Missing(b: SetupFinderBuilder, fields: seq<FinderField>): seq<FinderField> {
    if fields == [] then [] else IfMissing(b, fields[0]) + Missing(b, fields[1..])
  }

  /** Missing peels off one field of the checking order. */
  lemma MissingCons(b: SetupFinderBuilder, f: FinderField, rest: seq<FinderField>)
    ensures Missing(b, [f] + rest) == IfMissing(b, f) + Missing(b, rest)
  {
    assert ([f] + rest)[1..] == rest;
  }

  lemma MissingRequired(b: SetupFinderBuilder)
    ensures Missing(b, RequiredOrder)
         == IfMissing(b, StrategyField) + (IfMissing(b, TsAddrField)
            + (IfMissing(b, SourceField) + IfMissing(b, DbAddrField)))
  {
    var s3: seq<FinderField> := [DbAddrField];
    MissingCons(b, DbAddrField, []);
    assert [DbAddrField] + [] == s3;
    var s2 := [SourceField] + s3;
    MissingCons(b, SourceField, s3);
    var s1 := [TsAddrField] + s2;
    MissingCons(b, TsAddrField, s2);
    var s0 := [StrategyField] + s1;
    MissingCons(b, StrategyField, s1);
    assert s0 == RequiredOrder;
  }


  /** SetupFinderBuilder::new(). */
  function New(): (b: SetupFinderBuilder)
    ensures b.strategy.None? && b.tsAddr.None? && b.source.None? && b.dbAddr.None?
    ensures !b.notificationsEnabled && !b.liveTradingEnabled && !b.onlyTriggerOnce
    ensures b.spawnedTrades == []
    ensures Missing(b, RequiredOrder) == RequiredOrder
  {
    MissingRequired(SetupFinderBuilder(None, None, None, None, false, false, false, []));
    SetupFinderBuilder(None, None, None, None, false, false, false, [])
  }

  // Each setter replaces its own field and leaves every other one alone.

  function WithStrategy(b: SetupFinderBuilder, s: Strategies.Strategy): (r: SetupFinderBuilder)
    ensures r.strategy == Some(s) && r.(strategy := b.strategy) == b
  { b.(strategy := Some(s)) }

  function WithSource(b: SetupFinderBuilder, s: DataSource): (r: SetupFinderBuilder)
    ensures r.source == Some(s) && r.(source := b.source) == b
  { b.(source := Some(s)) }

  function WithTsAddr(b: SetupFinderBuilder, ts: TsAddr): (r: SetupFinderBuilder)
    ensures r.tsAddr == Some(ts) && r.(tsAddr := b.tsAddr) == b
  { b.(tsAddr := Some(ts)) }

  function WithDbAddr(b: SetupFinderBuilder, db: DbAddr): (r: SetupFinderBuilder)
    ensures r.dbAddr == Some(db) && r.(dbAddr := b.dbAddr) == b
  { b.(dbAddr := Some(db)) }

  function WithNotificationsEnabled(b: SetupFinderBuilder, enabled: bool): (r: SetupFinderBuilder)
    ensures r.notificationsEnabled == enabled && r.(notificationsEnabled := b.notificationsEnabled) == b
  { b.(notificationsEnabled := enabled) }

  function WithLiveTradingEnabled(b: SetupFinderBuilder, enabled: bool): (r: SetupFinderBuilder)
    ensures r.liveTradingEnabled == enabled && r.(liveTradingEnabled := b.liveTradingEnabled) == b
  { b.(liveTradingEnabled := enabled) }

  function WithOnlyTriggerOnce(b: SetupFinderBuilder, enabled: bool): (r: SetupFinderBuilder)
    ensures r.onlyTriggerOnce == enabled && r.(onlyTriggerOnce := b.onlyTriggerOnce) == b
  { b.(onlyTriggerOnce := enabled) }

  function WithSpawnedTrades(b: SetupFinderBuilder, trades: seq<TradeAddr>): (r: SetupFinderBuilder)
    ensures r.spawnedTrades == trades && r.(spawnedTrades := b.spawnedTrades) == b
  { b.(spawnedTrades := trades) }

  /** build: the first missing option is the error; otherwise the finder's
      arguments are the builder's fields, flags and spawned list included. */
  function Build(b: SetupFinderBuilder): (r: Result<Finder.FinderInit, FinderField>)
    ensures r.Err? <==> Missing(b, RequiredOrder) != []
    ensures r.Err? ==> r.error == Missing(b, RequiredOrder)[0]
    ensures r.Ok? ==> Some(r.value.strategy) == b.strategy && r.value.spawned == b.spawnedTrades
                      && Some(r.value.config.tsAddr) == b.tsAddr && Some(r.value.config.source) == b.source
                      && Some(r.value.config.dbAddr) == b.dbAddr
                      && r.value.config.notificationsEnabled == b.notificationsEnabled
                      && r.value.config.liveTradingEnabled == b.liveTradingEnabled
                      && r.value.config.onlyTriggerOnce == b.onlyTriggerOnce
  {
    MissingRequired(b);
    if b.strategy.None? then Err(StrategyField)
    else if b.tsAddr.None? then Err(TsAddrField)
    else if b.source.None? then Err(SourceField)
    else if b.dbAddr.None? then Err(DbAddrField)
    else
      Ok(Finder.FinderInit(
        Finder.FinderConfig(
          tsAddr := b.tsAddr.value,
          dbAddr := b.dbAddr.value,
          source := b.source.value,
          notificationsEnabled := b.notificationsEnabled,
          liveTradingEnabled := b.liveTradingEnabled,
          onlyTriggerOnce := b.onlyTriggerOnce),
        b.strategy.value,
        b.spawnedTrades))
  }

  /** build followed by SetupFinder::new: a finder that has not triggered and
      holds the builder's strategy, flags and spawned trades. */
  method BuildFinder(b: SetupFinderBuilder) returns (r: Result<Finder.SetupFinder, FinderField>)
    ensures r.Err? <==> Build(b).Err?
    ensures r.Err? ==> r.error == Build(b).error
    ensures r.Ok? ==> fresh(r.value) && r.value.config == Build(b).value.config
                      && r.value.strategy == Build(b).value.strategy
                      && !r.value.triggered && r.value.spawnedTradeAddrs == b.spawnedTrades
  {
    match Build(b)
    case Err(e) =>
      r := Err(e);
    case Ok(init) =>
      var finder := new Finder.SetupFinder(init);
      r := Ok(finder);
  }
}
