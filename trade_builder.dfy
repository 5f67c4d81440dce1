// TradeBuilder: a record of optional fields filled by by-value setters; build
// checks the required fields in a fixed order and copies them into a Trade.

module TradeBuilders {
  import opened Domain
  import Strategies
  import Trades

  datatype TradeBuilder = TradeBuilder(
    id: Uuid,
    setup: Option<Setup>,
    quantity: Option<F64>,
    dollarValue: Option<F64>,
    source: Option<DataSource>,
    notificationsEnabled: bool,
    tradingEnabled: bool,
    resolutionStrategy: Option<ResolutionStrategy>,
    orientation: Option<Orientation>,
    timeseriesAddr: Option<TsAddr>,
    tradingStrategy: Option<Strategies.Strategy>,
    dbAddr: Option<DbAddr>)

  /** The fields build insists on, in the order it checks them. */
  datatype TradeField =
    | SetupField | QuantityField | DollarValueField | SourceField
    | ResolutionStrategyField | TimeSeriesField | DbAddrField | TradingStrategyField

  const RequiredOrder: seq<TradeField> :=
    [SetupField] + ([QuantityField] + ([DollarValueField] + ([SourceField]
    + ([ResolutionStrategyField] + ([TimeSeriesField] + ([DbAddrField] + [TradingStrategyField]))))))

  predicate IsSet(b: TradeBuilder, f: TradeField) {
    match f
    case SetupField => b.setup.Some?
    case QuantityField => b.quantity.Some?
    case DollarValueField => b.dollarValue.Some?
    case SourceField => b.source.Some?
    case ResolutionStrategyField => b.resolutionStrategy.Some?
    case TimeSeriesField => b.timeseriesAddr.Some?
    case DbAddrField => b.dbAddr.Some?
    case TradingStrategyField => b.tradingStrategy.Some?
  }

  function IfMissing(b: TradeBuilder, f: TradeField): seq<TradeField> {
    if IsSet(b, f) then [] else [f]
  }

  /** The required fields b lacks, in checking order. */
  function Missing(b: TradeBuilder, fields: seq<TradeField>): seq<TradeField> {
    if fields == [] then [] else IfMissing(b, fields[0]) + Missing(b, fields[1..])
  }

  /** Missing peels off one field of the checking order. */
  lemma MissingCons(b: TradeBuilder, f: TradeField, rest: seq<TradeField>)
    ensures Missing(b, [f] + rest) == IfMissing(b, f) + Missing(b, rest)
  {
    assert ([f] + rest)[1..] == rest;
  }

  lemma MissingRequired(b: TradeBuilder)
    ensures Missing(b, RequiredOrder)
         == IfMissing(b, SetupField) + (IfMissing(b, QuantityField) + (IfMissing(b, DollarValueField)
            + (IfMissing(b, SourceField) + (IfMissing(b, ResolutionStrategyField)
            + (IfMissing(b, TimeSeriesField) + (IfMissing(b, DbAddrField) + IfMissing(b, TradingStrategyField)))))))
  {
    var s7: seq<TradeField> := [TradingStrategyField];
    MissingCons(b, TradingStrategyField, []);
    assert [TradingStrategyField] + [] == s7;
    var s6 := [DbAddrField] + s7;
    MissingCons(b, DbAddrField, s7);
    var s5 := [TimeSeriesField] + s6;
    MissingCons(b, TimeSeriesField, s6);
    var s4 := [ResolutionStrategyField] + s5;
    MissingCons(b, ResolutionStrategyField, s5);
    var s3 := [SourceField] + s4;
    MissingCons(b, SourceField, s4);
    var s2 := [DollarValueField] + s3;
    MissingCons(b, DollarValueField, s3);
    var s1 := [QuantityField] + s2;
    MissingCons(b, QuantityField, s2);
    var s0 := [SetupField] + s1;
    MissingCons(b, SetupField, s1);
    assert s0 == RequiredOrder;
  }


  /** TradeBuilder::new(); the fresh UUID is an input. */
  function New(id: Uuid): (b: TradeBuilder)
    ensures b.id == id && !b.notificationsEnabled && !b.tradingEnabled
    ensures b.setup.None? && b.quantity.None? && b.dollarValue.None? && b.source.None?
    ensures b.resolutionStrategy.None? && b.orientation.None? && b.timeseriesAddr.None?
    ensures b.tradingStrategy.None? && b.dbAddr.None?
    ensures Missing(b, RequiredOrder) == RequiredOrder
  {
    MissingRequired(TradeBuilder(id, None, None, None, None, false, false, None, None, None, None, None));
    TradeBuilder(id, None, None, None, None, false, false, None, None, None, None, None)
  }

  // Each setter replaces its own field and leaves every other one alone.

  function WithQuantity(b: TradeBuilder, q: F64): (r: TradeBuilder)
    ensures r.quantity == Some(q) && r.(quantity := b.quantity) == b
  { b.(quantity := Some(q)) }

  function WithDollarValue(b: TradeBuilder, v: F64): (r: TradeBuilder)
    ensures r.dollarValue == Some(v) && r.(dollarValue := b.dollarValue) == b
  { b.(dollarValue := Some(v)) }

  function WithSource(b: TradeBuilder, s: DataSource): (r: TradeBuilder)
    ensures r.source == Some(s) && r.(source := b.source) == b
  { b.(source := Some(s)) }

  function WithNotificationsEnabled(b: TradeBuilder, enabled: bool): (r: TradeBuilder)
    ensures r.notificationsEnabled == enabled && r.(notificationsEnabled := b.notificationsEnabled) == b
  { b.(notificationsEnabled := enabled) }

  function WithTradingEnabled(b: TradeBuilder, enabled: bool): (r: TradeBuilder)
    ensures r.tradingEnabled == enabled && r.(tradingEnabled := b.tradingEnabled) == b
  { b.(tradingEnabled := enabled) }

  function WithResolutionStrategy(b: TradeBuilder, rs: ResolutionStrategy): (r: TradeBuilder)
    ensures r.resolutionStrategy == Some(rs) && r.(resolutionStrategy := b.resolutionStrategy) == b
  { b.(resolutionStrategy := Some(rs)) }

  function WithOrientation(b: TradeBuilder, o: Orientation): (r: TradeBuilder)
    ensures r.orientation == Some(o) && r.(orientation := b.orientation) == b
  { b.(orientation := Some(o)) }

  function WithTimeseriesAddr(b: TradeBuilder, ts: TsAddr): (r: TradeBuilder)
    ensures r.timeseriesAddr == Some(ts) && r.(timeseriesAddr := b.timeseriesAddr) == b
  { b.(timeseriesAddr := Some(ts)) }

  function WithSetup(b: TradeBuilder, s: Setup): (r: TradeBuilder)
    ensures r.setup == Some(s) && r.(setup := b.setup) == b
  { b.(setup := Some(s)) }

  function WithDbAddr(b: TradeBuilder, db: DbAddr): (r: TradeBuilder)
    ensures r.dbAddr == Some(db) && r.(dbAddr := b.dbAddr) == b
  { b.(dbAddr := Some(db)) }

  function WithId(b: TradeBuilder, id: Uuid): (r: TradeBuilder)
    ensures r.id == id && r.(id := b.id) == b
  { b.(id := id) }

  function WithTradingStrategy(b: TradeBuilder, s: Strategies.Strategy): (r: TradeBuilder)
    ensures r.tradingStrategy == Some(s) && r.(tradingStrategy := b.tradingStrategy) == b
  { b.(tradingStrategy := Some(s)) }

  /** build(&self): the first missing required field is the error; otherwise
      every field of the trade is the builder's (orientation is not used). */
  function Build(b: TradeBuilder): (r: Result<Trades.Trade, TradeField>)
    ensures r.Err? <==> Missing(b, RequiredOrder) != []
    ensures r.Err? ==> r.error == Missing(b, RequiredOrder)[0]
    ensures r.Ok? ==> r.value.id == b.id && Some(r.value.setup) == b.setup
                      && Some(r.value.quantity) == b.quantity && Some(r.value.dollarValue) == b.dollarValue
                      && Some(r.value.source) == b.source
                      && r.value.notificationsEnabled == b.notificationsEnabled
                      && r.value.tradingEnabled == b.tradingEnabled
                      && Some(r.value.resolutionStrategy) == b.resolutionStrategy
                      && Some(r.value.timeseries) == b.timeseriesAddr
                      && Some(r.value.dbAddr) == b.dbAddr
                      && Some(r.value.tradingStrategy) == b.tradingStrategy
  {
    MissingRequired(b);
    if b.setup.None? then Err(SetupField)
    else if b.quantity.None? then Err(QuantityField)
    else if b.dollarValue.None? then Err(DollarValueField)
    else if b.source.None? then Err(SourceField)
    else if b.resolutionStrategy.None? then Err(ResolutionStrategyField)
    else if b.timeseriesAddr.None? then Err(TimeSeriesField)
    else if b.dbAddr.None? then Err(DbAddrField)
    else if b.tradingStrategy.None? then Err(TradingStrategyField)
    else
      Ok(Trades.Trade(
        id := b.id,
        setup := b.setup.value,
        quantity := b.quantity.value,
        dollarValue := b.dollarValue.value,
        source := b.source.value,
        notificationsEnabled := b.notificationsEnabled,
        tradingEnabled := b.tradingEnabled,
        resolutionStrategy := b.resolutionStrategy.value,
        tradingStrategy := Strategies.CloneBox(b.tradingStrategy.value),
        timeseries := b.timeseriesAddr.value,
        dbAddr := b.dbAddr.value))
  }

  /** Orientation is neither required nor copied: setting it never changes
      what build returns. */
  lemma BuildIgnoresOrientation(b: TradeBuilder, o: Orientation)
    ensures Build(WithOrientation(b, o)) == Build(b)
  {
  }
}
