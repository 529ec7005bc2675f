/** The records of `types/domain.ts` and `src/types/domain.ts` that the two
    backends and the newer components read. The two files differ only in which
    fields are optional; here every field one of them leaves optional is an
    `Option`. ISO timestamps are milliseconds since the epoch. */
module Domain {
  import opened Seqs
  import opened Text
  import LegacyTypes

  datatype AssetClass = Equity | Etf | Future

  datatype Instrument = Instrument(
    id: string,
    name: string,
    assetClass: AssetClass,
    currency: string,
    sector: Option<string>)

  datatype Direction = Long | Short | Hold

  /** The direction both backends give a signal of the legacy kind. */
  function DirectionOf(k: LegacyTypes.SignalKind): (d: Direction)
  {
    if k == LegacyTypes.Buy then Long else if k == LegacyTypes.Sell then Short else Hold
  }

  /** BUY becomes LONG, SELL becomes SHORT, HOLD becomes HOLD, and no two kinds
      share a direction. */
  lemma DirectionOfSpec(k: LegacyTypes.SignalKind, k': LegacyTypes.SignalKind)
    ensures DirectionOf(k) == Long <==> k == LegacyTypes.Buy
    ensures DirectionOf(k) == Short <==> k == LegacyTypes.Sell
    ensures DirectionOf(k) == Hold <==> k == LegacyTypes.Hold
    ensures DirectionOf(k) == DirectionOf(k') ==> k == k'
  {
  }

  datatype MarketRegime = RiskOn | RiskOff | Neutral

  datatype Signal = Signal(
    id: string,
    instrument: Instrument,
    timestampMillis: int,
    direction: Direction,
    conviction: real,
    entryPrice: real,
    stopLoss: real,
    takeProfit: Option<real>,
    strategyId: string,
    horizonDays: int,
    trendScore: Option<real>,
    rsi: Option<real>,
    volume: Option<real>,
    newsImpact: Option<real>,
    compositeScore: Option<real>,
    regime: Option<MarketRegime>)

  datatype Side = Buy | Sell
  datatype OrderType = Market | Limit
  datatype Validity = Day | Gtc
  datatype OrderStatus = Pending | Approved | Rejected

  datatype OrderPreview = OrderPreview(
    id: string,
    signalId: string,
    instrument: Instrument,
    side: Side,
    quantity: real,
    orderType: OrderType,
    limitPrice: Option<real>,
    validity: Validity,
    estimatedCost: real,
    estimatedFees: real,
    comment: Option<string>,
    status: OrderStatus)

  datatype EventType = CompanyNews | Macro | Political | Legislation | Shipping | CongressTrade

  /** The string literal each event type is written as. */
  function EventTypeName(t: EventType): (r: string)
    ensures |r| > 0
  {
    match t
    case CompanyNews => "COMPANY_NEWS"
    case Macro => "MACRO"
    case Political => "POLITICAL"
    case Legislation => "LEGISLATION"
    case Shipping => "SHIPPING"
    case CongressTrade => "CONGRESS_TRADE"
  }

  /** Distinct event types are written differently, so a filter on the name is a
      filter on the type. */
  lemma EventTypeNameInjective(a: EventType, b: EventType)
    ensures EventTypeName(a) == EventTypeName(b) <==> a == b
  {
  }

  datatype EventSentiment = EventSentiment(polarity: real, confidence: real)

  datatype EventMetadata = EventMetadata(rawHeadline: Option<string>, url: Option<string>, author: Option<string>)

  datatype Event = Event(
    id: string,
    eventType: EventType,
    timestampSource: int,
    timestampEffective: int,
    source: string,
    tickers: seq<string>,
    sectors: seq<string>,
    countries: seq<string>,
    routes: seq<string>,
    politicians: seq<string>,
    title: string,
    summary: string,
    sentiment: Option<EventSentiment>,
    metadata: Option<EventMetadata>)

  datatype PortfolioPosition = PortfolioPosition(
    instrument: Instrument,
    quantity: real,
    avgPrice: real,
    marketPrice: real,
    unrealizedPnl: real,
    realizedPnl: real,
    weight: real)

  datatype Grade = Ok | Warning | Block

  datatype QaStatus = QaStatus(
    dataOk: bool,
    leakageRisk: Grade,
    modelDrift: Grade,
    currentMaxDrawdown: real,
    lastBacktestSharpe: real,
    lastBacktestMaxDrawdown: real,
    canTradeToday: bool)

  /** The currency both backends give an instrument: euros for a Xetra ticker. */
  function CurrencyFor(ticker: string): (r: string)
    ensures r == "EUR" <==> Contains(ticker, ".DE")
    ensures r == "EUR" || r == "USD"
  {
    if Contains(ticker, ".DE") then "EUR" else "USD"
  }

  /** `orders.filter(o => o.id !== id)`, the removal both backends perform. */
  function WithoutOrder(orders: seq<OrderPreview>, id: string): (r: seq<OrderPreview>)
  {
    Filter(orders, (o: OrderPreview) => o.id != id)
  }

  /** No order with `id` survives, every other order does, the survivors keep
      their order, an unknown id changes nothing, and removing twice is removing
      once. */
  lemma WithoutOrderSpec(orders: seq<OrderPreview>, id: string)
    ensures forall o :: o in WithoutOrder(orders, id) <==> o in orders && o.id != id
    ensures IsSubsequence(WithoutOrder(orders, id), orders)
    ensures (forall i :: 0 <= i < |orders| ==> orders[i].id != id) ==> WithoutOrder(orders, id) == orders
    ensures WithoutOrder(WithoutOrder(orders, id), id) == WithoutOrder(orders, id)
  {
    var p := (o: OrderPreview) => o.id != id;
    forall o {
      FilterMembership(orders, p, o);
    }
    FilterIsSubsequence(orders, p);
    if forall i :: 0 <= i < |orders| ==> orders[i].id != id {
      FilterAll(orders, p);
    }
    FilterIdempotent(orders, p);
  }
}
