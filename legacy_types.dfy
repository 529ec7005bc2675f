/** The records of `types.ts` that the modelled code reads. Every JavaScript
    `number` is a `real`; an optional field is a `Seqs.Option`. `AssetSignal`
    also carries `changePercent` and `compositeScore`, which the code reads and
    writes although the interface omits them. */
module LegacyTypes {
  import opened Seqs

  datatype SignalKind = Buy | Sell | Hold

  datatype AssetSignal = AssetSignal(
    ticker: string,
    name: string,
    sector: string,
    price: real,
    changePercent: real,
    trendScore: real,
    mlConfidence: real,
    volatility: real,
    signal: SignalKind,
    atr: real,
    volume: real,
    volumeAvg: real,
    rsi: real,
    macd: real,
    insiderActivity: real,
    newsSentimentImpact: real,
    logisticsRisk: real,
    compositeScore: real)

  datatype NewsSentiment = Positive | Negative | Neutral

  /** `NewsItem`, with the `url` field the market service adds. */
  datatype NewsItem = NewsItem(
    id: string,
    source: string,
    relatedTicker: Option<string>,
    author: Option<string>,
    title: string,
    summary: string,
    sentiment: NewsSentiment,
    impactScore: real,
    timestampMillis: int,
    url: string)
}
