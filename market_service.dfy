/** `services/marketService.ts`: the subscription set of the realtime service,
    the mapping of a Finnhub news payload, the initial market state and the
    synthetic backtest series with its drawdown pass. The WebSocket, `fetch`,
    the clock and `Math.random` are inputs. */
module MarketService {
  import opened Seqs
  import opened Text
  import opened LegacyTypes

  // ---------------------------------------------------------------------------
  // Subscriptions

  datatype SocketMessage = SubscribeMessage(symbol: string) | UnsubscribeMessage(symbol: string)

  /** The subscriber `Set` (kept in insertion order, as a JavaScript `Set` is),
      whether the socket is open, and the messages sent on it. */
  class RealtimeMarketService {
    var subscribers: seq<string>
    var socketOpen: bool
    var sent: seq<SocketMessage>

    ghost predicate Valid()
      reads this
    {
      Distinct(subscribers)
    }

    constructor()
      ensures Valid() && subscribers == [] && !socketOpen && sent == []
    {
      subscribers := [];
      socketOpen := false;
      sent := [];
    }

    /** `subscribe`: an empty ticker is ignored; otherwise the ticker joins the
        set (a repeat changes nothing) and a subscribe message goes out when the
        socket is open. */
    method Subscribe(ticker: string)
      requires Valid()
      modifies this
      ensures Valid() && socketOpen == old(socketOpen)
      ensures ticker == "" ==> subscribers == old(subscribers) && sent == old(sent)
      ensures ticker != "" ==> subscribers == (if ticker in old(subscribers) then old(subscribers) else old(subscribers) + [ticker])
      ensures ticker != "" ==> sent == old(sent) + (if socketOpen then [SubscribeMessage(ticker)] else [])
    {
      if ticker == "" {
        return;
      }
      if ticker !in subscribers {
        subscribers := subscribers + [ticker];
      }
      if socketOpen {
        sent := sent + [SubscribeMessage(ticker)];
      }
    }

    /** `unsubscribe`: exactly `ticker` leaves the set, the others keep their
        order. */
    method Unsubscribe(ticker: string)
      requires Valid()
      modifies this
      ensures Valid() && socketOpen == old(socketOpen)
      ensures subscribers == Filter(old(subscribers), (t: string) => t != ticker)
      ensures forall t :: t in subscribers <==> t in old(subscribers) && t != ticker
      ensures sent == old(sent) + (if socketOpen then [UnsubscribeMessage(ticker)] else [])
    {
      FilterIsSubsequence(subscribers, (t: string) => t != ticker);
      forall t {
        FilterMembership(subscribers, (t': string) => t' != ticker, t);
      }
      DistinctSubsequence(Filter(subscribers, (t: string) => t != ticker), subscribers);
      subscribers := Filter(subscribers, (t: string) => t != ticker);
      if socketOpen {
        sent := sent + [UnsubscribeMessage(ticker)];
      }
    }

    /** The socket's `onopen`: every ticker already in the set is subscribed
        again, in set order. */
    method OnOpen()
      requires Valid()
      modifies this
      ensures Valid() && socketOpen && subscribers == old(subscribers)
      ensures sent == old(sent) + SubscribeAll(subscribers)
    {
      socketOpen := true;
      var i := 0;
      while i < |subscribers|
        invariant 0 <= i <= |subscribers|
        invariant Valid() && socketOpen && subscribers == old(subscribers)
        invariant sent == old(sent) + SubscribeAll(subscribers[..i])
      {
        Subscribe(subscribers[i]);
        assert subscribers[..i + 1] == subscribers[..i] + [subscribers[i]];
        i := i + 1;
      }
      assert subscribers[..i] == subscribers;
    }

    /** `disconnect`. */
    method Disconnect()
      modifies this
      ensures !socketOpen && subscribers == old(subscribers) && sent == old(sent)
    {
      socketOpen := false;
    }
  }

  /** The subscribe messages for the non-empty tickers of `ts`, in order. */
  function SubscribeAll(ts: seq<string>): seq<SocketMessage>
  {
    if ts == [] then []
    else SubscribeAll(ts[..|ts| - 1]) + (if ts[|ts| - 1] == "" then [] else [SubscribeMessage(ts[|ts| - 1])])
  }

  /** Reopening the socket sends one subscribe message per subscriber: the set's
      tickers are never empty, because `subscribe` ignores the empty ticker. */
  lemma {:induction false} SubscribeAllLength(ts: seq<string>)
    requires forall i :: 0 <= i < |ts| ==> ts[i] != ""
    ensures |SubscribeAll(ts)| == |ts|
    ensures forall i :: 0 <= i < |ts| ==> SubscribeAll(ts)[i] == SubscribeMessage(ts[i])
  {
    if ts != [] {
      SubscribeAllLength(ts[..|ts| - 1]);
    }
  }

  // ---------------------------------------------------------------------------
  // News payload

  /** One item of the Finnhub news array; an absent `source` or `related` is "". */
  datatype FinnhubNews = FinnhubNews(
    id: nat,
    source: string,
    related: string,
    headline: string,
    summary: string,
    datetimeSeconds: int,
    url: string)

  const NewsLimit: nat := 10

  /** The first ticker of a comma-separated `related` list, "" when absent. */
  function FirstRelated(related: string): string
  {
    if related != "" then BeforeFirst(related, ',') else ""
  }

  /** One mapped news item. */
  function ToNewsItem(item: FinnhubNews): NewsItem
  {
    NewsItem(NatToString(item.id),
             if item.source != "" then item.source else "Finnhub",
             Some(FirstRelated(item.related)),
             None,
             item.headline,
             item.summary,
             NewsSentiment.Neutral,
             5.0,
             item.datetimeSeconds * 1000,
             item.url)
  }

  function MapNews(items: seq<FinnhubNews>): (r: seq<NewsItem>)
    ensures |r| == |items|
    ensures forall i :: 0 <= i < |items| ==> r[i] == ToNewsItem(items[i])
  {
    if items == [] then [] else [ToNewsItem(items[0])] + MapNews(items[1..])
  }

  /** `fetchLatestNews`: the first ten items mapped, or nothing when the request
      or its decoding failed (`None`). */
  function FetchLatestNews(payload: Option<seq<FinnhubNews>>): seq<NewsItem>
  {
    if payload.None? then [] else MapNews(Take(payload.value, NewsLimit))
  }

  /** At most ten items, in payload order; each is neutral with impact 5, keeps
      the headline, summary and url, takes the source or "Finnhub" when it is
      empty, and names the first related ticker: the longest comma-free prefix
      of the `related` list. A failed request yields nothing. */
  lemma FetchLatestNewsSpec(payload: Option<seq<FinnhubNews>>)
    ensures payload.None? ==> FetchLatestNews(payload) == []
    ensures payload.Some? ==> |FetchLatestNews(payload)| == if |payload.value| < NewsLimit then |payload.value| else NewsLimit
    ensures forall i :: 0 <= i < |FetchLatestNews(payload)| ==>
      var n := FetchLatestNews(payload)[i];
      var item := payload.value[i];
      n.title == item.headline && n.summary == item.summary && n.url == item.url &&
      n.sentiment == NewsSentiment.Neutral && n.impactScore == 5.0 &&
      n.source == (if item.source != "" then item.source else "Finnhub") &&
      n.timestampMillis == item.datetimeSeconds * 1000 &&
      n.relatedTicker.Some? && ',' !in n.relatedTicker.value && IsPrefix(n.relatedTicker.value, item.related) &&
      (|n.relatedTicker.value| < |item.related| ==> item.related[|n.relatedTicker.value|] == ',') &&
      ParseDigits(n.id) == item.id
  {
    if payload.Some? {
      var news := FetchLatestNews(payload);
      forall i | 0 <= i < |news|
        ensures ',' !in news[i].relatedTicker.value && IsPrefix(news[i].relatedTicker.value, payload.value[i].related)
        ensures |news[i].relatedTicker.value| < |payload.value[i].related| ==>
          payload.value[i].related[|news[i].relatedTicker.value|] == ','
        ensures ParseDigits(news[i].id) == payload.value[i].id
      {
        BeforeFirstSpec(payload.value[i].related, ',');
        NatToStringRoundTrip(payload.value[i].id);
      }
    }
  }

  /** Distinct Finnhub ids give distinct item ids. */
  lemma NewsIdsDistinct(a: FinnhubNews, b: FinnhubNews)
    requires a.id != b.id
    ensures ToNewsItem(a).id != ToNewsItem(b).id
  {
    if ToNewsItem(a).id == ToNewsItem(b).id {
      NatToStringInjective(a.id, b.id);
    }
  }

  // ---------------------------------------------------------------------------
  // Initial market state

  /** The fixed price table used for the first render. */
  const ApproxPrices: map<string, real> := map[
    "PLUG" := 1.76, "ACN" := 218.30, "DELL" := 106.32, "GOOGL" := 260.35,
    "ADBE" := 281.55, "U" := 33.71, "INTC" := 29.94, "PAH3.DE" := 35.87,
    "SRT.DE" := 225.10, "MU" := 179.62, "UAA" := 3.70, "VOW3.DE" := 94.82,
    "DRO.AX" := 0.95, "QCOM" := 141.70, "IOS" := 27.05, "SMCI" := 27.99,
    "QBTS" := 17.81, "EUZ.DE" := 15.39, "ALB" := 101.72, "META" := 516.10,
    "DBX" := 25.51, "AXON" := 453.00, "ARISTA" := 395.25, "NOC" := 490.60,
    "MSCI" := 46.82, "SPGI" := 426.20, "PLTR" := 134.52, "BAVA.CO" := 24.65,
    "VRNA" := 91.20, "NVDA" := 156.32, "BA" := 155.86, "TSLA" := 341.25,
    "XOM" := 101.54, "AMD" := 177.08, "XPEV" := 8.68, "TSM" := 237.50,
    "LMT" := 399.85, "RR.L" := 11.82, "BA.L" := 19.35, "ASML" := 835.10,
    "AVGO" := 295.00, "WTI" := 13.46, "MSTR" := 148.75, "HAG.DE" := 71.75,
    "QMCO" := 6.05, "ORCL" := 171.82, "SMHN.DE" := 31.78, "R3NK.DE" := 49.66,
    "TKA.DE" := 8.56, "RHM.DE" := 1500.50, "PBR" := 14.50]

  /** `APPROX_PRICES[ticker] || 100`. */
  function ApproxPrice(ticker: string): (p: real)
    ensures p != 0.0
    ensures p == 100.0 || (ticker in ApproxPrices && p == ApproxPrices[ticker])
    ensures ticker !in ApproxPrices ==> p == 100.0
    ensures ticker in ApproxPrices && ApproxPrices[ticker] != 0.0 ==> p == ApproxPrices[ticker]
  {
    if ticker in ApproxPrices && ApproxPrices[ticker] != 0.0 then ApproxPrices[ticker] else 100.0
  }

  /** A listed ticker gets its table price. */
  lemma ApproxPriceExample()
    ensures ApproxPrice("RHM.DE") == 1500.50
  {
    assert "RHM.DE" in ApproxPrices;
  }

  datatype Instrument = Instrument(ticker: string, name: string, sector: string)

  /** The `Math.random()` results that the modelled fields of one initial
      signal read, in the order the source draws them; draws for fields this
      record does not carry (such as `macdSignal`) are not listed. */
  datatype SignalDraws = SignalDraws(volume: real, rsi: real, change: real, trend: real, confidence: real,
                                     macd: real, insider: real, news: real, logistics: real)

  /** One initial signal: the table price or 100, HOLD, volatility 0.25,
      composite score 50, average volume 10% above volume, ATR 2% of price. */
  function InitialSignal(inst: Instrument, d: SignalDraws): (s: AssetSignal)
    ensures s.ticker == inst.ticker && s.price == ApproxPrice(inst.ticker)
    ensures s.signal == Hold && s.volatility == 0.25 && s.compositeScore == 50.0
    ensures s.volumeAvg == s.volume * 1.1 && s.atr == s.price * 0.02
    ensures 0.0 <= d.trend < 1.0 ==> 40.0 <= s.trendScore < 80.0 && s.trendScore == s.trendScore.Floor as real
    ensures 0.0 <= d.volume < 1.0 ==> 500000.0 <= s.volume < 2500000.0
  {
    var basePrice := ApproxPrice(inst.ticker);
    var vol := d.volume * 2000000.0 + 500000.0;
    AssetSignal(inst.ticker, inst.name, inst.sector, basePrice,
                (d.change - 0.5) * 2.0,
                40.0 + (d.trend * 40.0).Floor as real,
                0.4 + d.confidence * 0.5,
                0.25, Hold, basePrice * 0.02, vol, vol * 1.1,
                30.0 + d.rsi * 40.0,
                (d.macd - 0.5) * 5.0,
                ((d.insider - 0.5) * 10.0).Floor as real,
                ((d.news - 0.5) * 10.0).Floor as real,
                (d.logistics * 20.0).Floor as real,
                50.0)
  }

  /** The signals of `generateInitialMarketState`: one per watchlist entry. */
  function InitialSignals(watchlist: seq<Instrument>, draws: seq<SignalDraws>): (r: seq<AssetSignal>)
    requires |draws| == |watchlist|
    ensures |r| == |watchlist|
    ensures forall i :: 0 <= i < |r| ==> r[i] == InitialSignal(watchlist[i], draws[i])
  {
    if watchlist == [] then [] else [InitialSignal(watchlist[0], draws[0])] + InitialSignals(watchlist[1..], draws[1..])
  }

  // ---------------------------------------------------------------------------
  // Backtest series

  datatype Regime = RiskOn | RiskOff | Neutral

  datatype BacktestMetric = BacktestMetric(day: int, equity: real, benchmark: real, drawdown: real, regime: Regime)

  /** The `Math.random()` results one simulated day consumes: the switch
      threshold, the regime pick (read only on a switch) and the market move. */
  datatype DayDraws = DayDraws(threshold: real, pick: real, move: real)

  datatype SimState = SimState(equity: real, benchmark: real, regime: Regime, counter: nat)

  const TradingDaysPerYear: nat := 252

  /** The regime switch: once the day counter passes a random threshold in
      100..400, a new regime is drawn and the counter restarts. */
  function NextRegime(regime: Regime, counter: nat, d: DayDraws): (Regime, nat)
  {
    if counter as real > 100.0 + d.threshold * 300.0 then
      (if d.pick > 0.6 then RiskOn else if d.pick > 0.3 then Regime.Neutral else RiskOff, 0)
    else (regime, counter)
  }

  /** The day's market return: drift plus a uniform move, both larger and the
      drift negative in a risk-off regime. */
  function MarketReturn(regime: Regime, move: real): real
  {
    var mu := if regime == RiskOff then -0.0015 else 0.0004;
    var sigma := if regime == RiskOff then 0.025 else 0.01;
    mu + (move - 0.5) * 2.0 * sigma
  }

  /** The strategy's return: 1.2 times the market, or in a risk-off regime 30%
      exposure plus a hedge that gains half of any market loss and otherwise
      costs 0.1%. */
  function StrategyReturn(regime: Regime, marketReturn: real): real
  {
    if regime == RiskOff then
      marketReturn * 0.3 + (if marketReturn < 0.0 then Abs(marketReturn) * 0.5 else -0.001)
    else marketReturn * 1.2
  }

  function Abs(x: real): real
  {
    if x < 0.0 then -x else x
  }

  /** The hedge pays off: on a risk-off day when the market falls, the strategy
      gains; outside risk-off it moves 1.2 times the market. */
  lemma StrategyReturnSpec(regime: Regime, m: real)
    ensures regime == RiskOff && m < 0.0 ==> StrategyReturn(regime, m) == -0.2 * m > 0.0
    ensures regime == RiskOff && m >= 0.0 ==> StrategyReturn(regime, m) == 0.3 * m - 0.001
    ensures regime != RiskOff ==> StrategyReturn(regime, m) == 1.2 * m
  {
  }

  function Step(s: SimState, d: DayDraws): SimState
  {
    var (regime, counter) := NextRegime(s.regime, s.counter + 1, d);
    var m := MarketReturn(regime, d.move);
    SimState(s.equity * (1.0 + StrategyReturn(regime, m)), s.benchmark * (1.0 + m), regime, counter)
  }

  function StateAfter(initialCapital: real, draws: seq<DayDraws>): SimState
  {
    if draws == [] then SimState(initialCapital, initialCapital, RiskOn, 0)
    else Step(StateAfter(initialCapital, draws[..|draws| - 1]), draws[|draws| - 1])
  }

  /** The points of the simulation loop, drawdown still 0; day `startDay + i`
      for the i-th point. */
  function SimulatedPoints(initialCapital: real, startDay: int, draws: seq<DayDraws>): (ps: seq<BacktestMetric>)
    ensures |ps| == |draws|
    ensures forall i :: 0 <= i < |ps| ==> ps[i].day == startDay + i && ps[i].drawdown == 0.0
  {
    if draws == [] then []
    else
      var s := StateAfter(initialCapital, draws);
      SimulatedPoints(initialCapital, startDay, draws[..|draws| - 1]) +
        [BacktestMetric(startDay + |draws| - 1, s.equity, s.benchmark, 0.0, s.regime)]
  }

  function Max(a: real, b: real): real
  {
    if a >= b then a else b
  }

  /** The running peak after `ps`, starting at the initial capital. */
  function Peak(initialCapital: real, ps: seq<BacktestMetric>): (p: real)
    ensures p >= initialCapital
    ensures forall i :: 0 <= i < |ps| ==> ps[i].equity <= p
  {
    if ps == [] then initialCapital else Max(Peak(initialCapital, ps[..|ps| - 1]), ps[|ps| - 1].equity)
  }

  /** `(equity - peak) / peak`. A peak of 0, which only a capital of 0 or
      below allows, gives NaN or -Infinity in JavaScript; 0 stands for it. */
  function Drawdown(equity: real, peak: real): real
  {
    if peak == 0.0 then 0.0 else (equity - peak) / peak
  }

  /** The drawdown pass: every point's drawdown relative to the peak up to and
      including it. */
  function WithDrawdowns(initialCapital: real, ps: seq<BacktestMetric>): (r: seq<BacktestMetric>)
    ensures |r| == |ps|
  {
    if ps == [] then []
    else
      var p := Peak(initialCapital, ps);
      var last := ps[|ps| - 1];
      WithDrawdowns(initialCapital, ps[..|ps| - 1]) + [last.(drawdown := Drawdown(last.equity, p))]
  }

  /** The `map` with the running `peak`. */
  method RecalcDrawdown(initialCapital: real, data: seq<BacktestMetric>) returns (r: seq<BacktestMetric>)
    ensures r == WithDrawdowns(initialCapital, data)
  {
    var peak := initialCapital;
    r := [];
    var i := 0;
    while i < |data|
      invariant 0 <= i <= |data|
      invariant peak == Peak(initialCapital, data[..i])
      invariant r == WithDrawdowns(initialCapital, data[..i])
    {
      var d := data[i];
      if d.equity > peak {
        peak := d.equity;
      }
      assert data[..i + 1][..i] == data[..i];
      var drawdown := if peak == 0.0 then 0.0 else (d.equity - peak) / peak;
      r := r + [d.(drawdown := drawdown)];
      i := i + 1;
    }
    assert data[..i] == data;
  }

  /** One iteration of the simulation loop: the regime switch, the market
      return, then the strategy return. */
  method SimulateDay(s: SimState, d: DayDraws) returns (next: SimState)
    ensures next == Step(s, d)
  {
    var equity, benchmark, currentRegime, regimeCounter := s.equity, s.benchmark, s.regime, s.counter;
    regimeCounter := regimeCounter + 1;
    if regimeCounter as real > 100.0 + d.threshold * 300.0 {
      if d.pick > 0.6 {
        currentRegime := RiskOn;
      } else if d.pick > 0.3 {
        currentRegime := Regime.Neutral;
      } else {
        currentRegime := RiskOff;
      }
      regimeCounter := 0;
    }
    var marketMu := 0.0004;
    var marketSigma := 0.01;
    if currentRegime == RiskOff {
      marketMu := -0.0015;
      marketSigma := 0.025;
    }
    var marketReturn := marketMu + (d.move - 0.5) * 2.0 * marketSigma;
    benchmark := benchmark * (1.0 + marketReturn);
    var strategyReturn;
    if currentRegime == RiskOff {
      var hedgeGain := if marketReturn < 0.0 then Abs(marketReturn) * 0.5 else -0.001;
      strategyReturn := marketReturn * 0.3 + hedgeGain;
    } else {
      strategyReturn := marketReturn * 1.2;
    }
    equity := equity * (1.0 + strategyReturn);
    next := SimState(equity, benchmark, currentRegime, regimeCounter);
  }

  /** The simulation loop of `generateDeepBacktestData`: one point per draw,
      numbered from `startDay`, with the state carried from day to day. */
  method SimulateDays(initialCapital: real, startDay: int, draws: seq<DayDraws>)
    returns (data: seq<BacktestMetric>)
    ensures data == SimulatedPoints(initialCapital, startDay, draws)
  {
    data := [];
    var equity := initialCapital;
    var benchmark := initialCapital;
    var currentRegime := RiskOn;
    var regimeCounter: nat := 0;
    var i := 0;
    while i < |draws|
      invariant 0 <= i <= |draws|
      invariant SimState(equity, benchmark, currentRegime, regimeCounter) == StateAfter(initialCapital, draws[..i])
      invariant data == SimulatedPoints(initialCapital, startDay, draws[..i])
    {
      assert draws[..i + 1][..i] == draws[..i];
      var next := SimulateDay(SimState(equity, benchmark, currentRegime, regimeCounter), draws[i]);
      equity, benchmark, currentRegime, regimeCounter := next.equity, next.benchmark, next.regime, next.counter;
      data := data + [BacktestMetric(startDay + i, equity, benchmark, 0.0, currentRegime)];
      i := i + 1;
    }
    assert draws[..i] == draws;
  }

  /** `generateDeepBacktestData`: `years * 252` trading days ending before
      `today`, then the drawdown pass. */
  method GenerateDeepBacktestData(years: nat, initialCapital: real, today: int, draws: seq<DayDraws>)
    returns (r: seq<BacktestMetric>)
    requires |draws| == years * TradingDaysPerYear
    ensures r == WithDrawdowns(initialCapital, SimulatedPoints(initialCapital, today - |draws|, draws))
    ensures |r| == years * TradingDaysPerYear
  {
    var days := years * TradingDaysPerYear;
    var data := SimulateDays(initialCapital, today - days, draws);
    r := RecalcDrawdown(initialCapital, data);
  }

  /** Every drawdown is at most 0, and it is 0 exactly when the point's equity
      reaches the peak of the points before it; nothing but the drawdown
      changes. */
  lemma {:induction false} DrawdownSpec(initialCapital: real, ps: seq<BacktestMetric>, k: nat)
    requires initialCapital > 0.0
    requires k < |ps|
    ensures var r := WithDrawdowns(initialCapital, ps)[k];
      r.drawdown <= 0.0 &&
      (r.drawdown == 0.0 <==> ps[k].equity >= Peak(initialCapital, ps[..k])) &&
      r == ps[k].(drawdown := r.drawdown)
  {
    var n := |ps| - 1;
    if k < n {
      assert ps[..n][..k] == ps[..k];
      DrawdownSpec(initialCapital, ps[..n], k);
    } else {
      assert ps[..n] == ps[..k];
      var p := Peak(initialCapital, ps);
      DrawdownRatio(ps[k].equity, p);
    }
  }

  lemma DrawdownRatio(e: real, p: real)
    requires p > 0.0 && e <= p
    ensures Drawdown(e, p) <= 0.0
    ensures Drawdown(e, p) == 0.0 <==> e == p
  {
  }
}
