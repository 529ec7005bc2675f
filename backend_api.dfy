/** `src/api/backendApi.ts`: the backend of the newer dashboard. The mock keeps
    a module-level pending queue seeded from the cached market state and serves
    signals and events derived from it; the real backend is reached over HTTP,
    of which only the building of the events path is modelled. The cached
    market state is a parameter, and so is the clock. */
module BackendApi {
  import opened Seqs
  import opened Text
  import opened Domain
  import LegacyTypes

  // ---------------------------------------------------------------------------
  // Orders

  /** The `i`-th order `initOrders` derives from signal `s`. */
  function OrderFor(s: LegacyTypes.AssetSignal, i: nat): OrderPreview
  {
    OrderPreview(
      "ord-" + NatToString(i),
      "sig-" + s.ticker,
      Instrument(s.ticker, s.name, Equity, CurrencyFor(s.ticker), Some(s.sector)),
      if s.signal == LegacyTypes.Buy then Buy else Sell,
      10.0,
      Limit,
      Some(s.price),
      Day,
      s.price * 10.0,
      2.0,
      Some("System Generated"),
      Pending)
  }

  /** `initOrders`: the first three signals, as orders. */
  function InitOrders(signals: seq<LegacyTypes.AssetSignal>): (r: seq<OrderPreview>)
    ensures |r| == if |signals| < 3 then |signals| else 3
  {
    var firsts := Take(signals, 3);
    seq(|firsts|, i requires 0 <= i < |firsts| => OrderFor(firsts[i], i))
  }

  /** Order `i` is "ord-i" for the `i`-th signal: BUY exactly when that signal
      is BUY (a HOLD signal becomes a SELL order), ten units limited at the
      signal's price, costing ten times that price; the ids are distinct. */
  lemma InitOrdersSpec(signals: seq<LegacyTypes.AssetSignal>)
    ensures forall i :: 0 <= i < |InitOrders(signals)| ==>
      var o := InitOrders(signals)[i];
      o.id == "ord-" + NatToString(i) && o.instrument.id == signals[i].ticker &&
      (o.side == Buy <==> signals[i].signal == LegacyTypes.Buy) &&
      o.quantity == 10.0 && o.limitPrice == Some(signals[i].price) &&
      o.estimatedCost == 10.0 * signals[i].price && o.status == Pending
    ensures forall i, j :: 0 <= i < j < |InitOrders(signals)| ==> InitOrders(signals)[i].id != InitOrders(signals)[j].id
  {
    var r := InitOrders(signals);
    forall i, j | 0 <= i < j < |r| ensures r[i].id != r[j].id {
      if r[i].id == r[j].id {
        assert r[i].id[4..] == NatToString(i);
        assert r[j].id[4..] == NatToString(j);
        NatToStringInjective(i, j);
      }
    }
  }

  /** The mock's module-level pending queue. */
  class MockOrderDesk {
    var pending: seq<OrderPreview>

    /** Module load: `initOrders()` over the cached market state. */
    constructor(signals: seq<LegacyTypes.AssetSignal>)
      ensures pending == InitOrders(signals)
    {
      pending := InitOrders(signals);
    }

    /** `getOrderPreviews`: `[...pendingOrders]`, a value the queue no longer
        reaches. */
    method GetOrderPreviews() returns (r: seq<OrderPreview>)
      ensures r == pending
    {
      r := pending;
    }

    /** `approveOrder`: every order with `id` leaves the queue. */
    method ApproveOrder(id: string)
      modifies this
      ensures pending == WithoutOrder(old(pending), id)
    {
      pending := WithoutOrder(pending, id);
    }

    /** `rejectOrder`: the same removal as approving. */
    method RejectOrder(id: string)
      modifies this
      ensures pending == WithoutOrder(old(pending), id)
    {
      pending := WithoutOrder(pending, id);
    }
  }

  // ---------------------------------------------------------------------------
  // Signals

  /** The mock `getSignals` for one cached signal, at time `now`. */
  function ToSignal(s: LegacyTypes.AssetSignal, now: int): Signal
  {
    Signal(
      "sig-" + s.ticker,
      Instrument(s.ticker, s.name, Equity, CurrencyFor(s.ticker), Some(s.sector)),
      now,
      DirectionOf(s.signal),
      s.mlConfidence,
      s.price,
      s.price * 0.95,
      Some(s.price * 1.05),
      "Trend_V1",
      5,
      Some(s.trendScore),
      Some(s.rsi),
      Some(s.volume),
      None,
      Some(s.compositeScore),
      Some(Neutral))
  }

  /** The mock `getSignals`: the cached signals, mapped one by one. */
  function GetSignals(signals: seq<LegacyTypes.AssetSignal>, now: int): (r: seq<Signal>)
    ensures |r| == |signals|
    ensures forall i :: 0 <= i < |r| ==> r[i] == ToSignal(signals[i], now)
  {
    seq(|signals|, i requires 0 <= i < |signals| => ToSignal(signals[i], now))
  }

  /** The stop sits 5% and the target 5% away from the entry, bracketing it for
      a positive price, with the same direction mapping as the first backend. */
  lemma ToSignalSpec(s: LegacyTypes.AssetSignal, now: int)
    ensures var g := ToSignal(s, now);
      g.stopLoss == 0.95 * g.entryPrice && g.takeProfit == Some(1.05 * g.entryPrice) &&
      (s.price > 0.0 ==> g.stopLoss < g.entryPrice < g.takeProfit.value) &&
      g.takeProfit.value - g.entryPrice == g.entryPrice - g.stopLoss
    ensures ToSignal(s, now).direction == Long <==> s.signal == LegacyTypes.Buy
    ensures ToSignal(s, now).direction == Short <==> s.signal == LegacyTypes.Sell
  {
  }

  // ---------------------------------------------------------------------------
  // Events

  /** The event the mock derives from the `i`-th news item. */
  function NewsEvent(n: LegacyTypes.NewsItem, i: nat): Event
  {
    Event(
      "news-" + NatToString(i),
      CompanyNews,
      n.timestampMillis,
      n.timestampMillis,
      n.source,
      if n.relatedTicker.Some? && n.relatedTicker.value != "" then [n.relatedTicker.value] else [],
      [], [], [], [],
      n.title,
      n.summary,
      Some(EventSentiment(0.5, 0.8)),
      Some(EventMetadata(Some(n.title), Some(n.url), None)))
  }

  /** The one fixed congress trade, stamped at `now`. */
  function CongressEvent(now: int): Event
  {
    Event("cong-1", CongressTrade, now, now, "Senate", ["NVDA"], ["Technology"], ["US"], [], ["Nancy Pelosi"],
          "Pelosi Buys NVDA", "Disclosed purchase of Call Options.",
          None, Some(EventMetadata(Some("Pelosi buys NVDA Calls"), None, None)))
  }

  /** `allEvents`: one news event per news item, then the congress trade. */
  function AllEvents(news: seq<LegacyTypes.NewsItem>, now: int): (r: seq<Event>)
    ensures |r| == |news| + 1
  {
    seq(|news|, i requires 0 <= i < |news| => NewsEvent(news[i], i)) + [CongressEvent(now)]
  }

  /** Every news item becomes a COMPANY_NEWS event "news-i" whose tickers are
      its related ticker, or none when that is missing or empty; the last event
      is the single congress trade; and all ids are distinct. */
  lemma AllEventsSpec(news: seq<LegacyTypes.NewsItem>, now: int)
    ensures var r := AllEvents(news, now);
      r[|news|] == CongressEvent(now) &&
      forall i :: 0 <= i < |news| ==>
        r[i].id == "news-" + NatToString(i) && r[i].eventType == CompanyNews &&
        (r[i].tickers == [] <==> news[i].relatedTicker.None? || news[i].relatedTicker == Some(""))
    ensures Count(AllEvents(news, now), (e: Event) => e.eventType == CongressTrade) == 1
    ensures var r := AllEvents(news, now); forall i, j :: 0 <= i < j < |r| ==> r[i].id != r[j].id
  {
    var r := AllEvents(news, now);
    var newsPart := r[..|news|];
    assert r == newsPart + [CongressEvent(now)];
    CountNone(newsPart, (e: Event) => e.eventType == CongressTrade);
    CountAppend(newsPart, [CongressEvent(now)], (e: Event) => e.eventType == CongressTrade);
    forall i, j | 0 <= i < j < |r| ensures r[i].id != r[j].id {
      if j == |news| {
        assert r[i].id[0] == 'n';
      } else if r[i].id == r[j].id {
        assert r[i].id[5..] == NatToString(i);
        assert r[j].id[5..] == NatToString(j);
        NatToStringInjective(i, j);
      }
    }
  }

  /** Whether the mock filters for the requested type: only for a type that is
      present, non-empty and not "ALL". */
  predicate FiltersBy(eventType: Option<string>)
  {
    eventType.Some? && eventType.value != "" && eventType.value != "ALL"
  }

  /** The mock `getEvents(params)`. */
  function GetEvents(news: seq<LegacyTypes.NewsItem>, now: int, eventType: Option<string>): seq<Event>
  {
    if FiltersBy(eventType) then
      Filter(AllEvents(news, now), (e: Event) => EventTypeName(e.eventType) == eventType.value)
    else AllEvents(news, now)
  }

  /** With the type absent, empty or "ALL" every event comes back; otherwise
      exactly the events of that type, in their order. */
  lemma GetEventsSpec(news: seq<LegacyTypes.NewsItem>, now: int, eventType: Option<string>)
    ensures !FiltersBy(eventType) ==> GetEvents(news, now, eventType) == AllEvents(news, now)
    ensures FiltersBy(eventType) ==> forall e ::
      e in GetEvents(news, now, eventType) <==> e in AllEvents(news, now) && EventTypeName(e.eventType) == eventType.value
    ensures IsSubsequence(GetEvents(news, now, eventType), AllEvents(news, now))
  {
    var all := AllEvents(news, now);
    if FiltersBy(eventType) {
      var p := (e: Event) => EventTypeName(e.eventType) == eventType.value;
      forall e {
        FilterMembership(all, p, e);
      }
      FilterIsSubsequence(all, p);
    } else {
      FilterAll(all, (e: Event) => true);
      FilterIsSubsequence(all, (e: Event) => true);
    }
  }

  /** Asking for congress trades yields exactly the fixed congress event. */
  lemma CongressOnly(news: seq<LegacyTypes.NewsItem>, now: int)
    ensures GetEvents(news, now, Some("CONGRESS_TRADE")) == [CongressEvent(now)]
  {
    var all := AllEvents(news, now);
    var p := (e: Event) => EventTypeName(e.eventType) == "CONGRESS_TRADE";
    var newsPart := all[..|news|];
    assert all == newsPart + [CongressEvent(now)];
    forall i | 0 <= i < |newsPart| ensures !p(newsPart[i]) {
      EventTypeNameInjective(CompanyNews, CongressTrade);
    }
    FilterNone(newsPart, p);
    FilterAppend(newsPart, [CongressEvent(now)], p);
    assert [CongressEvent(now)][1..] == [];
  }

  // ---------------------------------------------------------------------------
  // Events path of the HTTP backend

  /** The characters `encodeURIComponent` leaves as they are. */
  predicate Unreserved(c: char)
  {
    ('A' <= c <= 'Z') || ('a' <= c <= 'z') || ('0' <= c <= '9') ||
    c == '-' || c == '_' || c == '.' || c == '!' || c == '~' || c == '*' || c == '\'' || c == '(' || c == ')'
  }

  function HexDigit(d: nat): (c: char)
    requires d < 16
    ensures Unreserved(c)
  {
    "0123456789ABCDEF"[d]
  }

  /** One byte as `%XY`, upper-case hexadecimal. */
  function PercentByte(b: nat): (r: string)
    requires b < 256
    ensures |r| == 3 && r[0] == '%' && Unreserved(r[1]) && Unreserved(r[2])
  {
    ['%', HexDigit(b / 16), HexDigit(b % 16)]
  }

  /** The UTF-8 bytes of a Unicode scalar value. */
  function Utf8(n: nat): (bs: seq<nat>)
    requires n < 0x11_0000
    ensures 1 <= |bs| <= 4
    ensures forall i :: 0 <= i < |bs| ==> bs[i] < 256
  {
    if n < 0x80 then [n]
    else if n < 0x800 then [0xC0 + n / 64, 0x80 + n % 64]
    else if n < 0x1_0000 then [0xE0 + n / 4096, 0x80 + (n / 64) % 64, 0x80 + n % 64]
    else [0xF0 + n / 262144, 0x80 + (n / 4096) % 64, 0x80 + (n / 64) % 64, 0x80 + n % 64]
  }

  function PercentBytes(bs: seq<nat>): (r: string)
    requires forall i :: 0 <= i < |bs| ==> bs[i] < 256
    ensures |r| == 3 * |bs|
    ensures forall i :: 0 <= i < |r| ==> Unreserved(r[i]) || r[i] == '%'
  {
    if bs == [] then [] else PercentByte(bs[0]) + PercentBytes(bs[1..])
  }

  function EncodeChar(c: char): (r: string)
    ensures forall i :: 0 <= i < |r| ==> Unreserved(r[i]) || r[i] == '%'
  {
    if Unreserved(c) then [c] else PercentBytes(Utf8(c as nat))
  }

  /** `encodeURIComponent(s)`. Every output character is unreserved or the
      '%' of an escape, so the result cannot end or split a query. */
  function EncodeURIComponent(s: string): (r: string)
    ensures forall i :: 0 <= i < |r| ==> Unreserved(r[i]) || r[i] == '%'
    ensures |s| <= |r|
  {
    if s == [] then [] else EncodeChar(s[0]) + EncodeURIComponent(s[1..])
  }

  function HexValue(c: char): nat
  {
    if '0' <= c <= '9' then c as nat - '0' as nat
    else if 'A' <= c <= 'F' then c as nat - 'A' as nat + 10
    else 0
  }

  /** `decodeURIComponent` for text whose escapes are single bytes, which is
      what encoding ASCII text produces. */
  function DecodeAscii(s: string): string
  {
    if s == [] then []
    else if s[0] == '%' && |s| >= 3 && HexValue(s[1]) * 16 + HexValue(s[2]) < 128 then
      [(HexValue(s[1]) * 16 + HexValue(s[2])) as char] + DecodeAscii(s[3..])
    else [s[0]] + DecodeAscii(s[1..])
  }

  lemma HexValueOfDigit(d: nat)
    requires d < 16
    ensures HexValue(HexDigit(d)) == d
  {
    var digits := "0123456789ABCDEF";
    assert digits[d] as nat == if d < 10 then '0' as nat + d else 'A' as nat + d - 10;
  }

  /** An escaped ASCII character decodes back to itself. */
  lemma DecodeEscape(c: char, rest: string)
    requires c as int < 128 && !Unreserved(c)
    ensures DecodeAscii(EncodeChar(c) + rest) == [c] + DecodeAscii(rest)
  {
    var n := c as nat;
    var e := EncodeChar(c);
    assert Utf8(n) == [n];
    assert e == PercentByte(n) + PercentBytes([]);
    HexValueOfDigit(n / 16);
    HexValueOfDigit(n % 16);
    assert (e + rest)[3..] == rest;
    assert (e + rest)[0] == '%';
  }

  /** Encoding ASCII text loses nothing: decoding gives it back. */
  lemma {:induction false} EncodeDecodeAscii(s: string)
    requires forall i :: 0 <= i < |s| ==> s[i] as int < 128
    ensures DecodeAscii(EncodeURIComponent(s)) == s
  {
    if s != [] {
      var c := s[0];
      EncodeDecodeAscii(s[1..]);
      var rest := EncodeURIComponent(s[1..]);
      assert EncodeURIComponent(s) == EncodeChar(c) + rest;
      if Unreserved(c) {
        assert ([c] + rest)[1..] == rest;
        assert c != '%';
      } else {
        DecodeEscape(c, rest);
      }
      assert s == [c] + s[1..];
    }
  }

  /** Unreserved text is encoded as itself. */
  lemma {:induction false} EncodeUnreserved(s: string)
    requires forall i :: 0 <= i < |s| ==> Unreserved(s[i])
    ensures EncodeURIComponent(s) == s
  {
    if s != [] {
      EncodeUnreserved(s[1..]);
    }
  }

  /** The HTTP backend's `getEvents` path. */
  function EventsPath(eventType: Option<string>): string
  {
    "/events" + (if eventType.Some? && eventType.value != "" then "?type=" + EncodeURIComponent(eventType.value) else "")
  }

  /** The path is "/events" with a query exactly when a non-empty type is
      given, and then it holds exactly one '?', whatever the type contains. */
  lemma EventsPathSpec(eventType: Option<string>)
    ensures IsPrefix("/events", EventsPath(eventType))
    ensures eventType.None? || eventType == Some("") ==> EventsPath(eventType) == "/events"
    ensures eventType.Some? && eventType.value != "" ==>
      EventsPath(eventType) == "/events?type=" + EncodeURIComponent(eventType.value) &&
      forall i :: 7 < i < |EventsPath(eventType)| ==> EventsPath(eventType)[i] != '?'
  {
    var p := EventsPath(eventType);
    assert p[..7] == "/events";
    if eventType.Some? && eventType.value != "" {
      var enc := EncodeURIComponent(eventType.value);
      assert p == "/events?type=" + enc;
      forall i | 7 < i < |p| ensures p[i] != '?' {
        if i >= 13 {
          assert p[i] == enc[i - 13];
        }
      }
    }
  }
}
