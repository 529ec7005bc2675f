/** `api/backendApi.ts`: the simulated backend of the first dashboard. It keeps
    module-level queues of pending and approved orders, seeds three demo orders,
    and serves fixed events and signals adapted from the market state. The
    clock (`Date.now()`) is a parameter; the 300 ms delay of `getOrderPreviews`
    is not modelled. */
module LegacyBackend {
  import opened Seqs
  import opened Text
  import opened Domain
  import LegacyTypes
  import MarketService

  // ---------------------------------------------------------------------------
  // Order seeding

  const SeedTickers: seq<string> := ["NVDA", "RHM.DE", "PLUG"]

  /** `INITIAL_WATCHLIST.find(w => w.ticker === t)`. */
  function FindEntry(watchlist: seq<MarketService.Instrument>, t: string): (r: Option<MarketService.Instrument>)
    ensures r.Some? ==> r.value in watchlist && r.value.ticker == t
    ensures r.None? <==> forall i :: 0 <= i < |watchlist| ==> watchlist[i].ticker != t
  {
    if watchlist == [] then None
    else if watchlist[0].ticker == t then Some(watchlist[0])
    else FindEntry(watchlist[1..], t)
  }

  /** `find(...)?.name || t`: the watchlist name, or the ticker when the entry is
      missing or its name is empty. */
  function SeedName(watchlist: seq<MarketService.Instrument>, t: string): string
  {
    match FindEntry(watchlist, t)
    case Some(w) => if w.name != "" then w.name else t
    case None => t
  }

  /** `find(...)?.sector`. */
  function SeedSector(watchlist: seq<MarketService.Instrument>, t: string): Option<string>
  {
    match FindEntry(watchlist, t)
    case Some(w) => Some(w.sector)
    case None => None
  }

  /** The `i`-th demo order, for ticker `t`. */
  function SeedOrder(now: int, watchlist: seq<MarketService.Instrument>, t: string, i: nat): OrderPreview
  {
    OrderPreview(
      "ord-" + IntToString(now) + "-" + NatToString(i),
      "sig-" + IntToString(now) + "-" + NatToString(i),
      Instrument(t, SeedName(watchlist, t), Equity, CurrencyFor(t), SeedSector(watchlist, t)),
      if i % 2 == 0 then Buy else Sell,
      (10 * (i + 1)) as real,
      Limit,
      Some(150.0),
      Day,
      (1500 * (i + 1)) as real,
      2.5,
      Some(if i == 0 then "Trend + Insider + Shipping" else "Technical Breakout"),
      Pending)
  }

  /** `initPendingOrders`: one order per seed ticker. */
  function SeededOrders(now: int, watchlist: seq<MarketService.Instrument>): seq<OrderPreview>
  {
    seq(|SeedTickers|, i requires 0 <= i < |SeedTickers| => SeedOrder(now, watchlist, SeedTickers[i], i))
  }

  /** Only the Xetra seed ticker is priced in euros. */
  lemma SeedCurrencies()
    ensures CurrencyFor("NVDA") == "USD" && CurrencyFor("RHM.DE") == "EUR" && CurrencyFor("PLUG") == "USD"
  {
    assert Contains("NVDA", ".DE") == false by {
      ContainsNeedsRoom("DA", ".DE");
      assert "NVDA"[..3][0] == 'N' && "VDA"[..3][0] == 'V';
      assert "NVDA"[1..] == "VDA" && "VDA"[1..] == "DA";
    }
    assert Contains("RHM.DE", ".DE") by {
      assert "RHM.DE"[1..][1..][1..] == ".DE";
      assert IsPrefix(".DE", "RHM.DE"[1..][1..][1..]);
    }
    assert Contains("PLUG", ".DE") == false by {
      ContainsNeedsRoom("UG", ".DE");
      assert "PLUG"[..3][0] == 'P' && "LUG"[..3][0] == 'L';
      assert "PLUG"[1..] == "LUG" && "LUG"[1..] == "UG";
    }
  }

  /** Every seed order ends in its index, so the seeded ids are distinct. */
  lemma SeedIdsDistinct(now: int, watchlist: seq<MarketService.Instrument>, t: string, t': string, i: nat, j: nat)
    requires i < j < 10
    ensures SeedOrder(now, watchlist, t, i).id != SeedOrder(now, watchlist, t', j).id
  {
    var a, b := SeedOrder(now, watchlist, t, i).id, SeedOrder(now, watchlist, t', j).id;
    assert a[|a| - 1] == DigitChar(i);
    assert b[|b| - 1] == DigitChar(j);
  }

  /** The `i`-th seed order: PENDING, a DAY limit order at 150, BUY exactly at
      an even index, quantity 10·(i+1) and cost 150 per unit. */
  lemma SeedOrderSpec(now: int, watchlist: seq<MarketService.Instrument>, t: string, i: nat)
    ensures var o := SeedOrder(now, watchlist, t, i);
      o.instrument.id == t && o.status == Pending && o.orderType == Limit && o.validity == Day &&
      o.limitPrice == Some(150.0) && (o.side == Buy <==> i % 2 == 0) &&
      o.quantity == 10.0 * (i + 1) as real && o.estimatedCost == 150.0 * o.quantity && o.estimatedFees == 2.5
  {
  }

  /** Three PENDING orders for NVDA, RHM.DE and PLUG: BUY at an even index and
      SELL at an odd one, quantity 10·(i+1), a limit of 150 at cost 1500·(i+1),
      euros exactly for the Xetra ticker, and pairwise distinct ids. */
  lemma SeededOrdersSpec(now: int, watchlist: seq<MarketService.Instrument>)
    ensures var r := SeededOrders(now, watchlist);
      |r| == 3 &&
      r[0].instrument.id == "NVDA" && r[1].instrument.id == "RHM.DE" && r[2].instrument.id == "PLUG" &&
      r[0].side == Buy && r[1].side == Sell && r[2].side == Buy &&
      r[0].quantity == 10.0 && r[1].quantity == 20.0 && r[2].quantity == 30.0 &&
      r[0].instrument.currency == "USD" && r[1].instrument.currency == "EUR" && r[2].instrument.currency == "USD"
    ensures forall o :: o in SeededOrders(now, watchlist) ==>
      o.status == Pending && o.orderType == Limit && o.limitPrice == Some(150.0) &&
      o.estimatedCost == 150.0 * o.quantity && o.estimatedFees == 2.5
    ensures var r := SeededOrders(now, watchlist);
      forall i, j :: 0 <= i < j < |r| ==> r[i].id != r[j].id
  {
    var o0, o1, o2 := SeedOrder(now, watchlist, "NVDA", 0), SeedOrder(now, watchlist, "RHM.DE", 1), SeedOrder(now, watchlist, "PLUG", 2);
    SeededOrdersAre(now, watchlist);
    SeedCurrencies();
    SeedOrderSpec(now, watchlist, "NVDA", 0);
    SeedOrderSpec(now, watchlist, "RHM.DE", 1);
    SeedOrderSpec(now, watchlist, "PLUG", 2);
    SeedIdsDistinct(now, watchlist, "NVDA", "RHM.DE", 0, 1);
    SeedIdsDistinct(now, watchlist, "NVDA", "PLUG", 0, 2);
    SeedIdsDistinct(now, watchlist, "RHM.DE", "PLUG", 1, 2);
    var r := [o0, o1, o2];
    forall i, j | 0 <= i < j < |r| ensures r[i].id != r[j].id {
      if i == 0 && j == 1 {
      } else if i == 0 {
      } else {
      }
    }
  }

  lemma SeededOrdersAre(now: int, watchlist: seq<MarketService.Instrument>)
    ensures SeededOrders(now, watchlist) ==
      [SeedOrder(now, watchlist, "NVDA", 0), SeedOrder(now, watchlist, "RHM.DE", 1), SeedOrder(now, watchlist, "PLUG", 2)]
  {
    var r := SeededOrders(now, watchlist);
    assert |r| == 3;
    assert r[0] == SeedOrder(now, watchlist, SeedTickers[0], 0);
    assert r[1] == SeedOrder(now, watchlist, SeedTickers[1], 1);
    assert r[2] == SeedOrder(now, watchlist, SeedTickers[2], 2);
  }

  // ---------------------------------------------------------------------------
  // Order queues

  /** `pendingOrders.findIndex(o => o.id === id)`. */
  function FindIndex(orders: seq<OrderPreview>, id: string): (r: int)
    ensures -1 <= r < |orders|
    ensures r == -1 <==> forall i :: 0 <= i < |orders| ==> orders[i].id != id
    ensures r >= 0 ==> orders[r].id == id && forall i :: 0 <= i < r ==> orders[i].id != id
  {
    if orders == [] then -1
    else if orders[0].id == id then 0
    else
      var k := FindIndex(orders[1..], id);
      if k == -1 then -1 else k + 1
  }

  /** The module-level queues of the simulated backend. */
  class OrderDesk {
    var pending: seq<OrderPreview>
    var approved: seq<OrderPreview>

    /** Module load: `initPendingOrders()` with nothing approved yet. */
    constructor(now: int, watchlist: seq<MarketService.Instrument>)
      ensures pending == SeededOrders(now, watchlist) && approved == []
    {
      pending := SeededOrders(now, watchlist);
      approved := [];
    }

    /** `initPendingOrders`: the pending queue is replaced by the seed orders. */
    method InitPendingOrders(now: int, watchlist: seq<MarketService.Instrument>)
      modifies this
      ensures pending == SeededOrders(now, watchlist) && approved == old(approved)
    {
      pending := SeededOrders(now, watchlist);
    }

    /** `getOrderPreviews`: a fresh array holding the pending orders. The
        sequence is a value, so later changes to the queue do not reach it. */
    method GetOrderPreviews() returns (r: seq<OrderPreview>)
      ensures r == pending
    {
      r := pending;
    }

    /** `approveOrder`: the first order with `id` is marked APPROVED and
        appended to the approved queue, and every order with `id` leaves the
        pending queue; an unknown id changes nothing. */
    method ApproveOrder(id: string)
      modifies this
      ensures var k := FindIndex(old(pending), id);
        if k == -1 then pending == old(pending) && approved == old(approved)
        else (pending == WithoutOrder(old(pending), id) &&
              approved == old(approved) + [old(pending)[k].(status := Approved)])
    {
      var k := FindIndex(pending, id);
      if k != -1 {
        var order := pending[k].(status := Approved);
        approved := approved + [order];
        pending := WithoutOrder(pending, id);
      }
    }

    /** `rejectOrder`: every order with `id` leaves the pending queue and none
        reaches the approved one. */
    method RejectOrder(id: string)
      modifies this
      ensures pending == (if FindIndex(old(pending), id) == -1 then old(pending) else WithoutOrder(old(pending), id))
      ensures approved == old(approved)
    {
      var k := FindIndex(pending, id);
      if k != -1 {
        pending := WithoutOrder(pending, id);
      }
    }
  }

  /** After approving a pending id, the order stands APPROVED at the end of the
      approved queue, no order with that id is still pending, and the other
      pending orders keep their order. */
  lemma ApproveSpec(pending: seq<OrderPreview>, approved: seq<OrderPreview>, id: string)
    requires FindIndex(pending, id) != -1
    ensures var k := FindIndex(pending, id);
      var approved' := approved + [pending[k].(status := Approved)];
      |approved'| == |approved| + 1 && approved'[|approved|].id == id && approved'[|approved|].status == Approved
    ensures forall o :: o in WithoutOrder(pending, id) <==> o in pending && o.id != id
    ensures IsSubsequence(WithoutOrder(pending, id), pending)
    ensures |WithoutOrder(pending, id)| < |pending|
  {
    WithoutOrderSpec(pending, id);
    var k := FindIndex(pending, id);
    FilterShorter(pending, (o: OrderPreview) => o.id != id, k);
  }

  /** Filtering out an element that is present shortens the sequence. */
  lemma {:induction false} FilterShorter<T>(xs: seq<T>, p: T -> bool, k: nat)
    requires k < |xs| && !p(xs[k])
    ensures |Filter(xs, p)| < |xs|
  {
    if k > 0 {
      FilterShorter(xs[1..], p, k - 1);
    }
  }

  /** Approving or rejecting an id that no pending order carries leaves both
      queues as they were. */
  lemma UnknownIdChangesNothing(pending: seq<OrderPreview>, id: string)
    requires forall i :: 0 <= i < |pending| ==> pending[i].id != id
    ensures FindIndex(pending, id) == -1
    ensures WithoutOrder(pending, id) == pending
  {
    WithoutOrderSpec(pending, id);
  }

  // ---------------------------------------------------------------------------
  // Signals

  /** `getSignals` for one signal of the market state, at time `now`. */
  function ToSignal(s: LegacyTypes.AssetSignal, now: int): Signal
  {
    Signal(
      "sig-" + s.ticker,
      Instrument(s.ticker, s.name, Equity, CurrencyFor(s.ticker), Some(s.sector)),
      now,
      DirectionOf(s.signal),
      s.mlConfidence,
      s.price,
      s.price * 0.95,
      Some(s.price * 1.1),
      "Trend_Follow_v32",
      5,
      Some(s.trendScore),
      Some(s.rsi),
      Some(s.volume),
      Some(s.newsSentimentImpact),
      Some(s.compositeScore),
      Some(Neutral))
  }

  /** `getSignals`: the market state's signals, mapped one by one. */
  function GetSignals(signals: seq<LegacyTypes.AssetSignal>, now: int): (r: seq<Signal>)
    ensures |r| == |signals|
    ensures forall i :: 0 <= i < |r| ==> r[i] == ToSignal(signals[i], now)
  {
    seq(|signals|, i requires 0 <= i < |signals| => ToSignal(signals[i], now))
  }

  /** Each signal brackets its entry price: the stop 5% below and the target 10%
      above for a positive price; the id names the ticker, so distinct tickers
      give distinct ids; BUY is LONG and SELL is SHORT. */
  lemma ToSignalSpec(s: LegacyTypes.AssetSignal, t: LegacyTypes.AssetSignal, now: int)
    ensures var g := ToSignal(s, now);
      g.stopLoss == 0.95 * g.entryPrice && g.takeProfit == Some(1.1 * g.entryPrice) &&
      (s.price > 0.0 ==> g.stopLoss < g.entryPrice < g.takeProfit.value)
    ensures ToSignal(s, now).direction == Long <==> s.signal == LegacyTypes.Buy
    ensures ToSignal(s, now).direction == Short <==> s.signal == LegacyTypes.Sell
    ensures ToSignal(s, now).id == ToSignal(t, now).id <==> s.ticker == t.ticker
  {
    var a, b := ToSignal(s, now).id, ToSignal(t, now).id;
    if a == b {
      assert s.ticker == a[4..] && t.ticker == b[4..];
    }
  }

  // ---------------------------------------------------------------------------
  // Events

  function NewsEvent(now: int): Event
  {
    Event("evt-1", CompanyNews, now, now, "Reuters", ["NVDA"], ["Technology"], ["US"], [], [],
          "NVIDIA announces new AI chip partnership",
          "Strategic partnership with Foxconn to build AI factories.",
          Some(EventSentiment(0.8, 0.9)), None)
  }

  function ShippingEvent(now: int): Event
  {
    Event("evt-2", Shipping, now - 3600000, now, "MarineTraffic", [], ["Industrial"], [], ["Suez"], [],
          "Suez Canal Congestion Alert",
          "Traffic backed up due to grounding vessel.",
          Some(EventSentiment(-0.6, 0.95)), None)
  }

  function CongressEvent(now: int): Event
  {
    Event("evt-3", CongressTrade, now - 86400000 * 2, now, "House Clerk", ["LMT"], ["Defense"], ["US"], [],
          ["Nancy Pelosi"],
          "Rep. Pelosi bought LMT Call Options",
          "Disclosure of purchase valued between $500k-$1M.",
          Some(EventSentiment(0.4, 0.8)), None)
  }

  /** The three fixed events, stamped at `now`, an hour before and two days
      before. */
  function FixedEvents(now: int): seq<Event>
  {
    [NewsEvent(now), ShippingEvent(now), CongressEvent(now)]
  }

  /** `getEvents(params)`: filtered by type only when a non-empty type is given. */
  function GetEvents(now: int, eventType: Option<string>): seq<Event>
  {
    if eventType.Some? && eventType.value != "" then
      Filter(FixedEvents(now), (e: Event) => EventTypeName(e.eventType) == eventType.value)
    else FixedEvents(now)
  }

  /** Without a type (or with the empty one) all three events come back; with a
      type, exactly the fixed events of that type, in order. */
  lemma GetEventsSpec(now: int, eventType: Option<string>)
    ensures eventType.None? || eventType == Some("") ==> GetEvents(now, eventType) == FixedEvents(now)
    ensures forall e :: e in GetEvents(now, eventType) <==>
      e in FixedEvents(now) && (eventType.Some? && eventType.value != "" ==> EventTypeName(e.eventType) == eventType.value)
    ensures IsSubsequence(GetEvents(now, eventType), FixedEvents(now))
  {
    var all := FixedEvents(now);
    if eventType.Some? && eventType.value != "" {
      assert eventType != Some("");
      var p := (e: Event) => EventTypeName(e.eventType) == eventType.value;
      forall e {
        FilterMembership(all, p, e);
      }
      FilterIsSubsequence(all, p);
    } else {
      FilterIsSubsequence(all, (e: Event) => true);
      FilterAll(all, (e: Event) => true);
    }
  }

  /** Asking for a type yields the news event, the shipping event or the
      congress event for those three types, and nothing for the other three. */
  lemma EventsOfType(now: int, t: EventType)
    ensures GetEvents(now, Some(EventTypeName(t))) ==
      if t == CompanyNews then [NewsEvent(now)]
      else if t == Shipping then [ShippingEvent(now)]
      else if t == CongressTrade then [CongressEvent(now)]
      else []
  {
    var p := (e: Event) => EventTypeName(e.eventType) == EventTypeName(t);
    EventTypeNameInjective(CompanyNews, t);
    EventTypeNameInjective(Shipping, t);
    EventTypeNameInjective(CongressTrade, t);
    FilterOfThree(NewsEvent(now), ShippingEvent(now), CongressEvent(now), p);
  }

  lemma FilterOfThree<T>(a: T, b: T, c: T, p: T -> bool)
    ensures Filter([a, b, c], p) == (if p(a) then [a] else []) + (if p(b) then [b] else []) + (if p(c) then [c] else [])
  {
    assert [c][1..] == [];
    assert Filter([c], p) == (if p(c) then [c] else []);
    assert [b, c][1..] == [c];
    assert Filter([b, c], p) == (if p(b) then [b] else []) + Filter([c], p);
    assert [a, b, c][1..] == [b, c];
    assert Filter([a, b, c], p) == (if p(a) then [a] else []) + Filter([b, c], p);
  }
}
