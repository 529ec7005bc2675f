/** `services/dataCacheService.ts`: the candle cache and the sequential batch
    downloader. The IndexedDB store becomes a map keyed by ticker, the callback
    becomes an append-only trace of statuses, a fetch becomes an abstract
    `Response`, and the random draws of the synthetic fallback are inputs. A
    candle's date is the calendar day it names, counted in days. */
module DataCache {
  import opened Seqs
  import Sorting

  datatype Candle = Candle(day: int, open: real, high: real, low: real, close: real, volume: real)

  datatype Phase = Pending | Fetching | Saving | Completed | Failed | Waiting

  datatype DownloadStatus = DownloadStatus(ticker: string, status: Phase, count: nat, error: Option<string>)

  /** What one Alpha Vantage request yields: the network or JSON decoding fails,
      or a payload arrives whose "Note" and "Information" fields are truthy or
      not and whose "Time Series (Daily)" is present or not. */
  datatype Response =
    | NetworkError
    | Payload(note: bool, information: bool, timeSeries: Option<seq<Candle>>)

  /** The number of days the synthetic fallback covers. */
  const SyntheticDays: nat := 2500

  /** The `Math.random()` results one synthetic candle consumes, in call order. */
  datatype Draw = Draw(change: real, high: real, low: real, close: real, volume: real)

  predicate InUnitInterval(x: real)
  {
    0.0 <= x < 1.0
  }

  predicate ValidDraw(d: Draw)
  {
    InUnitInterval(d.change) && InUnitInterval(d.high) && InUnitInterval(d.low) &&
    InUnitInterval(d.close) && InUnitInterval(d.volume)
  }

  // ---------------------------------------------------------------------------
  // Synthetic history

  /** The random-walk price after the given draws, starting at 100. */
  function PriceAfter(draws: seq<Draw>): real
  {
    if draws == [] then 100.0
    else PriceAfter(draws[..|draws| - 1]) + (draws[|draws| - 1].change - 0.5) * 2.0
  }

  /** The candle for day `today - (SyntheticDays - k)`, whose open is `price`. */
  function SyntheticCandle(today: int, k: nat, price: real, d: Draw): (c: Candle)
    ensures c.day == today - SyntheticDays + k
    ensures ValidDraw(d) ==> c.low <= c.open <= c.high && c.high - c.low < 2.0
    ensures ValidDraw(d) ==> 0.0 <= c.volume < 1000000.0 && c.volume == c.volume.Floor as real
    ensures ValidDraw(d) ==> c.open - 0.5 <= c.close < c.open + 0.5
  {
    Candle(today - (SyntheticDays - k), price, price + d.high, price - d.low, price + (d.close - 0.5),
           (d.volume * 1000000.0).Floor as real)
  }

  /** The candles `generateSyntheticHistory` pushes for the given draws. */
  function Synthetic(today: int, draws: seq<Draw>): (cs: seq<Candle>)
    ensures |cs| == |draws|
    ensures forall k :: 0 <= k < |cs| ==> cs[k].day == today - SyntheticDays + k
  {
    if draws == [] then []
    else
      var n := |draws| - 1;
      Synthetic(today, draws[..n]) + [SyntheticCandle(today, n, PriceAfter(draws), draws[n])]
  }

  /** `generateSyntheticHistory`: 2500 daily candles ending the day before
      `today`, on a random walk from 100. */
  method GenerateSyntheticHistory(today: int, draws: seq<Draw>) returns (data: seq<Candle>)
    requires |draws| == SyntheticDays
    ensures data == Synthetic(today, draws)
    ensures |data| == SyntheticDays && data[|data| - 1].day == today - 1
  {
    data := [];
    var price := 100.0;
    var i := SyntheticDays;
    while i > 0
      invariant 0 <= i <= SyntheticDays
      invariant data == Synthetic(today, draws[..SyntheticDays - i])
      invariant price == PriceAfter(draws[..SyntheticDays - i])
    {
      var k := SyntheticDays - i;
      var d := draws[k];
      var change := (d.change - 0.5) * 2.0;
      price := price + change;
      assert draws[..k + 1][..k] == draws[..k];
      data := data + [Candle(today - i, price, price + d.high, price - d.low, price + (d.close - 0.5),
                             (d.volume * 1000000.0).Floor as real)];
      i := i - 1;
    }
    assert draws[..SyntheticDays] == draws;
  }

  /** Successive synthetic opens differ by less than 1, and every candle keeps
      low <= open <= high, when the draws lie in [0, 1). */
  lemma {:induction false} SyntheticWalk(today: int, draws: seq<Draw>, k: nat)
    requires forall j :: 0 <= j < |draws| ==> ValidDraw(draws[j])
    requires 0 < k < |draws|
    ensures var cs := Synthetic(today, draws);
      -1.0 <= cs[k].open - cs[k - 1].open < 1.0 && cs[k].low <= cs[k].open <= cs[k].high
  {
    var n := |draws| - 1;
    if k < n {
      assert draws[..n][k] == draws[k];
      assert Synthetic(today, draws)[k] == Synthetic(today, draws[..n])[k];
      assert Synthetic(today, draws)[k - 1] == Synthetic(today, draws[..n])[k - 1];
      SyntheticWalk(today, draws[..n], k);
    } else {
      var cs := Synthetic(today, draws);
      var init := draws[..n];
      assert cs[k - 1] == Synthetic(today, init)[k - 1];
      assert init[..n - 1] == draws[..n - 1];
      assert Synthetic(today, init)[k - 1] == SyntheticCandle(today, n - 1, PriceAfter(init), init[n - 1]);
      assert cs[k] == SyntheticCandle(today, n, PriceAfter(draws), draws[n]);
      assert PriceAfter(draws) == PriceAfter(init) + (draws[n].change - 0.5) * 2.0;
    }
  }

  // ---------------------------------------------------------------------------
  // Fetch decision

  /** The sort key of `new Date(a.date).getTime()`. */
  function DayKey(c: Candle): real
  {
    c.day as real
  }

  /** A rate-limit payload or a failed request falls back to synthetic data. */
  predicate FallsBack(r: Response)
  {
    r.NetworkError? || r.note || r.information
  }

  /** What `fetchAlphaVantage` returns for a response, given the series the
      fallback generator would produce. */
  function Fetched(r: Response, synthetic: seq<Candle>): seq<Candle>
  {
    if FallsBack(r) then synthetic
    else if r.timeSeries.None? then []
    else Sorting.SortBy(r.timeSeries.value, DayKey)
  }

  /** The decision logic of `fetchAlphaVantage`, calling the generator only on
      the fallback path. */
  method FetchAlphaVantage(r: Response, today: int, draws: seq<Draw>) returns (candles: seq<Candle>)
    requires |draws| == SyntheticDays
    ensures candles == Fetched(r, Synthetic(today, draws))
  {
    if FallsBack(r) {
      candles := GenerateSyntheticHistory(today, draws);
    } else if r.timeSeries.None? {
      candles := [];
    } else {
      candles := Sorting.SortBy(r.timeSeries.value, DayKey);
    }
  }

  /** A rate-limit payload or a failed request yields exactly 2500 candles; a
      payload without a time series yields none; a time series comes back as a
      permutation of itself in ascending date order. */
  lemma FetchedSpec(r: Response, today: int, draws: seq<Draw>)
    requires |draws| == SyntheticDays
    ensures FallsBack(r) ==> |Fetched(r, Synthetic(today, draws))| == SyntheticDays
    ensures !FallsBack(r) && r.timeSeries.None? ==> Fetched(r, Synthetic(today, draws)) == []
    ensures !FallsBack(r) && r.timeSeries.Some? ==>
      var cs := Fetched(r, Synthetic(today, draws));
      multiset(cs) == multiset(r.timeSeries.value) &&
      forall i, j :: 0 <= i < j < |cs| ==> cs[i].day <= cs[j].day
  {
    if !FallsBack(r) && r.timeSeries.Some? {
      Sorting.SortBySpec(r.timeSeries.value, DayKey);
      var cs := Fetched(r, Synthetic(today, draws));
      forall i, j | 0 <= i < j < |cs| ensures cs[i].day <= cs[j].day {
        assert DayKey(cs[i]) <= DayKey(cs[j]);
      }
    }
  }

  // ---------------------------------------------------------------------------
  // Batch download

  /** What the batch needs to know about one ticker: the response its request
      gets, the draws the fallback would consume, and whether the put into the
      store succeeds. */
  datatype Attempt = Attempt(response: Response, draws: seq<Draw>, saveSucceeds: bool)

  predicate WellFormedAttempts(tickers: seq<string>, attempts: seq<Attempt>)
  {
    |attempts| == |tickers| && forall i :: 0 <= i < |attempts| ==> |attempts[i].draws| == SyntheticDays
  }

  const FailureMessage: string := "API Limit or Net Error"

  function FailedStatus(ticker: string): DownloadStatus
  {
    DownloadStatus(ticker, Failed, 0, Some(FailureMessage))
  }

  /** The statuses of one ticker's fetch and save, given its candles. */
  function FetchTrace(ticker: string, candles: seq<Candle>, saveSucceeds: bool): seq<DownloadStatus>
  {
    [DownloadStatus(ticker, Fetching, 0, None)] +
    (if |candles| == 0 then [FailedStatus(ticker)]
     else if saveSucceeds then
       [DownloadStatus(ticker, Saving, |candles|, None), DownloadStatus(ticker, Completed, |candles|, None)]
     else [DownloadStatus(ticker, Saving, |candles|, None), FailedStatus(ticker)])
  }

  /** The statuses of round `i`: the fetch and save, then the throttle notice
      naming the next ticker unless this one is the last. */
  function RoundTrace(tickers: seq<string>, i: nat, candles: seq<Candle>, saveSucceeds: bool): seq<DownloadStatus>
    requires i < |tickers|
  {
    FetchTrace(tickers[i], candles, saveSucceeds) +
    (if i < |tickers| - 1 then [DownloadStatus(tickers[i + 1], Waiting, 0, None)] else [])
  }

  function CandlesFor(a: Attempt, today: int): seq<Candle>
    requires |a.draws| == SyntheticDays
  {
    Fetched(a.response, Synthetic(today, a.draws))
  }

  /** The statuses of the first `n` rounds. */
  function BatchTrace(tickers: seq<string>, attempts: seq<Attempt>, today: int, n: nat): seq<DownloadStatus>
    requires WellFormedAttempts(tickers, attempts)
    requires n <= |tickers|
  {
    if n == 0 then []
    else
      var round := RoundTrace(tickers, n - 1, CandlesFor(attempts[n - 1], today), attempts[n - 1].saveSucceeds);
      BatchTrace(tickers, attempts, today, n - 1) + round
  }

  /** The store after the first `n` rounds: each saved ticker is overwritten. */
  function StoreAfter(store: map<string, seq<Candle>>, tickers: seq<string>, attempts: seq<Attempt>,
                      today: int, n: nat): map<string, seq<Candle>>
    requires WellFormedAttempts(tickers, attempts)
    requires n <= |tickers|
  {
    if n == 0 then store
    else
      var before := StoreAfter(store, tickers, attempts, today, n - 1);
      var candles := CandlesFor(attempts[n - 1], today);
      if |candles| > 0 && attempts[n - 1].saveSucceeds then before[tickers[n - 1] := candles] else before
  }

  /** The IndexedDB candle store and the statuses reported so far. */
  class CandleCache {
    var store: map<string, seq<Candle>>
    var trace: seq<DownloadStatus>

    constructor()
      ensures store == map[] && trace == []
    {
      store := map[];
      trace := [];
    }

    /** `saveCandles`: the entry for `ticker` becomes `candles`, whatever it was;
        re-saving a ticker does not change the count. */
    method SaveCandles(ticker: string, candles: seq<Candle>)
      modifies this
      ensures store == old(store)[ticker := candles]
      ensures trace == old(trace)
      ensures |store.Keys| == |old(store).Keys| + (if ticker in old(store) then 0 else 1)
    {
      store := store[ticker := candles];
      if ticker in old(store) {
        assert store.Keys == old(store).Keys;
      } else {
        assert store.Keys == old(store).Keys + {ticker};
      }
    }

    /** `getCandles`: the stored list, or `None` for the source's `null`. */
    method GetCandles(ticker: string) returns (r: Option<seq<Candle>>)
      ensures r.Some? <==> ticker in store
      ensures r.Some? ==> r.value == store[ticker]
    {
      if ticker in store {
        r := Some(store[ticker]);
      } else {
        r := None;
      }
    }

    /** `clearDatabase`. */
    method ClearDatabase()
      modifies this
      ensures store == map[] && trace == old(trace)
    {
      store := map[];
    }

    /** `getStorageUsage`: the number of tickers stored. */
    method GetStorageUsage() returns (n: nat)
      ensures n == |store.Keys|
    {
      n := |store.Keys|;
    }

    /** `runBatchDownload`: the tickers one at a time in input order. */
    method RunBatchDownload(tickers: seq<string>, attempts: seq<Attempt>, today: int)
      requires WellFormedAttempts(tickers, attempts)
      modifies this
      ensures trace == old(trace) + BatchTrace(tickers, attempts, today, |tickers|)
      ensures store == StoreAfter(old(store), tickers, attempts, today, |tickers|)
    {
      var i := 0;
      while i < |tickers|
        invariant 0 <= i <= |tickers|
        invariant trace == old(trace) + BatchTrace(tickers, attempts, today, i)
        invariant store == StoreAfter(old(store), tickers, attempts, today, i)
      {
        ghost var before, storeBefore := trace, store;
        var candles := Download(tickers[i], attempts[i], today);
        ghost var fetch := FetchTrace(tickers[i], candles, attempts[i].saveSucceeds);
        var wait: seq<DownloadStatus> := [];
        if i < |tickers| - 1 {
          wait := [DownloadStatus(tickers[i + 1], Waiting, 0, None)];
          trace := trace + wait;
        } else {
          assert trace == trace + wait;
        }
        AppendAssociative(before, fetch, wait);
        AppendAssociative(old(trace), BatchTrace(tickers, attempts, today, i), fetch + wait);
        i := i + 1;
      }
    }

    /** One ticker's round without the throttle: fetch, then save when candles
        came back, reporting each step; a failed save reports FAILED and leaves
        the store as it was. */
    method Download(ticker: string, a: Attempt, today: int) returns (candles: seq<Candle>)
      requires |a.draws| == SyntheticDays
      modifies this
      ensures candles == CandlesFor(a, today)
      ensures trace == old(trace) + FetchTrace(ticker, candles, a.saveSucceeds)
      ensures store == if |candles| > 0 && a.saveSucceeds then old(store)[ticker := candles] else old(store)
    {
      trace := trace + [DownloadStatus(ticker, Fetching, 0, None)];
      candles := FetchAlphaVantage(a.response, today, a.draws);
      if |candles| > 0 {
        trace := trace + [DownloadStatus(ticker, Saving, |candles|, None)];
        if a.saveSucceeds {
          SaveCandles(ticker, candles);
          trace := trace + [DownloadStatus(ticker, Completed, |candles|, None)];
        } else {
          trace := trace + [FailedStatus(ticker)];
        }
      } else {
        trace := trace + [FailedStatus(ticker)];
      }
    }
  }

  predicate IsWaiting(s: DownloadStatus)
  {
    s.status == Waiting
  }

  predicate IsFetching(s: DownloadStatus)
  {
    s.status == Fetching
  }

  /** A round holds one FETCHING status, and one WAITING status unless it is
      the last. */
  lemma RoundCounts(tickers: seq<string>, i: nat, candles: seq<Candle>, saveSucceeds: bool)
    requires i < |tickers|
    ensures Count(RoundTrace(tickers, i, candles, saveSucceeds), IsFetching) == 1
    ensures Count(RoundTrace(tickers, i, candles, saveSucceeds), IsWaiting) == if i < |tickers| - 1 then 1 else 0
  {
    var fetch := FetchTrace(tickers[i], candles, saveSucceeds);
    var wait: seq<DownloadStatus> := if i < |tickers| - 1 then [DownloadStatus(tickers[i + 1], Waiting, 0, None)] else [];
    CountAppend(fetch, wait, IsFetching);
    CountAppend(fetch, wait, IsWaiting);
    CountNone(fetch[1..], IsFetching);
    CountNone(fetch, IsWaiting);
    CountNone(wait, IsFetching);
    assert Count(fetch, IsFetching) == 1;
    assert Count(wait, IsWaiting) == |wait|;
  }

  /** Every round starts with one FETCHING status; all rounds but the last end
      with one WAITING status: n tickers give n FETCHING and n - 1 WAITING. */
  lemma {:induction false} BatchTraceCounts(tickers: seq<string>, attempts: seq<Attempt>, today: int, n: nat)
    requires WellFormedAttempts(tickers, attempts)
    requires 0 < n <= |tickers|
    ensures Count(BatchTrace(tickers, attempts, today, n), IsFetching) == n
    ensures Count(BatchTrace(tickers, attempts, today, n), IsWaiting) == if n == |tickers| then n - 1 else n
  {
    var c := CandlesFor(attempts[n - 1], today);
    var round := RoundTrace(tickers, n - 1, c, attempts[n - 1].saveSucceeds);
    var prev := BatchTrace(tickers, attempts, today, n - 1);
    var all := BatchTrace(tickers, attempts, today, n);
    assert all == prev + round;
    RoundCounts(tickers, n - 1, c, attempts[n - 1].saveSucceeds);
    if n > 1 {
      BatchTraceCounts(tickers, attempts, today, n - 1);
    }
    assert Count(all, IsFetching) == n by {
      CountAppend(prev, round, IsFetching);
    }
    assert Count(all, IsWaiting) == if n == |tickers| then n - 1 else n by {
      CountAppend(prev, round, IsWaiting);
    }
  }

  /** A rate-limited or failed request still completes its ticker with the 2500
      synthetic candles when the save succeeds. */
  lemma FallbackCompletes(ticker: string, a: Attempt, today: int)
    requires |a.draws| == SyntheticDays
    requires FallsBack(a.response) && a.saveSucceeds
    ensures FetchTrace(ticker, CandlesFor(a, today), a.saveSucceeds) ==
      [DownloadStatus(ticker, Fetching, 0, None), DownloadStatus(ticker, Saving, SyntheticDays, None),
       DownloadStatus(ticker, Completed, SyntheticDays, None)]
  {
  }

  /** A payload without a time series fails its ticker with count 0. */
  lemma MissingSeriesFails(ticker: string, a: Attempt, today: int)
    requires |a.draws| == SyntheticDays
    requires !FallsBack(a.response) && a.response.timeSeries.None?
    ensures FetchTrace(ticker, CandlesFor(a, today), a.saveSucceeds) ==
      [DownloadStatus(ticker, Fetching, 0, None), DownloadStatus(ticker, Failed, 0, Some("API Limit or Net Error"))]
  {
  }

  /** Round `i` fetched candles for `t` and saved them. */
  predicate Saved(tickers: seq<string>, attempts: seq<Attempt>, today: int, i: nat, t: string)
    requires WellFormedAttempts(tickers, attempts)
    requires i < |tickers|
  {
    tickers[i] == t && |CandlesFor(attempts[i], today)| > 0 && attempts[i].saveSucceeds
  }

  /** After the batch, a ticker is stored exactly when it was stored before or
      some round for it produced candles and saved them. */
  lemma {:induction false} StoreAfterKeys(store: map<string, seq<Candle>>, tickers: seq<string>,
                                          attempts: seq<Attempt>, today: int, n: nat, t: string)
    requires WellFormedAttempts(tickers, attempts)
    requires n <= |tickers|
    ensures t in StoreAfter(store, tickers, attempts, today, n) <==>
      t in store || exists i :: 0 <= i < n && Saved(tickers, attempts, today, i, t)
  {
    if n > 0 {
      StoreAfterKeys(store, tickers, attempts, today, n - 1, t);
      if Saved(tickers, attempts, today, n - 1, t) {
        assert exists j :: 0 <= j < n && Saved(tickers, attempts, today, j, t);
      }
      if exists i :: 0 <= i < n && Saved(tickers, attempts, today, i, t) {
        var i :| 0 <= i < n && Saved(tickers, attempts, today, i, t);
        if i < n - 1 {
          assert exists j :: 0 <= j < n - 1 && Saved(tickers, attempts, today, j, t);
        }
      }
    }
  }
}
