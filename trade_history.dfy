/** `components/TradeHistory.tsx`: the execution audit log. Modelled are the
    header statistics, the expanded row, and how a row shows its entry time,
    exit price, net PnL and duration. */
module TradeHistory {
  import opened Seqs
  import opened Text
  import opened Expansion
  import MathService

  datatype Side = Buy | Sell
  datatype TradeStatus = Open | Closed

  /** A `TradeExecution`, with the fields the log reads. Times are ISO-8601
      text. */
  datatype Trade = Trade(
    id: string,
    ticker: string,
    side: Side,
    quantity: real,
    entryPrice: real,
    exitPrice: Option<real>,
    entryTime: string,
    exitTime: Option<string>,
    grossPnl: real,
    fees: real,
    netPnl: real,
    status: TradeStatus,
    strategy: string,
    autoGenerated: bool)

  predicate IsWin(t: Trade)
  {
    t.netPnl > 0.0
  }

  /** The realised win rate in per cent: the share of trades with a positive
      net PnL, and 0 when there are no trades. */
  function WinRate(trades: seq<Trade>): (r: real)
    ensures 0.0 <= r <= 100.0
    ensures trades == [] ==> r == 0.0
    ensures r == 0.0 <==> Count(trades, IsWin) == 0
    ensures r == 100.0 <==> trades != [] && Count(trades, IsWin) == |trades|
  {
    var total := |trades|;
    if total > 0 then (Count(trades, IsWin) as real / total as real) * 100.0 else 0.0
  }

  function Fees(trades: seq<Trade>): seq<real>
  {
    seq(|trades|, i requires 0 <= i < |trades| => trades[i].fees)
  }

  function NetPnls(trades: seq<Trade>): seq<real>
  {
    seq(|trades|, i requires 0 <= i < |trades| => trades[i].netPnl)
  }

  /** `totalFees`. */
  function TotalFees(trades: seq<Trade>): real
  {
    Sum(Fees(trades))
  }

  /** `totalNetPnl`. */
  function TotalNetPnl(trades: seq<Trade>): real
  {
    Sum(NetPnls(trades))
  }

  /** The totals of a log split in two add up to the total of the whole log;
      the total of one trade is its own figure. */
  lemma TotalsSplit(a: seq<Trade>, b: seq<Trade>)
    ensures TotalFees(a + b) == TotalFees(a) + TotalFees(b)
    ensures TotalNetPnl(a + b) == TotalNetPnl(a) + TotalNetPnl(b)
  {
    assert Fees(a + b) == Fees(a) + Fees(b);
    assert NetPnls(a + b) == NetPnls(a) + NetPnls(b);
    SumAppend(Fees(a), Fees(b));
    SumAppend(NetPnls(a), NetPnls(b));
  }

  /** A trade on its own contributes exactly its fees and its net PnL. */
  lemma TotalsOfOne(t: Trade)
    ensures TotalFees([t]) == t.fees && TotalNetPnl([t]) == t.netPnl
  {
    assert Fees([t]) == [t.fees] && [t.fees][..0] == [];
    assert Sum([t.fees]) == Sum([]) + t.fees;
    assert NetPnls([t]) == [t.netPnl] && [t.netPnl][..0] == [];
    assert Sum([t.netPnl]) == Sum([]) + t.netPnl;
  }

  /** With no negative fee, the fee total is at least every single fee and
      never negative. */
  lemma {:induction false} TotalFeesBounds(trades: seq<Trade>)
    requires forall i :: 0 <= i < |trades| ==> trades[i].fees >= 0.0
    ensures TotalFees(trades) >= 0.0
    ensures forall i :: 0 <= i < |trades| ==> TotalFees(trades) >= trades[i].fees
    decreases |trades|
  {
    if trades != [] {
      var n := |trades| - 1;
      assert trades == trades[..n] + [trades[n]];
      TotalFeesBounds(trades[..n]);
      TotalsSplit(trades[..n], [trades[n]]);
      TotalsOfOne(trades[n]);
      forall i | 0 <= i < |trades| ensures TotalFees(trades) >= trades[i].fees {
        if i < n {
          assert trades[..n][i] == trades[i];
        }
      }
    }
  }

  /** The log's view state: the one expanded row. */
  class TradeLog {
    var expandedTradeId: Option<string>

    constructor()
      ensures expandedTradeId == None
    {
      expandedTradeId := None;
    }

    /** `toggleExpand(id)`. */
    method ToggleExpand(id: string)
      modifies this
      ensures expandedTradeId == Toggle(old(expandedTradeId), id)
    {
      if expandedTradeId == Some(id) {
        expandedTradeId := None;
      } else {
        expandedTradeId := Some(id);
      }
    }
  }

  /** The date column: the entry time before its first 'T'. */
  function DateColumn(t: Trade): string
  {
    BeforeFirst(t.entryTime, 'T')
  }

  /** The time column: the first five characters of the piece after the first
      'T'. An entry time without a 'T' makes the source read a property of
      `undefined`, which aborts the render; that case is `None`. */
  function TimeColumn(t: Trade): (r: Option<string>)
    ensures r.Some? <==> 'T' in t.entryTime
    ensures r.Some? ==> |r.value| <= 5
    ensures r.Some? ==>
      var date := BeforeFirst(t.entryTime, 'T');
      |date| < |t.entryTime| &&
      r.value == Take(BeforeFirst(t.entryTime[|date| + 1..], 'T'), 5)
  {
    match SecondPiece(t.entryTime, 'T')
    case None => None
    case Some(rest) =>
      SecondPieceAfterFirst(t.entryTime, 'T');
      Some(Take(rest, 5))
  }

  /** For an ISO time such as "2024-05-01T14:30:00Z" the date column is the
      part before the 'T' and the time column its hours and minutes. */
  lemma TimeColumnsSpec(t: Trade)
    ensures IsPrefix(DateColumn(t), t.entryTime) && 'T' !in DateColumn(t)
    ensures 'T' !in t.entryTime ==> DateColumn(t) == t.entryTime && TimeColumn(t) == None
    ensures 'T' in t.entryTime ==> t.entryTime[|DateColumn(t)|] == 'T'
  {
    BeforeFirstSpec(t.entryTime, 'T');
  }

  /** The exit column: `trade.exitPrice ? ... : '-'`, so a missing and a zero
      exit price both show a dash (`None`). */
  function ExitColumn(t: Trade): (r: Option<real>)
    ensures r.Some? <==> t.exitPrice.Some? && t.exitPrice.value != 0.0
    ensures r.Some? ==> r.value == t.exitPrice.value
  {
    if t.exitPrice.Some? && t.exitPrice.value != 0.0 then t.exitPrice else None
  }

  /** The net-PnL column: dashes for an open trade; otherwise the amount, with
      a '+' sign when positive, green when not negative. */
  datatype PnlCell = Dashes | Amount(plus: bool, green: bool, value: real)

  function NetPnlColumn(t: Trade): PnlCell
  {
    if t.status == Closed then Amount(t.netPnl > 0.0, t.netPnl >= 0.0, t.netPnl) else Dashes
  }

  /** Only closed trades show their net PnL; a '+' is only ever shown in
      green, and a zero PnL is green without a sign. */
  lemma NetPnlColumnSpec(t: Trade)
    ensures NetPnlColumn(t).Amount? <==> t.status == Closed
    ensures NetPnlColumn(t).Amount? ==> NetPnlColumn(t).value == t.netPnl
    ensures NetPnlColumn(t).Amount? && NetPnlColumn(t).plus ==> NetPnlColumn(t).green
    ensures NetPnlColumn(t).Amount? ==> (NetPnlColumn(t).green <==> !(t.netPnl < 0.0))
  {
  }

  datatype Duration = Minutes(m: int) | Active

  /** The duration line: whole minutes between entry and exit, rounded half
      up, when there is a (non-empty) exit time, and "Active" otherwise.
      `parse` stands for `new Date(..).getTime()`, in milliseconds. */
  function DurationOf(t: Trade, parse: string -> int): (d: Duration)
    ensures d.Minutes? <==> t.exitTime.Some? && t.exitTime.value != ""
  {
    if t.exitTime.Some? && t.exitTime.value != "" then
      Minutes(MathService.Round((parse(t.exitTime.value) - parse(t.entryTime)) as real / 60000.0))
    else Active
  }

  /** The minutes shown are within half a minute of the exact span, and a
      trade closed after it opened never shows a negative duration. */
  lemma DurationSpec(t: Trade, parse: string -> int)
    requires t.exitTime.Some? && t.exitTime.value != ""
    ensures var span := (parse(t.exitTime.value) - parse(t.entryTime)) as real / 60000.0;
      var m := DurationOf(t, parse).m;
      m as real - 0.5 <= span < m as real + 0.5
    ensures parse(t.exitTime.value) >= parse(t.entryTime) ==> DurationOf(t, parse).m >= 0
  {
  }
}
