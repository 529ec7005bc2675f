/** `components/Backtest.tsx`: the summary cards above the backtest equity
    curve. */
module BacktestView {
  import MarketService

  type Point = MarketService.BacktestMetric

  /** `point?.equity || 100000`: a missing point, like a zero equity, falls
      back to the 100 000 starting capital. */
  function EquityOr(data: seq<Point>, i: int): (e: real)
    ensures e != 0.0
    ensures 0 <= i < |data| && data[i].equity != 0.0 ==> e == data[i].equity
    ensures !(0 <= i < |data|) ==> e == 100000.0
  {
    if 0 <= i < |data| && data[i].equity != 0.0 then data[i].equity else 100000.0
  }

  function StartEquity(data: seq<Point>): real
  {
    EquityOr(data, 0)
  }

  function EndEquity(data: seq<Point>): real
  {
    EquityOr(data, |data| - 1)
  }

  /** `totalReturn`, in per cent of the start equity. */
  function TotalReturn(data: seq<Point>): real
  {
    (EndEquity(data) - StartEquity(data)) / StartEquity(data) * 100.0
  }

  /** The return is always defined (the start equity is never 0). It is 0 with
      no data or a single point, and for a positive start it is positive
      exactly when the curve ends above where it started. */
  lemma TotalReturnSpec(data: seq<Point>)
    ensures StartEquity(data) != 0.0
    ensures |data| <= 1 ==> TotalReturn(data) == 0.0
    ensures StartEquity(data) > 0.0 ==> (TotalReturn(data) > 0.0 <==> EndEquity(data) > StartEquity(data))
    ensures TotalReturn(data) * StartEquity(data) == (EndEquity(data) - StartEquity(data)) * 100.0
  {
    var s := StartEquity(data);
    var e := EndEquity(data);
    if s > 0.0 {
      if e > s {
        assert (e - s) / s > 0.0;
      } else {
        assert (e - s) / s <= 0.0;
      }
    }
  }

  /** A real number or the `Infinity` that `Math.min()` returns when it is
      given no arguments. */
  datatype ExtReal = Finite(value: real) | PlusInfinity

  /** `Math.min(...data.map(d => d.drawdown))`. */
  function MaxDrawdown(data: seq<Point>): (m: ExtReal)
    ensures m == PlusInfinity <==> data == []
    ensures m.Finite? ==> forall i :: 0 <= i < |data| ==> m.value <= data[i].drawdown
    ensures m.Finite? ==> exists i :: 0 <= i < |data| && m.value == data[i].drawdown
  {
    if data == [] then PlusInfinity
    else
      var rest := MaxDrawdown(data[1..]);
      if rest.PlusInfinity? || data[0].drawdown <= rest.value then
        Finite(data[0].drawdown)
      else
        assert forall i :: 1 <= i < |data| ==> data[1..][i - 1] == data[i];
        assert exists i :: 1 <= i < |data| && rest.value == data[i].drawdown;
        rest
  }

  /** When every point's drawdown is at most 0, as the backtest produces them,
      the card shows a drawdown of at most 0. */
  lemma MaxDrawdownNonPositive(data: seq<Point>)
    requires data != []
    requires forall i :: 0 <= i < |data| ==> data[i].drawdown <= 0.0
    ensures MaxDrawdown(data).Finite? && MaxDrawdown(data).value <= 0.0
  {
    var m := MaxDrawdown(data);
    var i :| 0 <= i < |data| && m.value == data[i].drawdown;
  }

  /** What the four cards show. */
  datatype Summary = Summary(totalReturn: real, sharpeRatio: real, maxDrawdown: ExtReal, winRate: real)

  function Summarize(data: seq<Point>): (s: Summary)
    ensures s.sharpeRatio == 1.82 && s.winRate == 58.4
  {
    Summary(TotalReturn(data), 1.82, MaxDrawdown(data), 58.4)
  }

  /** The Sharpe ratio and the win rate are fixed figures: two data sets with
      the same first and last equity and the same drawdowns show the same
      cards. */
  lemma SummaryDependsOnEndsAndDrawdowns(data: seq<Point>, data': seq<Point>)
    requires StartEquity(data) == StartEquity(data') && EndEquity(data) == EndEquity(data')
    requires MaxDrawdown(data) == MaxDrawdown(data')
    ensures Summarize(data) == Summarize(data')
  {
  }
}
