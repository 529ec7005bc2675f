/** `src/shared/components/CandleChart.tsx`: the second dashboard's
    `getTradingViewSymbol`, which keeps only the XETRA and London suffix rules
    of the first dashboard and has no table. */
module SharedCandleChart {
  import opened Text
  import CandleChart

  /** `getTradingViewSymbol(symbol)`. */
  function TradingViewSymbol(symbol: string): string
  {
    if Contains(symbol, ".DE") then "XETRA:" + BeforeFirst(symbol, '.')
    else if Contains(symbol, ".L") then "LSE:" + BeforeFirst(symbol, '.')
    else "NASDAQ:" + symbol
  }

  /** The result starts with XETRA:, LSE: or NASDAQ:, chosen by the suffix
      rules in the order .DE, .L. It agrees with the first dashboard's suffix
      rules except on a Paris ticker, which now goes to NASDAQ unchanged. */
  lemma TradingViewSymbolSpec(s: string)
    ensures IsPrefix("XETRA:", TradingViewSymbol(s)) <==> Contains(s, ".DE")
    ensures IsPrefix("LSE:", TradingViewSymbol(s)) <==> !Contains(s, ".DE") && Contains(s, ".L")
    ensures IsPrefix("NASDAQ:", TradingViewSymbol(s)) <==> !Contains(s, ".DE") && !Contains(s, ".L")
    ensures !Contains(s, ".PA") ==> TradingViewSymbol(s) == CandleChart.Heuristic(s)
    ensures !Contains(s, ".DE") && !Contains(s, ".L") && Contains(s, ".PA") ==>
      TradingViewSymbol(s) == "NASDAQ:" + s && CandleChart.Heuristic(s) == "EURONEXT:" + BeforeFirst(s, '.')
  {
    var r := TradingViewSymbol(s);
    var first := if Contains(s, ".DE") then 'X' else if Contains(s, ".L") then 'L' else 'N';
    assert r != [] && r[0] == first;
    assert IsPrefix("XETRA:", r) ==> r[..6][0] == 'X';
    assert IsPrefix("LSE:", r) ==> r[..4][0] == 'L';
    assert IsPrefix("NASDAQ:", r) ==> r[..7][0] == 'N';
    if Contains(s, ".DE") {
      assert r[..6] == "XETRA:";
    } else if Contains(s, ".L") {
      assert r[..4] == "LSE:";
    } else {
      assert r[..7] == "NASDAQ:";
    }
  }
}
