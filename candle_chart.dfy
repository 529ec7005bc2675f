/** `components/CandleChart.tsx`: `getTradingViewSymbol`, which maps an internal
    ticker (Finnhub or Yahoo style) to the symbol of the embedded TradingView
    chart. Injecting the chart script is not modelled. */
module CandleChart {
  import opened Text

  /** The explicit ticker-to-symbol table. */
  const Table: map<string, string> := map[
      "RHM.DE" := "XETRA:RHM",
      "TKA.DE" := "XETRA:TKA",
      "R3NK.DE" := "XETRA:R3NK",
      "HAG.DE" := "XETRA:HAG",
      "PAH3.DE" := "XETRA:PAH3",
      "VOW3.DE" := "XETRA:VOW3",
      "SRT.DE" := "XETRA:SRT",
      "SMHN.DE" := "XETRA:SMHN",
      "EUZ.DE" := "XETRA:EUZ",
      "IOS" := "XETRA:IOS",
      "RR.L" := "LSE:RR.",
      "BA.L" := "LSE:BA.",
      "AIR.PA" := "EURONEXT:AIR",
      "BAVA.CO" := "OMXCOP:BAVA",
      "NVDA" := "NASDAQ:NVDA",
      "AMD" := "NASDAQ:AMD",
      "INTC" := "NASDAQ:INTC",
      "ASML" := "NASDAQ:ASML",
      "AVGO" := "NASDAQ:AVGO",
      "MU" := "NASDAQ:MU",
      "QCOM" := "NASDAQ:QCOM",
      "SMCI" := "NASDAQ:SMCI",
      "MSFT" := "NASDAQ:MSFT",
      "GOOGL" := "NASDAQ:GOOGL",
      "META" := "NASDAQ:META",
      "ADBE" := "NASDAQ:ADBE",
      "DBX" := "NASDAQ:DBX",
      "QMCO" := "NASDAQ:QMCO",
      "AXON" := "NASDAQ:AXON",
      "PLUG" := "NASDAQ:PLUG",
      "TSLA" := "NASDAQ:TSLA",
      "MSTR" := "NASDAQ:MSTR",
      "VRNA" := "NASDAQ:VRNA",
      "TSM" := "NYSE:TSM",
      "ORCL" := "NYSE:ORCL",
      "PLTR" := "NYSE:PLTR",
      "ACN" := "NYSE:ACN",
      "DELL" := "NYSE:DELL",
      "U" := "NYSE:U",
      "QBTS" := "NYSE:QBTS",
      "LMT" := "NYSE:LMT",
      "NOC" := "NYSE:NOC",
      "BA" := "NYSE:BA",
      "PBR" := "NYSE:PBR",
      "ALB" := "NYSE:ALB",
      "SPGI" := "NYSE:SPGI",
      "UAA" := "NYSE:UAA",
      "XOM" := "NYSE:XOM",
      "XPEV" := "NYSE:XPEV",
      "DRO.AX" := "ASX:DRO",
      "WTI" := "TVC:USOIL"
    ]

  /** The suffix rules used for a ticker the table does not list. The `.L`
      rule is a substring test, so it also catches `.LA` or `.LX`. */
  function Heuristic(ticker: string): string
  {
    if Contains(ticker, ".DE") then "XETRA:" + BeforeFirst(ticker, '.')
    else if Contains(ticker, ".L") then "LSE:" + BeforeFirst(ticker, '.')
    else if Contains(ticker, ".PA") then "EURONEXT:" + BeforeFirst(ticker, '.')
    else "NASDAQ:" + ticker
  }

  /** `getTradingViewSymbol(ticker)`: every table value is a non-empty string,
      so `if (map[ticker])` is a plain lookup. */
  function TradingViewSymbol(ticker: string): string
  {
    if ticker in Table then Table[ticker] else Heuristic(ticker)
  }

  /** A listed ticker gets its table entry; any other gets the suffix rules,
      tried in the order .DE, .L, .PA, and otherwise the NASDAQ default. */
  lemma TradingViewSymbolSpec(t: string)
    ensures t in Table ==> TradingViewSymbol(t) == Table[t]
    ensures t !in Table && Contains(t, ".DE") ==> TradingViewSymbol(t) == "XETRA:" + BeforeFirst(t, '.')
    ensures t !in Table && !Contains(t, ".DE") && Contains(t, ".L") ==> TradingViewSymbol(t) == "LSE:" + BeforeFirst(t, '.')
    ensures t !in Table && !Contains(t, ".DE") && !Contains(t, ".L") && Contains(t, ".PA") ==>
      TradingViewSymbol(t) == "EURONEXT:" + BeforeFirst(t, '.')
    ensures t !in Table && !Contains(t, ".DE") && !Contains(t, ".L") && !Contains(t, ".PA") ==>
      TradingViewSymbol(t) == "NASDAQ:" + t
  {
  }

  /** The suffix rules keep only the part of the ticker before its first '.',
      which holds no '.'. */
  lemma HeuristicStem(t: string)
    requires Contains(t, ".DE") || Contains(t, ".L") || Contains(t, ".PA")
    ensures var stem := BeforeFirst(t, '.');
      IsPrefix(stem, t) && '.' !in stem && |stem| < |t| &&
      Heuristic(t) in {"XETRA:" + stem, "LSE:" + stem, "EURONEXT:" + stem}
  {
    BeforeFirstSpec(t, '.');
    if Contains(t, ".DE") {
      ContainsChars(t, ".DE");
    } else if Contains(t, ".L") {
      ContainsChars(t, ".L");
    } else {
      ContainsChars(t, ".PA");
    }
    assert '.' in t;
  }

  /** A symbol from the suffix rules names an exchange before a ':'. */
  lemma HeuristicHasExchange(t: string)
    ensures ':' in Heuristic(t)
  {
    var r := Heuristic(t);
    var p := if Contains(t, ".DE") then "XETRA:" else if Contains(t, ".L") then "LSE:"
      else if Contains(t, ".PA") then "EURONEXT:" else "NASDAQ:";
    assert r[|p| - 1] == ':';
  }

  /** The table overrides the suffix rules: "RR.L" keeps its trailing '.',
      "IOS" trades on XETRA and "BAVA.CO" in Copenhagen. */
  lemma TableExamples()
    ensures TradingViewSymbol("RR.L") == "LSE:RR."
    ensures TradingViewSymbol("IOS") == "XETRA:IOS"
    ensures TradingViewSymbol("BAVA.CO") == "OMXCOP:BAVA"
  {
    assert "RR.L" in Table && Table["RR.L"] == "LSE:RR.";
    assert "IOS" in Table && Table["IOS"] == "XETRA:IOS";
    assert "BAVA.CO" in Table && Table["BAVA.CO"] == "OMXCOP:BAVA";
  }

  lemma NoXetraSuffix()
    ensures !Contains("ABC.LA", ".DE")
  {
    assert ".DE"[1] == 'D' && 'D' !in "ABC.LA";
    if Contains("ABC.LA", ".DE") {
      ContainsChars("ABC.LA", ".DE");
      assert false;
    }
  }

  lemma StemBeforeDot()
    ensures BeforeFirst("ABC.LA", '.') == "ABC"
  {
    var t := "ABC.LA";
    BeforeFirstSpec(t, '.');
    var b := BeforeFirst(t, '.');
    assert forall i :: 0 <= i < |b| ==> b[i] == t[i];
    assert t[3] == '.' && t[0] != '.' && t[1] != '.' && t[2] != '.';
    assert |b| == 3;
    assert b == t[..3];
  }

  /** The `.L` rule is a substring test: "ABC.LA" is sent to the London
      exchange. */
  lemma SubstringRuleExample()
    ensures Heuristic("ABC.LA") == "LSE:ABC"
  {
    NoXetraSuffix();
    assert OccursAt("ABC.LA", ".L", 3);
    ContainsAt("ABC.LA", ".L");
    StemBeforeDot();
  }
}
