/** `components/Signals.tsx`: the signal table of the first dashboard. Modelled
    are its search filter, the expand/collapse state of its rows and the
    arithmetic of the score-attribution bars. */
module SignalsView {
  import opened Seqs
  import opened Text
  import opened LegacyTypes
  import opened Expansion
  import MathService

  /** A signal matches when the lower-cased search term occurs in its
      lower-cased ticker, name or sector. */
  predicate Matches(s: AssetSignal, term: string)
  {
    var q := Lower(term);
    Contains(Lower(s.ticker), q) || Contains(Lower(s.name), q) || Contains(Lower(s.sector), q)
  }

  /** `filteredSignals`. */
  function FilteredSignals(signals: seq<AssetSignal>, term: string): seq<AssetSignal>
  {
    Filter(signals, (s: AssetSignal) => Matches(s, term))
  }

  /** A signal is kept exactly when it matches; the kept signals keep their
      order; the empty search keeps every signal. */
  lemma FilteredSignalsSpec(signals: seq<AssetSignal>, term: string)
    ensures forall s :: s in FilteredSignals(signals, term) <==> s in signals && Matches(s, term)
    ensures IsSubsequence(FilteredSignals(signals, term), signals)
    ensures term == "" ==> FilteredSignals(signals, term) == signals
  {
    var p := (s: AssetSignal) => Matches(s, term);
    forall s {
      FilterMembership(signals, p, s);
    }
    FilterIsSubsequence(signals, p);
    if term == "" {
      forall i | 0 <= i < |signals| ensures p(signals[i]) {
        ContainsEmpty(Lower(signals[i].ticker));
      }
      FilterAll(signals, p);
    }
  }

  /** The component's view state. */
  class SignalsPanel {
    var expandedTicker: Option<string>
    var activeTab: Tab

    constructor()
      ensures expandedTicker == None && activeTab == Chart
    {
      expandedTicker := None;
      activeTab := Chart;
    }

    /** `toggleDetails(ticker)`. */
    method ToggleDetails(ticker: string)
      modifies this
      ensures expandedTicker == Toggle(old(expandedTicker), ticker)
      ensures activeTab == TabAfter(old(expandedTicker), old(activeTab), ticker)
    {
      if expandedTicker == Some(ticker) {
        expandedTicker := None;
      } else {
        expandedTicker := Some(ticker);
        activeTab := Chart;
      }
    }
  }

  /** Width of the sentiment bar: `(newsSentimentImpact + 10) * 5` per cent. */
  function SentimentBar(impact: real): real
  {
    (impact + 10.0) * 5.0
  }

  /** Width of the insider bar: `Math.max(0, insiderActivity * 10 + 50)`. */
  function InsiderBar(insider: real): (w: real)
    ensures w >= 0.0
    ensures w >= insider * 10.0 + 50.0
    ensures w == 0.0 || w == insider * 10.0 + 50.0
  {
    MathService.Max(0.0, insider * 10.0 + 50.0)
  }

  /** The sentiment bar maps the impact range −10..10 onto 0..100, rising with
      the impact, and it is the rescaled sentiment the composite score blends. */
  lemma SentimentBarSpec(impact: real, impact': real)
    ensures -10.0 <= impact <= 10.0 ==> 0.0 <= SentimentBar(impact) <= 100.0
    ensures SentimentBar(-10.0) == 0.0 && SentimentBar(10.0) == 100.0
    ensures impact <= impact' ==> SentimentBar(impact) <= SentimentBar(impact')
    ensures SentimentBar(impact) == MathService.SentimentComponent(impact)
  {
  }
}
