/** `src/features/dashboard/components/MarketWatch.tsx`: the signal table of the
    second dashboard. Modelled are its search filter, its view state (table or
    heatmap, the open row, the active tab) and the colour of its trend bar and
    direction badge. */
module MarketWatch {
  import opened Seqs
  import opened Text
  import opened Domain
  import opened Expansion

  /** A signal matches when the lower-cased search occurs in the lower-cased
      instrument name or id. */
  predicate Matches(s: Signal, search: string)
  {
    var q := Lower(search);
    Contains(Lower(s.instrument.name), q) || Contains(Lower(s.instrument.id), q)
  }

  /** `filtered`, the rows the table and the heatmap show. */
  function Filtered(signals: seq<Signal>, search: string): seq<Signal>
  {
    Filter(signals, (s: Signal) => Matches(s, search))
  }

  /** A signal is shown exactly when it matches; the shown signals keep their
      order; the empty search shows every signal; the sector plays no part. */
  lemma FilteredSpec(signals: seq<Signal>, search: string)
    ensures forall s :: s in Filtered(signals, search) <==> s in signals && Matches(s, search)
    ensures IsSubsequence(Filtered(signals, search), signals)
    ensures search == "" ==> Filtered(signals, search) == signals
    ensures forall s: Signal, sector :: Matches(s, search) <==> Matches(s.(instrument := s.instrument.(sector := sector)), search)
  {
    var p := (s: Signal) => Matches(s, search);
    forall s {
      FilterMembership(signals, p, s);
    }
    FilterIsSubsequence(signals, p);
    if search == "" {
      forall i | 0 <= i < |signals| ensures p(signals[i]) {
        ContainsEmpty(Lower(signals[i].instrument.id));
      }
      FilterAll(signals, p);
    }
  }

  datatype ViewMode = TableView | HeatmapView

  /** The component's state. */
  class MarketWatchPanel {
    var viewMode: ViewMode
    var expandedId: Option<string>
    var activeTab: Tab
    var search: string

    constructor()
      ensures viewMode == TableView && expandedId == None && activeTab == Chart && search == ""
    {
      viewMode := TableView;
      expandedId := None;
      activeTab := Chart;
      search := "";
    }

    /** `toggleExpand(id)`. */
    method ToggleExpand(id: string)
      modifies this
      ensures expandedId == Toggle(old(expandedId), id)
      ensures activeTab == TabAfter(old(expandedId), old(activeTab), id)
      ensures viewMode == old(viewMode) && search == old(search)
    {
      if expandedId == Some(id) {
        expandedId := None;
      } else {
        expandedId := Some(id);
        activeTab := Chart;
      }
    }

    /** A click on a tab of the open row. */
    method SelectTab(tab: Tab)
      modifies this
      ensures activeTab == tab
      ensures expandedId == old(expandedId) && viewMode == old(viewMode) && search == old(search)
    {
      activeTab := tab;
    }

    /** The search input's `onChange`. */
    method SetSearch(text: string)
      modifies this
      ensures search == text
      ensures expandedId == old(expandedId) && viewMode == old(viewMode) && activeTab == old(activeTab)
    {
      search := text;
    }

    /** The table/heatmap switch. */
    method SetViewMode(mode: ViewMode)
      modifies this
      ensures viewMode == mode
      ensures expandedId == old(expandedId) && search == old(search) && activeTab == old(activeTab)
    {
      viewMode := mode;
    }
  }

  /** `s.trendScore || 0`: a missing score, like a zero one, counts as 0. */
  function TrendOrZero(trend: Option<real>): real
  {
    if trend.Some? && trend.value != 0.0 then trend.value else 0.0
  }

  datatype Colour = Green | Red | Grey

  /** The colour of the trend bar. */
  function TrendColour(trend: Option<real>): Colour
  {
    if TrendOrZero(trend) > 50.0 then Green else Red
  }

  /** The bar is green exactly when there is a score above 50; a missing score
      draws a red bar. */
  lemma TrendColourSpec(trend: Option<real>)
    ensures TrendColour(trend) == Green <==> trend.Some? && trend.value > 50.0
    ensures TrendColour(trend) != Grey
    ensures trend.None? ==> TrendColour(trend) == Red
  {
  }

  /** The colour of the direction badge. */
  function DirectionColour(d: Direction): Colour
  {
    if d == Long then Green else if d == Short then Red else Grey
  }

  /** Each direction has its own badge colour. */
  lemma DirectionColourSpec(d: Direction, d': Direction)
    ensures DirectionColour(d) == DirectionColour(d') <==> d == d'
  {
  }
}
