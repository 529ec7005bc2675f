/** `src/features/dashboard/components/ExposureSummary.tsx`: the list of
    portfolio weight per sector on the dashboard. Its `sectorWeights` reduce
    is the same as the risk page's, so it is `SectorExposure.SectorWeights`. */
module ExposureSummary {
  import opened Domain
  import opened Tally
  import SectorExposure

  /** A row of the list: the sector and its weight (a fraction, which the
      percent formatter renders). */
  datatype Row = Row(sector: string, weight: real)

  function RowsOf(acc: Entries): (rows: seq<Row>)
    ensures |rows| == |acc|
  {
    seq(|acc|, i requires 0 <= i < |acc| => Row(acc[i].0, acc[i].1))
  }

  /** "Keine Positionen." is shown when the record has no keys. */
  predicate ShowsEmptyMessage(acc: Entries)
  {
    |KeysOf(acc)| == 0
  }

  /** The list renders the rows of the sector weights, and whether the empty
      message shows. */
  method Render(positions: seq<PortfolioPosition>) returns (rows: seq<Row>, empty: bool)
    ensures rows == RowsOf(Fold(SectorExposure.WeightItems(positions)))
    ensures empty <==> positions == []
  {
    var acc := SectorExposure.SectorWeights(positions);
    SectorExposure.SectorWeightsSpec(positions);
    rows := RowsOf(acc);
    empty := ShowsEmptyMessage(acc);
  }

  /** Each row carries its sector's summed weight, the rows name distinct
      sectors, and the list agrees with the risk page's chart: the same
      sectors in the same order, each bar 100 times the row's weight. */
  lemma RowsSpec(positions: seq<PortfolioPosition>)
    ensures var items := SectorExposure.WeightItems(positions);
      var rows := RowsOf(Fold(items));
      var bars := SectorExposure.Data(Fold(items));
      (forall i :: 0 <= i < |rows| ==> rows[i].weight == SumFor(items, rows[i].sector)) &&
      (forall i, j :: 0 <= i < j < |rows| ==> rows[i].sector != rows[j].sector) &&
      |bars| == |rows| &&
      (forall i :: 0 <= i < |rows| ==> bars[i].sector == rows[i].sector && bars[i].weightPct == 100.0 * rows[i].weight)
  {
    var acc := Fold(SectorExposure.WeightItems(positions));
    SectorExposure.SectorWeightsSpec(positions);
    forall i | 0 <= i < |acc|
      ensures RowsOf(acc)[i].weight == SumFor(SectorExposure.WeightItems(positions), RowsOf(acc)[i].sector)
    {
      ValueOfEntry(acc, i);
    }
  }
}
