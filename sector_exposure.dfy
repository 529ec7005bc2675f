/** `src/features/risk/components/SectorExposureChart.tsx`: the bar chart of
    portfolio weight per sector. */
module SectorExposure {
  import opened Seqs
  import opened Domain
  import opened Tally

  /** `pos.instrument.sector ?? 'Other'`: only a missing sector falls back;
      an empty one is kept. */
  function SectorKey(p: PortfolioPosition): string
  {
    match p.instrument.sector
    case None => "Other"
    case Some(s) => s
  }

  /** Each position as the `(key, weight)` pair the reduce adds in. */
  function WeightItems(positions: seq<PortfolioPosition>): (items: seq<(string, real)>)
    ensures |items| == |positions|
  {
    seq(|positions|, i requires 0 <= i < |positions| => (SectorKey(positions[i]), positions[i].weight))
  }

  function Weights(positions: seq<PortfolioPosition>): seq<real>
  {
    seq(|positions|, i requires 0 <= i < |positions| => positions[i].weight)
  }

  /** `sectorWeights`, the reduce that adds each position's weight into its
      sector's entry. */
  method SectorWeights(positions: seq<PortfolioPosition>) returns (acc: Entries)
    ensures acc == Fold(WeightItems(positions))
  {
    acc := [];
    var i := 0;
    while i < |positions|
      invariant 0 <= i <= |positions|
      invariant acc == Fold(WeightItems(positions[..i]))
    {
      assert WeightItems(positions[..i + 1])[..i] == WeightItems(positions[..i]);
      acc := Add(acc, SectorKey(positions[i]), positions[i].weight);
      i := i + 1;
    }
    assert positions[..i] == positions;
  }

  /** Summing the weights by sector and then over the sectors gives the sum of
      all weights. */
  lemma {:induction false} WeightItemsSum(positions: seq<PortfolioPosition>)
    ensures SumAll(WeightItems(positions)) == Sum(Weights(positions))
  {
    if positions != [] {
      var init := positions[..|positions| - 1];
      WeightItemsSum(init);
      assert WeightItems(positions)[..|positions| - 1] == WeightItems(init);
      assert Weights(positions)[..|positions| - 1] == Weights(init);
    }
  }

  /** Every sector appears once, with the sum of its positions' weights; a
      position without a sector counts under "Other"; the sector weights add
      up to the total weight; no positions give no sectors. */
  lemma SectorWeightsSpec(positions: seq<PortfolioPosition>)
    ensures DistinctKeys(Fold(WeightItems(positions)))
    ensures forall k :: ValueOf(Fold(WeightItems(positions)), k) == SumFor(WeightItems(positions), k)
    ensures forall k :: k in KeysOf(Fold(WeightItems(positions))) <==>
      exists i :: 0 <= i < |positions| && SectorKey(positions[i]) == k
    ensures forall i :: 0 <= i < |positions| && positions[i].instrument.sector.None? ==>
      "Other" in KeysOf(Fold(WeightItems(positions)))
    ensures Total(Fold(WeightItems(positions))) == Sum(Weights(positions))
    ensures Fold(WeightItems(positions)) == [] <==> positions == []
  {
    var items := WeightItems(positions);
    FoldSpec(items);
    WeightItemsSum(positions);
    forall k ensures k in KeysOf(Fold(items)) <==> exists i :: 0 <= i < |positions| && SectorKey(positions[i]) == k {
      if exists i :: 0 <= i < |positions| && SectorKey(positions[i]) == k {
        var i :| 0 <= i < |positions| && SectorKey(positions[i]) == k;
        assert items[i].0 == k;
      }
    }
    if positions != [] {
      assert items[0].0 == SectorKey(positions[0]);
      assert SectorKey(positions[0]) in KeysOf(Fold(items));
    }
  }

  /** A bar of the chart. */
  datatype Bar = Bar(sector: string, weightPct: real)

  /** `data`: one bar per entry, in entry order, the weight in per cent. */
  function Data(acc: Entries): (bars: seq<Bar>)
    ensures |bars| == |acc|
  {
    seq(|acc|, i requires 0 <= i < |acc| => Bar(acc[i].0, acc[i].1 * 100.0))
  }

  /** Each bar shows 100 times the summed weight of its sector's positions, the
      bars name distinct sectors, and the chart is empty ("Keine Positionen.")
      exactly when there are no positions. */
  lemma DataSpec(positions: seq<PortfolioPosition>)
    ensures var bars := Data(Fold(WeightItems(positions)));
      (forall i :: 0 <= i < |bars| ==> bars[i].weightPct == 100.0 * SumFor(WeightItems(positions), bars[i].sector)) &&
      (forall i, j :: 0 <= i < j < |bars| ==> bars[i].sector != bars[j].sector) &&
      (bars == [] <==> positions == [])
  {
    var acc := Fold(WeightItems(positions));
    SectorWeightsSpec(positions);
    forall i | 0 <= i < |acc|
      ensures Data(acc)[i].weightPct == 100.0 * SumFor(WeightItems(positions), Data(acc)[i].sector)
    {
      ValueOfEntry(acc, i);
    }
  }
}
