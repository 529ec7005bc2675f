/** `components/MarketHeatmap.tsx`: the first dashboard's treemap of signals,
    grouped by sector, each tile sized by volume and coloured by the day's
    change. */
module Heatmap {
  import opened Seqs
  import opened Grouping
  import opened LegacyTypes
  import MathService

  /** A treemap leaf. */
  datatype Tile = Tile(name: string, size: real, change: real, price: real)

  function SectorOf(s: AssetSignal): string
  {
    s.sector
  }

  /** The leaf pushed for a signal: named by its ticker, sized by its volume,
      coloured by its change. */
  function TileOf(s: AssetSignal): Tile
  {
    Tile(s.ticker, s.volume, s.changePercent, s.price)
  }

  /** `treeData`: one group per sector. */
  function TreeData(signals: seq<AssetSignal>): seq<Group<Tile>>
  {
    GroupAll(signals, SectorOf, TileOf)
  }

  /** The `forEach` that builds `treeData`. */
  method BuildTreeData(signals: seq<AssetSignal>) returns (gs: seq<Group<Tile>>)
    ensures gs == TreeData(signals)
  {
    gs := BuildGroups(signals, SectorOf, TileOf);
  }

  /** There is one group per sector that occurs, and no other, in order of the
      sector's first appearance; each group
      holds the tiles of that sector's signals in signal order; every signal
      has its tile in its sector's group, and the groups hold one tile per
      signal. */
  lemma TreeDataSpec(signals: seq<AssetSignal>)
    ensures DistinctNames(TreeData(signals))
    ensures forall k :: k in Names(TreeData(signals)) <==> exists i :: 0 <= i < |signals| && signals[i].sector == k
    ensures Names(TreeData(signals)) == FirstOccurrences(KeysOf(signals, SectorOf))
    ensures forall k :: ChildrenOf(TreeData(signals), k) == LeavesWithKey(signals, SectorOf, TileOf, k)
    ensures forall i :: 0 <= i < |signals| ==> TileOf(signals[i]) in ChildrenOf(TreeData(signals), signals[i].sector)
    ensures LeafCount(TreeData(signals)) == |signals|
  {
    GroupAllSpec(signals, SectorOf, TileOf);
    forall i | 0 <= i < |signals|
      ensures TileOf(signals[i]) in ChildrenOf(TreeData(signals), signals[i].sector)
    {
      LeafInItsGroup(signals, SectorOf, TileOf, i);
    }
  }

  /** The colour intensity of a tile: the size of the move, capped at 3 %. */
  function Intensity(change: real): real
  {
    var m := MathService.Abs(change) / 3.0;
    if m <= 1.0 then m else 1.0
  }

  /** The tile's fill opacity. */
  function Opacity(change: real): real
  {
    0.3 + Intensity(change) * 0.7
  }

  /** A tile is green when the change is not negative, red otherwise. */
  predicate IsUp(change: real)
  {
    change >= 0.0
  }

  /** The intensity lies in [0, 1], reaches 1 exactly from a 3 % move on, is
      the same for a rise and a fall of the same size, and grows with the
      size of the move; the opacity lies in [0.3, 1]. */
  lemma IntensitySpec(change: real, change': real)
    ensures 0.0 <= Intensity(change) <= 1.0
    ensures Intensity(change) == 1.0 <==> MathService.Abs(change) >= 3.0
    ensures Intensity(-change) == Intensity(change)
    ensures MathService.Abs(change) <= MathService.Abs(change') ==> Intensity(change) <= Intensity(change')
    ensures 0.3 <= Opacity(change) <= 1.0
    ensures change == 0.0 ==> Opacity(change) == 0.3 && IsUp(change)
  {
  }

  /** The ticker and change are written on a tile only when it is wider than
      40 and taller than 30. */
  predicate ShowsLabel(width: real, height: real)
  {
    width > 40.0 && height > 30.0
  }
}
