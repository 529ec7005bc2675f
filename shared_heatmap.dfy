/** `src/shared/components/MarketHeatmap.tsx`: the second dashboard's treemap,
    grouped by instrument sector, with defaults for the fields a signal may
    lack. */
module SharedHeatmap {
  import opened Seqs
  import opened Grouping
  import opened Domain

  datatype Tile = Tile(name: string, size: real, change: real)

  /** `x || d` for an optional number: a missing value or 0 gives `d`. */
  function NumberOr(x: Option<real>, d: real): (r: real)
    ensures x.Some? && x.value != 0.0 ==> r == x.value
    ensures x.None? || x.value == 0.0 ==> r == d
  {
    if x.Some? && x.value != 0.0 then x.value else d
  }

  /** `s.instrument.sector || 'Other'`. */
  function SectorOf(s: Signal): (k: string)
    ensures k != ""
  {
    var sec := s.instrument.sector;
    if sec.Some? && sec.value != "" then sec.value else "Other"
  }

  /** The leaf pushed for a signal: named by the instrument id, sized by the
      volume (1000 when missing), its change the trend score's distance from
      50 (a missing score counting as 50). */
  function TileOf(s: Signal): Tile
  {
    Tile(s.instrument.id, NumberOr(s.volume, 1000.0), NumberOr(s.trendScore, 50.0) - 50.0)
  }

  /** `treeData`. */
  function TreeData(signals: seq<Signal>): seq<Group<Tile>>
  {
    GroupAll(signals, SectorOf, TileOf)
  }

  /** The `forEach` that builds `treeData`. */
  method BuildTreeData(signals: seq<Signal>) returns (gs: seq<Group<Tile>>)
    ensures gs == TreeData(signals)
  {
    gs := BuildGroups(signals, SectorOf, TileOf);
  }

  /** One group per sector, in order of first appearance, with instruments
      lacking a sector under "Other";
      no group has an empty name; each signal's tile sits in its sector's
      group and the groups hold one tile per signal. */
  lemma TreeDataSpec(signals: seq<Signal>)
    ensures DistinctNames(TreeData(signals))
    ensures forall k :: k in Names(TreeData(signals)) <==> exists i :: 0 <= i < |signals| && SectorOf(signals[i]) == k
    ensures Names(TreeData(signals)) == FirstOccurrences(KeysOf(signals, SectorOf))
    ensures "" !in Names(TreeData(signals))
    ensures forall k :: ChildrenOf(TreeData(signals), k) == LeavesWithKey(signals, SectorOf, TileOf, k)
    ensures forall i :: 0 <= i < |signals| ==> TileOf(signals[i]) in ChildrenOf(TreeData(signals), SectorOf(signals[i]))
    ensures LeafCount(TreeData(signals)) == |signals|
  {
    GroupAllSpec(signals, SectorOf, TileOf);
    forall i | 0 <= i < |signals|
      ensures TileOf(signals[i]) in ChildrenOf(TreeData(signals), SectorOf(signals[i]))
    {
      LeafInItsGroup(signals, SectorOf, TileOf, i);
    }
  }

  /** The tile is green when `(change || 0) >= 0`. */
  predicate IsGreen(t: Tile)
  {
    (if t.change != 0.0 then t.change else 0.0) >= 0.0
  }

  /** A tile is never sized 0, and it is green exactly when the trend score
      is at least 50, or is missing or 0: a signal with a zero trend score
      is drawn as a neutral, green tile. */
  lemma TileSpec(s: Signal)
    ensures TileOf(s).size != 0.0
    ensures IsGreen(TileOf(s)) <==> s.trendScore.None? || s.trendScore.value == 0.0 || s.trendScore.value >= 50.0
    ensures s.trendScore == Some(0.0) ==> TileOf(s).change == 0.0 && IsGreen(TileOf(s))
  {
  }

  /** The instrument id is written on a tile only when it is wider than 40. */
  predicate ShowsLabel(width: real)
  {
    width > 40.0
  }
}
