/** `src/features/congress/components/CongressSectorFlowChart.tsx`: how many
    congressional trades touch each sector. */
module CongressChart {
  import opened Seqs
  import opened Domain
  import opened Tally

  predicate IsCongressTrade(e: Event)
  {
    e.eventType == CongressTrade
  }

  function SectorsOf(e: Event): seq<string>
  {
    e.sectors
  }

  /** `sectorCounts`: the congressional trades are filtered out, then every
      sector of every one of them adds 1 to its count. */
  method SectorCounts(events: seq<Event>) returns (acc: Entries)
    ensures acc == Fold(Ones(Keys(Filter(events, IsCongressTrade), SectorsOf)))
  {
    var trades := Filter(events, IsCongressTrade);
    acc := CountKeys(trades, SectorsOf);
  }

  /** A line of the list: "<sector>: <count> Trades". */
  datatype Line = Line(sector: string, count: real)

  function Lines(acc: Entries): (lines: seq<Line>)
    ensures |lines| == |acc|
  {
    seq(|acc|, i requires 0 <= i < |acc| => Line(acc[i].0, acc[i].1))
  }

  /** Each sector has one line, counting its mentions across the
      congressional trades; the lines name distinct sectors, and the counts
      add up to the number of mentions. */
  lemma SectorCountsSpec(events: seq<Event>)
    ensures var keys := Keys(Filter(events, IsCongressTrade), SectorsOf);
      var lines := Lines(Fold(Ones(keys)));
      (forall i :: 0 <= i < |lines| ==> lines[i].count == multiset(keys)[lines[i].sector] as real && lines[i].count >= 1.0) &&
      (forall i, j :: 0 <= i < j < |lines| ==> lines[i].sector != lines[j].sector) &&
      Total(Fold(Ones(keys))) == |keys| as real
  {
    CountEntries(Keys(Filter(events, IsCongressTrade), SectorsOf));
  }

  /** A sector is listed exactly when a congressional trade names it.
      "Keine Daten." shows exactly when no congressional trade names a
      sector. */
  lemma SectorsListedSpec(events: seq<Event>)
    ensures var acc := Fold(Ones(Keys(Filter(events, IsCongressTrade), SectorsOf)));
      (forall s :: s in KeysOf(acc) <==> exists e :: e in events && e.eventType == CongressTrade && s in e.sectors) &&
      (|KeysOf(acc)| == 0 <==> forall e :: e in events && e.eventType == CongressTrade ==> e.sectors == [])
  {
    FilteredCountsSpec(events, IsCongressTrade, SectorsOf);
  }
}
