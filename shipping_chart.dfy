/** `src/features/shipping/components/ShippingStressChart.tsx`: how many
    shipping events name each route. */
module ShippingChart {
  import opened Seqs
  import opened Domain
  import opened Tally

  predicate IsShipping(e: Event)
  {
    e.eventType == Shipping
  }

  function RoutesOf(e: Event): seq<string>
  {
    e.routes
  }

  /** `routeCounts`: the shipping events are filtered out, then every route
      of every one of them adds 1 to its count. */
  method RouteCounts(events: seq<Event>) returns (acc: Entries)
    ensures acc == Fold(Ones(Keys(Filter(events, IsShipping), RoutesOf)))
  {
    var shippingEvents := Filter(events, IsShipping);
    acc := CountKeys(shippingEvents, RoutesOf);
  }

  /** A bar of the chart. */
  datatype Bar = Bar(route: string, count: real)

  function Data(acc: Entries): (bars: seq<Bar>)
    ensures |bars| == |acc|
  {
    seq(|acc|, i requires 0 <= i < |acc| => Bar(acc[i].0, acc[i].1))
  }

  /** Each route has one bar, counting its mentions across the shipping
      events; the bars name distinct routes, and the counts add up to the
      number of mentions. */
  lemma RouteCountsSpec(events: seq<Event>)
    ensures var keys := Keys(Filter(events, IsShipping), RoutesOf);
      var bars := Data(Fold(Ones(keys)));
      (forall i :: 0 <= i < |bars| ==> bars[i].count == multiset(keys)[bars[i].route] as real && bars[i].count >= 1.0) &&
      (forall i, j :: 0 <= i < j < |bars| ==> bars[i].route != bars[j].route) &&
      Total(Fold(Ones(keys))) == |keys| as real
  {
    CountEntries(Keys(Filter(events, IsShipping), RoutesOf));
  }

  /** A route gets a bar exactly when a shipping event names it; other event
      types never count. "Keine Shipping-Events." shows exactly when no
      shipping event names a route, even if shipping events exist. */
  lemma RoutesShownSpec(events: seq<Event>)
    ensures var acc := Fold(Ones(Keys(Filter(events, IsShipping), RoutesOf)));
      (forall r :: r in KeysOf(acc) <==> exists e :: e in events && e.eventType == Shipping && r in e.routes) &&
      (Data(acc) == [] <==> forall e :: e in events && e.eventType == Shipping ==> e.routes == [])
  {
    FilteredCountsSpec(events, IsShipping, RoutesOf);
  }
}
