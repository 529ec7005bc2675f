/** `src/layout/Sidebar.tsx`: the navigation links, two of them behind
    feature flags. */
module Sidebar {
  datatype NavItem = NavItem(path: string, title: string)

  /** The feature flags the sidebar reads. */
  datatype Features = Features(congress: bool, shipping: bool)

  /** The five links every build has. */
  const BaseLinks: seq<NavItem> := [
    NavItem("/dashboard", "Dashboard"),
    NavItem("/orders", "Orders"),
    NavItem("/risk", "Risk"),
    NavItem("/qa", "QA"),
    NavItem("/events", "Events")]

  /** `buildLinks()`: the base list, then Congress, then Shipping, each pushed
      when its flag is on. */
  method BuildLinks(features: Features) returns (links: seq<NavItem>)
    ensures |links| == 5 + (if features.congress then 1 else 0) + (if features.shipping then 1 else 0)
    ensures links[..5] == BaseLinks
    ensures NavItem("/congress", "Congress") in links <==> features.congress
    ensures NavItem("/shipping", "Shipping") in links <==> features.shipping
    ensures features.congress && features.shipping ==>
      links[5] == NavItem("/congress", "Congress") && links[6] == NavItem("/shipping", "Shipping")
    ensures forall i, j :: 0 <= i < j < |links| ==> links[i].path != links[j].path
  {
    links := BaseLinks;
    if features.congress {
      links := links + [NavItem("/congress", "Congress")];
    }
    if features.shipping {
      links := links + [NavItem("/shipping", "Shipping")];
    }
    DistinctPaths(links);
  }

  /** The paths of the base links and the two flagged links differ in their
      first letter, so no two links of a list built from them share a path. */
  lemma DistinctPaths(links: seq<NavItem>)
    requires 5 <= |links| <= 7 && links[..5] == BaseLinks
    requires forall i :: 5 <= i < |links| ==> links[i] in {NavItem("/congress", "Congress"), NavItem("/shipping", "Shipping")}
    requires |links| == 7 ==> links[5] != links[6]
    ensures forall i, j :: 0 <= i < j < |links| ==> links[i].path != links[j].path
  {
    var initials := "dorqe";
    forall i | 0 <= i < |links|
      ensures links[i].path[1] == (if i < 5 then initials[i] else if links[i].path == "/congress" then 'c' else 's')
    {
      if i < 5 {
        assert links[i] == BaseLinks[i];
      }
    }
  }
}
