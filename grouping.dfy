/** The treemap grouping both heatmaps build: a `Record<string, {name, children}>`
    filled by `items.forEach(x => { if (!groups[k]) groups[k] = {name: k,
    children: []}; groups[k].children.push(leaf(x)); })` and read back with
    `Object.values`, which keeps insertion order for non-numeric keys. */
module Grouping {

  datatype Group<L> = Group(name: string, children: seq<L>)

  function Names<L>(gs: seq<Group<L>>): (ns: seq<string>)
    ensures |ns| == |gs|
    ensures forall i :: 0 <= i < |gs| ==> ns[i] == gs[i].name
  {
    if gs == [] then [] else [gs[0].name] + Names(gs[1..])
  }

  ghost predicate DistinctNames<L>(gs: seq<Group<L>>)
  {
    forall i, j :: 0 <= i < j < |gs| ==> gs[i].name != gs[j].name
  }

  /** The children of the group named `k`, or none when there is no such group. */
  function ChildrenOf<L>(gs: seq<Group<L>>, k: string): seq<L>
  {
    if gs == [] then [] else if gs[0].name == k then gs[0].children else ChildrenOf(gs[1..], k)
  }

  /** The number of leaves over all groups. */
  function LeafCount<L>(gs: seq<Group<L>>): nat
  {
    if gs == [] then 0 else |gs[0].children| + LeafCount(gs[1..])
  }

  /** Creates the group `k` at the end if it is missing, then pushes `leaf` onto
      its children. */
  function Place<L>(gs: seq<Group<L>>, k: string, leaf: L): seq<Group<L>>
  {
    if gs == [] then [Group(k, [leaf])]
    else if gs[0].name == k then [Group(k, gs[0].children + [leaf])] + gs[1..]
    else [gs[0]] + Place(gs[1..], k, leaf)
  }

  /** The whole `forEach` over `items`. */
  function GroupAll<T, L>(items: seq<T>, key: T -> string, leaf: T -> L): seq<Group<L>>
  {
    if items == [] then []
    else Place(GroupAll(items[..|items| - 1], key, leaf), key(items[|items| - 1]), leaf(items[|items| - 1]))
  }

  /** The leaves of the items whose key is `k`, in item order. */
  function LeavesWithKey<T, L>(items: seq<T>, key: T -> string, leaf: T -> L, k: string): seq<L>
  {
    if items == [] then []
    else
      var last := items[|items| - 1];
      LeavesWithKey(items[..|items| - 1], key, leaf, k) + (if key(last) == k then [leaf(last)] else [])
  }

  /** The key of every item, in item order. */
  function KeysOf<T>(items: seq<T>, key: T -> string): (ks: seq<string>)
    ensures |ks| == |items|
    ensures forall i :: 0 <= i < |items| ==> ks[i] == key(items[i])
  {
    seq(|items|, i requires 0 <= i < |items| => key(items[i]))
  }

  /** `ks` with every repeat of an earlier element dropped: each distinct
      element once, in order of first appearance. */
  function FirstOccurrences(ks: seq<string>): seq<string>
  {
    if ks == [] then []
    else
      var seen := FirstOccurrences(ks[..|ks| - 1]);
      if ks[|ks| - 1] in seen then seen else seen + [ks[|ks| - 1]]
  }

  /** Pushing a leaf adds the group name at the end only when it is new. */
  lemma {:induction false} PlaceNames<L>(gs: seq<Group<L>>, k: string, leaf: L)
    ensures Names(Place(gs, k, leaf)) == if k in Names(gs) then Names(gs) else Names(gs) + [k]
  {
    if gs != [] {
      assert Names(gs) == [gs[0].name] + Names(gs[1..]);
      if gs[0].name != k {
        PlaceNames(gs[1..], k, leaf);
        assert Names(Place(gs, k, leaf)) == [gs[0].name] + Names(Place(gs[1..], k, leaf));
      } else {
        assert Names(Place(gs, k, leaf)) == [k] + Names(gs[1..]);
      }
    }
  }

  /** Pushing a leaf appends it to the group named `k` alone and adds one leaf. */
  lemma {:induction false} PlaceChildren<L>(gs: seq<Group<L>>, k: string, leaf: L)
    ensures forall j :: ChildrenOf(Place(gs, k, leaf), j) == ChildrenOf(gs, j) + (if j == k then [leaf] else [])
    ensures LeafCount(Place(gs, k, leaf)) == LeafCount(gs) + 1
  {
    if gs != [] && gs[0].name != k {
      PlaceChildren(gs[1..], k, leaf);
      assert Place(gs, k, leaf) == [gs[0]] + Place(gs[1..], k, leaf);
    } else if gs != [] {
      var r := Place(gs, k, leaf);
      assert r[1..] == gs[1..];
    }
  }

  /** Pushing a leaf keeps group names distinct. */
  lemma PlaceDistinct<L>(gs: seq<Group<L>>, k: string, leaf: L)
    requires DistinctNames(gs)
    ensures DistinctNames(Place(gs, k, leaf))
  {
    PlaceNames(gs, k, leaf);
    var r := Place(gs, k, leaf);
    assert forall i :: 0 <= i < |gs| ==> Names(r)[i] == gs[i].name;
    if k !in Names(gs) {
      assert Names(r)[|gs|] == k;
    }
  }

  /** Pushing a leaf creates its group only when the name is new, appends the
      leaf to that group alone, and adds one leaf. */
  lemma PlaceSpec<L>(gs: seq<Group<L>>, k: string, leaf: L)
    requires DistinctNames(gs)
    ensures DistinctNames(Place(gs, k, leaf))
    ensures Names(Place(gs, k, leaf)) == if k in Names(gs) then Names(gs) else Names(gs) + [k]
    ensures forall j :: ChildrenOf(Place(gs, k, leaf), j) == ChildrenOf(gs, j) + (if j == k then [leaf] else [])
    ensures LeafCount(Place(gs, k, leaf)) == LeafCount(gs) + 1
  {
    PlaceNames(gs, k, leaf);
    PlaceChildren(gs, k, leaf);
    PlaceDistinct(gs, k, leaf);
  }

  /** Group names are distinct and are exactly the keys that occur, in order
      of their first appearance; the group named `k` holds the leaves of the
      items with key `k` in item order; and no item is lost or duplicated. */
  lemma {:induction false} GroupAllSpec<T, L>(items: seq<T>, key: T -> string, leaf: T -> L)
    ensures DistinctNames(GroupAll(items, key, leaf))
    ensures Names(GroupAll(items, key, leaf)) == FirstOccurrences(KeysOf(items, key))
    ensures forall k :: ChildrenOf(GroupAll(items, key, leaf), k) == LeavesWithKey(items, key, leaf, k)
    ensures forall k :: k in Names(GroupAll(items, key, leaf)) <==> exists i :: 0 <= i < |items| && key(items[i]) == k
    ensures LeafCount(GroupAll(items, key, leaf)) == |items|
  {
    if items != [] {
      var init := items[..|items| - 1];
      var last := items[|items| - 1];
      GroupAllSpec(init, key, leaf);
      PlaceSpec(GroupAll(init, key, leaf), key(last), leaf(last));
      assert KeysOf(items, key)[..|items| - 1] == KeysOf(init, key);
      forall k ensures k in Names(GroupAll(items, key, leaf)) <==> exists i :: 0 <= i < |items| && key(items[i]) == k {
        if exists i :: 0 <= i < |items| && key(items[i]) == k {
          var i :| 0 <= i < |items| && key(items[i]) == k;
          if i < |items| - 1 {
            assert init[i] == items[i];
          }
        }
        if k in Names(GroupAll(init, key, leaf)) {
          var i :| 0 <= i < |init| && key(init[i]) == k;
          assert items[i] == init[i];
        }
      }
    }
  }

  /** Each item's leaf sits in the group named by its key (and, names being
      distinct, in no other group). */
  lemma {:induction false} LeafInItsGroup<T, L>(items: seq<T>, key: T -> string, leaf: T -> L, i: nat)
    requires i < |items|
    ensures leaf(items[i]) in LeavesWithKey(items, key, leaf, key(items[i]))
  {
    var init := items[..|items| - 1];
    if i < |items| - 1 {
      assert init[i] == items[i];
      LeafInItsGroup(init, key, leaf, i);
    }
  }

  /** The `forEach` as the loop it is: each item's leaf is pushed onto its
      group, which is created on first sight. */
  method BuildGroups<T, L>(items: seq<T>, key: T -> string, leaf: T -> L) returns (gs: seq<Group<L>>)
    ensures gs == GroupAll(items, key, leaf)
  {
    gs := [];
    var i := 0;
    while i < |items|
      invariant 0 <= i <= |items|
      invariant gs == GroupAll(items[..i], key, leaf)
    {
      assert items[..i + 1][..i] == items[..i];
      gs := Place(gs, key(items[i]), leaf(items[i]));
      i := i + 1;
    }
    assert items[..i] == items;
  }
}
