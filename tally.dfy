/** A JavaScript `Record<string, number>` built by
    `items.reduce((acc, x) => { acc[k] = (acc[k] ?? 0) + w; return acc; }, {})`
    and read back with `Object.entries`. Entries are kept in insertion order,
    which is the order `Object.entries` reports for non-numeric keys. */
module Tally {
  import opened Seqs

  type Entries = seq<(string, real)>

  function KeysOf(acc: Entries): (ks: seq<string>)
    ensures |ks| == |acc|
    ensures forall i :: 0 <= i < |acc| ==> ks[i] == acc[i].0
  {
    if acc == [] then [] else [acc[0].0] + KeysOf(acc[1..])
  }

  ghost predicate DistinctKeys(acc: Entries)
  {
    forall i, j :: 0 <= i < j < |acc| ==> acc[i].0 != acc[j].0
  }

  /** `acc[k] ?? 0`. */
  function ValueOf(acc: Entries, k: string): real
  {
    if acc == [] then 0.0 else if acc[0].0 == k then acc[0].1 else ValueOf(acc[1..], k)
  }

  /** `acc[k] = (acc[k] ?? 0) + w`: updates the entry for `k` where it stands,
      or appends a new entry. */
  function Add(acc: Entries, k: string, w: real): (r: Entries)
  {
    if acc == [] then [(k, w)]
    else if acc[0].0 == k then [(k, acc[0].1 + w)] + acc[1..]
    else [acc[0]] + Add(acc[1..], k, w)
  }

  /** The sum of all values: `Object.values(acc)` added up. */
  function Total(acc: Entries): real
  {
    if acc == [] then 0.0 else acc[0].1 + Total(acc[1..])
  }

  /** The whole reduce over (key, weight) pairs, from the left. */
  function Fold(items: seq<(string, real)>): Entries
  {
    if items == [] then [] else Add(Fold(items[..|items| - 1]), items[|items| - 1].0, items[|items| - 1].1)
  }

  /** The sum of the weights that the items carry for key `k`. */
  function SumFor(items: seq<(string, real)>, k: string): real
  {
    if items == [] then 0.0
    else SumFor(items[..|items| - 1], k) + (if items[|items| - 1].0 == k then items[|items| - 1].1 else 0.0)
  }

  /** The sum of all weights of the items. */
  function SumAll(items: seq<(string, real)>): real
  {
    if items == [] then 0.0 else SumAll(items[..|items| - 1]) + items[|items| - 1].1
  }

  /** One update grows the key list only by a new key, at the end. */
  lemma {:induction false} AddKeys(acc: Entries, k: string, w: real)
    ensures KeysOf(Add(acc, k, w)) == if k in KeysOf(acc) then KeysOf(acc) else KeysOf(acc) + [k]
  {
    if acc != [] {
      assert KeysOf(acc) == [acc[0].0] + KeysOf(acc[1..]);
      if acc[0].0 != k {
        AddKeys(acc[1..], k, w);
        assert KeysOf(Add(acc, k, w)) == [acc[0].0] + KeysOf(Add(acc[1..], k, w));
      } else {
        assert KeysOf(Add(acc, k, w)) == [k] + KeysOf(acc[1..]);
      }
    }
  }

  /** One update adds `w` to the value of `k` and to the total, and leaves
      every other key's value alone. */
  lemma {:induction false} AddValues(acc: Entries, k: string, w: real)
    ensures forall j :: ValueOf(Add(acc, k, w), j) == ValueOf(acc, j) + (if j == k then w else 0.0)
    ensures Total(Add(acc, k, w)) == Total(acc) + w
  {
    if acc != [] && acc[0].0 != k {
      AddValues(acc[1..], k, w);
      assert Add(acc, k, w) == [acc[0]] + Add(acc[1..], k, w);
    } else if acc != [] {
      var r := Add(acc, k, w);
      assert r[1..] == acc[1..];
    }
  }

  /** An update keeps the keys distinct. */
  lemma AddDistinct(acc: Entries, k: string, w: real)
    requires DistinctKeys(acc)
    ensures DistinctKeys(Add(acc, k, w))
  {
    AddKeys(acc, k, w);
    var r := Add(acc, k, w);
    assert forall i :: 0 <= i < |acc| ==> KeysOf(r)[i] == acc[i].0;
    if k !in KeysOf(acc) {
      assert KeysOf(r)[|acc|] == k;
    }
  }

  /** One update: the key list grows only by a new key, every other key keeps
      its value, `k` gains `w`, and the total gains `w`. */
  lemma AddSpec(acc: Entries, k: string, w: real)
    requires DistinctKeys(acc)
    ensures DistinctKeys(Add(acc, k, w))
    ensures KeysOf(Add(acc, k, w)) == if k in KeysOf(acc) then KeysOf(acc) else KeysOf(acc) + [k]
    ensures forall j :: ValueOf(Add(acc, k, w), j) == ValueOf(acc, j) + (if j == k then w else 0.0)
    ensures Total(Add(acc, k, w)) == Total(acc) + w
  {
    AddKeys(acc, k, w);
    AddValues(acc, k, w);
    AddDistinct(acc, k, w);
  }

  /** The reduce keeps keys distinct, gives each key the sum of its weights,
      and its values add up to the sum of all weights. */
  lemma {:induction false} FoldSums(items: seq<(string, real)>)
    ensures DistinctKeys(Fold(items))
    ensures forall k :: ValueOf(Fold(items), k) == SumFor(items, k)
    ensures Total(Fold(items)) == SumAll(items)
  {
    if items != [] {
      var init := items[..|items| - 1];
      var last := items[|items| - 1];
      FoldSums(init);
      AddValues(Fold(init), last.0, last.1);
      AddDistinct(Fold(init), last.0, last.1);
    }
  }

  /** The reduce has an entry exactly for the keys that occur. */
  lemma {:induction false} FoldKeys(items: seq<(string, real)>)
    ensures forall k :: k in KeysOf(Fold(items)) <==> exists i :: 0 <= i < |items| && items[i].0 == k
  {
    if items != [] {
      var init := items[..|items| - 1];
      var last := items[|items| - 1];
      FoldKeys(init);
      AddKeys(Fold(init), last.0, last.1);
      forall k ensures k in KeysOf(Fold(items)) <==> exists i :: 0 <= i < |items| && items[i].0 == k {
        if exists i :: 0 <= i < |items| && items[i].0 == k {
          var i :| 0 <= i < |items| && items[i].0 == k;
          if i < |items| - 1 {
            assert init[i].0 == k;
          }
        }
        if k in KeysOf(Fold(init)) {
          var i :| 0 <= i < |init| && init[i].0 == k;
          assert items[i].0 == k;
        }
      }
    }
  }

  /** The reduce yields one entry per distinct key, each key's value is the sum of
      that key's weights, and the values add up to the sum of all weights. */
  lemma FoldSpec(items: seq<(string, real)>)
    ensures DistinctKeys(Fold(items))
    ensures forall k :: ValueOf(Fold(items), k) == SumFor(items, k)
    ensures Total(Fold(items)) == SumAll(items)
    ensures forall k :: k in KeysOf(Fold(items)) <==> exists i :: 0 <= i < |items| && items[i].0 == k
  {
    FoldSums(items);
    FoldKeys(items);
  }

  /** When every weight is 1 (counting occurrences), a key that occurs at all
      is counted at least once. */
  lemma {:induction false} SumForCountsAtLeastOne(items: seq<(string, real)>, k: string)
    requires forall i :: 0 <= i < |items| ==> items[i].1 == 1.0
    requires exists i :: 0 <= i < |items| && items[i].0 == k
    ensures SumFor(items, k) >= 1.0
  {
    var init := items[..|items| - 1];
    SumForNonNegative(init, k);
    if items[|items| - 1].0 != k {
      var i :| 0 <= i < |items| && items[i].0 == k;
      assert init[i].0 == k;
      SumForCountsAtLeastOne(init, k);
    }
  }

  lemma {:induction false} SumForNonNegative(items: seq<(string, real)>, k: string)
    requires forall i :: 0 <= i < |items| ==> items[i].1 >= 0.0
    ensures SumFor(items, k) >= 0.0
  {
    if items != [] {
      SumForNonNegative(items[..|items| - 1], k);
    }
  }

  /** With distinct keys, `ValueOf` reads back the value stored at an entry. */
  lemma {:induction false} ValueOfEntry(acc: Entries, i: nat)
    requires DistinctKeys(acc)
    requires i < |acc|
    ensures ValueOf(acc, acc[i].0) == acc[i].1
  {
    if i > 0 {
      assert acc[0].0 != acc[i].0;
      ValueOfEntry(acc[1..], i - 1);
    }
  }

  /** The keys `f` lists for each element of `xs`, one after another. */
  function Keys<T>(xs: seq<T>, f: T -> seq<string>): seq<string>
  {
    if xs == [] then [] else Keys(xs[..|xs| - 1], f) + f(xs[|xs| - 1])
  }

  /** A key is among the listed keys exactly when some item lists it; there
      are no keys exactly when no item lists one. */
  lemma {:induction false} KeysSpec<T>(xs: seq<T>, f: T -> seq<string>)
    ensures forall k :: k in Keys(xs, f) <==> exists i :: 0 <= i < |xs| && k in f(xs[i])
    ensures Keys(xs, f) == [] <==> forall i :: 0 <= i < |xs| ==> f(xs[i]) == []
  {
    if xs != [] {
      var init := xs[..|xs| - 1];
      var last := xs[|xs| - 1];
      KeysSpec(init, f);
      assert forall i :: 0 <= i < |init| ==> init[i] == xs[i];
      forall k ensures k in Keys(xs, f) <==> exists i :: 0 <= i < |xs| && k in f(xs[i]) {
        if k in f(last) {
          assert k in f(xs[|xs| - 1]);
        }
      }
      if Keys(xs, f) == [] {
        forall i | 0 <= i < |xs| ensures f(xs[i]) == [] {
          if i < |init| {
            assert f(init[i]) == [];
          }
        }
      }
    }
  }

  /** One occurrence of each key, weighing 1. */
  function Ones(keys: seq<string>): (r: seq<(string, real)>)
    ensures |r| == |keys|
    ensures forall i :: 0 <= i < |r| ==> r[i] == (keys[i], 1.0)
  {
    if keys == [] then [] else Ones(keys[..|keys| - 1]) + [(keys[|keys| - 1], 1.0)]
  }

  /** `xs.reduce((acc, x) => { for (const k of f(x)) acc[k] = (acc[k] ?? 0) + 1;
      return acc; }, {})`: a count of every key occurrence. */
  method CountKeys<T>(xs: seq<T>, f: T -> seq<string>) returns (acc: Entries)
    ensures acc == Fold(Ones(Keys(xs, f)))
  {
    acc := [];
    var i := 0;
    while i < |xs|
      invariant 0 <= i <= |xs|
      invariant acc == Fold(Ones(Keys(xs[..i], f)))
    {
      assert xs[..i + 1][..i] == xs[..i];
      acc := CountInto(acc, Keys(xs[..i], f), f(xs[i]));
      i := i + 1;
    }
    assert xs[..i] == xs;
  }

  /** The inner `for (const k of ks)` loop: counts `ks` on top of the counts of
      `seen`. */
  method CountInto(acc0: Entries, ghost seen: seq<string>, ks: seq<string>) returns (acc: Entries)
    requires acc0 == Fold(Ones(seen))
    ensures acc == Fold(Ones(seen + ks))
  {
    acc := acc0;
    var j := 0;
    assert seen + ks[..0] == seen;
    while j < |ks|
      invariant 0 <= j <= |ks|
      invariant acc == Fold(Ones(seen + ks[..j]))
    {
      assert seen + ks[..j + 1] == (seen + ks[..j]) + [ks[j]];
      acc := Add(acc, ks[j], 1.0);
      j := j + 1;
    }
    assert ks[..j] == ks;
  }

  /** Counting occurrences: the weights add up to the number of keys, and key
      `k` carries its multiplicity. */
  lemma {:induction false} OnesSums(keys: seq<string>)
    ensures SumAll(Ones(keys)) == |keys| as real
    ensures forall k :: SumFor(Ones(keys), k) == multiset(keys)[k] as real
  {
    if keys != [] {
      var init := keys[..|keys| - 1];
      OnesSums(init);
      assert Ones(keys)[..|keys| - 1] == Ones(init);
      assert keys == init + [keys[|keys| - 1]];
      assert multiset(keys) == multiset(init) + multiset{keys[|keys| - 1]};
    }
  }

  /** Every weight of an occurrence count is 1, so every key that occurs is
      counted at least once; a key that does not occur has no entry. */
  lemma CountsSpec(keys: seq<string>)
    ensures DistinctKeys(Fold(Ones(keys)))
    ensures Total(Fold(Ones(keys))) == |keys| as real
    ensures forall k :: ValueOf(Fold(Ones(keys)), k) == multiset(keys)[k] as real
    ensures forall k :: k in KeysOf(Fold(Ones(keys))) <==> k in keys
    ensures forall i :: 0 <= i < |Fold(Ones(keys))| ==> Fold(Ones(keys))[i].1 >= 1.0
  {
    var items := Ones(keys);
    FoldSpec(items);
    OnesSums(keys);
    forall k ensures k in KeysOf(Fold(items)) <==> k in keys {
      if k in keys {
        var i :| 0 <= i < |keys| && keys[i] == k;
        assert items[i].0 == k;
      }
    }
    var acc := Fold(items);
    forall i | 0 <= i < |acc| ensures acc[i].1 >= 1.0 {
      ValueOfEntry(acc, i);
      assert acc[i].0 in KeysOf(acc);
      assert acc[i].0 in multiset(keys);
    }
  }

  /** Each entry of an occurrence count is its key's multiplicity, at least 1,
      and the entries name distinct keys. */
  lemma CountEntries(keys: seq<string>)
    ensures var acc := Fold(Ones(keys));
      (forall i :: 0 <= i < |acc| ==> acc[i].1 == multiset(keys)[acc[i].0] as real && acc[i].1 >= 1.0) &&
      (forall i, j :: 0 <= i < j < |acc| ==> acc[i].0 != acc[j].0) &&
      Total(acc) == |keys| as real
  {
    var acc := Fold(Ones(keys));
    CountsSpec(keys);
    forall i | 0 <= i < |acc| ensures acc[i].1 == multiset(keys)[acc[i].0] as real {
      ValueOfEntry(acc, i);
    }
  }

  /** The keys of the items that pass a filter: a key is listed exactly when
      a passing item lists it, and none are listed exactly when no passing
      item lists one. */
  lemma FilteredKeysSpec<T>(xs: seq<T>, p: T -> bool, f: T -> seq<string>)
    ensures forall k :: k in Keys(Filter(xs, p), f) <==> exists x :: x in xs && p(x) && k in f(x)
    ensures Keys(Filter(xs, p), f) == [] <==> forall x :: x in xs && p(x) ==> f(x) == []
  {
    var ys := Filter(xs, p);
    KeysSpec(ys, f);
    forall x ensures x in ys <==> x in xs && p(x) {
      FilterMembership(xs, p, x);
    }
    forall k ensures k in Keys(ys, f) <==> exists x :: x in xs && p(x) && k in f(x) {
      if k in Keys(ys, f) {
        var i :| 0 <= i < |ys| && k in f(ys[i]);
        assert ys[i] in ys;
      }
      if exists x :: x in xs && p(x) && k in f(x) {
        var x :| x in xs && p(x) && k in f(x);
        var i :| 0 <= i < |ys| && ys[i] == x;
      }
    }
    if Keys(ys, f) == [] {
      forall x | x in xs && p(x) ensures f(x) == [] {
        var i :| 0 <= i < |ys| && ys[i] == x;
      }
    } else {
      var i :| 0 <= i < |ys| && f(ys[i]) != [];
      assert ys[i] in ys;
    }
  }

  /** Counting the keys of the items that pass a filter: the counts name
      distinct keys, a key is counted exactly when a passing item lists it,
      every count is at least 1, and nothing is counted exactly when no
      passing item lists a key. */
  lemma FilteredCountsSpec<T>(xs: seq<T>, p: T -> bool, f: T -> seq<string>)
    ensures var acc := Fold(Ones(Keys(Filter(xs, p), f)));
      DistinctKeys(acc) &&
      (forall k :: k in KeysOf(acc) <==> exists x :: x in xs && p(x) && k in f(x)) &&
      (forall i :: 0 <= i < |acc| ==> acc[i].1 >= 1.0) &&
      (acc == [] <==> forall x :: x in xs && p(x) ==> f(x) == [])
  {
    var keys := Keys(Filter(xs, p), f);
    var acc := Fold(Ones(keys));
    FilteredKeysSpec(xs, p, f);
    CountsSpec(keys);
    assert acc == [] <==> keys == [] by {
      if acc != [] {
        assert acc[0].0 in KeysOf(acc);
      }
      if keys != [] {
        assert keys[0] in KeysOf(acc);
      }
    }
  }
}
