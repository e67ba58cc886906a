/** Go's map iteration: every key once, in an order nobody may rely on. */
module Iteration {

  /** The order visits each key once. */
  ghost predicate IsOrderOf<K(!new)>(order: seq<K>, keys: set<K>) {
    && (forall k :: k in order <==> k in keys)
    && forall i, j | 0 <= i < j < |order| :: order[i] != order[j]
  }

  /** What a loop gathers when each key contributes a few items. */
  function Collect<K, T>(order: seq<K>, items: K -> seq<T>): seq<T> {
    if order == [] then [] else Collect(order[..|order| - 1], items) + items(order[|order| - 1])
  }

  lemma SomeOrder<K(!new)>(keys: set<K>) returns (order: seq<K>)
    ensures IsOrderOf(order, keys)
  {
    if keys == {} {
      order := [];
    } else {
      var k :| k in keys;
      var rest := SomeOrder(keys - {k});
      order := rest + [k];
    }
  }

  lemma VisitNext<K(!new), T>(order: seq<K>, visited: set<K>, key: K, items: K -> seq<T>)
    requires IsOrderOf(order, visited) && key !in visited
    ensures IsOrderOf(order + [key], visited + {key})
    ensures Collect(order + [key], items) == Collect(order, items) + items(key)
  {
    assert (order + [key])[..|order|] == order;
  }

  lemma {:induction false} CollectConcat<K(!new), T>(a: seq<K>, b: seq<K>, items: K -> seq<T>)
    ensures Collect(a + b, items) == Collect(a, items) + Collect(b, items)
  {
    if b == [] {
      assert a + b == a;
    } else {
      var n := |b| - 1;
      assert (a + b)[..|a| + n] == a + b[..n];
      CollectConcat(a, b[..n], items);
    }
  }

  lemma CollectOne<K(!new), T>(k: K, items: K -> seq<T>)
    ensures Collect([k], items) == items(k)
  {
    assert [k][..0] == [];
  }

  lemma CollectAround<K(!new), T>(front: seq<K>, k: K, back: seq<K>, items: K -> seq<T>)
    ensures Collect(front + [k] + back, items) == Collect(front, items) + items(k) + Collect(back, items)
  {
    CollectConcat(front + [k], back, items);
    CollectConcat(front, [k], items);
    CollectOne(k, items);
  }

  lemma {:induction false} CollectNothing<K(!new), T>(order: seq<K>, items: K -> seq<T>)
    requires forall k | k in order :: items(k) == []
    ensures Collect(order, items) == []
  {
    if order != [] {
      assert order[|order| - 1] in order;
      CollectNothing(order[..|order| - 1], items);
    }
  }

  lemma {:induction false} CollectedItems<K(!new), T>(order: seq<K>, items: K -> seq<T>, x: T)
    ensures x in Collect(order, items) <==> exists k :: k in order && x in items(k)
  {
    if order != [] {
      var n := |order| - 1;
      CollectedItems(order[..n], items, x);
      assert order[n] in order;
    }
  }

  /** Removing one key from an order leaves an order of the others. */
  lemma SplitAtKey<K(!new)>(order: seq<K>, keys: set<K>, k: K) returns (front: seq<K>, back: seq<K>)
    requires IsOrderOf(order, keys) && k in keys
    ensures order == front + [k] + back
    ensures IsOrderOf(front + back, keys - {k})
  {
    var i :| 0 <= i < |order| && order[i] == k;
    front, back := order[..i], order[i + 1..];
    forall x ensures x in front + back <==> x in keys - {k} {
      assert x in order <==> x in keys;
    }
  }

  /** Any two orders gather the same items, in some arrangement. */
  lemma {:induction false} OrdersArePermutations<K(!new), T>(o1: seq<K>, o2: seq<K>, keys: set<K>, items: K -> seq<T>)
    requires IsOrderOf(o1, keys) && IsOrderOf(o2, keys)
    ensures multiset(Collect(o1, items)) == multiset(Collect(o2, items))
    decreases |o1|
  {
    SameLength(o1, o2, keys);
    if o1 != [] {
      var n := |o1| - 1;
      var k := o1[n];
      DropLast(o1, keys);
      var front, back := SplitAtKey(o2, keys, k);
      OrdersArePermutations(o1[..n], front + back, keys - {k}, items);
      CollectAround(front, k, back, items);
      CollectConcat(front, back, items);
    }
  }

  lemma DropLast<K(!new)>(order: seq<K>, keys: set<K>)
    requires IsOrderOf(order, keys) && order != []
    ensures order[|order| - 1] in keys
    ensures IsOrderOf(order[..|order| - 1], keys - {order[|order| - 1]})
  {
    assert order == order[..|order| - 1] + [order[|order| - 1]];
  }

  lemma {:induction false} SameLength<K(!new)>(o1: seq<K>, o2: seq<K>, keys: set<K>)
    requires IsOrderOf(o1, keys) && IsOrderOf(o2, keys)
    ensures |o1| == |o2|
  {
    OrderLength(o1, keys);
    OrderLength(o2, keys);
  }

  lemma {:induction false} OrderLength<K(!new)>(order: seq<K>, keys: set<K>)
    requires IsOrderOf(order, keys)
    ensures |order| == |keys|
  {
    if order == [] {
      assert keys == {};
    } else {
      DropLast(order, keys);
      OrderLength(order[..|order| - 1], keys - {order[|order| - 1]});
    }
  }

  /** If only one key contributes, the order does not matter. */
  lemma SoleContributor<K(!new), T>(order: seq<K>, keys: set<K>, items: K -> seq<T>, k: K)
    requires IsOrderOf(order, keys) && k in keys
    requires forall x | x in keys && x != k :: items(x) == []
    ensures Collect(order, items) == items(k)
  {
    var front, back := SplitAtKey(order, keys, k);
    forall x | x in front || x in back ensures items(x) == [] {
      assert x in front + back;
    }
    CollectAround(front, k, back, items);
    CollectNothing(front, items);
    CollectNothing(back, items);
  }

  /** If two keys contribute, two of the orders begin with what the one and what the other gives. */
  lemma TwoContributors<K(!new), T>(keys: set<K>, items: K -> seq<T>, k1: K, k2: K) returns (o1: seq<K>, o2: seq<K>)
    requires k1 in keys && k2 in keys && k1 != k2
    ensures IsOrderOf(o1, keys) && IsOrderOf(o2, keys)
    ensures items(k1) <= Collect(o1, items) && items(k2) <= Collect(o2, items)
  {
    var rest := SomeOrder(keys - {k1, k2});
    o1, o2 := [k1, k2] + rest, [k2, k1] + rest;
    assert o1 == [] + [k1] + ([k2] + rest) && o2 == [] + [k2] + ([k1] + rest);
    CollectAround([], k1, [k2] + rest, items);
    CollectAround([], k2, [k1] + rest, items);
  }
}
