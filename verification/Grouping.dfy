/** Grouping a list by a key into a hash map of lists, as the fee and GET-request tasks do. */
module Grouping {
  import opened Prelude

  /** The items of one key, in their original order. */
  function Group<K(==), V>(key: V -> K, items: seq<V>, k: K): seq<V> {
    Filter((v: V) => key(v) == k, items)
  }

  lemma GroupMember<K, V>(key: V -> K, items: seq<V>, k: K, i: nat)
    requires i < |Group(key, items, k)|
    ensures key(Group(key, items, k)[i]) == k && Group(key, items, k)[i] in items
  {
    var p := (v: V) => key(v) == k;
    assert p(Filter(p, items)[i]);
  }

  function KeySet<K(==), V>(key: V -> K, items: seq<V>): set<K> {
    set i | 0 <= i < |items| :: key(items[i])
  }

  /** One entry per key that occurs, holding the items of that key in their original order. */
  ghost predicate IsGrouping<K(!new), V>(groups: map<K, seq<V>>, key: V -> K, items: seq<V>) {
    && groups.Keys == KeySet(key, items)
    && forall k :: k in groups ==> groups[k] == Group(key, items, k)
  }

  function AddTo<K(==), V>(groups: map<K, seq<V>>, k: K, v: V): map<K, seq<V>> {
    groups[k := (if k in groups then groups[k] else []) + [v]]
  }

  function GroupAll<K(==), V>(key: V -> K, items: seq<V>): map<K, seq<V>> {
    if items == [] then map[]
    else AddTo(GroupAll(key, items[..|items| - 1]), key(items[|items| - 1]), items[|items| - 1])
  }

  method GroupBy<K(==, !new), V>(key: V -> K, items: seq<V>) returns (groups: map<K, seq<V>>)
    ensures IsGrouping(groups, key, items)
  {
    groups := map[];
    var i := 0;
    while i < |items|
      invariant 0 <= i <= |items|
      invariant groups == GroupAll(key, items[..i])
    {
      assert items[..i + 1][..i] == items[..i];
      groups := AddTo(groups, key(items[i]), items[i]);
      i := i + 1;
    }
    assert items[..|items|] == items;
    GroupAllOk(key, items);
  }

  lemma {:induction false} GroupAllOk<K(!new), V>(key: V -> K, items: seq<V>)
    ensures IsGrouping(GroupAll(key, items), key, items)
  {
    if items == [] {
    } else {
      var before, v := items[..|items| - 1], items[|items| - 1];
      GroupAllOk(key, before);
      AddToOk(GroupAll(key, before), key, before, v);
      assert before + [v] == items;
    }
  }

  lemma AddToOk<K(!new), V>(groups: map<K, seq<V>>, key: V -> K, items: seq<V>, v: V)
    requires IsGrouping(groups, key, items)
    ensures IsGrouping(AddTo(groups, key(v), v), key, items + [v])
  {
    var k := key(v);
    KeySetSnoc(key, items, v);
    forall k' ensures Group(key, items + [v], k') == Group(key, items, k') + (if k' == k then [v] else []) {
      FilterSnoc((v: V) => key(v) == k', items, v);
    }
    if k !in groups {
      assert forall j :: 0 <= j < |items| ==> key(items[j]) in KeySet(key, items);
      NoSuchKey(key, items, k);
    }
  }

  lemma KeySetSnoc<K, V>(key: V -> K, items: seq<V>, v: V)
    ensures KeySet(key, items + [v]) == KeySet(key, items) + {key(v)}
  {
    var all := items + [v];
    assert all[|items|] == v;
    forall k | k in KeySet(key, items)
      ensures k in KeySet(key, all)
    {
      var i :| 0 <= i < |items| && key(items[i]) == k;
      assert all[i] == items[i];
    }
  }

  lemma {:induction false} NoSuchKey<K, V>(key: V -> K, items: seq<V>, k: K)
    requires forall i :: 0 <= i < |items| ==> key(items[i]) != k
    ensures Group(key, items, k) == []
  {
    if items == [] {
    } else {
      NoSuchKey(key, items[1..], k);
    }
  }

  predicate NoDuplicates<K(==)>(s: seq<K>) {
    forall i, j :: 0 <= i < j < |s| ==> s[i] != s[j]
  }

  lemma NoDuplicatesSnoc<K>(s: seq<K>, x: K)
    requires NoDuplicates(s) && x !in s
    ensures NoDuplicates(s + [x])
  {
  }

  /** The groups laid out in the order the keys are visited. */
  function LayOut<K(==), V>(key: V -> K, items: seq<V>, order: seq<K>): seq<V> {
    if order == [] then [] else Group(key, items, order[0]) + LayOut(key, items, order[1..])
  }

  /** Whatever order a hash map is iterated in, its groups together are the items as a multiset. */
  lemma {:induction false} GroupsPartition<K, V>(key: V -> K, items: seq<V>, order: seq<K>)
    requires NoDuplicates(order)
    requires forall i :: 0 <= i < |items| ==> key(items[i]) in order
    ensures multiset(LayOut(key, items, order)) == multiset(items)
    decreases |items|
  {
    if items == [] {
      LayOutNothing(key, order);
    } else {
      var rest := items[1..];
      GroupsPartition(key, rest, order);
      LayOutCons(key, items[0], rest, order);
      assert items == [items[0]] + rest;
    }
  }

  lemma {:induction false} LayOutNothing<K, V>(key: V -> K, order: seq<K>)
    ensures LayOut(key, [], order) == []
    decreases |order|
  {
    if order != [] { LayOutNothing(key, order[1..]); }
  }

  lemma {:induction false} LayOutCons<K, V>(key: V -> K, v: V, rest: seq<V>, order: seq<K>)
    requires NoDuplicates(order)
    ensures multiset(LayOut(key, [v] + rest, order))
         == multiset(LayOut(key, rest, order)) + (if key(v) in order then multiset{v} else multiset{})
    decreases |order|
  {
    if order == [] {
    } else {
      var k := order[0];
      LayOutCons(key, v, rest, order[1..]);
      assert ([v] + rest)[1..] == rest;
      assert Group(key, [v] + rest, k) == (if key(v) == k then [v] else []) + Group(key, rest, k);
    }
  }
}
