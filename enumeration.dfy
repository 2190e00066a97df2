/** Listing the entries of a map in an unspecified order, the way
    `new ArrayList<>(storage.values())` and a stream over `values()` do. A
    result is described by the sequence of keys its elements came from. */
module Enumeration {

  ghost predicate Distinct<K>(ks: seq<K>) {
    forall i, j :: 0 <= i < j < |ks| ==> ks[i] != ks[j]
  }

  /** `ks` names every key of `keys` exactly once, in some order. */
  ghost predicate Lists<K>(ks: seq<K>, keys: set<K>) {
    && Distinct(ks)
    && (forall i :: 0 <= i < |ks| ==> ks[i] in keys)
    && (forall k :: k in keys ==> k in ks)
  }

  /** Visits the keys one by one in an order the model leaves open. */
  method ListKeys<K>(keys: set<K>) returns (ks: seq<K>)
    ensures Lists(ks, keys)
  {
    ks := [];
    var rest := keys;
    while rest != {}
      invariant rest <= keys
      invariant Distinct(ks)
      invariant forall i :: 0 <= i < |ks| ==> ks[i] in keys && ks[i] !in rest
      invariant forall k :: k in keys ==> k in rest || k in ks
      decreases rest
    {
      var k :| k in rest;
      ks := ks + [k];
      rest := rest - {k};
    }
  }

  /** A listing has one element per key. */
  lemma {:induction false} ListsSize<K>(ks: seq<K>, keys: set<K>)
    requires Lists(ks, keys)
    ensures |ks| == |keys|
  {
    if ks != [] {
      var last := ks[|ks| - 1];
      var front := ks[..|ks| - 1];
      forall k | k in keys - {last} ensures k in front {
        var i :| 0 <= i < |ks| && ks[i] == k;
        assert i < |ks| - 1 && front[i] == k;
      }
      ListsSize(front, keys - {last});
    } else {
      assert forall k :: k !in keys;
      assert keys == {};
    }
  }

  /** The keys of `m` whose value has `flag` equal to `b`: what a stream
      filter over `values()` keeps. */
  function KeysWhere<K, V>(m: map<K, V>, flag: V -> bool, b: bool): set<K> {
    set k | k in m && flag(m[k]) == b
  }

  /** Filtering on a flag and on its negation splits the listing: the two
      listings together have as many elements as a listing of the whole map. */
  lemma FilterSplitsListing<K, V>(m: map<K, V>, flag: V -> bool, kt: seq<K>, kf: seq<K>, ka: seq<K>)
    requires Lists(kt, KeysWhere(m, flag, true))
    requires Lists(kf, KeysWhere(m, flag, false))
    requires Lists(ka, m.Keys)
    ensures |kt| + |kf| == |ka|
  {
    var t, f := KeysWhere(m, flag, true), KeysWhere(m, flag, false);
    assert t + f == m.Keys;
    ListsSize(kt, t);
    ListsSize(kf, f);
    ListsSize(ka, m.Keys);
  }
}
