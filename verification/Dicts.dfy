/** A Python `dict` built from pairs: the last value of a key wins, the first occurrence fixes
    its place in the order. */
module Dicts {

  function FromPairs<K, V>(pairs: seq<(K, V)>): map<K, V> {
    if pairs == [] then map[]
    else
      var last := pairs[|pairs| - 1];
      FromPairs(pairs[..|pairs| - 1])[last.0 := last.1]
  }

  function Order<K(==), V>(pairs: seq<(K, V)>): seq<K> {
    if pairs == [] then []
    else
      var before := Order(pairs[..|pairs| - 1]);
      var key := pairs[|pairs| - 1].0;
      if key in before then before else before + [key]
  }

  lemma {:induction false} OrderIsKeys<K, V>(pairs: seq<(K, V)>)
    ensures forall k :: k in Order(pairs) <==> k in FromPairs(pairs)
    ensures forall k :: k in FromPairs(pairs) <==> exists i :: 0 <= i < |pairs| && pairs[i].0 == k
    ensures forall i, j :: 0 <= i < j < |Order(pairs)| ==> Order(pairs)[i] != Order(pairs)[j]
  {
    if pairs != [] {
      OrderIsKeys(pairs[..|pairs| - 1]);
    }
  }

  /** With distinct keys the pairs themselves are the dictionary. */
  lemma {:induction false} DistinctPairs<K, V>(pairs: seq<(K, V)>)
    requires forall i, j :: 0 <= i < j < |pairs| ==> pairs[i].0 != pairs[j].0
    ensures forall i :: 0 <= i < |pairs| ==> pairs[i].0 in FromPairs(pairs) && FromPairs(pairs)[pairs[i].0] == pairs[i].1
    ensures |Order(pairs)| == |pairs| && forall i :: 0 <= i < |pairs| ==> Order(pairs)[i] == pairs[i].0
  {
    if pairs != [] {
      var before := pairs[..|pairs| - 1];
      DistinctPairs(before);
      OrderIsKeys(before);
    }
  }

  lemma {:induction false} ValueOfKey<K, V>(pairs: seq<(K, V)>, key: K)
    requires key in FromPairs(pairs)
    ensures exists k :: 0 <= k < |pairs| && pairs[k] == (key, FromPairs(pairs)[key])
  {
    var last := pairs[|pairs| - 1];
    if last.0 != key {
      ValueOfKey(pairs[..|pairs| - 1], key);
      var k :| 0 <= k < |pairs| - 1 && pairs[..|pairs| - 1][k] == (key, FromPairs(pairs)[key]);
      assert pairs[k] == (key, FromPairs(pairs)[key]);
    }
  }

  /** No key has two values. */
  predicate Agreeing<K(==), V(==)>(pairs: seq<(K, V)>) {
    forall i, j :: 0 <= i < |pairs| && 0 <= j < |pairs| && pairs[i].0 == pairs[j].0 ==> pairs[i].1 == pairs[j].1
  }

  /** The dictionary keeps every pair exactly when no key has two values. */
  lemma KeptExactly<K, V>(pairs: seq<(K, V)>)
    ensures forall k :: 0 <= k < |pairs| ==> pairs[k].0 in FromPairs(pairs)
    ensures (forall k :: 0 <= k < |pairs| ==> FromPairs(pairs)[pairs[k].0] == pairs[k].1) <==> Agreeing(pairs)
  {
    OrderIsKeys(pairs);
    forall k | 0 <= k < |pairs| && Agreeing(pairs) ensures FromPairs(pairs)[pairs[k].0] == pairs[k].1 {
      ValueOfKey(pairs, pairs[k].0);
    }
  }

  /** Where no key has two values the dictionary is the set of its pairs. */
  lemma AgreeingPairs<K, V>(pairs: seq<(K, V)>)
    requires Agreeing(pairs)
    ensures forall k :: k in FromPairs(pairs) ==> (k, FromPairs(pairs)[k]) in pairs
    ensures forall x :: x in pairs ==> x.0 in FromPairs(pairs) && FromPairs(pairs)[x.0] == x.1
  {
    KeptExactly(pairs);
    forall k | k in FromPairs(pairs) ensures (k, FromPairs(pairs)[k]) in pairs {
      ValueOfKey(pairs, k);
    }
  }

  lemma SameWithKey<K, V>(a: map<K, V>, b: map<K, V>, key: K, value: V)
    requires forall k :: k != key ==> (k in a <==> k in b) && (k in b ==> a[k] == b[k])
    ensures a[key := value] == b[key := value]
  {
    var x, y := a[key := value], b[key := value];
    assert forall k :: k in x <==> k in y;
  }

  /** A pair whose key comes again behind it leaves no trace. */
  lemma {:induction false} ShadowedPair<K, V>(front: seq<(K, V)>, p: (K, V), back: seq<(K, V)>)
    ensures forall k :: k != p.0 ==>
              && (k in FromPairs(front + [p] + back) <==> k in FromPairs(front + back))
              && (k in FromPairs(front + back) ==> FromPairs(front + [p] + back)[k] == FromPairs(front + back)[k])
    ensures p.0 in FromPairs(back) ==> FromPairs(front + [p] + back) == FromPairs(front + back)
  {
    if back == [] {
      assert front + [p] + back == front + [p] && front + back == front;
      assert (front + [p])[..|front|] == front;
    } else {
      var rest, last := back[..|back| - 1], back[|back| - 1];
      ShadowedPair(front, p, rest);
      var with, without := front + [p] + back, front + back;
      assert with[..|with| - 1] == front + [p] + rest && without[..|without| - 1] == front + rest;
      assert FromPairs(with) == FromPairs(front + [p] + rest)[last.0 := last.1];
      assert FromPairs(without) == FromPairs(front + rest)[last.0 := last.1];
      if p.0 == last.0 {
        SameWithKey(FromPairs(front + [p] + rest), FromPairs(front + rest), last.0, last.1);
      }
    }
  }

  /** No name occurs twice. */
  predicate Distinct(names: seq<string>) {
    forall i, j :: 0 <= i < j < |names| ==> names[i] != names[j]
  }

  method Build<K(==), V>(pairs: seq<(K, V)>) returns (m: map<K, V>, keys: seq<K>)
    ensures m == FromPairs(pairs) && keys == Order(pairs)
    ensures forall k :: k in keys <==> k in m
  {
    m, keys := map[], [];
    for i := 0 to |pairs|
      invariant m == FromPairs(pairs[..i]) && keys == Order(pairs[..i])
    {
      assert pairs[..i + 1][..i] == pairs[..i];
      if pairs[i].0 !in keys {
        keys := keys + [pairs[i].0];
      }
      m := m[pairs[i].0 := pairs[i].1];
    }
    assert pairs[..|pairs|] == pairs;
    OrderIsKeys(pairs);
  }
}
