/** Hash maps written out as lists, in whatever order iteration yields, and read back. */
module Listing {

  /** `ps` mentions every pair of `m` once, and nothing else. */
  ghost predicate Lists<K, V>(ps: seq<(K, V)>, m: map<K, V>) {
    && (forall i :: 0 <= i < |ps| ==> ps[i].0 in m && m[ps[i].0] == ps[i].1)
    && (forall i, j :: 0 <= i < j < |ps| ==> ps[i].0 != ps[j].0)
    && (forall k :: k in m ==> exists i :: 0 <= i < |ps| && ps[i] == (k, m[k]))
  }

  /** Insert the pairs one after another into an empty map. */
  function Collect<K, V>(ps: seq<(K, V)>): map<K, V> {
    if ps == [] then map[] else Collect(ps[..|ps| - 1])[ps[|ps| - 1].0 := ps[|ps| - 1].1]
  }

  lemma {:induction false} CollectKeys<K, V>(ps: seq<(K, V)>, m: map<K, V>)
    requires forall i :: 0 <= i < |ps| ==> ps[i].0 in m && m[ps[i].0] == ps[i].1
    ensures forall k :: k in Collect(ps) ==> k in m && Collect(ps)[k] == m[k]
    ensures forall i :: 0 <= i < |ps| ==> ps[i].0 in Collect(ps)
  {
    if ps != [] {
      CollectKeys(ps[..|ps| - 1], m);
    }
  }

  /** Reading a listing back gives the map, whatever the order. */
  lemma CollectOfListing<K, V>(ps: seq<(K, V)>, m: map<K, V>)
    requires Lists(ps, m)
    ensures Collect(ps) == m
  {
    CollectKeys(ps, m);
    forall k | k in m
      ensures k in Collect(ps)
    {
      var i :| 0 <= i < |ps| && ps[i] == (k, m[k]);
    }
  }

  method Enumerate<K(==), V(==)>(m: map<K, V>) returns (ps: seq<(K, V)>)
    ensures Lists(ps, m)
  {
    ps := [];
    var todo := m.Keys;
    while todo != {}
      invariant todo <= m.Keys
      invariant forall i :: 0 <= i < |ps| ==> ps[i].0 in m && m[ps[i].0] == ps[i].1
      invariant forall i, j :: 0 <= i < j < |ps| ==> ps[i].0 != ps[j].0
      invariant forall i :: 0 <= i < |ps| ==> ps[i].0 !in todo
      invariant forall k :: k in m && k !in todo ==> exists i :: 0 <= i < |ps| && ps[i] == (k, m[k])
      decreases todo
    {
      var k :| k in todo;
      ghost var before := ps;
      ps := ps + [(k, m[k])];
      todo := todo - {k};
      forall j | j in m && j !in todo
        ensures exists i :: 0 <= i < |ps| && ps[i] == (j, m[j])
      {
        if j == k {
          assert ps[|ps| - 1] == (j, m[j]);
        } else {
          var i :| 0 <= i < |before| && before[i] == (j, m[j]);
          assert ps[i] == (j, m[j]);
        }
      }
    }
  }
}
