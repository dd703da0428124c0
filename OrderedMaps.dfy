/**
 * Python `dict`s keep their keys in the order of first insertion, and the bot
 * prints its forecast in that order. This module models such a dictionary and
 * the dictionaries built by inserting a sequence of key/value pairs in turn.
 */
module OrderedMaps {

  function Elements<K>(s: seq<K>): set<K> {
    set i | 0 <= i < |s| :: s[i]
  }

  lemma ElementsAppend<K>(s: seq<K>, x: K)
    ensures Elements(s + [x]) == Elements(s) + {x}
  {
    var t := s + [x];
    assert forall i :: 0 <= i < |s| ==> t[i] == s[i];
    assert t[|s|] == x;
  }

  lemma ElementsMember<K>(s: seq<K>)
    ensures forall x :: x in Elements(s) <==> x in s
  {
    forall x | x in s ensures x in Elements(s) {
      var i :| 0 <= i < |s| && s[i] == x;
    }
  }

  predicate Distinct<K(==)>(s: seq<K>) {
    forall i, j :: 0 <= i < j < |s| ==> s[i] != s[j]
  }

  /** A dictionary: `items` holds the entries, `keys` the order in which they were first inserted. */
  datatype OrderedMap<K(==), V> = OrderedMap(keys: seq<K>, items: map<K, V>)
  {
    ghost predicate Valid() {
      && Distinct(keys)
      && items.Keys == Elements(keys)
    }

    /** `d[k] = v`: a new key goes last; a key already present keeps its place and takes the new value. */
    function Put(k: K, v: V): (m: OrderedMap<K, V>)
      ensures Valid() ==> m.Valid()
      ensures m.items == items[k := v]
    {
      ElementsAppend(keys, k);
      ElementsMember(keys);
      OrderedMap(if k in items then keys else keys + [k], items[k := v])
    }
  }

  /** Every listed key has an entry. */
  lemma KeyHasEntry<K, V>(m: OrderedMap<K, V>, i: nat)
    requires m.Valid() && i < |m.keys|
    ensures m.keys[i] in m.items
  {
    assert m.keys[i] in Elements(m.keys);
  }

  function Empty<K(==), V>(): (m: OrderedMap<K, V>)
    ensures m.Valid() && m.keys == []
  {
    OrderedMap([], map[])
  }

  /** The elements of `s` in order of first occurrence, each once. */
  function Dedup<K(==)>(s: seq<K>): (r: seq<K>)
    ensures Distinct(r) && |r| <= |s|
    ensures Elements(r) == Elements(s)
  {
    if s == [] then []
    else
      var r := Dedup(s[..|s| - 1]);
      assert s == s[..|s| - 1] + [s[|s| - 1]];
      ElementsAppend(s[..|s| - 1], s[|s| - 1]);
      ElementsAppend(r, s[|s| - 1]);
      ElementsMember(r);
      if s[|s| - 1] in r then r else r + [s[|s| - 1]]
  }

  /** A sequence without repeats is its own `Dedup`. */
  lemma {:induction false} DedupOfDistinct<K>(s: seq<K>)
    requires Distinct(s)
    ensures Dedup(s) == s
  {
    if s != [] {
      var init := s[..|s| - 1];
      DedupOfDistinct(init);
      assert s[|s| - 1] !in init;
      assert init + [s[|s| - 1]] == s;
    }
  }

  function Firsts<K, V>(ps: seq<(K, V)>): (ks: seq<K>)
    ensures |ks| == |ps| && forall i :: 0 <= i < |ps| ==> ks[i] == ps[i].0
  {
    seq(|ps|, i requires 0 <= i < |ps| => ps[i].0)
  }

  /** The dictionary `d = {}; for k, v in ps: d[k] = v`. */
  function FromPairs<K(==), V>(ps: seq<(K, V)>): OrderedMap<K, V> {
    if ps == [] then Empty()
    else FromPairs(ps[..|ps| - 1]).Put(ps[|ps| - 1].0, ps[|ps| - 1].1)
  }

  /** `ps[i]` is the last pair whose key is `ps[i].0`. */
  predicate LastWithKey<K(==), V>(ps: seq<(K, V)>, i: int)
    requires 0 <= i < |ps|
  {
    forall j :: i < j < |ps| ==> ps[j].0 != ps[i].0
  }

  /**
   * Inserting pairs in turn gives a well-formed dictionary whose keys are the
   * pairs' keys in order of first occurrence and whose value for each key is
   * the value of the LAST pair with that key.
   */
  lemma FromPairsShape<K, V>(ps: seq<(K, V)>)
    ensures FromPairs(ps).Valid()
    ensures FromPairs(ps).keys == Dedup(Firsts(ps))
    ensures forall i :: 0 <= i < |ps| && LastWithKey(ps, i) ==> FromPairs(ps).items[ps[i].0] == ps[i].1
  {
    FromPairsKeys(ps);
    FromPairsValues(ps);
  }

  lemma {:induction false} FromPairsKeys<K, V>(ps: seq<(K, V)>)
    ensures FromPairs(ps).Valid()
    ensures FromPairs(ps).keys == Dedup(Firsts(ps))
  {
    if ps != [] {
      var init := ps[..|ps| - 1];
      FromPairsKeys(init);
      assert Firsts(ps)[..|ps| - 1] == Firsts(init);
      ElementsMember(FromPairs(init).keys);
    }
  }

  lemma {:induction false} FromPairsValues<K, V>(ps: seq<(K, V)>)
    ensures forall i :: 0 <= i < |ps| && LastWithKey(ps, i) ==> ps[i].0 in FromPairs(ps).items
    ensures forall i :: 0 <= i < |ps| && LastWithKey(ps, i) ==> FromPairs(ps).items[ps[i].0] == ps[i].1
  {
    if ps != [] {
      var init := ps[..|ps| - 1];
      var last := ps[|ps| - 1];
      FromPairsValues(init);
      var m := FromPairs(ps);
      assert m.items == FromPairs(init).items[last.0 := last.1];
      forall i | 0 <= i < |ps| && LastWithKey(ps, i)
        ensures ps[i].0 in m.items && m.items[ps[i].0] == ps[i].1
      {
        if i < |ps| - 1 {
          assert ps[i].0 != last.0;
          assert LastWithKey(init, i);
        }
      }
    }
  }

  /** With no repeated key, the dictionary lists the pairs exactly, in order. */
  lemma FromDistinctPairs<K, V>(ps: seq<(K, V)>)
    requires Distinct(Firsts(ps))
    ensures FromPairs(ps).Valid() && FromPairs(ps).keys == Firsts(ps)
    ensures forall i :: 0 <= i < |ps| ==> FromPairs(ps).items[ps[i].0] == ps[i].1
  {
    FromPairsShape(ps);
    DedupOfDistinct(Firsts(ps));
    DistinctAreLast(ps);
  }

  lemma DistinctAreLast<K, V>(ps: seq<(K, V)>)
    requires Distinct(Firsts(ps))
    ensures forall i :: 0 <= i < |ps| ==> LastWithKey(ps, i)
  {
    forall i, j | 0 <= i < j < |ps| ensures ps[j].0 != ps[i].0 {
      assert Firsts(ps)[i] != Firsts(ps)[j];
    }
  }
}
