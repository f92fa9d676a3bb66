/** Python's insertion-ordered `dict` (and `collections.OrderedDict`):
    a sequence of distinct keys in insertion order together with the map
    from each key to its value. */
module Dicts {

  ghost predicate Distinct<K>(s: seq<K>) {
    forall i, j :: 0 <= i < j < |s| ==> s[i] != s[j]
  }

  /** `s` with every occurrence of `k` taken out, the rest in order. */
  function Without<K(==, !new)>(s: seq<K>, k: K): (r: seq<K>)
    ensures forall x :: x in r <==> x in s && x != k
    ensures Distinct(s) ==> Distinct(r)
    ensures k !in s ==> r == s
  {
    if s == [] then []
    else if s[0] == k then Without(s[1..], k)
    else
      assert Distinct(s) ==> s[0] !in s[1..] && Distinct(s[1..]);
      [s[0]] + Without(s[1..], k)
  }

  /** The elements of `s` that satisfy `keep`, in order. */
  function FilterSeq<K(==, !new)>(s: seq<K>, keep: K -> bool): (r: seq<K>)
    ensures forall x :: x in r <==> x in s && keep(x)
    ensures Distinct(s) ==> Distinct(r)
  {
    if s == [] then []
    else if keep(s[0]) then [s[0]] + FilterSeq(s[1..], keep)
    else FilterSeq(s[1..], keep)
  }

  /** Filtering one more element at the end. */
  lemma {:induction false} FilterSeqSnoc<K(!new)>(s: seq<K>, x: K, keep: K -> bool)
    ensures FilterSeq(s + [x], keep) == FilterSeq(s, keep) + (if keep(x) then [x] else [])
  {
    if s != [] {
      assert (s + [x])[1..] == s[1..] + [x];
      FilterSeqSnoc(s[1..], x, keep);
    }
  }

  /** Filtering keeps every kept element as often as it occurs, and no other. */
  lemma {:induction false} FilterSeqCount<K(!new)>(s: seq<K>, keep: K -> bool)
    ensures forall x :: keep(x) ==> multiset(FilterSeq(s, keep))[x] == multiset(s)[x]
    ensures forall x :: !keep(x) ==> multiset(FilterSeq(s, keep))[x] == 0
  {
    if s != [] {
      FilterSeqCount(s[1..], keep);
      assert s == [s[0]] + s[1..];
      assert multiset(s) == multiset{s[0]} + multiset(s[1..]);
      var head := if keep(s[0]) then [s[0]] else [];
      assert FilterSeq(s, keep) == head + FilterSeq(s[1..], keep);
      assert multiset(FilterSeq(s, keep)) == multiset(head) + multiset(FilterSeq(s[1..], keep));
      forall x
        ensures multiset(FilterSeq(s, keep))[x] == if keep(x) then multiset(s)[x] else 0
      {
        assert multiset(head)[x] == if keep(x) && x == s[0] then 1 else 0;
      }
    }
  }

  /** Filtering a concatenation filters each part, in order. */
  lemma {:induction false} FilterSeqConcat<K(!new)>(s: seq<K>, t: seq<K>, keep: K -> bool)
    ensures FilterSeq(s + t, keep) == FilterSeq(s, keep) + FilterSeq(t, keep)
  {
    if s == [] {
      assert s + t == t;
    } else {
      var u := s + t;
      assert u != [] && u[0] == s[0] && u[1..] == s[1..] + t;
      FilterSeqConcat(s[1..], t, keep);
      var head := if keep(s[0]) then [s[0]] else [];
      assert FilterSeq(u, keep) == head + FilterSeq(u[1..], keep);
      assert FilterSeq(s, keep) == head + FilterSeq(s[1..], keep);
      assert head + (FilterSeq(s[1..], keep) + FilterSeq(t, keep))
          == (head + FilterSeq(s[1..], keep)) + FilterSeq(t, keep);
    }
  }

  /** The elements of `s`, as a set. */
  function Elems<K>(s: seq<K>): set<K>
  {
    set x | x in s
  }

  /** Taking out the elements of `s + [x]` is taking out those of `s`, then `x`. */
  lemma RemoveElemsSnoc<K, V>(m: map<K, V>, s: seq<K>, x: K)
    ensures m - Elems(s + [x]) == (m - Elems(s)) - {x}
  {
    assert Elems(s + [x]) == Elems(s) + {x};
  }

  /** Two maps with the same keys and the same value at each key are equal. */
  lemma MapsEqual<K, V>(a: map<K, V>, b: map<K, V>)
    requires forall k :: k in a <==> k in b
    requires forall k :: k in a ==> a[k] == b[k]
    ensures a == b
  {
  }

  datatype Dict<K(==, !new), V> = Dict(keys: seq<K>, vals: map<K, V>) {

    /** The keys are listed once each, and exactly the keys of the map. */
    ghost predicate Valid() {
      Distinct(keys) && forall k :: k in vals <==> k in keys
    }

    /** `d[k] = v`: an existing key keeps its position, a new key goes last. */
    function Set(k: K, v: V): (r: Dict<K, V>)
      requires Valid()
      ensures r.Valid()
      ensures r.vals == vals[k := v]
      ensures r.keys == if k in vals then keys else keys + [k]
    {
      Dict(if k in vals then keys else keys + [k], vals[k := v])
    }


    /** `d.pop(k)` (its value discarded): the key leaves the order and the map. */
    function Remove(k: K): (r: Dict<K, V>)
      requires Valid()
      ensures r.Valid()
      ensures r.vals == vals - {k}
      ensures r.keys == Without(keys, k)
    {
      Dict(Without(keys, k), vals - {k})
    }

    /** `{k: v for k, v in d.items() if keep(k)}`. */
    function Filter(keep: K -> bool): (r: Dict<K, V>)
      requires Valid()
      ensures r.Valid()
      ensures forall k :: k in r.vals <==> k in vals && keep(k)
      ensures forall k :: k in r.vals ==> r.vals[k] == vals[k]
      ensures r.keys == FilterSeq(keys, keep)
    {
      Dict(FilterSeq(keys, keep), map k | k in vals && keep(k) :: vals[k])
    }
  }

  /** The empty dict `{}`. */
  function Empty<K(==, !new), V>(): (r: Dict<K, V>)
    ensures r.Valid() && r.keys == [] && r.vals == map[]
  {
    Dict([], map[])
  }

  /** A dict object that the modelled code mutates in place, so that the
      caller holding the same object sees the changes. */
  class MutableDict<K(==, !new), V> {
    var contents: Dict<K, V>

    constructor (d: Dict<K, V>)
      ensures contents == d
    {
      contents := d;
    }
  }
}
