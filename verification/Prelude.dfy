/** The small vocabulary shared by every component. */
module Prelude {

  /** A value that may be missing (`null` or `undefined` in the program). */
  datatype Option<+T> = None | Some(value: T)

  /** The set of elements of a sequence. */
  ghost function Elements<T>(s: seq<T>): set<T> {
    set x | x in s
  }

  ghost predicate Distinct<T>(s: seq<T>) {
    forall i, j :: 0 <= i < j < |s| ==> s[i] != s[j]
  }

  /** A sequence without repetition has exactly as many elements as positions. */
  lemma {:induction false} DistinctCount<T>(s: seq<T>)
    requires Distinct(s)
    ensures |Elements(s)| == |s|
  {
    if s != [] {
      var init, last := s[..|s| - 1], s[|s| - 1];
      DistinctCount(init);
      assert last !in init;
      assert Elements(s) == Elements(init) + {last};
    }
  }

  lemma {:induction false} SubsetCount<T>(a: set<T>, b: set<T>)
    requires a <= b
    ensures |a| <= |b|
    ensures |a| == |b| ==> a == b
    decreases a
  {
    if a != {} {
      var x :| x in a;
      SubsetCount(a - {x}, b - {x});
    }
  }

  // ─── Lists read as lookups ─────────────────────────────────────────────────

  /** A list of entries read as a lookup by key; of two entries with the same key the later one counts. */
  function ByKey<K, V>(rows: seq<V>, key: V -> K): map<K, V> {
    if rows == [] then map[] else ByKey(rows[..|rows| - 1], key)[key(rows[|rows| - 1]) := rows[|rows| - 1]]
  }

  lemma ByKeyPush<K, V>(rows: seq<V>, v: V, key: V -> K)
    ensures ByKey(rows + [v], key) == ByKey(rows, key)[key(v) := v]
  {
    assert (rows + [v])[..|rows|] == rows;
  }

  lemma {:induction false} ByKeyEntries<K, V>(rows: seq<V>, key: V -> K)
    ensures forall v :: v in rows ==> key(v) in ByKey(rows, key)
    ensures forall k :: k in ByKey(rows, key) ==> ByKey(rows, key)[k] in rows && key(ByKey(rows, key)[k]) == k
  {
    if rows != [] {
      ByKeyEntries(rows[..|rows| - 1], key);
    }
  }

  /** The entries of a lookup, listed in some order. */
  function Listing<K, V>(m: map<K, V>, order: seq<K>): (rows: seq<V>)
    requires forall k :: k in order ==> k in m
    ensures |rows| == |order| && forall i :: 0 <= i < |order| ==> rows[i] == m[order[i]]
  {
    seq(|order|, i requires 0 <= i < |order| => m[order[i]])
  }

  function Restricted<K, V>(m: map<K, V>, order: seq<K>): map<K, V> { map k | k in m && k in order :: m[k] }

  lemma RestrictedNext<K, V>(m: map<K, V>, order: seq<K>, k: K)
    requires k in m
    ensures Restricted(m, order + [k]) == Restricted(m, order)[k := m[k]]
  {
  }

  lemma {:induction false} ListingMeansRestricted<K, V>(m: map<K, V>, order: seq<K>, key: V -> K)
    requires (forall k :: k in order ==> k in m) && forall k :: k in m ==> key(m[k]) == k
    ensures ByKey(Listing(m, order), key) == Restricted(m, order)
  {
    if order != [] {
      var init, last := order[..|order| - 1], order[|order| - 1];
      assert order == init + [last];
      ListingMeansRestricted(m, init, key);
      RestrictedNext(m, init, last);
      assert Listing(m, order)[..|init|] == Listing(m, init);
    }
  }

  lemma ListingMeansMap<K, V>(m: map<K, V>, order: seq<K>, key: V -> K)
    requires Elements(order) == m.Keys
    requires forall k :: k in m ==> key(m[k]) == k
    ensures ByKey(Listing(m, order), key) == m
  {
    forall k ensures k in order <==> k in m {
      assert k in order <==> k in Elements(order);
    }
    ListingMeansRestricted(m, order, key);
    assert Restricted(m, order) == m;
  }

  // ─── Lists built by pushing ────────────────────────────────────────────────

  /** Each element of a list contributes some items, in order. */
  function FlatMap<T, U>(xs: seq<T>, f: T -> seq<U>): seq<U> {
    if xs == [] then [] else FlatMap(xs[..|xs| - 1], f) + f(xs[|xs| - 1])
  }

  lemma FlatMapNext<T, U>(xs: seq<T>, i: nat, f: T -> seq<U>)
    requires i < |xs|
    ensures FlatMap(xs[..i + 1], f) == FlatMap(xs[..i], f) + f(xs[i])
  {
    assert xs[..i + 1][..i] == xs[..i];
  }

  // ─── Sets as lists ─────────────────────────────────────────────────────────

  /** The elements of a set in some order: of rows without `ORDER BY`, or of the keys of a lookup. */
  method Enumerate<T(==)>(s: set<T>) returns (order: seq<T>)
    ensures Distinct(order) && Elements(order) == s
  {
    order := [];
    var left := s;
    while left != {}
      invariant Distinct(order) && Elements(order) + left == s && Elements(order) !! left
    {
      var x :| x in left;
      assert Elements(order + [x]) == Elements(order) + {x};
      order, left := order + [x], left - {x};
    }
  }
}
