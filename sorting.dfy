/** Sorting by a key (`OrderBy` / `OrderByDescending`), as a stable
    insertion sort parameterised by the comparison on keys. */
module Sorting {

  /** `le` is total and transitive: a valid `OrderBy` comparison. */
  ghost predicate TotalPreorder<K(!new)>(le: (K, K) -> bool) {
    && (forall a, b :: le(a, b) || le(b, a))
    && (forall a, b, c :: le(a, b) && le(b, c) ==> le(a, c))
  }

  /** Every element's key is `le` every later element's key. */
  ghost predicate SortedBy<T, K>(s: seq<T>, key: T -> K, le: (K, K) -> bool) {
    forall i, j :: 0 <= i < j < |s| ==> le(key(s[i]), key(s[j]))
  }

  /** `s` with `x` placed after every element whose key is `le` its own. */
  function Insert<T, K>(x: T, s: seq<T>, key: T -> K, le: (K, K) -> bool): (r: seq<T>)
    ensures |r| == |s| + 1
    ensures multiset(r) == multiset(s) + multiset{x}
    decreases |s|
  {
    if s == [] then [x]
    else if le(key(s[0]), key(x)) then
      assert s == [s[0]] + s[1..];
      [s[0]] + Insert(x, s[1..], key, le)
    else [x] + s
  }

  lemma {:induction false} InsertKeepsSorted<T, K(!new)>(x: T, s: seq<T>, key: T -> K, le: (K, K) -> bool)
    requires TotalPreorder(le)
    requires SortedBy(s, key, le)
    ensures SortedBy(Insert(x, s, key, le), key, le)
    decreases |s|
  {
    if s != [] && le(key(s[0]), key(x)) {
      InsertKeepsSorted(x, s[1..], key, le);
      var r := Insert(x, s, key, le);
      assert r == [s[0]] + Insert(x, s[1..], key, le);
      forall j | 0 < j < |r| ensures le(key(r[0]), key(r[j])) {
        var y := r[j];
        assert y in multiset(Insert(x, s[1..], key, le));
        assert y == x || y in multiset(s[1..]);
      }
    }
  }

  /** `s` sorted by `key` under `le`: the same elements, in key order. */
  function SortBy<T, K(!new)>(s: seq<T>, key: T -> K, le: (K, K) -> bool): (r: seq<T>)
    requires TotalPreorder(le)
    ensures |r| == |s|
    ensures multiset(r) == multiset(s)
    ensures SortedBy(r, key, le)
    decreases |s|
  {
    if s == [] then []
    else
      var sorted := SortBy(s[..|s| - 1], key, le);
      InsertKeepsSorted(s[|s| - 1], sorted, key, le);
      assert s == s[..|s| - 1] + [s[|s| - 1]];
      Insert(s[|s| - 1], sorted, key, le)
  }
}
