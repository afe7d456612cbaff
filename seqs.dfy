/** Folds over sequences: the LINQ operators `Where`, `Sum`, `Distinct`
    and `Select`, as the services apply them to the ledger's tables. */
module Seqs {

  /** The elements of `s` that satisfy `p`, in their original order (`Where`). */
  function Filter<T(!new)>(s: seq<T>, p: T -> bool): (r: seq<T>)
    ensures |r| <= |s|
    ensures forall x :: x in r <==> x in s && p(x)
    ensures multiset(r) <= multiset(s)
    ensures forall i :: 0 <= i < |r| ==> p(r[i])
    decreases |s|
  {
    if s == [] then []
    else
      assert s == [s[0]] + s[1..];
      (if p(s[0]) then [s[0]] else []) + Filter(s[1..], p)
  }

  /** The sum of `f` over `s`, zero for an empty sequence (`Sum`). */
  function Sum<T>(s: seq<T>, f: T -> int): int
    decreases |s|
  {
    if s == [] then 0 else f(s[0]) + Sum(s[1..], f)
  }

  /** `f` applied to every element of `s` (`Select`). */
  function Map<T, U>(s: seq<T>, f: T -> U): (r: seq<U>)
    ensures |r| == |s|
    ensures forall i :: 0 <= i < |s| ==> r[i] == f(s[i])
  {
    seq(|s|, i requires 0 <= i < |s| => f(s[i]))
  }

  /** No element occurs twice. */
  predicate NoDuplicates<T(==)>(s: seq<T>) {
    forall i, j :: 0 <= i < j < |s| ==> s[i] != s[j]
  }

  /** The distinct elements of `s`, each at its first appearance (`Distinct`). */
  function Distinct<T(==,!new)>(s: seq<T>): (r: seq<T>)
    ensures NoDuplicates(r)
    ensures forall x :: x in r <==> x in s
    decreases |s|
  {
    if s == [] then []
    else
      var r := Distinct(s[..|s| - 1]);
      if s[|s| - 1] in r then r else r + [s[|s| - 1]]
  }

  lemma {:induction false} FilterConcat<T(!new)>(a: seq<T>, b: seq<T>, p: T -> bool)
    ensures Filter(a + b, p) == Filter(a, p) + Filter(b, p)
    decreases |a|
  {
    if a == [] {
      assert a + b == b;
    } else {
      assert (a + b)[1..] == a[1..] + b;
      FilterConcat(a[1..], b, p);
    }
  }

  /** Nothing passes a filter that no element satisfies. */
  lemma {:induction false} FilterNone<T(!new)>(s: seq<T>, p: T -> bool)
    requires forall x :: x in s ==> !p(x)
    ensures Filter(s, p) == []
    decreases |s|
  {
    if s != [] {
      assert s[0] in s;
      FilterNone(s[1..], p);
    }
  }

  lemma {:induction false} SumConcat<T>(a: seq<T>, b: seq<T>, f: T -> int)
    ensures Sum(a + b, f) == Sum(a, f) + Sum(b, f)
    decreases |a|
  {
    if a == [] {
      assert a + b == b;
    } else {
      assert (a + b)[1..] == a[1..] + b;
      SumConcat(a[1..], b, f);
    }
  }

  /** The filtered sum after appending `x` gains `x`'s term when `x` passes. */
  lemma FilteredSumAppend<T(!new)>(s: seq<T>, x: T, p: T -> bool, f: T -> int)
    ensures Sum(Filter(s + [x], p), f) == Sum(Filter(s, p), f) + (if p(x) then f(x) else 0)
  {
    FilterConcat(s, [x], p);
    assert Filter([x], p) == if p(x) then [x] else [];
    SumConcat(Filter(s, p), Filter([x], p), f);
  }

  /** The filtered sum after replacing the element at `k` by `x` loses the
      old element's term and gains `x`'s. */
  lemma FilteredSumReplace<T(!new)>(s: seq<T>, k: nat, x: T, p: T -> bool, f: T -> int)
    requires k < |s|
    ensures Sum(Filter(s[k := x], p), f)
         == Sum(Filter(s, p), f) - (if p(s[k]) then f(s[k]) else 0) + (if p(x) then f(x) else 0)
  {
    var a, b := s[..k], s[k + 1..];
    assert s == a + [s[k]] + b;
    assert s[k := x] == a + [x] + b;
    FilteredSumAppend(a, s[k], p, f);
    FilteredSumAppend(a, x, p, f);
    FilterConcat(a + [s[k]], b, p);
    FilterConcat(a + [x], b, p);
    SumConcat(Filter(a + [s[k]], p), Filter(b, p), f);
    SumConcat(Filter(a + [x], p), Filter(b, p), f);
  }

  /** In a sequence without duplicates every element occurs at most once. */
  lemma {:induction false} NoDuplicatesCount<T>(s: seq<T>, x: T)
    requires NoDuplicates(s)
    ensures multiset(s)[x] <= 1
    decreases |s|
  {
    if s != [] {
      assert s == [s[0]] + s[1..];
      assert NoDuplicates(s[1..]) by {
        forall i, j | 0 <= i < j < |s[1..]| ensures s[1..][i] != s[1..][j] {
          assert s[1..][i] == s[i + 1] && s[1..][j] == s[j + 1];
        }
      }
      NoDuplicatesCount(s[1..], x);
      if s[0] == x {
        forall j | 0 <= j < |s[1..]| ensures s[1..][j] != x {
          assert s[1..][j] == s[j + 1];
        }
        assert x !in s[1..];
      }
    }
  }

  /** An element found at two positions occurs at least twice. */
  lemma DuplicateCount<T>(s: seq<T>, i: nat, j: nat)
    requires i < j < |s| && s[i] == s[j]
    ensures multiset(s)[s[i]] >= 2
  {
    var a, b := s[..i], s[i + 1..];
    assert s == a + [s[i]] + b;
    assert b[j - i - 1] == s[j];
    assert s[i] in b;
  }

  /** Reordering a sequence without duplicates leaves none. */
  lemma PermutationKeepsNoDuplicates<T>(a: seq<T>, b: seq<T>)
    requires multiset(a) == multiset(b) && NoDuplicates(a)
    ensures NoDuplicates(b)
  {
    forall i, j | 0 <= i < j < |b| ensures b[i] != b[j] {
      NoDuplicatesCount(a, b[i]);
      if b[i] == b[j] {
        DuplicateCount(b, i, j);
      }
    }
  }

  /** A sum does not depend on the order of its terms: reordering a
      listing keeps its total. */
  lemma {:induction false} SumOfPermutation<T>(a: seq<T>, b: seq<T>, f: T -> int)
    requires multiset(a) == multiset(b)
    ensures Sum(a, f) == Sum(b, f)
    decreases |a|
  {
    if a != [] {
      assert a[0] in multiset(b);
      var i :| 0 <= i < |b| && b[i] == a[0];
      var rest := b[..i] + b[i + 1..];
      RestOfPermutation(a, b, i);
      SumOfPermutation(a[1..], rest, f);
      SumWithout(b, i, f);
    } else {
      assert |b| == |multiset(b)| == 0;
    }
  }

  /** Taking the first element off `a` and its match off `b` leaves two
      sequences with the same elements. */
  lemma RestOfPermutation<T>(a: seq<T>, b: seq<T>, i: nat)
    requires multiset(a) == multiset(b) && a != [] && i < |b| && b[i] == a[0]
    ensures multiset(a[1..]) == multiset(b[..i] + b[i + 1..])
  {
    assert b == b[..i] + [b[i]] + b[i + 1..];
    assert a == [a[0]] + a[1..];
    assert multiset(b) == multiset(b[..i]) + multiset{b[i]} + multiset(b[i + 1..]);
    assert multiset(a) == multiset{a[0]} + multiset(a[1..]);
    calc {
      multiset(a[1..]);
      multiset(a) - multiset{a[0]};
      multiset(b) - multiset{b[i]};
      multiset(b[..i]) + multiset(b[i + 1..]);
      multiset(b[..i] + b[i + 1..]);
    }
  }

  /** A sum is one term plus the sum of the others. */
  lemma SumWithout<T>(b: seq<T>, i: nat, f: T -> int)
    requires i < |b|
    ensures Sum(b, f) == f(b[i]) + Sum(b[..i] + b[i + 1..], f)
  {
    assert b == b[..i] + [b[i]] + b[i + 1..];
    SumConcat(b[..i] + [b[i]], b[i + 1..], f);
    SumConcat(b[..i], [b[i]], f);
    SumConcat(b[..i], b[i + 1..], f);
  }

  /** The total of `f` over the elements of `s` whose key is `k`: one
      group's sum in a `GroupBy(key)` followed by `Sum(f)`. */
  function KeyTotal<T(!new), K(==)>(s: seq<T>, key: T -> K, k: K, f: T -> int): int {
    Sum(Filter(s, x => key(x) == k), f)
  }

  /** The group totals for the keys `ks`, added up. */
  function TotalOverKeys<T(!new), K(==)>(s: seq<T>, key: T -> K, ks: seq<K>, f: T -> int): int
    decreases |ks|
  {
    if ks == [] then 0 else KeyTotal(s, key, ks[0], f) + TotalOverKeys(s, key, ks[1..], f)
  }

  lemma {:induction false} TotalOverKeysCons<T(!new), K>(x: T, s: seq<T>, key: T -> K, ks: seq<K>, f: T -> int)
    requires NoDuplicates(ks)
    ensures TotalOverKeys([x] + s, key, ks, f)
         == TotalOverKeys(s, key, ks, f) + (if key(x) in ks then f(x) else 0)
    decreases |ks|
  {
    if ks != [] {
      assert NoDuplicates(ks[1..]);
      KeyTotalCons(x, s, key, ks[0], f);
      TotalOverKeysCons(x, s, key, ks[1..], f);
      assert key(x) in ks <==> key(x) == ks[0] || key(x) in ks[1..];
      assert key(x) == ks[0] ==> key(x) !in ks[1..];
    }
  }

  lemma KeyTotalCons<T(!new), K>(x: T, s: seq<T>, key: T -> K, k: K, f: T -> int)
    ensures KeyTotal([x] + s, key, k, f) == (if key(x) == k then f(x) else 0) + KeyTotal(s, key, k, f)
  {
    var p := y => key(y) == k;
    assert ([x] + s)[1..] == s;
    assert Filter([x] + s, p) == (if p(x) then [x] else []) + Filter(s, p);
    if p(x) {
      assert Filter([x] + s, p) == [x] + Filter(s, p);
    } else {
      assert Filter([x] + s, p) == Filter(s, p);
    }
  }

  /** Grouping by a key and adding up the group totals loses and
      double-counts nothing, as long as every element's key is listed once. */
  lemma {:induction false} TotalOverKeysIsSum<T(!new), K>(s: seq<T>, key: T -> K, ks: seq<K>, f: T -> int)
    requires NoDuplicates(ks)
    requires forall x :: x in s ==> key(x) in ks
    ensures TotalOverKeys(s, key, ks, f) == Sum(s, f)
    decreases |s|
  {
    if s == [] {
      TotalOverKeysOfEmpty(key, ks, f);
    } else {
      assert s == [s[0]] + s[1..];
      TotalOverKeysCons(s[0], s[1..], key, ks, f);
      TotalOverKeysIsSum(s[1..], key, ks, f);
    }
  }

  lemma {:induction false} TotalOverKeysOfEmpty<T(!new), K>(key: T -> K, ks: seq<K>, f: T -> int)
    ensures TotalOverKeys([], key, ks, f) == 0
    decreases |ks|
  {
    if ks != [] {
      TotalOverKeysOfEmpty(key, ks[1..], f);
    }
  }

  /** Two conditions that agree on every element select the same elements. */
  lemma {:induction false} FilterAgree<T(!new)>(s: seq<T>, p: T -> bool, q: T -> bool)
    requires forall x :: x in s ==> p(x) == q(x)
    ensures Filter(s, p) == Filter(s, q)
    decreases |s|
  {
    if s != [] {
      FilterAgree(s[1..], p, q);
    }
  }

  /** `Sum` depends only on the values `f` takes on the sequence. */
  lemma {:induction false} SumAgree<T>(s: seq<T>, f: T -> int, g: T -> int)
    requires forall x :: x in s ==> f(x) == g(x)
    ensures Sum(s, f) == Sum(s, g)
    decreases |s|
  {
    if s != [] {
      SumAgree(s[1..], f, g);
    }
  }

  /** A condition every element meets keeps the whole sequence. */
  lemma {:induction false} FilterAll<T(!new)>(s: seq<T>, p: T -> bool)
    requires forall x :: x in s ==> p(x)
    ensures Filter(s, p) == s
    decreases |s|
  {
    if s != [] {
      assert s[0] in s;
      FilterAll(s[1..], p);
      assert s == [s[0]] + s[1..];
    }
  }

  /** Filtering twice is filtering once by both conditions. */
  lemma {:induction false} FilterFilter<T(!new)>(s: seq<T>, p: T -> bool, q: T -> bool)
    ensures Filter(Filter(s, p), q) == Filter(s, x => p(x) && q(x))
    decreases |s|
  {
    if s != [] {
      FilterFilter(s[1..], p, q);
      var head := if p(s[0]) then [s[0]] else [];
      FilterConcat(head, Filter(s[1..], p), q);
      assert Filter(head, q) == if p(s[0]) && q(s[0]) then [s[0]] else [];
    }
  }

  /** One group's total within a filtered sequence is the total over the
      elements meeting both the filter and the group's key. */
  lemma {:induction false} KeyTotalOfFilter<T(!new), K>(s: seq<T>, p: T -> bool, key: T -> K, k: K, f: T -> int, q: T -> bool)
    requires forall x :: x in s ==> q(x) == (p(x) && key(x) == k)
    ensures KeyTotal(Filter(s, p), key, k, f) == Sum(Filter(s, q), f)
    decreases |s|
  {
    if s != [] {
      var h, t := s[0], s[1..];
      KeyTotalOfFilter(t, p, key, k, f, q);
      assert h in s;
      if p(h) {
        assert Filter(s, p) == [h] + Filter(t, p);
        KeyTotalCons(h, Filter(t, p), key, k, f);
        if q(h) {
          assert Filter(s, q) == [h] + Filter(t, q);
          assert ([h] + Filter(t, q))[1..] == Filter(t, q);
        } else {
          assert Filter(s, q) == Filter(t, q);
        }
      } else {
        assert Filter(s, p) == Filter(t, p);
        assert Filter(s, q) == Filter(t, q);
      }
    }
  }

  /** A sum of terms each no larger than another's is no larger. */
  lemma {:induction false} SumMonotone<T>(s: seq<T>, f: T -> int, g: T -> int)
    requires forall x :: x in s ==> f(x) <= g(x)
    ensures Sum(s, f) <= Sum(s, g)
    decreases |s|
  {
    if s != [] {
      assert s[0] in s;
      SumMonotone(s[1..], f, g);
    }
  }

  /** A filtered sum of terms that are never negative is never negative
      and never above the whole sum; it is the whole sum when every element
      passes, and zero when none does. */
  lemma {:induction false} FilteredSumBounds<T(!new)>(s: seq<T>, p: T -> bool, f: T -> int)
    ensures (forall x :: x in s ==> f(x) >= 0) ==> 0 <= Sum(Filter(s, p), f) <= Sum(s, f)
    ensures (forall x :: x in s ==> p(x)) ==> Sum(Filter(s, p), f) == Sum(s, f)
    ensures (forall x :: x in s ==> !p(x)) ==> Sum(Filter(s, p), f) == 0
    decreases |s|
  {
    if s != [] {
      assert s[0] in s;
      assert forall x :: x in s[1..] ==> x in s;
      FilteredSumBounds(s[1..], p, f);
      var head := if p(s[0]) then [s[0]] else [];
      assert Filter(s, p) == head + Filter(s[1..], p);
      SumConcat(head, Filter(s[1..], p), f);
    }
  }

  /** Summing `h` over a projection by `g` is summing any `k` that agrees
      with `h` after `g`. */
  lemma {:induction false} SumOfMap<T, U>(s: seq<T>, g: T -> U, h: U -> int, k: T -> int)
    requires forall x :: x in s ==> k(x) == h(g(x))
    ensures Sum(Map(s, g), h) == Sum(s, k)
    decreases |s|
  {
    if s != [] {
      assert s[0] in s;
      assert Map(s, g)[1..] == Map(s[1..], g);
      SumOfMap(s[1..], g, h, k);
    }
  }

  /** Summing ones counts. */
  lemma {:induction false} SumOfOnes<T>(s: seq<T>, f: T -> int)
    requires forall x :: x in s ==> f(x) == 1
    ensures Sum(s, f) == |s|
    decreases |s|
  {
    if s != [] {
      assert s[0] in s;
      SumOfOnes(s[1..], f);
    }
  }

  /** The group totals for the keys `ks` are a sum over `ks` of any `g`
      that gives each key's group total. */
  lemma {:induction false} TotalOverKeysAsSum<T(!new), K>(s: seq<T>, key: T -> K, ks: seq<K>, f: T -> int, g: K -> int)
    requires forall k :: k in ks ==> g(k) == KeyTotal(s, key, k, f)
    ensures TotalOverKeys(s, key, ks, f) == Sum(ks, g)
    decreases |ks|
  {
    if ks != [] {
      assert ks[0] in ks;
      TotalOverKeysAsSum(s, key, ks[1..], f, g);
    }
  }

  /** The group totals over keys drawn from `xs` are a sum over `xs` of
      any `g` that gives each element's group total. */
  lemma {:induction false} TotalOverKeysOfMap<T(!new), U, K>(s: seq<T>, key: T -> K, xs: seq<U>, kf: U -> K, f: T -> int, g: U -> int)
    requires forall x :: x in xs ==> g(x) == KeyTotal(s, key, kf(x), f)
    ensures TotalOverKeys(s, key, Map(xs, kf), f) == Sum(xs, g)
    decreases |xs|
  {
    if xs != [] {
      assert xs[0] in xs;
      assert Map(xs, kf)[1..] == Map(xs[1..], kf);
      TotalOverKeysOfMap(s, key, xs[1..], kf, f, g);
    }
  }

  /** Grouping by a key that takes each value in `ks` once, and adding up
      the group totals, gives the plain total (`GroupBy` loses and
      double-counts nothing). */
  lemma GroupTotalsAddUp<T(!new), K>(s: seq<T>, key: T -> K, ks: seq<K>, f: T -> int, g: K -> int)
    requires NoDuplicates(ks)
    requires forall x :: x in s ==> key(x) in ks
    requires forall k :: k in ks ==> g(k) == KeyTotal(s, key, k, f)
    ensures Sum(ks, g) == Sum(s, f)
  {
    TotalOverKeysAsSum(s, key, ks, f, g);
    TotalOverKeysIsSum(s, key, ks, f);
  }

  /** The values of a projection are the images of the elements. */
  lemma InMap<T, U>(s: seq<T>, f: T -> U)
    ensures forall y :: y in Map(s, f) <==> exists x :: x in s && f(x) == y
  {
    forall y | y in Map(s, f) ensures exists x :: x in s && f(x) == y {
      var i :| 0 <= i < |s| && Map(s, f)[i] == y;
      assert s[i] in s;
    }
    forall y | exists x :: x in s && f(x) == y ensures y in Map(s, f) {
      var x :| x in s && f(x) == y;
      var i :| 0 <= i < |s| && s[i] == x;
      assert Map(s, f)[i] == y;
    }
  }
}
