/// The list primitives every aggregation of the application is built from:
/// `map`, `filter`, `reduce` into a sum, selection of the elements that carry
/// a given key, and the order in which a JavaScript object first sees its
/// keys. All of them are defined from the END of the list, so that a loop
/// that walks `s[..i]` extends them one element at a time.
module Seqs {

  predicate Distinct<K(==)>(s: seq<K>) {
    forall i, j :: 0 <= i < j < |s| ==> s[i] != s[j]
  }

  /** Two positions of a list without repetitions hold different elements. */
  lemma DistinctAt<K>(s: seq<K>, i: int, j: int)
    requires Distinct(s)
    requires 0 <= i < |s| && 0 <= j < |s| && i != j
    ensures s[i] != s[j]
  {
    if i > j {
      DistinctAt(s, j, i);
    }
  }

  /** `s.map(f)` */
  function MapSeq<T, U>(s: seq<T>, f: T -> U): (r: seq<U>)
    ensures |r| == |s|
    ensures forall i :: 0 <= i < |s| ==> r[i] == f(s[i])
  {
    if |s| == 0 then [] else MapSeq(s[..|s| - 1], f) + [f(s[|s| - 1])]
  }

  /** `s.reduce((sum, x) => sum + f(x), 0)` */
  function Sum<T>(s: seq<T>, f: T -> real): real
  {
    if |s| == 0 then 0.0 else Sum(s[..|s| - 1], f) + f(s[|s| - 1])
  }

  /** `s.filter(p)` */
  function Keep<T(!new)>(s: seq<T>, p: T -> bool): (r: seq<T>)
    ensures |r| <= |s|
    ensures forall x :: x in r <==> x in s && p(x)
  {
    if |s| == 0 then []
    else
      assert s == s[..|s| - 1] + [s[|s| - 1]];
      Keep(s[..|s| - 1], p) + (if p(s[|s| - 1]) then [s[|s| - 1]] else [])
  }

  /** `s.filter(x => key(x) === k)`: the elements filed under `k`, in input order. */
  function Select<T(!new), K(==)>(s: seq<T>, key: T -> K, k: K): (r: seq<T>)
    ensures |r| <= |s|
  {
    if |s| == 0 then []
    else
      assert s == s[..|s| - 1] + [s[|s| - 1]];
      Select(s[..|s| - 1], key, k) + (if key(s[|s| - 1]) == k then [s[|s| - 1]] else [])
  }

  /** What `Select` keeps: exactly the elements filed under `k`. */
  lemma {:induction false} SelectMember<T(!new), K>(s: seq<T>, key: T -> K, k: K)
    ensures forall x :: x in Select(s, key, k) <==> x in s && key(x) == k
    decreases |s|
  {
    if |s| > 0 {
      var s' := s[..|s| - 1];
      assert s == s' + [s[|s| - 1]];
      SelectMember(s', key, k);
      SelectSnoc(s', s[|s| - 1], key, k);
    }
  }

  /** The sum of `f` over the elements filed under `k`. */
  function SumWhere<T(!new), K(==)>(s: seq<T>, key: T -> K, k: K, f: T -> real): real
  {
    Sum(Select(s, key, k), f)
  }

  /**
    * The keys of `s` in the order a JavaScript object first receives them
    * (`if (!o[k]) o[k] = ...`); `Object.keys(o)` lists them in this order.
    */
  function FirstOccurrences<K(==, !new)>(s: seq<K>): (r: seq<K>)
    ensures forall k :: k in r <==> k in s
    ensures Distinct(r)
  {
    if |s| == 0 then []
    else
      assert s == s[..|s| - 1] + [s[|s| - 1]];
      var r := FirstOccurrences(s[..|s| - 1]);
      if s[|s| - 1] in r then r else r + [s[|s| - 1]]
  }

  /** The sum of the per-key sums over the keys `ks`. */
  function SumPerKey<T(!new), K(==)>(s: seq<T>, key: T -> K, ks: seq<K>, f: T -> real): real
  {
    if |ks| == 0 then 0.0 else SumPerKey(s, key, ks[..|ks| - 1], f) + SumWhere(s, key, ks[|ks| - 1], f)
  }

  function One<T>(x: T): real { 1.0 }

  // ----- one-step unfoldings used by the loops -----

  lemma PrefixStep<T>(s: seq<T>, i: int)
    requires 0 <= i < |s|
    ensures s[..i + 1][..i] == s[..i]
    ensures s[..i + 1] == s[..i] + [s[i]]
  {
  }

  lemma MapSeqSnoc<T, U>(s: seq<T>, x: T, f: T -> U)
    ensures MapSeq(s + [x], f) == MapSeq(s, f) + [f(x)]
  {
    assert (s + [x])[..|s|] == s;
  }

  /** What `map` produces from an element is in its output, and only that. */
  lemma MapSeqMember<T, U>(s: seq<T>, f: T -> U)
    ensures forall x :: x in s ==> f(x) in MapSeq(s, f)
    ensures forall y :: y in MapSeq(s, f) ==> exists x :: x in s && f(x) == y
  {
    forall x | x in s ensures f(x) in MapSeq(s, f) {
      var i :| 0 <= i < |s| && s[i] == x;
      assert MapSeq(s, f)[i] == f(x);
    }
    forall y | y in MapSeq(s, f) ensures exists x :: x in s && f(x) == y {
      var i :| 0 <= i < |s| && MapSeq(s, f)[i] == y;
      assert s[i] in s;
    }
  }

  lemma SumSnoc<T>(s: seq<T>, x: T, f: T -> real)
    ensures Sum(s + [x], f) == Sum(s, f) + f(x)
  {
    assert (s + [x])[..|s|] == s;
  }

  lemma SelectSnoc<T(!new), K>(s: seq<T>, x: T, key: T -> K, k: K)
    ensures Select(s + [x], key, k) == Select(s, key, k) + (if key(x) == k then [x] else [])
  {
    assert (s + [x])[..|s|] == s;
  }

  lemma SumWhereSnoc<T(!new), K>(s: seq<T>, x: T, key: T -> K, k: K, f: T -> real)
    ensures SumWhere(s + [x], key, k, f) == SumWhere(s, key, k, f) + (if key(x) == k then f(x) else 0.0)
  {
    SelectSnoc(s, x, key, k);
    if key(x) == k {
      SumSnoc(Select(s, key, k), x, f);
    } else {
      assert Select(s + [x], key, k) == Select(s, key, k);
    }
  }

  lemma FirstOccurrencesSnoc<K(!new)>(s: seq<K>, x: K)
    ensures FirstOccurrences(s + [x]) ==
            if x in FirstOccurrences(s) then FirstOccurrences(s) else FirstOccurrences(s) + [x]
  {
    assert (s + [x])[..|s|] == s;
  }

  lemma KeepSnoc<T(!new)>(s: seq<T>, x: T, p: T -> bool)
    ensures Keep(s + [x], p) == Keep(s, p) + (if p(x) then [x] else [])
  {
    assert (s + [x])[..|s|] == s;
  }

  // ----- properties of the sums -----

  lemma {:induction false} SumAppend<T>(a: seq<T>, b: seq<T>, f: T -> real)
    ensures Sum(a + b, f) == Sum(a, f) + Sum(b, f)
    decreases |b|
  {
    if |b| == 0 {
      assert a + b == a;
    } else {
      var b' := b[..|b| - 1];
      assert a + b == (a + b') + [b[|b| - 1]];
      SumSnoc(a + b', b[|b| - 1], f);
      SumAppend(a, b', f);
    }
  }

  /** A sum does not depend on the order of its terms. */
  lemma {:induction false} SumPermutation<T>(a: seq<T>, b: seq<T>, f: T -> real)
    requires multiset(a) == multiset(b)
    ensures Sum(a, f) == Sum(b, f)
    decreases |a|
  {
    if |a| == 0 {
      assert |b| == |multiset(b)| == 0;
    } else {
      var x := a[|a| - 1];
      var a' := a[..|a| - 1];
      assert a == a' + [x];
      assert x in multiset(b);
      var j :| 0 <= j < |b| && b[j] == x;
      var b' := b[..j] + b[j + 1..];
      SumRemove(b, j, f);
      MultisetRemove(b, j);
      assert multiset(a) == multiset(a') + multiset{x};
      assert multiset(a') == multiset(a) - multiset{x};
      assert multiset(b') == multiset(b) - multiset{x};
      SumPermutation(a', b', f);
      SumSnoc(a', x, f);
    }
  }

  /** Taking out the element at `j` takes its term out of the sum. */
  lemma SumRemove<T>(b: seq<T>, j: int, f: T -> real)
    requires 0 <= j < |b|
    ensures Sum(b, f) == Sum(b[..j] + b[j + 1..], f) + f(b[j])
  {
    SplitAt(b, j);
    SumMiddle(b[..j], b[j], b[j + 1..], f);
  }

  lemma SplitAt<T>(b: seq<T>, j: int)
    requires 0 <= j < |b|
    ensures b == (b[..j] + [b[j]]) + b[j + 1..]
  {
  }

  lemma SumMiddle<T>(left: seq<T>, x: T, right: seq<T>, f: T -> real)
    ensures Sum((left + [x]) + right, f) == Sum(left + right, f) + f(x)
  {
    SumAppend(left + [x], right, f);
    SumSnoc(left, x, f);
    SumAppend(left, right, f);
  }

  /** Taking out the element at `j` takes one occurrence of it out of the multiset. */
  lemma MultisetRemove<T>(b: seq<T>, j: int)
    requires 0 <= j < |b|
    ensures multiset(b) == multiset(b[..j] + b[j + 1..]) + multiset{b[j]}
  {
    assert b == b[..j] + [b[j]] + b[j + 1..];
  }

  lemma {:induction false} SumOfOnes<T>(s: seq<T>)
    ensures Sum(s, One) == |s| as real
    decreases |s|
  {
    if |s| > 0 {
      SumOfOnes(s[..|s| - 1]);
    }
  }

  /** A key that no element carries selects nothing, so its sum is 0. */
  lemma {:induction false} SelectAbsent<T(!new), K>(s: seq<T>, key: T -> K, k: K, f: T -> real)
    requires forall x :: x in s ==> key(x) != k
    ensures Select(s, key, k) == []
    ensures SumWhere(s, key, k, f) == 0.0
    decreases |s|
  {
    if |s| > 0 {
      var s' := s[..|s| - 1];
      assert s == s' + [s[|s| - 1]];
      SelectAbsent(s', key, k, f);
      SelectSnoc(s', s[|s| - 1], key, k);
    }
  }

  /** A key that `map(key)` never produced has nothing filed under it. */
  lemma SumWhereAbsent<T(!new), K>(s: seq<T>, key: T -> K, k: K, f: T -> real)
    requires k !in MapSeq(s, key)
    ensures Select(s, key, k) == []
    ensures SumWhere(s, key, k, f) == 0.0
  {
    MapSeqMember(s, key);
    SelectAbsent(s, key, k, f);
  }

  lemma {:induction false} SumPerKeySnoc<T(!new), K>(s: seq<T>, x: T, key: T -> K, ks: seq<K>, f: T -> real)
    requires Distinct(ks)
    ensures SumPerKey(s + [x], key, ks, f) == SumPerKey(s, key, ks, f) + (if key(x) in ks then f(x) else 0.0)
    decreases |ks|
  {
    if |ks| > 0 {
      var ks' := ks[..|ks| - 1];
      assert ks == ks' + [ks[|ks| - 1]];
      SumPerKeySnoc(s, x, key, ks', f);
      SumWhereSnoc(s, x, key, ks[|ks| - 1], f);
    }
  }

  /**
    * Grouping by key loses nothing: when the distinct keys `ks` cover every
    * element, the per-key sums add up to the plain sum.
    */
  lemma {:induction false} SumPartition<T(!new), K>(s: seq<T>, key: T -> K, ks: seq<K>, f: T -> real)
    requires Distinct(ks)
    requires forall x :: x in s ==> key(x) in ks
    ensures SumPerKey(s, key, ks, f) == Sum(s, f)
    decreases |s|
  {
    if |s| == 0 {
      SumPerKeyEmpty(s, key, ks, f);
    } else {
      var s' := s[..|s| - 1];
      assert s == s' + [s[|s| - 1]];
      SumPartition(s', key, ks, f);
      SumPerKeySnoc(s', s[|s| - 1], key, ks, f);
    }
  }

  lemma {:induction false} SumPerKeyEmpty<T(!new), K>(s: seq<T>, key: T -> K, ks: seq<K>, f: T -> real)
    requires |s| == 0
    ensures SumPerKey(s, key, ks, f) == 0.0
    decreases |ks|
  {
    if |ks| > 0 {
      SumPerKeyEmpty(s, key, ks[..|ks| - 1], f);
    }
  }

  // ----- selection and reordering -----

  lemma {:induction false} SelectMultiset<T(!new), K>(s: seq<T>, key: T -> K, k: K)
    ensures forall v :: multiset(Select(s, key, k))[v] == if key(v) == k then multiset(s)[v] else 0
    decreases |s|
  {
    if |s| > 0 {
      var s' := s[..|s| - 1];
      var x := s[|s| - 1];
      assert s == s' + [x];
      SelectMultiset(s', key, k);
      SelectSnoc(s', x, key, k);
    }
  }

  /** Reordering a list reorders, but does not change, what each key selects. */
  lemma SelectPermutation<T(!new), K>(a: seq<T>, b: seq<T>, key: T -> K, k: K)
    requires multiset(a) == multiset(b)
    ensures multiset(Select(a, key, k)) == multiset(Select(b, key, k))
    ensures |Select(a, key, k)| == |Select(b, key, k)|
  {
    SelectMultiset(a, key, k);
    SelectMultiset(b, key, k);
    assert multiset(Select(a, key, k)) == multiset(Select(b, key, k));
    assert |multiset(Select(a, key, k))| == |Select(a, key, k)|;
    assert |multiset(Select(b, key, k))| == |Select(b, key, k)|;
  }

  /**
    * One entry per distinct key: when `entry(k)` is filed under `k`, each key
    * of `ks` selects exactly one entry and any other key selects none.
    */
  lemma {:induction false} SelectOfEntries<K(!new), T(!new)>(ks: seq<K>, entry: K -> T, key: T -> K, n: K)
    requires Distinct(ks)
    requires forall k :: key(entry(k)) == k
    ensures |Select(MapSeq(ks, entry), key, n)| == if n in ks then 1 else 0
    decreases |ks|
  {
    if |ks| > 0 {
      var ks' := ks[..|ks| - 1];
      var k := ks[|ks| - 1];
      assert ks == ks' + [k];
      SelectOfEntries(ks', entry, key, n);
      MapSeqSnoc(ks', k, entry);
      SelectSnoc(MapSeq(ks', entry), entry(k), key, n);
    }
  }

  /**
    * Summing one value per key: when `g(entry(k))` is the sum filed under
    * `k`, the entries of `ks` add up to the per-key sums over `ks`.
    */
  lemma {:induction false} SumOfEntries<K, E, T(!new)>(ks: seq<K>, entry: K -> E, g: E -> real, s: seq<T>, key: T -> K, f: T -> real)
    requires forall k :: g(entry(k)) == SumWhere(s, key, k, f)
    ensures Sum(MapSeq(ks, entry), g) == SumPerKey(s, key, ks, f)
    decreases |ks|
  {
    if |ks| > 0 {
      var ks' := ks[..|ks| - 1];
      assert ks == ks' + [ks[|ks| - 1]];
      SumOfEntries(ks', entry, g, s, key, f);
      MapSeqSnoc(ks', ks[|ks| - 1], entry);
      SumSnoc(MapSeq(ks', entry), entry(ks[|ks| - 1]), g);
    }
  }

  /** With no negative term, a sum is not negative. */
  lemma {:induction false} SumNonNegative<T>(s: seq<T>, f: T -> real)
    requires forall x :: x in s ==> f(x) >= 0.0
    ensures Sum(s, f) >= 0.0
    decreases |s|
  {
    if |s| > 0 {
      assert s[|s| - 1] in s;
      assert forall x :: x in s[..|s| - 1] ==> x in s;
      SumNonNegative(s[..|s| - 1], f);
    }
  }

  /** With no negative term, the part filed under one key is at most the whole. */
  lemma {:induction false} SumWhereBounded<T(!new), K>(s: seq<T>, key: T -> K, k: K, f: T -> real)
    requires forall x :: x in s ==> f(x) >= 0.0
    ensures 0.0 <= SumWhere(s, key, k, f) <= Sum(s, f)
    decreases |s|
  {
    if |s| > 0 {
      var s' := s[..|s| - 1];
      var x := s[|s| - 1];
      assert s == s' + [x];
      assert x in s;
      assert forall y :: y in s' ==> y in s;
      SumWhereBounded(s', key, k, f);
      SumWhereSnoc(s', x, key, k, f);
      SumSnoc(s', x, f);
    }
  }

  /** Two filters that agree on every element keep the same elements. */
  lemma {:induction false} KeepAgree<T(!new)>(s: seq<T>, p: T -> bool, q: T -> bool)
    requires forall x :: p(x) == q(x)
    ensures Keep(s, p) == Keep(s, q)
    decreases |s|
  {
    if |s| > 0 {
      KeepAgree(s[..|s| - 1], p, q);
    }
  }

  /** Filtering a concatenation filters each part. */
  lemma {:induction false} KeepAppend<T(!new)>(a: seq<T>, b: seq<T>, p: T -> bool)
    ensures Keep(a + b, p) == Keep(a, p) + Keep(b, p)
    decreases |b|
  {
    if |b| > 0 {
      var c := b[..|b| - 1];
      assert a + b == (a + c) + [b[|b| - 1]];
      assert b == c + [b[|b| - 1]];
      KeepAppend(a, c, p);
      KeepSnoc(a + c, b[|b| - 1], p);
      KeepSnoc(c, b[|b| - 1], p);
    } else {
      assert a + b == a;
    }
  }

  /** Selecting from a concatenation selects from each part. */
  lemma {:induction false} SelectAppend<T(!new), K>(a: seq<T>, b: seq<T>, key: T -> K, k: K)
    ensures Select(a + b, key, k) == Select(a, key, k) + Select(b, key, k)
    decreases |b|
  {
    if |b| > 0 {
      var c, y := b[..|b| - 1], b[|b| - 1];
      assert a + b == (a + c) + [y];
      assert b == c + [y];
      SelectAppend(a, c, key, k);
      SelectSnoc(a + c, y, key, k);
      SelectSnoc(c, y, key, k);
    } else {
      assert a + b == a;
    }
  }

  /** Selecting from a list with one more element in front. */
  lemma SelectPrepend<T(!new), K>(x: T, s: seq<T>, key: T -> K, k: K)
    ensures Select([x] + s, key, k) == (if key(x) == k then [x] else []) + Select(s, key, k)
  {
    SelectAppend([x], s, key, k);
    SelectSnoc([], x, key, k);
    assert [] + [x] == [x];
  }

  /** A filter that every element passes keeps the list as it is. */
  lemma {:induction false} KeepAll<T(!new)>(s: seq<T>, p: T -> bool)
    requires forall x :: x in s ==> p(x)
    ensures Keep(s, p) == s
    decreases |s|
  {
    if |s| > 0 {
      assert s == s[..|s| - 1] + [s[|s| - 1]];
      KeepAll(s[..|s| - 1], p);
    }
  }

  /** Filtering a list without repetitions leaves none. */
  lemma {:induction false} KeepDistinct<T(!new)>(s: seq<T>, p: T -> bool)
    requires Distinct(s)
    ensures Distinct(Keep(s, p))
    decreases |s|
  {
    if |s| > 0 {
      var init, x := s[..|s| - 1], s[|s| - 1];
      assert s == init + [x];
      KeepDistinct(init, p);
      assert x !in init;
      var k := Keep(init, p);
      if p(x) {
        forall i, j | 0 <= i < j < |k| + 1 ensures (k + [x])[i] != (k + [x])[j] {
          if j == |k| {
            assert (k + [x])[i] == k[i] && k[i] in k;
          }
        }
      }
    }
  }

  /** Lists with the same elements counted with multiplicity have the same members. */
  lemma SameMembers<T>(a: seq<T>, b: seq<T>)
    requires multiset(a) == multiset(b)
    ensures forall x :: x in a <==> x in b
  {
    forall x ensures x in a <==> x in b {
      assert x in a <==> x in multiset(a);
      assert x in b <==> x in multiset(b);
    }
  }

  /** `new Set(s)`: the values `s` holds. */
  function Elements<K>(s: seq<K>): set<K> {
    set x | x in s
  }

  /**
    * A set built from a list has at most as many values as the list has
    * elements, exactly as many when they are all different, and at least
    * one when the list is not empty.
    */
  lemma {:induction false} ElementsSize<K>(s: seq<K>)
    ensures |Elements(s)| <= |s|
    ensures Distinct(s) ==> |Elements(s)| == |s|
    ensures |s| > 0 ==> |Elements(s)| >= 1
    decreases |s|
  {
    if |s| > 0 {
      var init, last := s[..|s| - 1], s[|s| - 1];
      assert s == init + [last];
      assert Elements(s) == Elements(init) + {last};
      ElementsSize(init);
      if Distinct(s) {
        assert last !in init by {
          forall i | 0 <= i < |init| ensures init[i] != last {
            assert s[i] == init[i];
          }
        }
        assert Distinct(init) by {
          forall i, j | 0 <= i < j < |init| ensures init[i] != init[j] {
            assert s[i] == init[i] && s[j] == init[j];
          }
        }
      }
      assert last in Elements(s);
    }
  }

  /** The number of different values is the length of their first-seen list. */
  lemma CountDistinct<K(!new)>(s: seq<K>)
    ensures |Elements(s)| == |FirstOccurrences(s)|
    ensures |Elements(s)| <= |s|
    ensures |s| > 0 <==> |Elements(s)| > 0
  {
    assert Elements(FirstOccurrences(s)) == Elements(s);
    ElementsSize(FirstOccurrences(s));
    ElementsSize(s);
    if |s| > 0 {
      assert s[0] in Elements(s);
    }
  }

  /**
    * `new Set(xs.map(f)).size`: how many different values `f` takes over
    * `xs`, at most one per element, and at least one when there is an
    * element.
    */
  function DistinctCount<T, K(==,!new)>(xs: seq<T>, f: T -> K): (n: nat)
    ensures n <= |xs|
    ensures |xs| > 0 <==> n > 0
  {
    CountDistinct(MapSeq(xs, f));
    |Elements(MapSeq(xs, f))|
  }

  /** Each different value is counted once: as many as the first-seen list of the values holds. */
  lemma DistinctCountFirstSeen<T, K(!new)>(xs: seq<T>, f: T -> K)
    ensures DistinctCount(xs, f) == |FirstOccurrences(MapSeq(xs, f))|
  {
    CountDistinct(MapSeq(xs, f));
  }
}
