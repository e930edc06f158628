/// `Array.prototype.sort` with a comparator, which the ECMAScript standard
/// requires to be stable. `SortBy(s, before)` inserts every element in front
/// of the first later-placed element it may precede, so elements the
/// comparator calls equal keep their input order.
module Sorting {
  import opened Seqs

  /** `before(a, b)`: the comparator does not put `b` strictly ahead of `a`. */
  ghost predicate TotalPreorder<T(!new)>(before: (T, T) -> bool) {
    (forall a, b :: before(a, b) || before(b, a)) &&
    (forall a, b, c :: before(a, b) && before(b, c) ==> before(a, c))
  }

  predicate SortedBy<T>(s: seq<T>, before: (T, T) -> bool) {
    forall i, j :: 0 <= i < j < |s| ==> before(s[i], s[j])
  }

  function Insert<T>(x: T, s: seq<T>, before: (T, T) -> bool): (r: seq<T>)
    ensures |r| == |s| + 1
    ensures multiset(r) == multiset(s) + multiset{x}
  {
    if |s| == 0 || before(x, s[0]) then [x] + s
    else
      assert s == [s[0]] + s[1..];
      [s[0]] + Insert(x, s[1..], before)
  }

  function SortBy<T>(s: seq<T>, before: (T, T) -> bool): (r: seq<T>)
    ensures |r| == |s|
    ensures multiset(r) == multiset(s)
  {
    if |s| == 0 then []
    else
      assert s == [s[0]] + s[1..];
      Insert(s[0], SortBy(s[1..], before), before)
  }

  lemma {:induction false} InsertSorted<T(!new)>(x: T, s: seq<T>, before: (T, T) -> bool)
    requires TotalPreorder(before)
    requires SortedBy(s, before)
    ensures SortedBy(Insert(x, s, before), before)
    decreases |s|
  {
    if |s| == 0 || before(x, s[0]) {
      var r := [x] + s;
      forall i, j | 0 <= i < j < |r| ensures before(r[i], r[j]) {
        if i > 0 {
          assert r[i] == s[i - 1] && r[j] == s[j - 1];
        } else {
          assert r[j] == s[j - 1];
          if j > 1 {
            assert before(s[0], s[j - 1]);
          }
        }
      }
    } else {
      assert before(s[0], x);
      var rest := Insert(x, s[1..], before);
      InsertSorted(x, s[1..], before);
      forall j | 0 <= j < |rest| ensures before(s[0], rest[j]) {
        assert rest[j] in multiset(rest);
        if rest[j] != x {
          assert rest[j] in multiset(s[1..]);
          var k :| 0 <= k < |s[1..]| && s[1..][k] == rest[j];
          assert s[k + 1] == rest[j];
        }
      }
      var r := [s[0]] + rest;
      forall i, j | 0 <= i < j < |r| ensures before(r[i], r[j]) {
        assert r[j] == rest[j - 1];
        if i > 0 {
          assert r[i] == rest[i - 1];
        }
      }
    }
  }

  /** The sorted list is ordered by the comparator. */
  lemma {:induction false} SortBySorted<T(!new)>(s: seq<T>, before: (T, T) -> bool)
    requires TotalPreorder(before)
    ensures SortedBy(SortBy(s, before), before)
    decreases |s|
  {
    if |s| > 0 {
      SortBySorted(s[1..], before);
      InsertSorted(s[0], SortBy(s[1..], before), before);
    }
  }

  /** The comparator `(a, b) => b.timestamp - a.timestamp`, reading each record's timestamp through `stamp`. */
  function NewestFirst<T>(stamp: T -> int): (T, T) -> bool {
    (a: T, b: T) => stamp(a) >= stamp(b)
  }

  /**
    * `records.sort((a, b) => b.timestamp - a.timestamp)`: every record as
    * often as it occurs, and no older record ahead of a newer one.
    */
  function SortNewestFirst<T(!new)>(records: seq<T>, stamp: T -> int): (r: seq<T>)
    ensures multiset(r) == multiset(records)
    ensures forall i, j :: 0 <= i < j < |r| ==> stamp(r[i]) >= stamp(r[j])
  {
    SortBySorted(records, NewestFirst(stamp));
    SortBy(records, NewestFirst(stamp))
  }

  lemma SortedSnoc<T>(t: seq<T>, x: T, before: (T, T) -> bool)
    requires SortedBy(t, before)
    requires forall y :: y in t ==> before(y, x)
    ensures SortedBy(t + [x], before)
  {
    var r := t + [x];
    forall i, j | 0 <= i < j < |r| ensures before(r[i], r[j]) {
      assert r[i] == t[i];
      if j < |t| {
        assert r[j] == t[j];
      }
    }
  }

  /** Filtering a sorted list leaves it sorted. */
  lemma {:induction false} KeepSorted<T(!new)>(s: seq<T>, p: T -> bool, before: (T, T) -> bool)
    requires SortedBy(s, before)
    ensures SortedBy(Keep(s, p), before)
    decreases |s|
  {
    if |s| > 0 {
      var s' := s[..|s| - 1];
      var x := s[|s| - 1];
      assert s == s' + [x];
      KeepSorted(s', p, before);
      KeepSnoc(s', x, p);
      if p(x) {
        var k' := Keep(s', p);
        forall y | y in k' ensures before(y, x) {
          var m :| 0 <= m < |s'| && s'[m] == y;
          assert s[m] == y;
        }
        SortedSnoc(k', x, before);
      }
    }
  }
}
