/** Generic sequence operations that mirror JavaScript's Array.prototype.filter and reversal. */
module Seqs {

  /** `s.filter(keep)`: the elements of `s` that satisfy `keep`, in their original order. */
  function Filter<T(==,!new)>(s: seq<T>, keep: T -> bool): (r: seq<T>)
    ensures |r| <= |s|
    ensures forall x :: x in r <==> x in s && keep(x)
  {
    if s == [] then []
    else (if keep(s[0]) then [s[0]] else []) + Filter(s[1..], keep)
  }

  /** Filtering distributes over concatenation, so the kept elements stay in their original order. */
  lemma {:induction false} FilterAppend<T(!new)>(a: seq<T>, b: seq<T>, keep: T -> bool)
    ensures Filter(a + b, keep) == Filter(a, keep) + Filter(b, keep)
  {
    if a == [] {
      assert a + b == b;
    } else {
      assert (a + b)[1..] == a[1..] + b;
      FilterAppend(a[1..], b, keep);
    }
  }

  /** When every element is kept, the filter is the identity. */
  lemma {:induction false} FilterKeepsAll<T(!new)>(s: seq<T>, keep: T -> bool)
    requires forall x :: x in s ==> keep(x)
    ensures Filter(s, keep) == s
  {
    if s != [] {
      assert forall x :: x in s[1..] ==> x in s;
      FilterKeepsAll(s[1..], keep);
    }
  }

  /** When no element is kept, the filter is empty. */
  lemma {:induction false} FilterDropsAll<T(!new)>(s: seq<T>, keep: T -> bool)
    requires forall x :: x in s ==> !keep(x)
    ensures Filter(s, keep) == []
  {
    if s != [] {
      assert forall x :: x in s[1..] ==> x in s;
      FilterDropsAll(s[1..], keep);
    }
  }

  /** A filter and its complement split `s`: their sizes add up and together they hold every element once. */
  lemma {:induction false} FilterSplits<T(!new)>(s: seq<T>, keep: T -> bool, drop: T -> bool)
    requires forall x :: drop(x) == !keep(x)
    ensures |Filter(s, keep)| + |Filter(s, drop)| == |s|
    ensures multiset(Filter(s, keep)) + multiset(Filter(s, drop)) == multiset(s)
  {
    if s != [] {
      var rest := s[1..];
      FilterSplits(rest, keep, drop);
      assert s == [s[0]] + rest;
      if keep(s[0]) {
        assert Filter(s, keep) == [s[0]] + Filter(rest, keep);
        assert Filter(s, drop) == Filter(rest, drop);
      } else {
        assert Filter(s, keep) == Filter(rest, keep);
        assert Filter(s, drop) == [s[0]] + Filter(rest, drop);
      }
    }
  }

  /** No two positions of `s` share a key. */
  ghost predicate DistinctBy<T, U>(s: seq<T>, key: T -> U) {
    forall i, j :: 0 <= i < |s| && 0 <= j < |s| && i != j ==> key(s[i]) != key(s[j])
  }

  /** Filtering keeps keys distinct. */
  lemma {:induction false} FilterKeepsDistinct<T(!new), U>(s: seq<T>, keep: T -> bool, key: T -> U)
    requires DistinctBy(s, key)
    ensures DistinctBy(Filter(s, keep), key)
  {
    if s != [] {
      var rest := s[1..];
      forall i, j | 0 <= i < |rest| && 0 <= j < |rest| && i != j
        ensures key(rest[i]) != key(rest[j])
      {
        assert rest[i] == s[i + 1] && rest[j] == s[j + 1];
      }
      FilterKeepsDistinct(rest, keep, key);
      var tail := Filter(rest, keep);
      if keep(s[0]) {
        var r := Filter(s, keep);
        assert r == [s[0]] + tail;
        forall x | x in tail
          ensures key(x) != key(s[0])
        {
          var k :| 0 <= k < |rest| && rest[k] == x;
          assert s[k + 1] == x;
        }
        forall i, j | 0 <= i < |r| && 0 <= j < |r| && i != j
          ensures key(r[i]) != key(r[j])
        {
          if i == 0 {
            assert r[j] == tail[j - 1];
          } else if j == 0 {
            assert r[i] == tail[i - 1];
          } else {
            assert r[i] == tail[i - 1] && r[j] == tail[j - 1];
          }
        }
      }
    }
  }

  /** The elements of `s`, last first. */
  function Reverse<T>(s: seq<T>): (r: seq<T>)
    ensures |r| == |s|
    ensures forall i :: 0 <= i < |s| ==> r[i] == s[|s| - 1 - i]
  {
    if s == [] then [] else Reverse(s[1..]) + [s[0]]
  }
}
