/** In-place descending sort of an array by an integer key, as the event
    listing and the top-consumers report do with `sort.Slice`. The Go sort
    is not stable, so only the order of keys and the permutation are
    promised, never the relative order of equal keys. */
module Sorting {

  /** Keys never increase along `s`. */
  ghost predicate SortedDesc<T>(s: seq<T>, key: T -> int) {
    forall p, q :: 0 <= p < q < |s| ==> key(s[p]) >= key(s[q])
  }

  /** Every key in `front` is at least every key in `back`. */
  ghost predicate Dominates<T>(front: seq<T>, back: seq<T>, key: T -> int) {
    forall p, q :: 0 <= p < |front| && 0 <= q < |back| ==> key(front[p]) >= key(back[q])
  }

  /** The index of a largest key in `a[from..]`. */
  method MaxIndex<T>(a: array<T>, from: nat, key: T -> int) returns (m: nat)
    requires from < a.Length
    ensures from <= m < a.Length
    ensures forall q :: from <= q < a.Length ==> key(a[m]) >= key(a[q])
  {
    m := from;
    for q := from + 1 to a.Length
      invariant from <= m < a.Length
      invariant forall r :: from <= r < q ==> key(a[m]) >= key(a[r])
    {
      if key(a[q]) > key(a[m]) {
        m := q;
      }
    }
  }

  /** Selection sort, largest key first. */
  method SortDescending<T>(a: array<T>, key: T -> int)
    modifies a
    ensures SortedDesc(a[..], key)
    ensures multiset(a[..]) == multiset(old(a[..]))
  {
    for i := 0 to a.Length
      invariant SortedDesc(a[..i], key)
      invariant Dominates(a[..i], a[i..], key)
      invariant multiset(a[..]) == multiset(old(a[..]))
    {
      var m := MaxIndex(a, i, key);
      ghost var before := a[..];
      a[i], a[m] := a[m], a[i];
      SwapStep(before, a[..], i, m, key);
    }
    assert a[..a.Length] == a[..];
  }

  /** Swapping a largest remaining key to position `i` extends the sorted,
      dominating prefix by one and permutes the elements. */
  lemma SwapStep<T>(before: seq<T>, after: seq<T>, i: nat, m: nat, key: T -> int)
    requires i <= m < |before|
    requires after == before[i := before[m]][m := before[i]]
    requires SortedDesc(before[..i], key) && Dominates(before[..i], before[i..], key)
    requires forall q :: i <= q < |before| ==> key(before[m]) >= key(before[q])
    ensures SortedDesc(after[..i + 1], key) && Dominates(after[..i + 1], after[i + 1..], key)
    ensures multiset(after) == multiset(before)
  {
    assert forall p :: 0 <= p < i ==> after[p] == before[p];
    assert after[i] == before[m];
    assert forall p :: 0 <= p < i ==> key(before[p]) >= key(before[m]) by {
      forall p | 0 <= p < i
        ensures key(before[p]) >= key(before[m])
      {
        assert before[i..][m - i] == before[m];
      }
    }
    var front, back := after[..i + 1], after[i + 1..];
    forall p, q | 0 <= p < q < |front|
      ensures key(front[p]) >= key(front[q])
    {
      if q < i {
        assert front[p] == before[..i][p] && front[q] == before[..i][q];
      }
    }
    forall p, q | 0 <= p < |front| && 0 <= q < |back|
      ensures key(front[p]) >= key(back[q])
    {
      var k := q + i + 1;
      assert back[q] == after[k];
      if p < i {
        assert front[p] == before[..i][p];
        if k == m {
          assert after[k] == before[i] == before[i..][0];
        } else {
          assert after[k] == before[k] == before[i..][k - i];
        }
      } else {
        assert after[k] == before[i] || after[k] == before[k];
      }
    }
  }

  /** A prefix of a sorted sequence is sorted, holds the largest keys, and
      is a sub-multiset of the whole. */
  lemma PrefixOfSorted<T>(s: seq<T>, n: nat, key: T -> int)
    requires SortedDesc(s, key) && n <= |s|
    ensures SortedDesc(s[..n], key)
    ensures Dominates(s[..n], s[n..], key)
    ensures multiset(s[..n]) <= multiset(s)
  {
    assert s == s[..n] + s[n..];
    assert multiset(s) == multiset(s[..n]) + multiset(s[n..]);
  }
}
