/**
 * A stable sort by a small natural-number rank, highest rank first, written as
 * the concatenation of one bucket per rank. Both the dashboard's alert ranking
 * and the backend's alert priority cut are this sort with their own keys.
 */
module RankSort {

  /** The elements of rank exactly `r`, in their order. */
  function Bucket<T>(s: seq<T>, key: T -> nat, r: nat): seq<T>
    decreases |s|
  {
    if s == [] then []
    else (if key(s[0]) == r then [s[0]] else []) + Bucket(s[1..], key, r)
  }

  /** The elements of rank at most `r`, in their order. */
  function AtMost<T>(s: seq<T>, key: T -> nat, r: nat): seq<T>
    decreases |s|
  {
    if s == [] then []
    else (if key(s[0]) <= r then [s[0]] else []) + AtMost(s[1..], key, r)
  }

  /**
   * A stable sort by descending rank, for ranks up to `r`: the rank-`r`
   * elements in input order, then those of rank `r - 1`, and so on down to 0.
   */
  function Descending<T>(s: seq<T>, key: T -> nat, r: nat): seq<T>
    decreases r
  {
    Bucket(s, key, r) + (if r == 0 then [] else Descending(s, key, r - 1))
  }

  lemma {:induction false} BucketRank<T>(s: seq<T>, key: T -> nat, r: nat)
    ensures forall x :: x in Bucket(s, key, r) ==> x in s && key(x) == r
    decreases |s|
  {
    if s != [] {
      BucketRank(s[1..], key, r);
    }
  }

  lemma {:induction false} BucketConcat<T>(a: seq<T>, b: seq<T>, key: T -> nat, r: nat)
    ensures Bucket(a + b, key, r) == Bucket(a, key, r) + Bucket(b, key, r)
    decreases |a|
  {
    if a == [] {
      assert a + b == b;
    } else {
      var head := if key(a[0]) == r then [a[0]] else [];
      assert (a + b)[0] == a[0];
      assert (a + b)[1..] == a[1..] + b;
      assert Bucket(a + b, key, r) == head + Bucket(a[1..] + b, key, r);
      BucketConcat(a[1..], b, key, r);
      assert Bucket(a, key, r) == head + Bucket(a[1..], key, r);
      AppendAssoc(head, Bucket(a[1..], key, r), Bucket(b, key, r));
    }
  }

  lemma AppendAssoc<T>(x: seq<T>, y: seq<T>, z: seq<T>)
    ensures x + (y + z) == (x + y) + z
  {
  }

  /** Picking rank `k` out of the rank-`r` elements gives all of them or none. */
  lemma {:induction false} BucketOfBucket<T>(s: seq<T>, key: T -> nat, r: nat, k: nat)
    ensures Bucket(Bucket(s, key, r), key, k) == if k == r then Bucket(s, key, r) else []
    decreases |s|
  {
    if s != [] {
      BucketOfBucket(s[1..], key, r, k);
      var head := if key(s[0]) == r then [s[0]] else [];
      BucketConcat(head, Bucket(s[1..], key, r), key, k);
    }
  }

  /** The rank-at-most-`r` elements are those of rank `r` and those of rank at most `r - 1`, as multisets. */
  lemma {:induction false} AtMostSplit<T>(s: seq<T>, key: T -> nat, r: nat)
    requires r > 0
    ensures multiset(AtMost(s, key, r)) == multiset(Bucket(s, key, r)) + multiset(AtMost(s, key, r - 1))
    decreases |s|
  {
    if s != [] {
      AtMostSplit(s[1..], key, r);
    }
  }

  lemma {:induction false} AtMostZero<T>(s: seq<T>, key: T -> nat)
    ensures AtMost(s, key, 0) == Bucket(s, key, 0)
    decreases |s|
  {
    if s != [] {
      AtMostZero(s[1..], key);
    }
  }

  lemma {:induction false} AtMostAll<T>(s: seq<T>, key: T -> nat, r: nat)
    requires forall x :: x in s ==> key(x) <= r
    ensures AtMost(s, key, r) == s
    decreases |s|
  {
    if s != [] {
      AtMostAll(s[1..], key, r);
    }
  }

  /** The descending sort up to rank `r` rearranges exactly the elements of rank at most `r`. */
  lemma {:induction false} DescendingPermutes<T>(s: seq<T>, key: T -> nat, r: nat)
    ensures multiset(Descending(s, key, r)) == multiset(AtMost(s, key, r))
    decreases r
  {
    if r == 0 {
      AtMostZero(s, key);
    } else {
      var rest := Descending(s, key, r - 1);
      assert Descending(s, key, r) == Bucket(s, key, r) + rest;
      assert multiset(Descending(s, key, r)) == multiset(Bucket(s, key, r)) + multiset(rest);
      DescendingPermutes(s, key, r - 1);
      AtMostSplit(s, key, r);
    }
  }

  /** No element is followed by one of higher rank. */
  predicate SortedDown<T>(s: seq<T>, key: T -> nat) {
    forall i, j :: 0 <= i < j < |s| ==> key(s[i]) >= key(s[j])
  }

  lemma SortedDownConcat<T>(b: seq<T>, rest: seq<T>, key: T -> nat, r: nat)
    requires forall x :: x in b ==> key(x) == r
    requires forall x :: x in rest ==> key(x) < r
    requires SortedDown(rest, key)
    ensures SortedDown(b + rest, key)
  {
    var d := b + rest;
    forall i, j | 0 <= i < j < |d|
      ensures key(d[i]) >= key(d[j])
    {
      if j < |b| {
        assert d[i] == b[i] && d[j] == b[j];
        assert b[i] in b && b[j] in b;
      } else if i >= |b| {
        assert d[i] == rest[i - |b|] && d[j] == rest[j - |b|];
      } else {
        assert d[i] == b[i] && b[i] in b;
        assert d[j] == rest[j - |b|] && rest[j - |b|] in rest;
      }
    }
  }

  /** The descending sort up to rank `r` never lets a lower rank precede a higher one. */
  lemma {:induction false} DescendingSorted<T>(s: seq<T>, key: T -> nat, r: nat)
    ensures forall x :: x in Descending(s, key, r) ==> key(x) <= r
    ensures SortedDown(Descending(s, key, r), key)
    decreases r
  {
    var b := Bucket(s, key, r);
    BucketRank(s, key, r);
    if r == 0 {
      assert Descending(s, key, r) == b + [];
      SortedDownConcat(b, [], key, r);
    } else {
      var rest := Descending(s, key, r - 1);
      DescendingSorted(s, key, r - 1);
      SortedDownConcat(b, rest, key, r);
      assert Descending(s, key, r) == b + rest;
      forall x | x in b + rest
        ensures key(x) <= r
      {
        if x !in b {
          assert x in rest;
        }
      }
    }
  }

  /** Each rank's elements keep their input order: the sort is stable. */
  lemma {:induction false} DescendingStable<T>(s: seq<T>, key: T -> nat, r: nat, k: nat)
    requires k <= r
    ensures Bucket(Descending(s, key, r), key, k) == Bucket(s, key, k)
    decreases r
  {
    var rest := if r == 0 then [] else Descending(s, key, r - 1);
    BucketConcat(Bucket(s, key, r), rest, key, k);
    BucketOfBucket(s, key, r, k);
    if k < r {
      DescendingStable(s, key, r - 1, k);
    } else if r > 0 {
      DescendingSorted(s, key, r - 1);
      NoBucketAbove(rest, key, k);
    }
  }

  lemma {:induction false} NoBucketAbove<T>(s: seq<T>, key: T -> nat, k: nat)
    requires forall x :: x in s ==> key(x) < k
    ensures Bucket(s, key, k) == []
    decreases |s|
  {
    if s != [] {
      assert s[0] in s;
      assert forall x :: x in s[1..] ==> x in s;
      NoBucketAbove(s[1..], key, k);
    }
  }

  /**
   * With every rank at most `r`, the descending sort is a permutation, never
   * puts a lower rank first, and keeps each rank's elements in input order.
   */
  lemma DescendingSpec<T>(s: seq<T>, key: T -> nat, r: nat)
    requires forall x :: x in s ==> key(x) <= r
    ensures multiset(Descending(s, key, r)) == multiset(s)
    ensures |Descending(s, key, r)| == |s|
    ensures SortedDown(Descending(s, key, r), key)
    ensures forall k :: 0 <= k <= r ==> Bucket(Descending(s, key, r), key, k) == Bucket(s, key, k)
  {
    DescendingPermutes(s, key, r);
    AtMostAll(s, key, r);
    DescendingSorted(s, key, r);
    assert |multiset(Descending(s, key, r))| == |multiset(s)|;
    forall k | 0 <= k <= r
      ensures Bucket(Descending(s, key, r), key, k) == Bucket(s, key, k)
    {
      DescendingStable(s, key, r, k);
    }
  }

  /** The rank-`r` elements of a prefix are a prefix of the rank-`r` elements of the whole. */
  lemma BucketPrefix<T>(s: seq<T>, key: T -> nat, r: nat, n: nat)
    requires n <= |s|
    ensures Bucket(s[..n], key, r) <= Bucket(s, key, r)
  {
    assert s == s[..n] + s[n..];
    BucketConcat(s[..n], s[n..], key, r);
  }

  /** A prefix of a descending list is part of it, and nothing after the prefix outranks anything in it. */
  lemma SortedPrefix<T>(s: seq<T>, key: T -> nat, n: nat)
    requires SortedDown(s, key)
    requires n <= |s|
    ensures multiset(s[..n]) <= multiset(s)
    ensures forall i, j :: 0 <= i < n <= j < |s| ==> key(s[i]) >= key(s[j])
  {
    PrefixSubMultiset(s, n);
  }

  lemma PrefixSubMultiset<T>(s: seq<T>, n: nat)
    requires n <= |s|
    ensures multiset(s[..n]) <= multiset(s)
  {
    assert s == s[..n] + s[n..];
  }
}
