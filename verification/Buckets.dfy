/** Counting sort seen abstractly: a stream of keyed values split into one bucket per key. */
module Buckets {

  /** The values of s with the given key, in order. */
  ghost function Bucket<T>(s: seq<(nat, T)>, key: nat): seq<T> {
    if s == [] then []
    else Bucket(s[..|s| - 1], key) + (if s[|s| - 1].0 == key then [s[|s| - 1].1] else [])
  }

  lemma BucketSnoc<T>(s: seq<(nat, T)>, e: (nat, T), key: nat)
    ensures Bucket(s + [e], key) == Bucket(s, key) + (if e.0 == key then [e.1] else [])
  {
    assert (s + [e])[..|s + [e]| - 1] == s;
  }

  lemma {:induction false} BucketConcat<T>(s: seq<(nat, T)>, t: seq<(nat, T)>, key: nat)
    ensures Bucket(s + t, key) == Bucket(s, key) + Bucket(t, key)
    decreases |t|
  {
    if t == [] {
      assert s + t == s;
    } else {
      var n := |t| - 1;
      assert (s + t)[..|s + t| - 1] == s + t[..n];
      BucketConcat(s, t[..n], key);
    }
  }

  /** A value not yet distributed still has a free place in its bucket. */
  lemma BucketRoom<T>(s: seq<(nat, T)>, m: nat)
    requires m < |s|
    ensures Bucket(s[..m + 1], s[m].0) <= Bucket(s, s[m].0)
    ensures |Bucket(s[..m], s[m].0)| < |Bucket(s, s[m].0)|
  {
    assert s == s[..m + 1] + s[m + 1..];
    BucketConcat(s[..m + 1], s[m + 1..], s[m].0);
    assert s[..m + 1] == s[..m] + [s[m]];
    BucketSnoc(s[..m], s[m], s[m].0);
  }

  lemma {:induction false} InBucket<T>(s: seq<(nat, T)>, key: nat, x: T)
    ensures x in Bucket(s, key) <==> (key, x) in s
    decreases |s|
  {
    if s != [] {
      InBucket(s[..|s| - 1], key, x);
      assert s == s[..|s| - 1] + [s[|s| - 1]];
    }
  }

  /** How many values the buckets of keys lo <= key < hi hold. */
  ghost function Total<T>(s: seq<(nat, T)>, lo: nat, hi: nat): nat {
    if hi <= lo then 0 else Total(s, lo, hi - 1) + |Bucket(s, hi - 1)|
  }

  lemma {:induction false} TotalSnoc<T>(s: seq<(nat, T)>, e: (nat, T), lo: nat, hi: nat)
    ensures Total(s + [e], lo, hi) == Total(s, lo, hi) + (if lo <= e.0 < hi then 1 else 0)
  {
    if hi > lo {
      TotalSnoc(s, e, lo, hi - 1);
      BucketSnoc(s, e, hi - 1);
    }
  }

  lemma {:induction false} TotalOfNone<T>(lo: nat, hi: nat)
    ensures Total<T>([], lo, hi) == 0
  {
    if hi > lo {
      TotalOfNone<T>(lo, hi - 1);
    }
  }

  /** When every key is in range the buckets hold the whole stream. */
  lemma {:induction false} TotalIsAll<T>(s: seq<(nat, T)>, lo: nat, hi: nat)
    requires forall k :: 0 <= k < |s| ==> lo <= s[k].0 < hi
    ensures Total(s, lo, hi) == |s|
    decreases |s|
  {
    if s == [] {
      TotalOfNone<T>(lo, hi);
    } else {
      var n := |s| - 1;
      TotalIsAll(s[..n], lo, hi);
      TotalSnoc(s[..n], s[n], lo, hi);
      assert s == s[..n] + [s[n]];
    }
  }

  lemma {:induction false} TotalSplits<T>(s: seq<(nat, T)>, lo: nat, mid: nat, hi: nat)
    requires lo <= mid <= hi
    ensures Total(s, lo, hi) == Total(s, lo, mid) + Total(s, mid, hi)
    decreases hi
  {
    if mid < hi {
      TotalSplits(s, lo, mid, hi - 1);
    }
  }
}
