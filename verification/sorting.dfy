/**
  Ascending order on batches of 16-bit samples: the sortedness predicate, a
  reference sort, the fact that a batch has exactly one ascending
  permutation, and the in-place bubble sort of the older smoothing class.
 */
module Sorting {
  import opened Numeric

  predicate Sorted(s: seq<uint16>) {
    forall i, j :: 0 <= i <= j < |s| ==> s[i] <= s[j]
  }

  /** Insertion of one sample into an ascending batch. */
  function Insert(x: uint16, s: seq<uint16>): (r: seq<uint16>)
    ensures |r| == |s| + 1
    ensures multiset(r) == multiset(s) + multiset{x}
  {
    if |s| == 0 then [x]
    else if x <= s[0] then [x] + s
    else
      assert s == [s[0]] + s[1..];
      [s[0]] + Insert(x, s[1..])
  }

  /** Inserting into an ascending batch keeps it ascending. */
  lemma {:induction false} InsertSorted(x: uint16, s: seq<uint16>)
    requires Sorted(s)
    ensures Sorted(Insert(x, s))
  {
    if |s| > 0 && x > s[0] {
      var t := Insert(x, s[1..]);
      InsertSorted(x, s[1..]);
      forall i | 0 <= i < |t|
        ensures s[0] <= t[i]
      {
        assert t[i] in multiset(t);
        assert t[i] == x || t[i] in multiset(s[1..]);
        if t[i] != x {
          assert t[i] in s[1..];
        }
      }
      var r := [s[0]] + t;
      assert r == Insert(x, s);
      forall i, j | 0 <= i <= j < |r|
        ensures r[i] <= r[j]
      {
        if i > 0 {
          assert r[i] == t[i - 1] && r[j] == t[j - 1];
        } else {
          assert r[j] == s[0] || r[j] == t[j - 1];
        }
      }
    }
  }

  /** The reference sort: the ascending permutation of a batch. */
  function SortedOf(s: seq<uint16>): (r: seq<uint16>)
    ensures |r| == |s|
    ensures Sorted(r)
    ensures multiset(r) == multiset(s)
  {
    if |s| == 0 then []
    else
      assert s == [s[0]] + s[1..];
      var t := SortedOf(s[1..]);
      InsertSorted(s[0], t);
      Insert(s[0], t)
  }

  /** A batch has only one ascending permutation: two sorted sequences with
      the same elements are equal. */
  lemma {:induction false} SortedUnique(a: seq<uint16>, b: seq<uint16>)
    requires Sorted(a) && Sorted(b)
    requires multiset(a) == multiset(b)
    ensures a == b
  {
    if |a| == 0 {
      assert |multiset(b)| == 0;
    } else {
      assert |b| == |multiset(b)| == |multiset(a)| == |a|;
      assert a[0] in multiset(b);
      assert b[0] in multiset(a);
      assert a[0] == b[0];
      assert multiset(a) == multiset{a[0]} + multiset(a[1..]) by {
        assert a == [a[0]] + a[1..];
      }
      assert multiset(b) == multiset{b[0]} + multiset(b[1..]) by {
        assert b == [b[0]] + b[1..];
      }
      assert multiset(a[1..]) == multiset(a) - multiset{a[0]};
      assert multiset(b[1..]) == multiset(b) - multiset{b[0]};
      SortedUnique(a[1..], b[1..]);
    }
  }

  /** Every sorted permutation of a batch is its reference sort. */
  lemma SortedPermutationIsSortedOf(s: seq<uint16>, r: seq<uint16>)
    requires Sorted(r) && multiset(r) == multiset(s)
    ensures r == SortedOf(s)
  {
    SortedUnique(r, SortedOf(s));
  }

  /** Exchange of two neighbouring samples, the `t = a; a = b; b = t` step of
      the bubble sort. */
  function SwapDown(r: seq<uint16>, j: nat): (t: seq<uint16>)
    requires 1 <= j < |r|
    ensures |t| == |r|
    ensures t[j - 1] == r[j] && t[j] == r[j - 1]
    ensures forall k :: 0 <= k < |r| && k != j && k != j - 1 ==> t[k] == r[k]
    ensures multiset(t) == multiset(r)
  {
    r[j := r[j - 1]][j - 1 := r[j]]
  }

  /** The private `sort` of the older class: bubble sort over the batch with
      early exit once a pass makes no exchange. Each pass walks from the end
      down to `i + 1` and leaves the least remaining sample at index `i`. */
  method BubbleSort(s: seq<uint16>) returns (r: seq<uint16>)
    ensures |r| == |s|
    ensures Sorted(r)
    ensures multiset(r) == multiset(s)
    ensures r == SortedOf(s)
  {
    r := s;
    var n := |s|;
    var again := true;
    var i := 0;
    while i < n - 1 && again
      invariant 0 <= i <= n
      invariant |r| == n && multiset(r) == multiset(s)
      invariant forall p, q :: 0 <= p <= q < i ==> r[p] <= r[q]
      invariant forall p, q :: 0 <= p < i <= q < n ==> r[p] <= r[q]
      invariant !again ==> Sorted(r)
      decreases n - i
    {
      again := false;
      var j := n - 1;
      while j > i
        invariant i <= j <= n - 1
        invariant |r| == n && multiset(r) == multiset(s)
        invariant forall p, q :: 0 <= p <= q < i ==> r[p] <= r[q]
        invariant forall p, q :: 0 <= p < i <= q < n ==> r[p] <= r[q]
        invariant forall q :: j <= q < n ==> r[j] <= r[q]
        invariant !again ==> forall p, q :: j <= p <= q < n ==> r[p] <= r[q]
        decreases j
      {
        if r[j] < r[j - 1] {
          r := SwapDown(r, j);
          again := true;
        }
        j := j - 1;
      }
      i := i + 1;
    }
    SortedPermutationIsSortedOf(s, r);
  }
}
