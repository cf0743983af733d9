/**
  The five statistics of a batch and the loops that compute them. The
  sources accumulate sums in a `uint16_t`, so the statistics as written
  (`Mean16`, `TrimmedMean16`) reduce the sum modulo 2^16 before dividing;
  `Mean` and `TrimmedMean` are the same statistics with an exact sum.
 */
module Statistics {
  import opened Numeric
  import opened Sorting

  /** Exact sum of a batch. */
  function Sum(s: seq<uint16>): nat {
    if |s| == 0 then 0 else s[0] + Sum(s[1..])
  }

  lemma {:induction false} SumAppend(a: seq<uint16>, b: seq<uint16>)
    ensures Sum(a + b) == Sum(a) + Sum(b)
  {
    if |a| == 0 {
      assert a + b == b;
    } else {
      assert (a + b)[1..] == a[1..] + b;
      SumAppend(a[1..], b);
    }
  }

  lemma {:induction false} SumInsert(x: uint16, s: seq<uint16>)
    ensures Sum(Insert(x, s)) == x + Sum(s)
  {
    if |s| == 0 {
    } else if x <= s[0] {
      assert ([x] + s)[1..] == s;
    } else {
      SumInsert(x, s[1..]);
      assert ([s[0]] + Insert(x, s[1..]))[1..] == Insert(x, s[1..]);
    }
  }

  lemma {:induction false} SumSortedOf(s: seq<uint16>)
    ensures Sum(SortedOf(s)) == Sum(s)
  {
    if |s| > 0 {
      SumSortedOf(s[1..]);
      SumInsert(s[0], SortedOf(s[1..]));
    }
  }

  /** Reordering a batch, as the sorting statistics do, keeps its sum. */
  lemma SumPermutation(a: seq<uint16>, b: seq<uint16>)
    requires multiset(a) == multiset(b)
    ensures Sum(a) == Sum(b)
  {
    SortedUnique(SortedOf(a), SortedOf(b));
    SumSortedOf(a);
    SumSortedOf(b);
  }

  /** A batch whose samples lie in [lo, hi] sums to between |s|*lo and |s|*hi. */
  lemma {:induction false} SumBounds(s: seq<uint16>, lo: nat, hi: nat)
    requires forall i :: 0 <= i < |s| ==> lo <= s[i] <= hi
    ensures |s| * lo <= Sum(s) <= |s| * hi
  {
    if |s| > 0 {
      SumBounds(s[1..], lo, hi);
      MulSucc(|s| - 1, lo);
      MulSucc(|s| - 1, hi);
    }
  }

  /** The accumulation loop `for (i = 0; i < n; i++) statistic += s[i]` with
      a `uint16_t` statistic: every addition wraps modulo 2^16, so the loop
      yields the exact sum reduced modulo 2^16. */
  method SumMod16(s: seq<uint16>) returns (acc: uint16)
    ensures acc == Sum(s) % UINT16_MODULUS
  {
    acc := 0;
    var i := 0;
    while i < |s|
      invariant 0 <= i <= |s|
      invariant acc == Sum(s[..i]) % UINT16_MODULUS
    {
      assert s[..i + 1] == s[..i] + [s[i]];
      SumAppend(s[..i], [s[i]]);
      acc := ToUint16(acc + s[i]);
      i := i + 1;
    }
    assert s[..|s|] == s;
  }

  /** Least sample of a non-empty batch. */
  function Min(s: seq<uint16>): (m: uint16)
    requires |s| > 0
    ensures m in s
    ensures forall i :: 0 <= i < |s| ==> m <= s[i]
  {
    if |s| == 1 then s[0]
    else
      var m := Min(s[1..]);
      if s[0] <= m then s[0] else m
  }

  /** Greatest sample of a non-empty batch. */
  function Max(s: seq<uint16>): (m: uint16)
    requires |s| > 0
    ensures m in s
    ensures forall i :: 0 <= i < |s| ==> s[i] <= m
  {
    if |s| == 1 then s[0]
    else
      var m := Max(s[1..]);
      if s[0] >= m then s[0] else m
  }

  /** The scan of `getMinimum`: start from the first sample and keep any
      strictly smaller one. */
  method Minimum(s: seq<uint16>) returns (m: uint16)
    requires |s| > 0
    ensures m in s
    ensures forall i :: 0 <= i < |s| ==> m <= s[i]
  {
    m := s[0];
    var i := 1;
    while i < |s|
      invariant 1 <= i <= |s|
      invariant m in s[..i]
      invariant forall k :: 0 <= k < i ==> m <= s[k]
    {
      if s[i] < m {
        m := s[i];
      }
      i := i + 1;
    }
    assert s[..|s|] == s;
  }

  /** The scan of `getMaximum`: start from the first sample and keep any
      strictly greater one. */
  method Maximum(s: seq<uint16>) returns (m: uint16)
    requires |s| > 0
    ensures m in s
    ensures forall i :: 0 <= i < |s| ==> s[i] <= m
  {
    m := s[0];
    var i := 1;
    while i < |s|
      invariant 1 <= i <= |s|
      invariant m in s[..i]
      invariant forall k :: 0 <= k < i ==> s[k] <= m
    {
      if s[i] > m {
        m := s[i];
      }
      i := i + 1;
    }
    assert s[..|s|] == s;
  }

  /** The first and the last sample of the sorted batch are its least and
      greatest samples. */
  lemma SortedEnds(s: seq<uint16>)
    requires |s| > 0
    ensures SortedOf(s)[0] == Min(s)
    ensures SortedOf(s)[|s| - 1] == Max(s)
  {
    var t := SortedOf(s);
    assert Min(s) in multiset(t);
    assert Max(s) in multiset(t);
    assert t[0] in multiset(s);
    assert t[|s| - 1] in multiset(s);
  }

  /** Rearranging a batch keeps its least and its greatest sample. */
  lemma MinMaxPermutation(a: seq<uint16>, b: seq<uint16>)
    requires multiset(a) == multiset(b) && |a| == |b| > 0
    ensures Min(a) == Min(b) && Max(a) == Max(b)
  {
    assert Min(a) in multiset(b) && Min(b) in multiset(a);
    assert Max(a) in multiset(b) && Max(b) in multiset(a);
  }

  // ---------------------------------------------------------------------
  // Median
  // ---------------------------------------------------------------------

  /** Number of samples strictly below v. */
  function CountBelow(s: seq<uint16>, v: int): nat {
    if |s| == 0 then 0 else (if s[0] < v then 1 else 0) + CountBelow(s[1..], v)
  }

  /** Number of samples at most v. */
  function CountAtMost(s: seq<uint16>, v: int): nat {
    if |s| == 0 then 0 else (if s[0] <= v then 1 else 0) + CountAtMost(s[1..], v)
  }

  lemma {:induction false} CountInsert(x: uint16, s: seq<uint16>, v: int)
    ensures CountBelow(Insert(x, s), v) == (if x < v then 1 else 0) + CountBelow(s, v)
    ensures CountAtMost(Insert(x, s), v) == (if x <= v then 1 else 0) + CountAtMost(s, v)
  {
    if |s| == 0 {
    } else if x <= s[0] {
      assert ([x] + s)[1..] == s;
    } else {
      CountInsert(x, s[1..], v);
      assert ([s[0]] + Insert(x, s[1..]))[1..] == Insert(x, s[1..]);
    }
  }

  lemma {:induction false} CountSortedOf(s: seq<uint16>, v: int)
    ensures CountBelow(SortedOf(s), v) == CountBelow(s, v)
    ensures CountAtMost(SortedOf(s), v) == CountAtMost(s, v)
  {
    if |s| > 0 {
      CountSortedOf(s[1..], v);
      CountInsert(s[0], SortedOf(s[1..]), v);
    }
  }

  /** When every sample from index k on is at least v, fewer than k+1
      samples lie below v. */
  lemma {:induction false} CountBelowPrefix(t: seq<uint16>, k: nat, v: int)
    requires forall i :: k <= i < |t| ==> v <= t[i]
    ensures CountBelow(t, v) <= k
  {
    if |t| > 0 {
      if k == 0 {
        CountBelowPrefix(t[1..], 0, v);
      } else {
        CountBelowPrefix(t[1..], k - 1, v);
      }
    }
  }

  /** When the samples at indices 0..k are at most v, at least k+1 samples
      are at most v. */
  lemma {:induction false} CountAtMostPrefix(t: seq<uint16>, k: nat, v: int)
    requires k < |t|
    requires forall i :: 0 <= i <= k ==> t[i] <= v
    ensures CountAtMost(t, v) >= k + 1
  {
    if k > 0 {
      CountAtMostPrefix(t[1..], k - 1, v);
    }
  }

  lemma {:induction false} CountMonotone(s: seq<uint16>, v: int, w: int)
    requires v < w
    ensures CountAtMost(s, v) <= CountBelow(s, w)
  {
    if |s| > 0 {
      CountMonotone(s[1..], v, w);
    }
  }

  /** The value `getMedian` picks: the sample at index (n-1)/2 of the sorted
      batch, the lower median. */
  function Median(s: seq<uint16>): (m: uint16)
    requires |s| > 0
    ensures m in s
  {
    var t := SortedOf(s);
    assert t[(|s| - 1) / 2] in multiset(s);
    t[(|s| - 1) / 2]
  }

  /** The lower median by rank: at most (n-1)/2 samples lie strictly below it
      and more than (n-1)/2 samples lie at or below it. */
  lemma MedianRank(s: seq<uint16>)
    requires |s| > 0
    ensures CountBelow(s, Median(s)) <= (|s| - 1) / 2 < CountAtMost(s, Median(s))
  {
    var t := SortedOf(s);
    var k := (|s| - 1) / 2;
    CountSortedOf(s, t[k]);
    CountBelowPrefix(t, k, t[k]);
    CountAtMostPrefix(t, k, t[k]);
  }

  /** The rank condition singles out one value, so `Median` is the lower
      median whatever order the batch was registered in. */
  lemma MedianUnique(s: seq<uint16>, v: int)
    requires |s| > 0
    requires CountBelow(s, v) <= (|s| - 1) / 2 < CountAtMost(s, v)
    ensures v == Median(s)
  {
    MedianRank(s);
    var m := Median(s);
    if v < m {
      CountMonotone(s, v, m);
    } else if v > m {
      CountMonotone(s, m, v);
    }
  }

  // ---------------------------------------------------------------------
  // Means
  // ---------------------------------------------------------------------

  /** The sum of a non-empty batch is the sum of all but its last sample
      plus the last sample. */
  lemma SumLast(u: seq<uint16>)
    requires |u| >= 1
    ensures Sum(u) == Sum(u[..|u| - 1]) + u[|u| - 1]
  {
    var k := |u| - 1;
    assert u == u[..k] + [u[k]];
    SumAppend(u[..k], [u[k]]);
  }

  /** The sum of a batch of two or more splits into its first sample, its
      inner samples and its last sample. */
  lemma SumEnds(t: seq<uint16>)
    requires |t| >= 2
    ensures Sum(t) == t[0] + Sum(t[1..|t| - 1]) + t[|t| - 1]
  {
    var u := t[1..];
    SumLast(u);
    assert u[..|u| - 1] == t[1..|t| - 1];
  }

  /** Dropping the first and last sample of the sorted batch removes exactly
      one least and one greatest sample, whatever the original order. */
  lemma TrimmedSum(s: seq<uint16>)
    requires |s| >= 2
    ensures Sum(SortedOf(s)[1..|s| - 1]) == Sum(s) - Min(s) - Max(s)
  {
    SumEnds(SortedOf(s));
    SumSortedOf(s);
    SortedEnds(s);
  }

  /** The samples left after trimming lie between the least and the greatest
      sample, so their sum is bracketed by (n-2) times either. */
  lemma TrimmedSumBounds(s: seq<uint16>)
    requires |s| >= 3
    ensures Min(s) + Max(s) <= Sum(s)
    ensures (|s| - 2) * Min(s) <= Sum(s) - Min(s) - Max(s) <= (|s| - 2) * Max(s)
  {
    var t := SortedOf(s);
    var mid := t[1..|s| - 1];
    TrimmedSum(s);
    forall i | 0 <= i < |mid|
      ensures Min(s) <= mid[i] <= Max(s)
    {
      assert mid[i] == t[i + 1];
      assert t[i + 1] in multiset(s);
    }
    SumBounds(mid, Min(s), Max(s));
  }

  /** The arithmetic mean rounded half up, from an exact sum; it lies
      between the least and the greatest sample. */
  function Mean(s: seq<uint16>): (r: nat)
    requires |s| > 0
    ensures Min(s) <= r <= Max(s)
  {
    SumBounds(s, Min(s), Max(s));
    DivideWithin(Sum(s), |s|, Min(s), Max(s));
    Divide(Sum(s), |s|)
  }

  /** `getAverage` as written: the sum wraps in the `uint16_t` accumulator
      before the rounded division. The wrap can only lower the result, and
      it agrees with `Mean` as long as the exact sum stays below 2^16. */
  function Mean16(s: seq<uint16>): (r: uint16)
    requires |s| > 0
    ensures r <= Mean(s)
    ensures Sum(s) < UINT16_MODULUS ==> r == Mean(s)
  {
    var a, b := ToUint16(Sum(s)), |s|;
    DivideMonotone(a, Sum(s), b);
    ToUint16Small(Sum(s));
    Divide(a, b)
  }

  /** The mean without one least and one greatest sample, rounded half up,
      from an exact sum; it lies between the least and greatest sample. */
  function TrimmedMean(s: seq<uint16>): (r: nat)
    requires |s| >= 3
    ensures Min(s) <= r <= Max(s)
  {
    var mid := SortedOf(s)[1..|s| - 1];
    TrimmedSum(s);
    TrimmedSumBounds(s);
    DivideWithin(Sum(mid), |s| - 2, Min(s), Max(s));
    Divide(Sum(mid), |s| - 2)
  }

  /** `getMidAverage` as written for three or more samples: the middle of the
      sorted batch is summed in a `uint16_t`, then divided by n-2 rounding
      half up. The wrap can only lower the result, and it agrees with
      `TrimmedMean` while the exact sum of the middle stays below 2^16. */
  function TrimmedMean16(s: seq<uint16>): (r: uint16)
    requires |s| >= 3
    ensures r <= TrimmedMean(s)
    ensures Sum(s) - Min(s) - Max(s) < UINT16_MODULUS ==> r == TrimmedMean(s)
  {
    var mid := SortedOf(s)[1..|s| - 1];
    TrimmedSum(s);
    var a, b := ToUint16(Sum(mid)), |s| - 2;
    DivideMonotone(a, Sum(mid), b);
    ToUint16Small(Sum(mid));
    Divide(a, b)
  }

  /** Both trimmed means are the rounded quotient of the sum m of the sorted
      batch's middle, with and without the 16-bit wrap. */
  lemma TrimmedMeansOfMiddle(s: seq<uint16>, m: nat)
    requires |s| >= 3 && Sum(SortedOf(s)[1..|s| - 1]) == m
    ensures TrimmedMean16(s) == Divide(ToUint16(m), |s| - 2)
    ensures TrimmedMean(s) == Divide(m, |s| - 2)
  {
  }

  /** Batches of one length and one sum have the same means. */
  lemma SameSumMeans(a: seq<uint16>, b: seq<uint16>)
    requires |a| > 0 && |a| == |b| && Sum(a) == Sum(b)
    ensures Mean16(a) == Mean16(b) && Mean(a) == Mean(b)
  {
  }

  /** Batches of one length, one sum and the same least and greatest sample
      leave middles of one sum, so they have the same trimmed means. */
  lemma SameEndsTrimmedMeans(a: seq<uint16>, b: seq<uint16>)
    requires |a| >= 3 && |a| == |b| && Sum(a) == Sum(b)
    requires Min(a) == Min(b) && Max(a) == Max(b)
    ensures TrimmedMean16(a) == TrimmedMean16(b) && TrimmedMean(a) == TrimmedMean(b)
  {
    TrimmedSum(a);
    TrimmedSum(b);
    var m := Sum(a) - Min(a) - Max(a);
    TrimmedMeansOfMiddle(a, m);
    TrimmedMeansOfMiddle(b, m);
  }

  // ---------------------------------------------------------------------
  // The 16-bit accumulator overflows
  // ---------------------------------------------------------------------

  /** A batch of equal samples sums to the count times their value. */
  lemma {:induction false} SumConstant(s: seq<uint16>, c: uint16)
    requires forall i :: 0 <= i < |s| ==> s[i] == c
    ensures Sum(s) == |s| * c
  {
    if |s| > 0 {
      SumConstant(s[1..], c);
      MulSucc(|s| - 1, c);
    }
  }

  /** A batch of equal samples is its own ascending order, and its least and
      greatest sample is that value. */
  lemma ConstantBatch(s: seq<uint16>, c: uint16)
    requires forall i :: 0 <= i < |s| ==> s[i] == c
    ensures SortedOf(s) == s
    ensures |s| > 0 ==> Min(s) == c && Max(s) == c
  {
    SortedPermutationIsSortedOf(s, s);
    if |s| > 0 {
      assert s[0] == c;
    }
  }

  /** The inner samples of a batch of equal samples sum to n-2 times their
      value. */
  lemma SumConstantInner(s: seq<uint16>, c: uint16)
    requires |s| >= 2 && forall i :: 0 <= i < |s| ==> s[i] == c
    ensures Sum(s[1..|s| - 1]) == (|s| - 2) * c
  {
    var mid := s[1..|s| - 1];
    forall i | 0 <= i < |mid|
      ensures mid[i] == c
    {
      assert mid[i] == s[i + 1];
    }
    SumConstant(mid, c);
  }

  /** Trimming a batch of equal samples leaves n-2 of them. */
  lemma ConstantMiddle(s: seq<uint16>, c: uint16)
    requires |s| >= 2 && forall i :: 0 <= i < |s| ==> s[i] == c
    ensures Sum(SortedOf(s)[1..|s| - 1]) == (|s| - 2) * c
  {
    ConstantBatch(s, c);
    SumConstantInner(s, c);
  }

  /** Five readings of 20000, all valid 16-bit samples, sum to 100000. The
      `uint16_t` accumulator keeps 34464, so the reported mean is 6893,
      below every sample, while the mean from an exact sum is 20000. */
  lemma AverageWrapExample(s: seq<uint16>)
    requires |s| == 5 && forall i :: 0 <= i < |s| ==> s[i] == 20000
    ensures Sum(s) == 100000
    ensures Mean16(s) == 6893
    ensures Mean16(s) < Min(s)
    ensures Mean(s) == 20000
  {
    ConstantBatch(s, 20000);
    SumConstant(s, 20000);
    DivideUnique(34464, 5, 6893);
  }

  /** The reported trimmed mean of five readings of 30000. */
  lemma TrimmedWrapValue(s: seq<uint16>)
    requires |s| == 5 && forall i :: 0 <= i < |s| ==> s[i] == 30000
    ensures TrimmedMean16(s) == 8155
  {
    ConstantMiddle(s, 30000);
    var a := ToUint16(Sum(SortedOf(s)[1..4]));
    assert a == 24464;
    DivideUnique(a, 3, 8155);
  }

  /** Five readings of 30000: the three middle ones sum to 90000, the
      accumulator keeps 24464 and the reported trimmed mean is 8155, while
      the trimmed mean from an exact sum is 30000. */
  lemma TrimmedWrapExample(s: seq<uint16>)
    requires |s| == 5 && forall i :: 0 <= i < |s| ==> s[i] == 30000
    ensures TrimmedMean16(s) == 8155
    ensures TrimmedMean16(s) < Min(s)
    ensures TrimmedMean(s) == 30000
  {
    TrimmedWrapValue(s);
    ConstantBatch(s, 30000);
  }
}
