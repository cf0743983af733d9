/**
  The older class, `gbj_filter_smoothing`: a fixed 11-slot buffer of 16-bit
  samples, the count of samples in the current batch, a validity range kept
  ordered by every setter, an odd batch length in [3, 11] and a settle delay.

  An instance is the immutable value `Filter`; each member function of the
  class becomes a function from the old value to the new one, and each
  statistic that sorts the buffer in place returns the sorted state next to
  its result.
 */
module FilterSmoothing {
  import opened Numeric
  import opened Limits
  import opened Sorting
  import opened Statistics

  datatype Filter = Filter(
    buffer: seq<uint16>,   // `_buffer`, GBJ_FILTER_SMOOTHING_BUFFER_MAX slots
    valueMin: uint16,      // `_valueMin`
    valueMax: uint16,      // `_valueMax`
    bufferLen: uint8,      // `_bufferLen`
    bufferCnt: uint8,      // `_bufferCnt`
    sensorDelay: uint8)    // `_sensorDelay`

  /** The class invariant: every write `_buffer[_bufferCnt++]` stays inside
      the 11 slots, the length is a valid odd length, the range is ordered
      and the delay is in its limits. */
  predicate Valid(f: Filter) {
    && |f.buffer| == BUFFERLEN_MAX as int
    && f.bufferCnt <= f.bufferLen
    && BUFFERLEN_MIN <= f.bufferLen <= BUFFERLEN_MAX
    && f.bufferLen % 2 == 1
    && f.valueMin <= f.valueMax
    && f.sensorDelay <= DELAY_MAX
  }

  /** The samples of the current batch, `_buffer[0.._bufferCnt)`. */
  function Batch(f: Filter): seq<uint16>
    requires f.bufferCnt <= |f.buffer|
  {
    f.buffer[..f.bufferCnt]
  }

  /** The range, the length and the delay are those of another state. */
  predicate SameSettings(f: Filter, g: Filter) {
    && g.valueMin == f.valueMin
    && g.valueMax == f.valueMax
    && g.bufferLen == f.bufferLen
    && g.sensorDelay == f.sensorDelay
  }

  /** The samples of vs that lie in [lo, hi], in their order. */
  function InRange(lo: uint16, hi: uint16, vs: seq<uint16>): seq<uint16> {
    if |vs| == 0 then []
    else (if lo <= vs[0] <= hi then [vs[0]] else []) + InRange(lo, hi, vs[1..])
  }

  // ---------------------------------------------------------------------
  // Setters
  // ---------------------------------------------------------------------

  /** The `swapdata(a, b)` macro: exchanges the pair through an `int16_t`
      temporary when the first is greater. The pair comes out ordered and
      holds the same two values. */
  function SwapData(a: uint16, b: uint16): (r: (uint16, uint16))
    ensures r.0 <= r.1
    ensures multiset{r.0, r.1} == multiset{a, b}
  {
    if a > b then
      var t := ToInt16(a);
      Int16RoundTrip(a, t);
      (b, ToUint16(t))
    else (a, b)
  }

  /** `setFilterMin`: the new lower bound and the stored upper bound are
      stored in ascending order; nothing else changes. */
  function SetFilterMin(f: Filter, valueMin: uint16): (g: Filter)
    ensures Valid(f) ==> Valid(g)
    ensures g.valueMin <= g.valueMax
    ensures multiset{g.valueMin, g.valueMax} == multiset{valueMin, f.valueMax}
    ensures g == f.(valueMin := g.valueMin, valueMax := g.valueMax)
  {
    var (lo, hi) := SwapData(FilterValue(valueMin), f.valueMax);
    f.(valueMin := lo, valueMax := hi)
  }

  /** `setFilterMax`: the stored lower bound and the new upper bound are
      stored in ascending order; nothing else changes. */
  function SetFilterMax(f: Filter, valueMax: uint16): (g: Filter)
    ensures Valid(f) ==> Valid(g)
    ensures g.valueMin <= g.valueMax
    ensures multiset{g.valueMin, g.valueMax} == multiset{f.valueMin, valueMax}
    ensures g == f.(valueMin := g.valueMin, valueMax := g.valueMax)
  {
    var (lo, hi) := SwapData(f.valueMin, FilterValue(valueMax));
    f.(valueMin := lo, valueMax := hi)
  }

  /** `setFilter(valueMax, valueMin)`: `setFilterMax` then `setFilterMin`.
      The upper bound ends as the greatest of the two arguments and the old
      lower bound; the lower bound is the new minimum against what the first
      step left as upper bound. */
  function SetFilter(f: Filter, valueMax: uint16, valueMin: uint16): (g: Filter)
    ensures Valid(f) ==> Valid(g)
    ensures g.valueMin <= g.valueMax
    ensures g.valueMax == Greatest(valueMin, Greatest(f.valueMin, valueMax))
    ensures g.valueMin == Least(valueMin, Greatest(f.valueMin, valueMax))
    ensures g == f.(valueMin := g.valueMin, valueMax := g.valueMax)
  {
    SetFilterMin(SetFilterMax(f, valueMax), valueMin)
  }

  /** When the stored lower bound does not exceed the new upper bound (as in
      the constructor, which starts from 0), `setFilter` stores its two
      arguments in ascending order. */
  lemma SetFilterOrdersArguments(f: Filter, valueMax: uint16, valueMin: uint16)
    requires f.valueMin <= valueMax
    ensures SetFilter(f, valueMax, valueMin).valueMin == Least(valueMin, valueMax)
    ensures SetFilter(f, valueMax, valueMin).valueMax == Greatest(valueMin, valueMax)
  {
  }

  /** Otherwise it does not: from the range [100, 200], `setFilter(50, 300)`
      yields [100, 300], not [50, 300], because the intermediate swap kept
      100 as upper bound. */
  lemma SetFilterIsNotASort(f: Filter)
    requires f.valueMin == 100 && f.valueMax == 200
    ensures SetFilter(f, 50, 300).valueMin == 100
    ensures SetFilter(f, 50, 300).valueMax == 300
  {
  }

  /** `setDelay`: the delay clamped to [0, 100]; nothing else changes. */
  function SetDelay(f: Filter, sensorDelay: uint8): (g: Filter)
    ensures Valid(f) ==> Valid(g)
    ensures g.sensorDelay <= DELAY_MAX
    ensures sensorDelay <= DELAY_MAX ==> g.sensorDelay == sensorDelay
    ensures sensorDelay > DELAY_MAX ==> g.sensorDelay == DELAY_MAX
    ensures g == f.(sensorDelay := g.sensorDelay)
  {
    f.(sensorDelay := Delay(sensorDelay))
  }

  lemma SetDelayIdempotent(f: Filter, sensorDelay: uint8)
    ensures SetDelay(SetDelay(f, sensorDelay), SetDelay(f, sensorDelay).sensorDelay)
         == SetDelay(f, sensorDelay)
  {
  }

  // ---------------------------------------------------------------------
  // Construction and registration
  // ---------------------------------------------------------------------

  /** `init`: the batch becomes empty; buffer slots and settings stay. */
  function Init(f: Filter): (g: Filter)
    ensures g.bufferCnt == 0 && Batch(g) == []
    ensures g.buffer == f.buffer && SameSettings(f, g)
    ensures Valid(f) ==> Valid(g)
  {
    f.(bufferCnt := 0)
  }

  /** The constructor. Members start as `_valueMin = 0`, `_valueMax = 65535`
      and an 11-slot buffer; it then runs `setFilter`, `setDelay`, stores the
      odd, limited length and runs `init`. The buffer slots start at zero (a
      statically allocated instance); no statistic reads a slot at or above
      the count, so their contents are never observed. */
  function Create(valueMax: uint16, valueMin: uint16, bufferLen: uint8, sensorDelay: uint8): (f: Filter)
    ensures Valid(f)
    ensures f.bufferCnt == 0
    ensures f.valueMin == Least(valueMin, valueMax)
    ensures f.valueMax == Greatest(valueMin, valueMax)
    ensures f.bufferLen == BufferLen(bufferLen)
    ensures f.sensorDelay == Delay(sensorDelay)
  {
    var members := Filter(seq(BUFFERLEN_MAX, _ => 0), FILTER_MIN, FILTER_MAX, 0, 0, 0);
    var f1 := SetFilter(members, valueMax, valueMin);
    var f2 := SetDelay(f1, sensorDelay);
    var f3 := f2.(bufferLen := BufferLen(bufferLen));
    Init(f3)
  }

  /** The constructor with every argument defaulted. */
  lemma CreateDefaults()
    ensures var f := Create(FILTER_MAX, FILTER_MIN, BUFFERLEN_DFT, DELAY_DFT);
      f.valueMin == 0 && f.valueMax == 65535 && f.bufferLen == 5 && f.sensorDelay == 20 && f.bufferCnt == 0
  {
  }

  /** `registerData`. A sample outside [valueMin, valueMax] is dropped: the
      state is unchanged and the answer is true. An accepted sample is
      appended to the batch, or starts a new batch when the previous one is
      full; slots past the new count are untouched. After an accepted sample
      the answer is false exactly when the batch has become full. */
  function RegisterData(f: Filter, sensorValue: uint16): (r: (Filter, bool))
    requires Valid(f)
    ensures Valid(r.0)
    ensures sensorValue < f.valueMin || sensorValue > f.valueMax ==> r == (f, true)
    ensures f.valueMin <= sensorValue <= f.valueMax ==>
      && SameSettings(f, r.0)
      && Batch(r.0) == (if f.bufferCnt < f.bufferLen then Batch(f) else []) + [sensorValue]
      && (forall i :: r.0.bufferCnt <= i < |f.buffer| ==> r.0.buffer[i] == f.buffer[i])
      && (r.1 <==> r.0.bufferCnt < r.0.bufferLen)
      && (!r.1 <==> r.0.bufferCnt == r.0.bufferLen)
  {
    if sensorValue < f.valueMin then (f, true)
    else if sensorValue > f.valueMax then (f, true)
    else
      var f1 := if f.bufferCnt >= f.bufferLen then Init(f) else f;
      var g := f1.(buffer := f1.buffer[f1.bufferCnt := sensorValue], bufferCnt := f1.bufferCnt + 1);
      assert Batch(g) == Batch(f1) + [sensorValue];
      (g, g.bufferCnt < g.bufferLen)
  }

  /** Registering samples one after the other, ignoring the answers. */
  function RegisterAll(f: Filter, vs: seq<uint16>): (g: Filter)
    requires Valid(f)
    ensures Valid(g)
    decreases |vs|
  {
    if |vs| == 0 then f else RegisterAll(RegisterData(f, vs[0]).0, vs[1..])
  }

  /** While the batch has room, registering a run of samples appends exactly
      the in-range ones, in order: rejected samples leave no trace. */
  lemma {:induction false} RegisterAllAppendsInRange(f: Filter, vs: seq<uint16>)
    requires Valid(f)
    requires f.bufferCnt + |InRange(f.valueMin, f.valueMax, vs)| <= f.bufferLen
    ensures SameSettings(f, RegisterAll(f, vs))
    ensures Batch(RegisterAll(f, vs)) == Batch(f) + InRange(f.valueMin, f.valueMax, vs)
    decreases |vs|
  {
    if |vs| > 0 {
      var g := RegisterData(f, vs[0]).0;
      RegisterAllAppendsInRange(g, vs[1..]);
      if f.valueMin <= vs[0] <= f.valueMax {
        assert Batch(g) == Batch(f) + [vs[0]];
      }
    }
  }

  /** A batch started from empty with exactly `bufferLen` in-range samples is
      full; the next in-range sample starts a batch of one. */
  lemma BatchCycle(f: Filter, vs: seq<uint16>, v: uint16)
    requires Valid(f) && f.bufferCnt == 0
    requires |InRange(f.valueMin, f.valueMax, vs)| == f.bufferLen as int
    requires f.valueMin <= v <= f.valueMax
    ensures RegisterAll(f, vs).bufferCnt == f.bufferLen
    ensures Batch(RegisterData(RegisterAll(f, vs), v).0) == [v]
    ensures RegisterData(RegisterAll(f, vs), v).1
  {
    RegisterAllAppendsInRange(f, vs);
  }

  // ---------------------------------------------------------------------
  // Getters
  // ---------------------------------------------------------------------

  function GetBufferLen(f: Filter): uint8 { f.bufferLen }
  function GetReadings(f: Filter): uint8 { f.bufferCnt }
  function GetValueMin(f: Filter): uint16 { f.valueMin }
  function GetValueMax(f: Filter): uint16 { f.valueMax }
  function GetDelay(f: Filter): uint8 { f.sensorDelay }

  // ---------------------------------------------------------------------
  // Statistics
  // ---------------------------------------------------------------------

  /** The private `sort`: the batch becomes its ascending permutation; slots
      past the count and the settings are untouched. */
  method Sort(f: Filter) returns (g: Filter)
    requires Valid(f)
    ensures Valid(g) && SameSettings(f, g) && g.bufferCnt == f.bufferCnt
    ensures Sorted(Batch(g)) && multiset(Batch(g)) == multiset(Batch(f))
    ensures Batch(g) == SortedOf(Batch(f))
    ensures g.buffer[f.bufferCnt..] == f.buffer[f.bufferCnt..]
  {
    var sorted := BubbleSort(Batch(f));
    g := f.(buffer := sorted + f.buffer[f.bufferCnt..]);
    assert Batch(g) == sorted;
  }

  /** `getMedian`: 0 for an empty batch; otherwise the batch is sorted in
      place and the sample at index (count-1)/2 is returned, which is the
      lower median of the batch (`Statistics.MedianRank`). */
  method GetMedian(f: Filter) returns (g: Filter, m: uint16)
    requires Valid(f)
    ensures Valid(g) && SameSettings(f, g) && g.bufferCnt == f.bufferCnt
    ensures f.bufferCnt == 0 ==> g == f && m == 0
    ensures f.bufferCnt > 0 ==>
      && Sorted(Batch(g)) && multiset(Batch(g)) == multiset(Batch(f))
      && g.buffer[f.bufferCnt..] == f.buffer[f.bufferCnt..]
      && m == Batch(g)[(f.bufferCnt - 1) / 2]
      && m == Median(Batch(f))
      && CountBelow(Batch(f), m) <= (f.bufferCnt - 1) / 2 < CountAtMost(Batch(f), m)
  {
    if f.bufferCnt == 0 {
      return f, 0;
    }
    g := Sort(f);
    m := g.buffer[(g.bufferCnt - 1) / 2];
    MedianRank(Batch(f));
  }

  /** `getAverage`: 0 for an empty batch; otherwise the `uint16_t` sum of the
      batch divided by the count, rounded half up. The state is unchanged. */
  method GetAverage(f: Filter) returns (a: uint16)
    requires Valid(f)
    ensures f.bufferCnt == 0 ==> a == 0
    ensures f.bufferCnt > 0 ==> a == Mean16(Batch(f))
    ensures f.bufferCnt > 0 && Sum(Batch(f)) < UINT16_MODULUS ==> a == Mean(Batch(f))
  {
    if f.bufferCnt == 0 {
      return 0;
    }
    var statistic := SumMod16(Batch(f));
    a := Divide(statistic, f.bufferCnt);
  }

  /** `getMidAverage`: 0 for an empty batch; otherwise the batch is sorted in
      place and the `uint16_t` sum of all but its first and last samples is
      divided by count-2, rounded half up. With a single sample the division
      is 0.0 / -1.0, which rounds and converts to 0. With two samples the
      source divides 0.0 by 0.0 and converts NaN to `uint16_t`, which C++
      leaves undefined, so that state is excluded. */
  method GetMidAverage(f: Filter) returns (g: Filter, a: uint16)
    requires Valid(f) && f.bufferCnt != 2
    ensures Valid(g) && SameSettings(f, g) && g.bufferCnt == f.bufferCnt
    ensures f.bufferCnt <= 1 ==> g == f && a == 0
    ensures f.bufferCnt >= 3 ==>
      && Sorted(Batch(g)) && multiset(Batch(g)) == multiset(Batch(f))
      && g.buffer[f.bufferCnt..] == f.buffer[f.bufferCnt..]
      && a == TrimmedMean16(Batch(f))
  {
    if f.bufferCnt == 0 {
      return f, 0;
    }
    g := Sort(f);
    if g.bufferCnt == 1 {
      assert g.buffer == Batch(g) + g.buffer[1..];
      assert f.buffer == Batch(f) + f.buffer[1..];
      return g, 0;
    }
    var statistic := SumMod16(Batch(g)[1..g.bufferCnt - 1]);
    a := Divide(statistic, g.bufferCnt - 2);
  }

  /** The means depend only on the batch's multiset. So `getAverage` called
      after `getMedian` or `getMidAverage` has sorted the buffer in place
      reports the mean of the batch as registered, and sorting again does
      not change what `getMidAverage` reports. */
  lemma MeansPermutation(a: seq<uint16>, b: seq<uint16>)
    requires multiset(a) == multiset(b) && |a| == |b| > 0
    ensures Mean16(a) == Mean16(b) && Mean(a) == Mean(b)
    ensures |a| >= 3 ==> TrimmedMean16(a) == TrimmedMean16(b) && TrimmedMean(a) == TrimmedMean(b)
  {
    SumPermutation(a, b);
    SameSumMeans(a, b);
    if |a| >= 3 {
      MinMaxPermutation(a, b);
      SameEndsTrimmedMeans(a, b);
    }
  }

  /** `getMinimum`: 0 for an empty batch, otherwise the least sample of the
      batch. The buffer is read, not reordered. */
  method GetMinimum(f: Filter) returns (m: uint16)
    requires Valid(f)
    ensures f.bufferCnt == 0 ==> m == 0
    ensures f.bufferCnt > 0 ==> m in Batch(f) && forall i :: 0 <= i < f.bufferCnt ==> m <= f.buffer[i]
  {
    if f.bufferCnt == 0 {
      return 0;
    }
    m := Minimum(Batch(f));
  }

  /** `getMaximum`: 0 for an empty batch, otherwise the greatest sample of
      the batch. The buffer is read, not reordered. */
  method GetMaximum(f: Filter) returns (m: uint16)
    requires Valid(f)
    ensures f.bufferCnt == 0 ==> m == 0
    ensures f.bufferCnt > 0 ==> m in Batch(f) && forall i :: 0 <= i < f.bufferCnt ==> f.buffer[i] <= m
  {
    if f.bufferCnt == 0 {
      return 0;
    }
    m := Maximum(Batch(f));
  }
}
