/**
  The newer class, `gbj_smoothing`: the same batch cycle and statistics as
  the older class, with a heap buffer of `bufferLen_` slots, a settable
  batch length, and bound setters that store their argument without
  reordering the range.

  The implementation file writes the members as `_buffer` and `_bufferCnt`
  while the header declares `buffer_` and `bufferCnt_`; both spellings are
  the same two members here. Only the first `bufferCnt_` slots of the
  buffer are ever read, so the state keeps exactly those, as `batch`, and
  `bufferCnt_` is its length.
 */
module Smoothing {
  import opened Numeric
  import opened Limits
  import opened Sorting
  import opened Statistics

  datatype Smoother = Smoother(
    batch: seq<uint16>,    // `buffer_[0 .. bufferCnt_)`
    valueMin: uint16,      // `valueMin_`
    valueMax: uint16,      // `valueMax_`
    bufferLen: uint8,      // `bufferLen_`
    sensorDelay: uint8)    // `sensorDelay_`

  /** The class invariant: the batch fits the allocated length, which is a
      valid odd length, and the delay is in its limits. Unlike the older
      class, nothing keeps `valueMin_ <= valueMax_`. */
  predicate Valid(f: Smoother) {
    && |f.batch| <= f.bufferLen
    && BUFFERLEN_MIN <= f.bufferLen <= BUFFERLEN_MAX
    && f.bufferLen % 2 == 1
    && f.sensorDelay <= DELAY_MAX
  }

  // ---------------------------------------------------------------------
  // Getters
  // ---------------------------------------------------------------------

  function GetReadings(f: Smoother): uint8
    requires Valid(f)
  {
    |f.batch|
  }

  function GetValueMin(f: Smoother): uint16 { f.valueMin }
  function GetValueMax(f: Smoother): uint16 { f.valueMax }
  function GetBufferLen(f: Smoother): uint8 { f.bufferLen }
  function GetDelay(f: Smoother): uint8 { f.sensorDelay }

  /** The static getters report the `Limits` enum. */
  function GetFilterMin(): uint16 { FILTER_MIN }
  function GetFilterMax(): uint16 { FILTER_MAX }
  function GetBufferLenMin(): uint8 { BUFFERLEN_MIN }
  function GetBufferLenMax(): uint8 { BUFFERLEN_MAX }
  function GetBufferLenDft(): uint8 { BUFFERLEN_DFT }
  function GetDelayMin(): uint8 { DELAY_MIN }
  function GetDelayMax(): uint8 { DELAY_MAX }
  function GetDelayDft(): uint8 { DELAY_DFT }

  // ---------------------------------------------------------------------
  // Setters
  // ---------------------------------------------------------------------

  /** `setFilterMax`: the argument is stored as given (the clamp to the full
      `uint16_t` range changes nothing) and the lower bound is left alone,
      even when it now exceeds the upper bound. */
  function SetFilterMax(f: Smoother, valueMax: uint16): (g: Smoother)
    ensures g.valueMax == valueMax
    ensures g == f.(valueMax := valueMax)
  {
    f.(valueMax := FilterValue(valueMax))
  }

  /** `setFilterMin`: the argument is stored as given; the upper bound is
      left alone. */
  function SetFilterMin(f: Smoother, valueMin: uint16): (g: Smoother)
    ensures g.valueMin == valueMin
    ensures g == f.(valueMin := valueMin)
  {
    f.(valueMin := FilterValue(valueMin))
  }

  /** `setFilter(valueMax, valueMin)`: both bounds stored as given, in the
      order given; nothing else changes. */
  function SetFilter(f: Smoother, valueMax: uint16, valueMin: uint16): (g: Smoother)
    ensures g.valueMax == valueMax && g.valueMin == valueMin
    ensures g == f.(valueMin := valueMin, valueMax := valueMax)
  {
    SetFilterMin(SetFilterMax(f, valueMax), valueMin)
  }

  /** `setBufferLen`: the length forced odd and limited to [3, 11]. The
      batch, the range and the delay stay. The source reallocates the buffer
      to the new length, which keeps the batch only when the batch still
      fits, hence the precondition. */
  function SetBufferLen(f: Smoother, bufferLen: uint8): (g: Smoother)
    requires Valid(f) && |f.batch| <= BufferLen(bufferLen)
    ensures Valid(g)
    ensures g.bufferLen % 2 == 1 && BUFFERLEN_MIN <= g.bufferLen <= BUFFERLEN_MAX
    ensures g.bufferLen == BufferLen(bufferLen)
    ensures BUFFERLEN_MIN <= bufferLen <= BUFFERLEN_MAX && bufferLen % 2 == 1 ==> g.bufferLen == bufferLen
    ensures g == f.(bufferLen := g.bufferLen)
  {
    f.(bufferLen := BufferLen(bufferLen))
  }

  /** Setting the length reported by `getBufferLen` again is a no-op. */
  lemma SetBufferLenIdempotent(f: Smoother, bufferLen: uint8)
    requires Valid(f) && |f.batch| <= BufferLen(bufferLen)
    ensures var g := SetBufferLen(f, bufferLen);
      SetBufferLen(g, GetBufferLen(g)) == g
  {
  }

  /** `setDelay`: the delay clamped to [0, 100]; nothing else changes. */
  function SetDelay(f: Smoother, sensorDelay: uint8): (g: Smoother)
    ensures g.sensorDelay <= DELAY_MAX
    ensures sensorDelay <= DELAY_MAX ==> g.sensorDelay == sensorDelay
    ensures sensorDelay > DELAY_MAX ==> g.sensorDelay == DELAY_MAX
    ensures g == f.(sensorDelay := g.sensorDelay)
  {
    f.(sensorDelay := Delay(sensorDelay))
  }

  /** Setting the delay reported by `getDelay` again is a no-op. */
  lemma SetDelayIdempotent(f: Smoother, sensorDelay: uint8)
    ensures var g := SetDelay(f, sensorDelay);
      SetDelay(g, GetDelay(g)) == g
  {
  }

  // ---------------------------------------------------------------------
  // Construction and registration
  // ---------------------------------------------------------------------

  /** `init`: `bufferCnt_ = 0` and nothing else. */
  function Init(f: Smoother): (g: Smoother)
    ensures g.batch == []
    ensures g == f.(batch := [])
    ensures Valid(f) ==> Valid(g)
  {
    f.(batch := [])
  }

  /** The constructor: `setFilter`, `setBufferLen`, `setDelay`, `init`. The
      bounds are kept as given, so an inverted range is possible. */
  function Create(valueMax: uint16, valueMin: uint16, bufferLen: uint8, sensorDelay: uint8): (f: Smoother)
    ensures Valid(f)
    ensures f.batch == []
    ensures f.valueMax == valueMax && f.valueMin == valueMin
    ensures f.bufferLen == BufferLen(bufferLen)
    ensures f.sensorDelay == Delay(sensorDelay)
  {
    // Members before the constructor body runs: no buffer yet, so no batch.
    var members := Smoother([], FILTER_MIN, FILTER_MAX, BUFFERLEN_DFT, DELAY_DFT);
    var f1 := SetFilter(members, valueMax, valueMin);
    var f2 := SetBufferLen(f1, bufferLen);
    var f3 := SetDelay(f2, sensorDelay);
    Init(f3)
  }

  /** `registerData`. A sample below `valueMin_` or above `valueMax_` is
      dropped: the state is unchanged and the answer is true. An accepted
      sample is appended, or starts a new batch when the previous one is
      full, so the batch is never empty afterwards. After an accepted sample
      the answer is false exactly when the batch has become full. */
  function RegisterData(f: Smoother, sensorValue: uint16): (r: (Smoother, bool))
    requires Valid(f)
    ensures Valid(r.0)
    ensures sensorValue < f.valueMin || sensorValue > f.valueMax ==> r == (f, true)
    ensures f.valueMin <= sensorValue <= f.valueMax ==>
      && r.0 == f.(batch := r.0.batch)
      && r.0.batch == (if |f.batch| < f.bufferLen then f.batch else []) + [sensorValue]
      && |r.0.batch| >= 1
      && (r.1 <==> |r.0.batch| < r.0.bufferLen)
      && (!r.1 <==> |r.0.batch| == r.0.bufferLen)
  {
    if sensorValue < GetValueMin(f) then (f, true)
    else if sensorValue > GetValueMax(f) then (f, true)
    else
      var f1 := if GetReadings(f) >= GetBufferLen(f) then Init(f) else f;
      var g := f1.(batch := f1.batch + [sensorValue]);
      (g, GetReadings(g) < GetBufferLen(g))
  }

  /** With an inverted range no sample can be accepted: every call answers
      true and changes nothing. */
  lemma InvertedRangeRejectsAll(f: Smoother, sensorValue: uint16)
    requires Valid(f) && f.valueMin > f.valueMax
    ensures RegisterData(f, sensorValue) == (f, true)
  {
  }

  /** An inverted range is reachable: the constructor stores (max 5, min 900)
      as given, and the resulting filter accepts nothing. */
  lemma InvertedRangeReachable(sensorValue: uint16)
    ensures Create(5, 900, BUFFERLEN_DFT, DELAY_DFT).valueMin > Create(5, 900, BUFFERLEN_DFT, DELAY_DFT).valueMax
    ensures RegisterData(Create(5, 900, BUFFERLEN_DFT, DELAY_DFT), sensorValue).0.batch == []
  {
    InvertedRangeRejectsAll(Create(5, 900, BUFFERLEN_DFT, DELAY_DFT), sensorValue);
  }

  // ---------------------------------------------------------------------
  // Statistics
  // ---------------------------------------------------------------------
  // `gbj_apphelpers::sort_buble_asc` is specified only by its effect: the
  // batch becomes an ascending permutation of itself. A batch has exactly
  // one such permutation (`Sorting.SortedUnique`), so the model uses the
  // reference sort `SortedOf`.

  /** `getMedian`: 0 for an empty batch; otherwise the batch is sorted in
      place and the sample at index (count-1)/2, the lower median, is
      returned. */
  function GetMedian(f: Smoother): (r: (Smoother, uint16))
    requires Valid(f)
    ensures Valid(r.0) && r.0 == f.(batch := r.0.batch)
    ensures |f.batch| == 0 ==> r == (f, 0)
    ensures |f.batch| > 0 ==>
      && Sorted(r.0.batch) && multiset(r.0.batch) == multiset(f.batch)
      && r.1 == r.0.batch[(|f.batch| - 1) / 2]
      && CountBelow(f.batch, r.1) <= (|f.batch| - 1) / 2 < CountAtMost(f.batch, r.1)
  {
    if GetReadings(f) == 0 then (f, 0)
    else
      var g := f.(batch := SortedOf(f.batch));
      MedianRank(f.batch);
      (g, g.batch[(GetReadings(g) - 1) / 2])
  }

  /** `getAverage`: 0 for an empty batch; otherwise the `uint16_t` sum of the
      batch divided by the count, rounded half up. The state is unchanged. */
  method GetAverage(f: Smoother) returns (a: uint16)
    requires Valid(f)
    ensures |f.batch| == 0 ==> a == 0
    ensures |f.batch| > 0 ==> a == Mean16(f.batch)
    ensures |f.batch| > 0 && Sum(f.batch) < UINT16_MODULUS ==> a == Mean(f.batch)
  {
    if GetReadings(f) == 0 {
      return 0;
    }
    var statistic := SumMod16(f.batch);
    a := Divide(statistic, GetReadings(f));
  }

  /** `getMidAverage`: 0 for an empty batch; otherwise the batch is sorted in
      place and the `uint16_t` sum of all but its first and last samples is
      divided by count-2, rounded half up. A single sample gives 0 (the
      float quotient 0.0 / -1.0 converts to 0); two samples are excluded,
      since the source then converts 0.0 / 0.0 to `uint16_t`, which C++
      leaves undefined. */
  method GetMidAverage(f: Smoother) returns (g: Smoother, a: uint16)
    requires Valid(f) && |f.batch| != 2
    ensures Valid(g) && g == f.(batch := g.batch)
    ensures |f.batch| <= 1 ==> g == f && a == 0
    ensures |f.batch| >= 3 ==>
      && Sorted(g.batch) && multiset(g.batch) == multiset(f.batch)
      && a == TrimmedMean16(f.batch)
  {
    if GetReadings(f) == 0 {
      return f, 0;
    }
    g := f.(batch := SortedOf(f.batch));
    if GetReadings(g) == 1 {
      SortedPermutationIsSortedOf(f.batch, f.batch);
      return g, 0;
    }
    var mid := g.batch[1..GetReadings(g) - 1];
    var statistic := SumMod16(mid);
    assert statistic == ToUint16(Sum(mid));
    a := Divide(statistic, GetReadings(g) - 2);
  }

  /** `getMinimum`: 0 for an empty batch, otherwise the least sample of the
      batch. The batch is read, not reordered. */
  method GetMinimum(f: Smoother) returns (m: uint16)
    requires Valid(f)
    ensures |f.batch| == 0 ==> m == 0
    ensures |f.batch| > 0 ==> m in f.batch && forall i :: 0 <= i < |f.batch| ==> m <= f.batch[i]
  {
    if GetReadings(f) == 0 {
      return 0;
    }
    m := Minimum(f.batch);
  }

  /** `getMaximum`: 0 for an empty batch, otherwise the greatest sample of
      the batch. The batch is read, not reordered. */
  method GetMaximum(f: Smoother) returns (m: uint16)
    requires Valid(f)
    ensures |f.batch| == 0 ==> m == 0
    ensures |f.batch| > 0 ==> m in f.batch && forall i :: 0 <= i < |f.batch| ==> f.batch[i] <= m
  {
    if GetReadings(f) == 0 {
      return 0;
    }
    m := Maximum(f.batch);
  }
}
