/**
  The unit test of the older class as a concrete run: a filter for the
  range [128, 768] with batches of five, fed a fixed vector of ten readings
  while `registerData` answers true, then asked for the five statistics in
  the order the test runner calls them.
 */
module SmoothingFilterTest {
  import opened Numeric
  import opened Limits
  import opened Sorting
  import opened Statistics
  import opened FilterSmoothing

  const SENSOR_FILTER_MIN: uint16 := 128
  const SENSOR_FILTER_MAX: uint16 := 768
  const SMOOTH_SAMPLES: uint8 := 5
  const SAMPLE: seq<uint16> := [510, 835, 77, 152, 85, 652, 994, 179, 839, 279]

  /** `while (Filter.registerData(sample[i++]));`: registers samples until
      the answer is false and reports how many samples were read. The loop
      stops before the samples run out only on a full batch. */
  function RegisterWhileWanted(f: Filter, samples: seq<uint16>): (r: (Filter, nat))
    requires Valid(f)
    ensures Valid(r.0)
    ensures r.1 <= |samples|
    ensures |samples| > 0 ==> r.1 >= 1
    ensures r.1 < |samples| ==> r.0.bufferCnt == r.0.bufferLen
    decreases |samples|
  {
    if |samples| == 0 then (f, 0)
    else
      var (g, more) := RegisterData(f, samples[0]);
      if more then
        var (h, n) := RegisterWhileWanted(g, samples[1..]);
        (h, n + 1)
      else (g, 1)
  }

  /** Registering the first k+1 readings from f is registering the first
      one and then the next k from the state it leaves. */
  lemma RegisterAllStep(f: Filter, samples: seq<uint16>, k: nat)
    requires Valid(f) && k < |samples|
    ensures RegisterAll(f, samples[..k + 1])
         == RegisterAll(RegisterData(f, samples[0]).0, samples[1..][..k])
  {
    assert samples[..k + 1][1..] == samples[1..][..k];
  }

  /** The loop as a trace of `registerData` calls: the state it ends in is
      the one left by registering exactly the readings it read, every
      reading but the last one read was answered true, and when readings
      are left over the last one read was answered false. */
  lemma {:induction false} RegisterWhileWantedTrace(f: Filter, samples: seq<uint16>)
    requires Valid(f)
    ensures var (g, n) := RegisterWhileWanted(f, samples);
      && g == RegisterAll(f, samples[..n])
      && (forall k :: 0 <= k < n - 1 ==> RegisterData(RegisterAll(f, samples[..k]), samples[k]).1)
      && (n < |samples| ==> !RegisterData(RegisterAll(f, samples[..n - 1]), samples[n - 1]).1)
    decreases |samples|
  {
    if |samples| > 0 {
      assert samples[..0] == [];
      var (g1, more) := RegisterData(f, samples[0]);
      RegisterAllStep(f, samples, 0);
      assert samples[1..][..0] == [];
      if more {
        var t := samples[1..];
        var (h, m) := RegisterWhileWanted(g1, t);
        RegisterWhileWantedTrace(g1, t);
        RegisterAllStep(f, samples, m);
        forall k | 0 <= k < m
          ensures RegisterData(RegisterAll(f, samples[..k]), samples[k]).1
        {
          if k > 0 {
            RegisterAllStep(f, samples, k - 1);
            assert samples[k] == t[k - 1];
          }
        }
        if m < |t| {
          RegisterAllStep(f, samples, m - 1);
          assert samples[m] == t[m - 1];
        }
      }
    }
  }

  /** A filter for the test's range [128, 768] with batches of five. */
  predicate SensorFilter(f: Filter) {
    Valid(f) && f.bufferLen == 5 && f.valueMin == 128 && f.valueMax == 768
  }

  // The loop is traced two readings per lemma: `LoopRest<k>` starts with k
  // readings left, handles the next two and hands the rest to the next one.

  /** Where the loop ends when run from f on the remaining readings t: it
      reads all of t, the settings are kept, the batch is full, and it holds the accepted readings
      of the test, which are the batch of f followed by the in-range
      readings of t. */
  predicate LoopOutcome(f: Filter, t: seq<uint16>)
    requires Valid(f)
  {
    var (g, n) := RegisterWhileWanted(f, t);
    && n == |t|
    && SameSettings(f, g)
    && g.bufferCnt == 5
    && Batch(g) == [510, 152, 652, 179, 279]
    && Batch(g) == Batch(f) + InRange(128, 768, t)
  }

  /** The last two readings: 839 is dropped, 279 fills the batch and the
      loop stops. */
  lemma LoopRest2(f: Filter, t: seq<uint16>)
    requires SensorFilter(f) && Batch(f) == [510, 152, 652, 179] && t == [839, 279]
    ensures LoopOutcome(f, t)
  {
    assert RegisterData(f, 839) == (f, true);
    assert t[1..] == [279];
    assert InRange(128, 768, t[1..]) == [279];
  }

  /** 994 is dropped and 179 accepted. */
  lemma LoopRest4(f: Filter, t: seq<uint16>)
    requires SensorFilter(f) && Batch(f) == [510, 152, 652] && t == [994, 179, 839, 279]
    ensures LoopOutcome(f, t)
  {
    assert RegisterData(f, 994) == (f, true);
    var g := RegisterData(f, 179).0;
    assert t[1..][1..] == [839, 279];
    LoopRest2(g, t[2..]);
  }

  /** 85 is dropped and 652 accepted. */
  lemma LoopRest6(f: Filter, t: seq<uint16>)
    requires SensorFilter(f) && Batch(f) == [510, 152] && t == [85, 652, 994, 179, 839, 279]
    ensures LoopOutcome(f, t)
  {
    assert RegisterData(f, 85) == (f, true);
    var g := RegisterData(f, 652).0;
    assert t[1..][1..] == [994, 179, 839, 279];
    LoopRest4(g, t[2..]);
  }

  /** 77 is dropped and 152 accepted. */
  lemma LoopRest8(f: Filter, t: seq<uint16>)
    requires SensorFilter(f) && Batch(f) == [510] && t == [77, 152, 85, 652, 994, 179, 839, 279]
    ensures LoopOutcome(f, t)
  {
    assert RegisterData(f, 77) == (f, true);
    var g := RegisterData(f, 152).0;
    assert t[1..][1..] == [85, 652, 994, 179, 839, 279];
    LoopRest6(g, t[2..]);
  }

  /** The whole loop `while (Filter.registerData(sample[i++]));` from an
      empty batch: 510 is accepted and 835 dropped, and so on; the loop
      stops on the tenth reading with the batch full. */
  lemma LoopRest10(f: Filter, t: seq<uint16>)
    requires SensorFilter(f) && f.bufferCnt == 0 && t == [510, 835, 77, 152, 85, 652, 994, 179, 839, 279]
    ensures LoopOutcome(f, t)
  {
    var g := RegisterData(f, 510).0;
    assert RegisterData(g, 835) == (g, true);
    assert t[1..][1..] == [77, 152, 85, 652, 994, 179, 839, 279];
    LoopRest8(g, t[2..]);
  }

  /** The constructor call of the test yields a fresh filter for [128, 768]
      with batches of five. */
  lemma CreateSensorFilter(f: Filter)
    requires f == Create(SENSOR_FILTER_MAX, SENSOR_FILTER_MIN, SMOOTH_SAMPLES, DELAY_DFT)
    ensures SensorFilter(f) && f.bufferCnt == 0
  {
  }

  /** The setup of the test: the registration loop run on a filter fresh
      from that constructor call reads all ten readings and leaves the full
      batch of the in-range ones, 510, 152, 652, 179 and 279. */
  lemma SetupTest(f0: Filter)
    requires SensorFilter(f0) && f0.bufferCnt == 0
    ensures var (f, n) := RegisterWhileWanted(f0, SAMPLE);
      && n == 10
      && f.bufferCnt == f.bufferLen
      && Batch(f) == [510, 152, 652, 179, 279]
      && Batch(f) == InRange(SENSOR_FILTER_MIN, SENSOR_FILTER_MAX, SAMPLE)
  {
    LoopRest10(f0, SAMPLE);
  }

  /** The sums of the ascending batch and of its three middle samples,
      accumulated from the back as `Sum` unfolds. */
  lemma FixtureSums(b: seq<uint16>)
    requires b == [152, 179, 279, 510, 652]
    ensures Sum(b) == 1772
    ensures Sum(b[1..4]) == 968
  {
    assert Sum(b[4..]) == 652;
    assert Sum(b[3..]) == 1162 by { assert b[3..][1..] == b[4..]; }
    assert Sum(b[2..]) == 1441 by { assert b[2..][1..] == b[3..]; }
    assert Sum(b[1..]) == 1620 by { assert b[1..][1..] == b[2..]; }
    assert Sum(b[3..4]) == 510;
    assert Sum(b[2..4]) == 789 by { assert b[2..4][1..] == b[3..4]; }
    assert Sum(b[1..4]) == 968 by { assert b[1..4][1..] == b[2..4]; }
  }

  /** The accepted readings in ascending order. */
  lemma FixtureAscending(a: seq<uint16>, b: seq<uint16>)
    requires a == [510, 152, 652, 179, 279]
    requires b == [152, 179, 279, 510, 652]
    ensures Sorted(b) && multiset(b) == multiset(a)
  {
    FixtureSorted(b);
    FixturePermutation(a, b);
  }

  lemma FixtureSorted(b: seq<uint16>)
    requires b == [152, 179, 279, 510, 652]
    ensures Sorted(b)
  {
  }

  lemma FixturePermutation(a: seq<uint16>, b: seq<uint16>)
    requires a == [510, 152, 652, 179, 279]
    requires b == [152, 179, 279, 510, 652]
    ensures multiset(b) == multiset(a)
  {
  }

  /** The accepted batch has one ascending order. */
  lemma FixtureOrder(a: seq<uint16>, b: seq<uint16>)
    requires a == [510, 152, 652, 179, 279]
    requires Sorted(b) && multiset(b) == multiset(a)
    ensures b == [152, 179, 279, 510, 652]
  {
    var sorted: seq<uint16> := [152, 179, 279, 510, 652];
    FixtureAscending(a, sorted);
    SortedUnique(b, sorted);
  }

  /** The two means of the accepted batch: 1772 / 5 rounds to 354 and the
      middle sum 968 / 3 rounds to 323; neither sum wraps. */
  lemma FixtureMeans(b: seq<uint16>)
    requires b == [152, 179, 279, 510, 652]
    ensures Mean16(b) == 354
    ensures TrimmedMean16(b) == 323
  {
    FixtureSums(b);
    DivideUnique(1772, 5, 354);
    DivideUnique(968, 3, 323);
    FixtureAscending([510, 152, 652, 179, 279], b);
    SortedPermutationIsSortedOf(b, b);
  }

  /** `getMedian` on the full batch: 279, leaving the batch ascending. */
  method TestMedian(f: Filter) returns (g: Filter, median: uint16)
    requires Valid(f) && Batch(f) == [510, 152, 652, 179, 279]
    ensures Valid(g) && Batch(g) == [152, 179, 279, 510, 652]
    ensures median == 279
  {
    g, median := GetMedian(f);
    FixtureOrder(Batch(f), Batch(g));
  }

  /** `getAverage` on the sorted batch: 354. */
  method TestAverage(f: Filter) returns (average: uint16)
    requires Valid(f) && Batch(f) == [152, 179, 279, 510, 652]
    ensures average == 354
  {
    FixtureMeans(Batch(f));
    average := GetAverage(f);
  }

  /** `getMidAverage` on the sorted batch: 323; sorting again changes
      nothing. */
  method TestMidAverage(f: Filter) returns (g: Filter, midAverage: uint16)
    requires Valid(f) && Batch(f) == [152, 179, 279, 510, 652]
    ensures Valid(g) && Batch(g) == [152, 179, 279, 510, 652]
    ensures midAverage == 323
  {
    FixtureMeans(Batch(f));
    g, midAverage := GetMidAverage(f);
    FixtureAscending([510, 152, 652, 179, 279], Batch(f));
    SortedUnique(Batch(g), Batch(f));
  }

  /** `getMinimum` and `getMaximum` on the sorted batch: 152 and 652. */
  method TestExtremes(f: Filter) returns (minimum: uint16, maximum: uint16)
    requires Valid(f) && Batch(f) == [152, 179, 279, 510, 652]
    ensures minimum == 152
    ensures maximum == 652
  {
    minimum := GetMinimum(f);
    assert minimum <= f.buffer[0];
    maximum := GetMaximum(f);
    assert f.buffer[4] <= maximum;
  }

  /** The whole test: construction, the registration loop and the five
      statistics in the order the runner asks for them; the minimum and
      maximum are read after two sorts reordered the buffer. */
  method Fixture() returns (median: uint16, average: uint16, midAverage: uint16, minimum: uint16, maximum: uint16)
    ensures median == 279
    ensures average == 354
    ensures midAverage == 323
    ensures minimum == 152
    ensures maximum == 652
  {
    var f0 := Create(SENSOR_FILTER_MAX, SENSOR_FILTER_MIN, SMOOTH_SAMPLES, DELAY_DFT);
    CreateSensorFilter(f0);
    SetupTest(f0);
    var f := RegisterWhileWanted(f0, SAMPLE).0;
    var g, h;
    g, median := TestMedian(f);
    average := TestAverage(g);
    h, midAverage := TestMidAverage(g);
    minimum, maximum := TestExtremes(h);
  }
}
