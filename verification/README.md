# gbj smoothing filters in Dafny

This project models the two variants of Libor Gabaj's Arduino sample smoother.

- **`gbj_filter_smoothing`** is the older class. It has a fixed 11-slot buffer, and its bound setters swap the two bounds into order.
- **`gbj_smoothing`** is the newer class. It has a buffer sized to the batch length, a `setBufferLen` setter, and bound setters that store their argument as given.

Both classes behave the same way:
- They accept 16-bit sensor readings that lie inside a validity range.
- They collect the readings into batches of an odd length in [3, 11]. When a batch is full, the next accepted reading starts a new one.
- They report five statistics of the current batch:
  - the median,
  - the rounded mean,
  - the rounded mean without the least and the greatest sample,
  - the minimum,
  - the maximum.
- Each statistic returns 0 for an empty batch.

An instance is an immutable value: `FilterSmoothing.Filter` for the older class and `Smoothing.Smoother` for the newer one.
- Every mutating member function becomes a function from the old state to the new one.
- `getMedian` and `getMidAverage` sort the buffer in place, so they return the sorted state next to the statistic.
- The loops of the sources are methods over sequences, with invariants:
  - the bubble sort of the older class,
  - the `uint16_t` accumulation loops,
  - the minimum and maximum scans.

These methods are specified against reference definitions in `Statistics` and `Sorting`:
- `Sum`, `Min`, `Max`, `SortedOf` and `Median`;
- `Mean` and `TrimmedMean`, which use an exact sum;
- `Mean16` and `TrimmedMean16`, which model the 16-bit accumulator as written.

The module `SmoothingFilterTest` replays the repository's unit test of the older class as a concrete run. It goes from construction, through the registration loop, to the five expected statistics.

Modules:
- `Numeric`: the fixed-width integer types, Arduino's `constrain`, `n | 1`, the `int16_t` temporary of `swapdata`, wrap-around to `uint16_t`, and the rounding `divide` macro.
- `Limits`: the limits shared by both classes, and the clamping of the batch length and the delay.
- `Sorting`: sortedness, the reference sort, the uniqueness of a sorted permutation, and the older class's bubble sort.
- `Statistics`: sums, extremes, the median by rank, and the means. The as-written means use the 16-bit accumulator; the corrected ones use an exact sum.
- `FilterSmoothing`: the older class.
- `Smoothing`: the newer class.
- `SmoothingFilterTest`: the unit test.

Points of the code's behaviour worth knowing:
- Both classes sum in a `uint16_t`, which wraps (see Findings).
- In the older class each single-sided setter orders the new bound against the other stored bound. So `setFilter` is not a sort of its two arguments (`FilterSmoothing.SetFilterIsNotASort`).
- The newer class never reorders its bounds. An inverted range is reachable there, and it rejects every reading (`Smoothing.InvertedRangeReachable`).
- `getMidAverage` returns 0 for one sample and converts a NaN for two.

## Model

| member | source | states |
|---|---|---|
| Numeric.Clamp | src/gbj_filter_smoothing.cpp:118 | `constrain` yields a point of [lo, hi]; that point is nearest to the argument, and an argument already inside is kept |
| Numeric.SetLowBit | src/gbj_filter_smoothing.cpp:9 | setting the low bit of the requested length always gives an odd byte: an even byte is raised by one and an odd byte is kept |
| Numeric.SetLowBitIsOr | src/gbj_smoothing.h:215 | the arithmetic form of setting the low bit equals the bitwise OR of the byte with 1, for every byte |
| Numeric.Int16RoundTrip | src/gbj_filter_smoothing.h:49 | the `int16_t` temporary of `swapdata` loses nothing: every `uint16_t` comes back unchanged, and every `int16_t` survives the opposite trip |
| Numeric.Divide | src/gbj_filter_smoothing.h:50 | the `divide` macro of both headers (also `src/gbj_smoothing.h:38-41`) as integer arithmetic: the value is (2a + b) / (2b), a/b rounded half up, and it is never above the dividend; `Numeric.DivideBracket` and `Numeric.DivideUnique` characterise it as the one round-half-up quotient |
| Numeric.DivideBracket | src/gbj_filter_smoothing.h:50 | `divide(a, b)` rounds half up: a/b lies in [q - 1/2, q + 1/2) |
| Numeric.DivideUnique | src/gbj_smoothing.h:38-41 | the round-half-up quotient is unique: any q meeting the bracket is the value of `divide` |
| Numeric.DivideMonotone | src/gbj_filter_smoothing.h:50 | a larger dividend never gives a smaller rounded quotient |
| Numeric.DivideWithin | src/gbj_filter_smoothing.h:50 | a dividend between b*lo and b*hi gives a rounded quotient in [lo, hi] |
| Limits.BufferLen | src/gbj_filter_smoothing.cpp:9 | the stored length is odd and in [3, 11]; it equals the request exactly when the request is an odd number in [3, 11]; an even request inside the range is raised by one, and a request outside it becomes the nearer limit |
| Limits.Delay | src/gbj_filter_smoothing.cpp:116-119 | the stored delay is at most 100 ms; it equals the request exactly when the request is allowed, and otherwise it is 100 |
| Limits.FilterValue | src/gbj_smoothing.h:198 | limiting a bound to [0, 65535] keeps every `uint16_t` as given |
| Limits.ClampingIdempotent | src/gbj_filter_smoothing.h:39-46 | re-applying the length and delay rules changes nothing, and the default length 5 and delay 20 are valid settings |
| Sorting.SortedUnique | src/gbj_smoothing.cpp:39 | two ascending sequences with the same elements are equal, so any ascending in-place sort of the batch gives one result |
| Sorting.SwapDown | src/gbj_filter_smoothing.cpp:147-149 | the exchange step swaps two neighbours, keeps every other slot and keeps the multiset |
| Sorting.BubbleSort | src/gbj_filter_smoothing.cpp:137-154 | the early-exit bubble sort leaves an ascending permutation of its input, and that permutation is the reference sort |
| Statistics.SumPermutation | src/gbj_filter_smoothing.cpp:57 | sorting the batch before summing cannot change the exact sum |
| Statistics.MinMaxPermutation | src/gbj_filter_smoothing.cpp:56 | rearranging a batch, as the in-place sort does, keeps its least and its greatest sample |
| Statistics.SameEndsTrimmedMeans | src/gbj_filter_smoothing.cpp:54-62 | the trimmed means, as written and exact, depend only on the batch's length, sum, least and greatest sample |
| Statistics.SumMod16 | src/gbj_filter_smoothing.cpp:47-48 | the `uint16_t` accumulation loop yields the exact sum reduced modulo 2^16 |
| Statistics.Minimum | src/gbj_filter_smoothing.cpp:68-72 | the scan returns a sample of the batch that is at most every sample |
| Statistics.Maximum | src/gbj_filter_smoothing.cpp:80-84 | the scan returns a sample of the batch that is at least every sample |
| Statistics.SortedEnds | src/gbj_filter_smoothing.cpp:57-59 | the first and last samples of the sorted batch are its least and greatest samples |
| Statistics.MedianRank | src/gbj_filter_smoothing.cpp:38-40 | the sample at index (n-1)/2 of the sorted batch is the lower median: at most (n-1)/2 samples lie below it, and more than (n-1)/2 lie at or below it |
| Statistics.MedianUnique | src/gbj_smoothing.cpp:39-41 | the rank condition singles out one value, so the reported median depends only on the batch's multiset and not on the registration order |
| Statistics.TrimmedSum | src/gbj_filter_smoothing.cpp:57-59 | summing all but the first and last samples of the sorted batch removes exactly one least and one greatest sample |
| Statistics.TrimmedSumBounds | src/gbj_filter_smoothing.cpp:59-61 | the trimmed sum lies between (n-2) times the least and (n-2) times the greatest sample |
| Statistics.Mean | src/gbj_filter_smoothing.cpp:44-51 | the rounded mean from an exact sum lies between the least and the greatest sample |
| Statistics.Mean16 | src/gbj_filter_smoothing.cpp:47-50 | the mean from the wrapping accumulator is never above the exact rounded mean, and it equals that mean while the exact sum is below 2^16 |
| Statistics.TrimmedMean | src/gbj_filter_smoothing.cpp:54-62 | the rounded trimmed mean from an exact sum lies between the least and the greatest sample |
| Statistics.TrimmedMean16 | src/gbj_filter_smoothing.cpp:58-61 | the trimmed mean from the wrapping accumulator is never above the exact one, and it equals the exact one while sum - min - max is below 2^16 |
| Statistics.SumConstant | src/gbj_filter_smoothing.cpp:48 | a batch of n equal samples c sums to n*c |
| Statistics.AverageWrapExample | src/gbj_filter_smoothing.cpp:47-50 | five readings of 20000 sum to 100000; the accumulator keeps 34464, so the result is 6893, below every sample, while the exact mean is 20000 |
| Statistics.TrimmedWrapExample | src/gbj_filter_smoothing.cpp:58-61 | five readings of 30000 give a trimmed mean of 8155, below every sample, while the exact trimmed mean is 30000 |
| FilterSmoothing.SwapData | src/gbj_filter_smoothing.h:49 | `swapdata` leaves the pair ascending and holding the same two values |
| FilterSmoothing.SetFilterMin | src/gbj_filter_smoothing.cpp:94-98 | the new lower bound and the stored upper bound are stored in ascending order; no other member changes |
| FilterSmoothing.SetFilterMax | src/gbj_filter_smoothing.cpp:101-105 | the stored lower bound and the new upper bound are stored in ascending order; no other member changes |
| FilterSmoothing.SetFilter | src/gbj_filter_smoothing.cpp:108-112 | the range stays ordered; the upper bound is the greatest of valueMin, the old lower bound and valueMax, and the lower bound is the least of valueMin and the upper bound left by `setFilterMax` |
| FilterSmoothing.SetFilterOrdersArguments | src/gbj_filter_smoothing.cpp:6 | when the stored lower bound does not exceed the new upper bound, as in the constructor, `setFilter` stores its two arguments in ascending order |
| FilterSmoothing.SetFilterIsNotASort | src/gbj_filter_smoothing.cpp:108-112 | from [100, 200], `setFilter(50, 300)` gives [100, 300], not [50, 300] |
| FilterSmoothing.SetDelay | src/gbj_filter_smoothing.cpp:116-119 | the delay is limited to 100 ms and kept when allowed; no other member changes |
| FilterSmoothing.SetDelayIdempotent | src/gbj_filter_smoothing.cpp:118 | setting the stored delay again changes nothing |
| FilterSmoothing.Init | src/gbj_filter_smoothing.cpp:15-18 | the batch becomes empty; the buffer slots and the settings stay, and the class invariant is kept |
| FilterSmoothing.Create | src/gbj_filter_smoothing.cpp:4-11 | a new filter satisfies the class invariant and has an empty batch, the two bounds in ascending order, the clamped odd length and the clamped delay |
| FilterSmoothing.CreateDefaults | src/gbj_filter_smoothing.h:115-119 | the all-default constructor gives the range [0, 65535], length 5 and delay 20 |
| FilterSmoothing.RegisterData | src/gbj_filter_smoothing.cpp:22-31 | an out-of-range reading leaves the state unchanged and answers true; an accepted reading is appended to the batch, or starts a new batch of one when the batch is full, and leaves later slots untouched; the answer is false exactly when the batch has become full; the class invariant keeps every write inside the 11 slots |
| FilterSmoothing.RegisterAllAppendsInRange | src/gbj_filter_smoothing.cpp:24-28 | while the batch has room, a run of readings appends exactly its in-range readings, in order, and keeps the settings |
| FilterSmoothing.BatchCycle | src/gbj_filter_smoothing.cpp:27-30 | a batch started empty that receives bufferLen in-range readings is full, and the next in-range reading starts a batch of one and answers true |
| FilterSmoothing.Sort | src/gbj_filter_smoothing.cpp:137-154 | the batch becomes its ascending permutation; the slots past the count and the settings are untouched |
| FilterSmoothing.GetMedian | src/gbj_filter_smoothing.cpp:35-41 | 0 for an empty batch; otherwise the batch is sorted in place, and the sample at index (count-1)/2 is the lower median of the batch as registered |
| FilterSmoothing.GetAverage | src/gbj_filter_smoothing.cpp:44-51 | 0 for an empty batch; otherwise the rounded mean from the 16-bit accumulator, which is the exact rounded mean while the sum stays below 2^16 |
| FilterSmoothing.GetMidAverage | src/gbj_filter_smoothing.cpp:54-62 | 0 for a batch of at most one sample; for three or more, the batch is sorted in place and the result is the trimmed mean from the 16-bit accumulator |
| FilterSmoothing.MeansPermutation | src/gbj_filter_smoothing.cpp:44-61 | the mean and the trimmed mean, as written and exact, depend only on the batch's multiset; so `getAverage` after an in-place sort by `getMedian` or `getMidAverage` reports the mean of the batch as registered, and a second `getMidAverage` reports what the first did |
| FilterSmoothing.GetMinimum | src/gbj_filter_smoothing.cpp:65-74 | 0 for an empty batch; otherwise a sample of the batch that is at most every sample |
| FilterSmoothing.GetMaximum | src/gbj_filter_smoothing.cpp:77-86 | 0 for an empty batch; otherwise a sample of the batch that is at least every sample |
| Smoothing.SetFilterMax | src/gbj_smoothing.h:196-199 | the upper bound is stored as given and nothing else changes, even when the lower bound now exceeds it |
| Smoothing.SetFilterMin | src/gbj_smoothing.h:201-204 | the lower bound is stored as given and nothing else changes |
| Smoothing.SetFilter | src/gbj_smoothing.h:206-210 | both bounds are stored as given, in the order given; nothing else changes |
| Smoothing.SetBufferLen | src/gbj_smoothing.h:212-216 | the stored length is the request forced odd and limited to [3, 11], `Limits.BufferLen`: an even request inside the range is raised by one and a request outside it becomes the nearer limit, while a valid length is kept; the batch, the bounds and the delay stay |
| Smoothing.SetBufferLenIdempotent | src/gbj_smoothing.h:212-216 | setting the length that `getBufferLen` reports changes nothing |
| Smoothing.SetDelay | src/gbj_smoothing.h:228-231 | the delay is limited to 100 ms and kept when allowed; nothing else changes |
| Smoothing.SetDelayIdempotent | src/gbj_smoothing.h:228-231 | setting the delay that `getDelay` reports changes nothing |
| Smoothing.Init | src/gbj_smoothing.h:118 | the batch becomes empty and nothing else changes |
| Smoothing.Create | src/gbj_smoothing.cpp:5-15 | a new instance has an empty batch, the bounds as given, the clamped odd length and the clamped delay |
| Smoothing.RegisterData | src/gbj_smoothing.cpp:19-31 | an out-of-range reading leaves the state unchanged and answers true; an accepted reading is appended, or starts a new batch when the batch is full, so the batch is never empty afterwards; the answer is false exactly when the batch has become full |
| Smoothing.InvertedRangeRejectsAll | src/gbj_smoothing.cpp:21-24 | with valueMin above valueMax, every reading is rejected and the state does not change |
| Smoothing.InvertedRangeReachable | src/gbj_smoothing.cpp:11 | the constructor call with max 5 and min 900 keeps the inverted range, and the instance accepts nothing |
| Smoothing.GetMedian | src/gbj_smoothing.cpp:35-42 | 0 for an empty batch; otherwise the batch becomes an ascending permutation of itself, and the sample at index (count-1)/2 is the lower median by rank |
| Smoothing.GetAverage | src/gbj_smoothing.cpp:45-54 | 0 for an empty batch; otherwise the rounded mean from the 16-bit accumulator, which is the exact rounded mean while the sum stays below 2^16 |
| Smoothing.GetMidAverage | src/gbj_smoothing.cpp:57-67 | 0 for a batch of at most one sample; for three or more, the batch is sorted and the result is the trimmed mean from the 16-bit accumulator |
| Smoothing.GetMinimum | src/gbj_smoothing.cpp:70-80 | 0 for an empty batch; otherwise a sample of the batch that is at most every sample |
| Smoothing.GetMaximum | src/gbj_smoothing.cpp:83-93 | 0 for an empty batch; otherwise a sample of the batch that is at least every sample |
| SmoothingFilterTest.RegisterWhileWanted | extras/tests/smoothing_filter.cpp:32-34 | the loop over the readings returns the filter and how many readings it read; it keeps the class invariant, reads no more readings than there are and at least one when there is one, and stops before the readings run out only on a full batch; what it registers is stated by `SmoothingFilterTest.RegisterWhileWantedTrace` |
| SmoothingFilterTest.RegisterWhileWantedTrace | extras/tests/smoothing_filter.cpp:34 | the loop is a trace of `registerData` calls: the filter it returns is the one obtained by registering exactly the readings it read, in order; every reading before the last one read was answered true, and the last one was answered false unless the readings ran out |
| SmoothingFilterTest.CreateSensorFilter | extras/tests/smoothing_filter.cpp:26-27 | the test's constructor call gives an empty filter for [128, 768] with batches of five |
| SmoothingFilterTest.LoopRest10 | extras/tests/smoothing_filter.cpp:34 | the registration loop reads all ten samples; it accepts 510, 152, 652, 179 and 279 and drops 835, 77, 85, 994 and 839, ending with a full batch |
| SmoothingFilterTest.SetupTest | extras/tests/smoothing_filter.cpp:29-41 | after the setup, ten samples have been read and the full batch is the in-range subsequence 510, 152, 652, 179, 279 |
| SmoothingFilterTest.FixtureOrder | extras/tests/smoothing_filter.cpp:36-40 | any ascending permutation of the accepted batch is 152, 179, 279, 510, 652 |
| SmoothingFilterTest.FixtureMeans | extras/tests/smoothing_filter.cpp:37-38 | the sorted batch gives a mean of 354 and a trimmed mean of 323, with no wrap |
| SmoothingFilterTest.TestMedian | extras/tests/smoothing_filter.cpp:43-46 | `getMedian` on the full batch returns 279 and leaves the batch ascending |
| SmoothingFilterTest.TestAverage | extras/tests/smoothing_filter.cpp:48-51 | `getAverage` returns 354 |
| SmoothingFilterTest.TestMidAverage | extras/tests/smoothing_filter.cpp:53-56 | `getMidAverage` returns 323 |
| SmoothingFilterTest.TestExtremes | extras/tests/smoothing_filter.cpp:58-66 | `getMinimum` returns 152 and `getMaximum` returns 652 |
| SmoothingFilterTest.Fixture | extras/tests/smoothing_filter.cpp:69-80 | the whole run, in the runner's order, reports 279, 354, 323, 152 and 652, even though the earlier sorts reordered the buffer |

## Left out

- Settle delay: the busy-wait `wait` on `millis()` in the older class and Arduino `delay()` in the newer one block in real time. The delay is kept only as a stored, clamped number.
- Buffer allocation: `calloc` and `realloc` in the newer `setBufferLen` are not modelled. The batch is a sequence bounded by the length. Shrinking the length below the current count is excluded by a precondition, because the source would then let the statistics read past the allocation. The `sizeof` comparison on line 222 measures a pointer, so it plays no part.
- `gbj_apphelpers::sort_buble_asc` is not part of this model. The newer class's sort is represented by its effect only: the batch becomes its ascending permutation. By `Sorting.SortedUnique`, every such sort gives `SortedOf`.
- Float division in `divide`: modelled as exact integer round-half-up, `(2a + b) / (2b)`. For dividends up to 65535 and divisors up to 11, a quotient a/b whose fractional part is not exactly 1/2 lies at least 1/(2b) >= 1/22 from the nearest half-integer, far beyond the float error, and exact halves are representable in `float`. So the float result is the same.
- FilterSmoothing.GetMidAverage: a batch of exactly two samples is excluded. The source then converts 0.0 / 0.0, a NaN, to `uint16_t`, which C++ leaves undefined. Batches of one sample are modelled; they give 0.
- Smoothing.GetMidAverage: a batch of exactly two samples is excluded, for the same reason.
- Member names of the newer class: its implementation file writes `_buffer` and `_bufferCnt` (src/gbj_smoothing.cpp:28), while its header declares `buffer_` and `bufferCnt_` (src/gbj_smoothing.h:246, 250). The model treats both spellings as the same two members.
- Smoothing.SetBufferLen: requires the current batch to fit the new length (see buffer allocation above).
- Buffer contents of the older class start at zero, as for a statically allocated instance. No statistic reads a slot at or above the count, so the initial contents are never observed.
- The getters are modelled as plain field reads without contracts (`FilterSmoothing.GetReadings`, `Smoothing.GetBufferLenMax` and so on). The static getters of the newer class return the `Limits` constants.
- `VERSION` strings, the platform `#include` branches and the Unity runner calls are not modelled.

## Findings

| source | as written | input that shows it | evidently intended | confidence | as-written member | corrected member |
|---|---|---|---|---|---|---|
| src/gbj_filter_smoothing.cpp:47-50 | `getAverage` sums the batch in a `uint16_t`, which wraps modulo 2^16 before the division; `src/gbj_smoothing.cpp:49-53` does the same | five accepted readings of 20000 (range [0, 65535], length 5): the sum 100000 wraps to 34464 and `getAverage` returns 6893, below every sample | the rounded mean of the readings, 20000, which always lies between the least and greatest sample | not executed | Statistics.AverageWrapExample | Statistics.Mean |
| src/gbj_filter_smoothing.cpp:58-61 | `getMidAverage` sums the middle of the sorted batch in a `uint16_t`, which wraps; `src/gbj_smoothing.cpp:62-66` does the same | five accepted readings of 30000: the middle sum 90000 wraps to 24464 and `getMidAverage` returns 8155, below every sample | the rounded trimmed mean, 30000, which always lies between the least and greatest sample | not executed | Statistics.TrimmedWrapExample | Statistics.TrimmedMean |

The statistic members of both classes model the accumulator as written (`Statistics.Mean16`, `Statistics.TrimmedMean16`). Their contracts tie them to the corrected `Statistics.Mean` and `Statistics.TrimmedMean`. The as-written value is never above the corrected one, and the two agree whenever the exact sum stays below 2^16. That covers every batch of samples below 65536 / 11, about 5957. It also covers the unit test's batch.
