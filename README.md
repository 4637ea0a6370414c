# InsertionSortBenchmark, modelled in Dafny

`InsertionSortBenchmark` times an insertion sort on `Integer[]` inputs of
sizes 1000 to 16000. For each size, `sortIntegers(n)` builds four input
suppliers: random, ordered, "reverse ordered" and partially ordered. Each
timing run copies the supplied array and sorts the copy. The timing is then
logged to one or both static logger groups: `timeLoggersQuadratic` and
`timeLoggersLinearithmic`.

This project models the deterministic part of that driver:

- `Suppliers`: the four supplier lambdas as methods that allocate and fill
  a fresh `array<Option<int>>`. `None` stands for Java's `null`, so a slot
  no loop assigns is visible. Each method is proved against a reference
  function (`Ordered`, `Boxed`, `Partial`). Lemmas prove the shape facts
  about those functions.
- `Preprocess`: `Arrays.copyOf` and the defensive-copy lambda, the sort
  lambda over an abstract `Sort` that only changes the array it is given,
  and one trial (copy, then sort the copy). The trial leaves the supplier's
  array as it was.
- `Normalizers`: the two logger tables and `meanInversions(n) = n(n-1)/4`
  over the reals, with its values, sign, growth, and its link to the number
  of index pairs.
- `Driver`: the fan-out loops, `sortIntegers(n)` and `main`'s doubling
  loop. Each supplier benchmark and each `TimeLogger.log` call is recorded
  as an `Event` in a returned trace. The lemmas can then state the order of
  events and count calls per group, per timing and per normaliser.

Random values from `random.nextInt()` come from `Suppliers.NextInt`, which
returns an arbitrary 32-bit `int`. The values a supplier drew are returned as a
ghost sequence, so its contract can say where each draw went.

The "reverse ordered" supplier's name (`reverseOrdIntegers`, line 71)
suggests a descending array `n-1, ..., 0`. The model follows the code
instead. The loop at line 73 stores `i` at index `i`, so the array is
ascending and identical to the ordered one.
`Suppliers.OrderedIsNotDescending` shows that this differs from a
descending array whenever `n >= 2`. The model still uses the supplier as
written, because the benchmark runs it as written. "## Findings" records
the discrepancy, and `Suppliers.DescendingIsDescending` proves the intended
array descending.

## Model

| member | source | states |
|---|---|---|
| `Suppliers.NextInt` | src/main/java/edu/neu/coe/info6205/util/InsertionSortBenchmark.java:39 | `random.nextInt()` yields a 32-bit `int`; nothing else is said about it |
| `Suppliers.RandomIntegers` | src/main/java/edu/neu/coe/info6205/util/InsertionSortBenchmark.java:37-41 | fresh array of length `n`; every slot holds a value, and slot `k` holds the `k`-th value drawn, a 32-bit `int` |
| `Suppliers.OrderedIntegers` | src/main/java/edu/neu/coe/info6205/util/InsertionSortBenchmark.java:55-59 | fresh array equal to `Ordered(n)`: slot `i` holds `i` |
| `Suppliers.ReverseOrderedIntegers` | src/main/java/edu/neu/coe/info6205/util/InsertionSortBenchmark.java:71-75 | the downward loop still produces `Ordered(n)`, the same array as the ordered supplier (fresh) |
| `Suppliers.PartiallyOrderedIntegers` | src/main/java/edu/neu/coe/info6205/util/InsertionSortBenchmark.java:87-95 | fresh array equal to `Partial(n, draws)`; the two-index loop makes exactly `n/2` draws (32-bit ints), one per iteration |
| `Suppliers.OrderedIsAscending` | src/main/java/edu/neu/coe/info6205/util/InsertionSortBenchmark.java:57 | the ordered array has length `n`, slot `i` is `i`, every slot is assigned, and the values strictly ascend |
| `Suppliers.OrderedIsNotDescending` | src/main/java/edu/neu/coe/info6205/util/InsertionSortBenchmark.java:71-75 | for `n >= 2` the "reverse ordered" output (`Ordered(n)`) is not descending, and differs from the descending array: its first slot is `0`, not `n-1` |
| `Suppliers.DescendingIsDescending` | src/main/java/edu/neu/coe/info6205/util/InsertionSortBenchmark.java:69-75 | the descending array that the supplier's name promises is strictly descending and is a permutation of the ordered array |
| `Suppliers.DescendingIsOrderedPermutation` | src/main/java/edu/neu/coe/info6205/util/InsertionSortBenchmark.java:69-75 | `n-1, ..., 0` and `0, ..., n-1` hold the same multiset of values |
| `Suppliers.PartialAt` | src/main/java/edu/neu/coe/info6205/util/InsertionSortBenchmark.java:89-93 | slot by slot: below `n/2` the `k`-th draw; in `[n/2, n/2 + n/2)` the index itself; beyond that `null` |
| `Suppliers.PartialSecondHalf` | src/main/java/edu/neu/coe/info6205/util/InsertionSortBenchmark.java:92 | the slots `[n/2, n/2 + n/2)` are `n/2, n/2+1, ...` and strictly ascending, whatever was drawn |
| `Suppliers.PartialAllAssignedIff` | src/main/java/edu/neu/coe/info6205/util/InsertionSortBenchmark.java:88-93 | every slot is assigned if and only if `n` is even |
| `Suppliers.PartialOddHole` | src/main/java/edu/neu/coe/info6205/util/InsertionSortBenchmark.java:89-93 | for odd `n`, a slot is `null` exactly when it is the last one |
| `Preprocess.CopyOf` | src/main/java/edu/neu/coe/info6205/util/InsertionSortBenchmark.java:45 | `Arrays.copyOf(xs, len)`: fresh array of length `len`, a prefix of `xs` when `len` is at most its length, else `xs` padded with `null` |
| `Preprocess.DefensiveCopy` | src/main/java/edu/neu/coe/info6205/util/InsertionSortBenchmark.java:45 | the preprocess lambda returns a fresh array, not aliased to `xs`, equal to `xs` element by element |
| `Preprocess.Sort` | src/main/java/edu/neu/coe/info6205/util/InsertionSortBenchmark.java:46 | `sorter.sort(xs, from, to)` permutes the contents of `xs` and changes only slots within `[from, to)` |
| `Preprocess.SortAll` | src/main/java/edu/neu/coe/info6205/util/InsertionSortBenchmark.java:46 | the timed lambda sorts all of its argument in place: the result is a permutation of it, and no other array changes |
| `Preprocess.Trial` | src/main/java/edu/neu/coe/info6205/util/InsertionSortBenchmark.java:45-46 | copying and then sorting the copy leaves the supplied array unchanged; the sorted copy is fresh, has the same length, and is a permutation of the supplied array |
| `Normalizers.LinearithmicLoggers` | src/main/java/edu/neu/coe/info6205/util/InsertionSortBenchmark.java:114-117 | the linearithmic group holds two loggers: raw time first, then time per `minComparisons` |
| `Normalizers.QuadraticLoggers` | src/main/java/edu/neu/coe/info6205/util/InsertionSortBenchmark.java:153-156 | the quadratic group holds two loggers: raw time first, then time per `meanInversions` |
| `Normalizers.PairsClosedForm` | src/main/java/edu/neu/coe/info6205/util/InsertionSortBenchmark.java:141-143 | twice the number of index pairs `i < j < n` is `n(n-1)` |
| `Normalizers.MeanInversions` | src/main/java/edu/neu/coe/info6205/util/InsertionSortBenchmark.java:141-143 | `meanInversions(n)`: a quarter of `n·(n−1)` over exact reals; its properties are the lemmas below |
| `Normalizers.MeanInversionsIsHalfThePairs` | src/main/java/edu/neu/coe/info6205/util/InsertionSortBenchmark.java:133-143 | `meanInversions(n)` is exactly half the number of index pairs, the expected inversion count when each pair is inverted with probability 1/2 |
| `Normalizers.MeanInversionsValues` | src/main/java/edu/neu/coe/info6205/util/InsertionSortBenchmark.java:141-143 | `meanInversions(1) = 0`, `meanInversions(4) = 3`, `meanInversions(10) = 22.5` |
| `Normalizers.MeanInversionsNonNegative` | src/main/java/edu/neu/coe/info6205/util/InsertionSortBenchmark.java:141-143 | `meanInversions(n) >= 0` for every unbounded integer `n`, so in particular for every `n >= 0` |
| `Normalizers.MeanInversionsIncreasing` | src/main/java/edu/neu/coe/info6205/util/InsertionSortBenchmark.java:141-143 | strictly increasing: `1 <= m < n` implies `meanInversions(m) < meanInversions(n)` |
| `Driver.LogToGroup` | src/main/java/edu/neu/coe/info6205/util/InsertionSortBenchmark.java:49-51 | the for-each loop calls every logger of the group once, in declaration order, with the same timing and `n` |
| `Driver.GroupCallsCount` | src/main/java/edu/neu/coe/info6205/util/InsertionSortBenchmark.java:49 | a group fan-out is exactly two calls, raw-time logger first |
| `Driver.Benchmark` | src/main/java/edu/neu/coe/info6205/util/InsertionSortBenchmark.java:43-48 | benchmarking supplier `d` generates a fresh array with that supplier (`Boxed(draws)`, `Ordered(n)` or `Partial(n, draws)`), returns as the copy a fresh array, distinct from the generated one, holding a permutation of the generated contents, and leaves the generated array as the supplier made it |
| `Driver.SortIntegers` | src/main/java/edu/neu/coe/info6205/util/InsertionSortBenchmark.java:28-105 | produces exactly `SortIntegersTrace(n)`: the random supplier's benchmark, its timing to the quadratic and then the linearithmic group, then for the ordered, reverse and partial suppliers in turn a benchmark followed by its timing to the linearithmic group only |
| `Driver.SortIntegersOrder` | src/main/java/edu/neu/coe/info6205/util/InsertionSortBenchmark.java:43-103 | the 14 events of `sortIntegers(n)` in order, each with that `n`: every benchmark comes right before the logger calls for its own timing |
| `Driver.SortIntegersCounts` | src/main/java/edu/neu/coe/info6205/util/InsertionSortBenchmark.java:43-103 | per size: 4 benchmarks and 10 logger calls; 2 quadratic and 2 linearithmic calls for the random timing, 2 linearithmic calls each for the others, 8 linearithmic calls in all |
| `Driver.SortIntegersNormalisedCounts` | src/main/java/edu/neu/coe/info6205/util/InsertionSortBenchmark.java:49-103 | 5 of the 10 logger calls log a normalised value: 2 for the random timing (one per group), 1 each for the ordered, reverse and partial timings |
| `Driver.MainSizes` | src/main/java/edu/neu/coe/info6205/util/InsertionSortBenchmark.java:21 | doubling from 1000 while at most 16000 gives exactly 1000, 2000, 4000, 8000, 16000, all even |
| `Driver.ScheduledPartialInputsFullyAssigned` | src/main/java/edu/neu/coe/info6205/util/InsertionSortBenchmark.java:21-22 | for every size `main` uses, the partially ordered supplier leaves no `null` slot |
| `Driver.ScheduleTraceShape` | src/main/java/edu/neu/coe/info6205/util/InsertionSortBenchmark.java:21-23 | over a schedule of sizes, the trace is 14 events per size, in blocks of 14 in schedule order |
| `Driver.ScheduleTraceCounts` | src/main/java/edu/neu/coe/info6205/util/InsertionSortBenchmark.java:21-23 | over a schedule of sizes, per size: 4 benchmarks, 10 logger calls, 2 quadratic, 8 linearithmic and 5 normalised calls |
| `Driver.MainCounts` | src/main/java/edu/neu/coe/info6205/util/InsertionSortBenchmark.java:21-23 | `main`'s schedule benchmarks 20 times and calls the loggers 50 times |
| `Driver.RunMain` | src/main/java/edu/neu/coe/info6205/util/InsertionSortBenchmark.java:18-25 | `main` calls `sortIntegers` with 1000, 2000, 4000, 8000, 16000 in that order; its trace is those sizes' traces in turn, 70 events in all |

## Left out

- `Benchmark_Timer.runFromSupplier` is not part of this model. It measures wall-clock time and averages 100 repetitions. Each call is replaced by one trial (`Driver.Benchmark`): generate, copy, sort the copy. The timings `t1` to `t4` are not modelled.
- `java.util.Random`: `NextInt` returns an arbitrary 32-bit `int`. No distribution is modelled, and neither is the seeding of the shared generator.
- `minComparisons`, `LgE` and `Utilities.lg` are floating-point logarithms and are left out. So is the double arithmetic of the normalising lambdas (`/ 6 * 1e6`). The model records only which logger receives which timing.
- `Normalizers.MeanInversions` is computed over exact reals, not IEEE doubles. For the scheduled sizes the double result is exact anyway.
- `TimeLogger.log`, `LazyLogger` and `logger.info` only produce output. Each log call becomes an `Event` in the trace.
- `Preprocess.Sort`: `InsertionSort`, `BaseHelper` and `GenericSort` are not part of this model. The sort swaps arbitrary slots of its range. Its contract promises a permutation, and says which slots may change, but promises no sortedness. The `NullPointerException` that comparing a `null` slot (odd `n`, partial supplier) would raise is not modelled.
- `Driver.SortIntegers`: sizes are `nat`. Java's `NegativeArraySizeException` for a negative `n` is not modelled, and `main` never passes one.
- Java `int` overflow: `main`'s `i *= 2` stops at 32000 and the indices stay below 16000, so nothing wraps there. The model uses unbounded integers.
- Normalizers.MeanInversionsNonNegative: holds for unbounded integers only. Java's `meanInversions` computes `n - 1` as an `int`, so for `Integer.MIN_VALUE` it wraps to `Integer.MAX_VALUE` and the result is negative. The benchmark passes only the scheduled sizes, so this input never occurs.

## Findings

| source | as written | input that shows it | evidently intended | confidence | as-written member | corrected member |
|---|---|---|---|---|---|---|
| src/main/java/edu/neu/coe/info6205/util/InsertionSortBenchmark.java:69-75 | the "reverse ordered" supplier stores `i` at index `i`, giving the ascending array `0, ..., n-1` | `n = 2` gives `[0, 1]`, not `[1, 0]` | the descending array `n-1, ..., 0` that the name and comment promise | high (from the source text; not executed) | `Suppliers.OrderedIsNotDescending` | `Suppliers.DescendingIsDescending` |
