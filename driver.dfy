/**
 * The driver: `main` runs `sortIntegers(n)` for each size of the doubling
 * schedule, and `sortIntegers` benchmarks the four suppliers and fans each
 * timing out to logger groups. Each benchmark and each call of
 * `TimeLogger.log` is recorded as an `Event`, so their order and number are
 * observable.
 */
module Driver {
  import opened Wrappers
  import opened Normalizers
  import Suppliers
  import Preprocess

  /** Which supplier is benchmarked, and whose timing is logged (t1, t2, t3, t4). */
  datatype Distribution = RandomInput | OrderedInput | ReverseOrderedInput | PartiallyOrderedInput

  datatype Event =
      /** The supplier for `timing` was benchmarked at size `n`: generated, copied, copy sorted. */
    | Timed(timing: Distribution, n: int)
      /** One logger call: the logger, its group, whose timing, and `n`. */
    | Logged(group: Group, logger: TimeLogger, timing: Distribution, n: int)

  /** The calls the for-each loop over group `g`'s loggers makes, in order. */
  function GroupCalls(g: Group, d: Distribution, n: int): (calls: seq<Event>) {
    seq(|Loggers(g)|, k requires 0 <= k < |Loggers(g)| => Logged(g, Loggers(g)[k], d, n))
  }

  /** The random supplier's benchmark, then its timing sent to both groups. */
  function RandomBlock(n: int): (events: seq<Event>) {
    [Timed(RandomInput, n)] + GroupCalls(Quadratic, RandomInput, n) + GroupCalls(Linearithmic, RandomInput, n)
  }

  /** Supplier `d`'s benchmark, then its timing sent to the linearithmic group only. */
  function LinearithmicBlock(d: Distribution, n: int): (events: seq<Event>) {
    [Timed(d, n)] + GroupCalls(Linearithmic, d, n)
  }

  /** All events of `sortIntegers(n)`, in order. */
  function SortIntegersTrace(n: int): (events: seq<Event>) {
    RandomBlock(n) + LinearithmicBlock(OrderedInput, n)
      + LinearithmicBlock(ReverseOrderedInput, n) + LinearithmicBlock(PartiallyOrderedInput, n)
  }

  /** All events of running `sortIntegers` on each of `sizes` in turn. */
  function ScheduleTrace(sizes: seq<int>): (events: seq<Event>) {
    if sizes == [] then []
    else ScheduleTrace(sizes[..|sizes| - 1]) + SortIntegersTrace(sizes[|sizes| - 1])
  }

  /** Running one more size appends that size's events. */
  lemma ScheduleTraceSnoc(sizes: seq<int>, n: int)
    ensures ScheduleTrace(sizes + [n]) == ScheduleTrace(sizes) + SortIntegersTrace(n)
  {
    assert (sizes + [n])[..|sizes|] == sizes;
  }

  /** The sizes `start, 2*start, 4*start, ...` up to and including `limit`. */
  function Doublings(start: int, limit: int): (sizes: seq<int>)
    requires start > 0
    decreases if start <= limit then limit - start + 1 else 0
  {
    if start > limit then [] else [start] + Doublings(2 * start, limit)
  }

  /** A supplier was benchmarked. */
  predicate IsBenchmark(e: Event) {
    e.Timed?
  }

  /** A logger was called. */
  predicate IsLogCall(e: Event) {
    e.Logged?
  }

  /** How many of `events` satisfy `p`. */
  function CountIf(events: seq<Event>, p: Event -> bool): (c: nat)
    ensures c <= |events|
  {
    if events == [] then 0
    else CountIf(events[..|events| - 1], p) + (if p(events[|events| - 1]) then 1 else 0)
  }

  // ---------------------------------------------------------------------
  // Counting lemmas
  // ---------------------------------------------------------------------

  lemma {:induction false} CountIfAppend(a: seq<Event>, b: seq<Event>, p: Event -> bool)
    ensures CountIf(a + b, p) == CountIf(a, p) + CountIf(b, p)
    decreases |b|
  {
    if b == [] {
      assert a + b == a;
    } else {
      var b' := b[..|b| - 1];
      assert (a + b)[..|a + b| - 1] == a + b';
      CountIfAppend(a, b', p);
    }
  }

  /** How many of group `g`'s two calls for timing `d` satisfy `p`. */
  function Indicator(p: Event -> bool, g: Group, d: Distribution, n: int): (c: nat) {
    (if p(Logged(g, Loggers(g)[0], d, n)) then 1 else 0)
      + (if p(Logged(g, Loggers(g)[1], d, n)) then 1 else 0)
  }

  /** Whether the benchmark event of timing `d` satisfies `p`, as 1 or 0. */
  function TimedIndicator(p: Event -> bool, d: Distribution, n: int): (c: nat) {
    if p(Timed(d, n)) then 1 else 0
  }

  /** A group's loggers are called once each, the raw one first. */
  lemma GroupCallsCount(g: Group, d: Distribution, n: int, p: Event -> bool)
    ensures |GroupCalls(g, d, n)| == 2
    ensures GroupCalls(g, d, n) == [Logged(g, Loggers(g)[0], d, n), Logged(g, Loggers(g)[1], d, n)]
    ensures CountIf(GroupCalls(g, d, n), p) == Indicator(p, g, d, n)
  {
  }

  lemma SingletonCount(e: Event, p: Event -> bool)
    ensures CountIf([e], p) == if p(e) then 1 else 0
  {
    assert [e][..0] == [];
  }

  /** Counting over `sortIntegers(n)` is counting over its four benchmarks and five fan-outs. */
  lemma SortIntegersCountIf(n: int, p: Event -> bool)
    ensures |SortIntegersTrace(n)| == 14
    ensures CountIf(SortIntegersTrace(n), p)
         == TimedIndicator(p, RandomInput, n)
          + Indicator(p, Quadratic, RandomInput, n) + Indicator(p, Linearithmic, RandomInput, n)
          + TimedIndicator(p, OrderedInput, n) + Indicator(p, Linearithmic, OrderedInput, n)
          + TimedIndicator(p, ReverseOrderedInput, n) + Indicator(p, Linearithmic, ReverseOrderedInput, n)
          + TimedIndicator(p, PartiallyOrderedInput, n) + Indicator(p, Linearithmic, PartiallyOrderedInput, n)
  {
    var r := RandomBlock(n);
    var o, v, q := LinearithmicBlock(OrderedInput, n), LinearithmicBlock(ReverseOrderedInput, n),
                   LinearithmicBlock(PartiallyOrderedInput, n);
    CountIfAppend(r + o + v, q, p);
    CountIfAppend(r + o, v, p);
    CountIfAppend(r, o, p);
    var q1, l1 := GroupCalls(Quadratic, RandomInput, n), GroupCalls(Linearithmic, RandomInput, n);
    CountIfAppend([Timed(RandomInput, n)] + q1, l1, p);
    CountIfAppend([Timed(RandomInput, n)], q1, p);
    GroupCallsCount(Quadratic, RandomInput, n, p);
    GroupCallsCount(Linearithmic, RandomInput, n, p);
    SingletonCount(Timed(RandomInput, n), p);
    forall d | d != RandomInput
      ensures CountIf(LinearithmicBlock(d, n), p) == TimedIndicator(p, d, n) + Indicator(p, Linearithmic, d, n)
      ensures |LinearithmicBlock(d, n)| == 3
    {
      CountIfAppend([Timed(d, n)], GroupCalls(Linearithmic, d, n), p);
      GroupCallsCount(Linearithmic, d, n, p);
      SingletonCount(Timed(d, n), p);
    }
  }

  /** The events of `sortIntegers(n)`: each benchmark comes right before the fan-out of its timing. */
  lemma SortIntegersOrder(n: int)
    ensures SortIntegersTrace(n) ==
      [ Timed(RandomInput, n),
        Logged(Quadratic, QuadraticLoggers()[0], RandomInput, n),
        Logged(Quadratic, QuadraticLoggers()[1], RandomInput, n),
        Logged(Linearithmic, LinearithmicLoggers()[0], RandomInput, n),
        Logged(Linearithmic, LinearithmicLoggers()[1], RandomInput, n),
        Timed(OrderedInput, n),
        Logged(Linearithmic, LinearithmicLoggers()[0], OrderedInput, n),
        Logged(Linearithmic, LinearithmicLoggers()[1], OrderedInput, n),
        Timed(ReverseOrderedInput, n),
        Logged(Linearithmic, LinearithmicLoggers()[0], ReverseOrderedInput, n),
        Logged(Linearithmic, LinearithmicLoggers()[1], ReverseOrderedInput, n),
        Timed(PartiallyOrderedInput, n),
        Logged(Linearithmic, LinearithmicLoggers()[0], PartiallyOrderedInput, n),
        Logged(Linearithmic, LinearithmicLoggers()[1], PartiallyOrderedInput, n) ]
    ensures forall k :: 0 <= k < 14 ==> SortIntegersTrace(n)[k].n == n
  {
    forall g, d ensures GroupCalls(g, d, n) == [Logged(g, Loggers(g)[0], d, n), Logged(g, Loggers(g)[1], d, n)] {
      GroupCallsCount(g, d, n, _ => true);
    }
  }

  /**
   * `sortIntegers(n)` benchmarks the four suppliers once each and calls the
   * loggers 10 times: the random timing goes to both groups (2 + 2 calls),
   * each other timing only to the linearithmic group (2 calls each).
   */
  lemma SortIntegersCounts(n: int)
    ensures |SortIntegersTrace(n)| == 14
    ensures CountIf(SortIntegersTrace(n), IsBenchmark) == 4
    ensures CountIf(SortIntegersTrace(n), IsLogCall) == 10
    ensures CountIf(SortIntegersTrace(n), (e: Event) => e.Logged? && e.group == Quadratic) == 2
    ensures CountIf(SortIntegersTrace(n), (e: Event) => e.Logged? && e.group == Linearithmic) == 8
    ensures CountIf(SortIntegersTrace(n), (e: Event) => e.Logged? && e.group == Quadratic && e.timing == RandomInput) == 2
    ensures CountIf(SortIntegersTrace(n), (e: Event) => e.Logged? && e.group == Linearithmic && e.timing == RandomInput) == 2
    ensures CountIf(SortIntegersTrace(n), (e: Event) => e.Logged? && e.timing == OrderedInput) == 2
    ensures CountIf(SortIntegersTrace(n), (e: Event) => e.Logged? && e.timing == ReverseOrderedInput) == 2
    ensures CountIf(SortIntegersTrace(n), (e: Event) => e.Logged? && e.timing == PartiallyOrderedInput) == 2
  {
    assert CountIf(SortIntegersTrace(n), IsBenchmark) == 4 by { SortIntegersCountIf(n, IsBenchmark); }
    assert CountIf(SortIntegersTrace(n), IsLogCall) == 10 by { SortIntegersCountIf(n, IsLogCall); }
    assert CountIf(SortIntegersTrace(n), (e: Event) => e.Logged? && e.group == Quadratic) == 2 by { SortIntegersCountIf(n, (e: Event) => e.Logged? && e.group == Quadratic); }
    assert CountIf(SortIntegersTrace(n), (e: Event) => e.Logged? && e.group == Linearithmic) == 8 by { SortIntegersCountIf(n, (e: Event) => e.Logged? && e.group == Linearithmic); }
    assert CountIf(SortIntegersTrace(n), (e: Event) => e.Logged? && e.group == Quadratic && e.timing == RandomInput) == 2 by { SortIntegersCountIf(n, (e: Event) => e.Logged? && e.group == Quadratic && e.timing == RandomInput); }
    assert CountIf(SortIntegersTrace(n), (e: Event) => e.Logged? && e.group == Linearithmic && e.timing == RandomInput) == 2 by { SortIntegersCountIf(n, (e: Event) => e.Logged? && e.group == Linearithmic && e.timing == RandomInput); }
    assert CountIf(SortIntegersTrace(n), (e: Event) => e.Logged? && e.timing == OrderedInput) == 2 by { SortIntegersCountIf(n, (e: Event) => e.Logged? && e.timing == OrderedInput); }
    assert CountIf(SortIntegersTrace(n), (e: Event) => e.Logged? && e.timing == ReverseOrderedInput) == 2 by { SortIntegersCountIf(n, (e: Event) => e.Logged? && e.timing == ReverseOrderedInput); }
    assert CountIf(SortIntegersTrace(n), (e: Event) => e.Logged? && e.timing == PartiallyOrderedInput) == 2 by { SortIntegersCountIf(n, (e: Event) => e.Logged? && e.timing == PartiallyOrderedInput); }
  }

  /**
   * Of the 10 logger calls of `sortIntegers(n)`, 5 log a normalised value:
   * 2 for the random timing (one per group) and 1 for each other timing.
   */
  lemma SortIntegersNormalisedCounts(n: int)
    ensures CountIf(SortIntegersTrace(n), (e: Event) => e.Logged? && e.logger.normalizer != RawTime) == 5
    ensures CountIf(SortIntegersTrace(n), (e: Event) => e.Logged? && e.logger.normalizer != RawTime && e.timing == RandomInput) == 2
    ensures CountIf(SortIntegersTrace(n), (e: Event) => e.Logged? && e.logger.normalizer != RawTime && e.timing == OrderedInput) == 1
    ensures CountIf(SortIntegersTrace(n), (e: Event) => e.Logged? && e.logger.normalizer != RawTime && e.timing == ReverseOrderedInput) == 1
    ensures CountIf(SortIntegersTrace(n), (e: Event) => e.Logged? && e.logger.normalizer != RawTime && e.timing == PartiallyOrderedInput) == 1
  {
    assert CountIf(SortIntegersTrace(n), (e: Event) => e.Logged? && e.logger.normalizer != RawTime) == 5 by { SortIntegersCountIf(n, (e: Event) => e.Logged? && e.logger.normalizer != RawTime); }
    assert CountIf(SortIntegersTrace(n), (e: Event) => e.Logged? && e.logger.normalizer != RawTime && e.timing == RandomInput) == 2 by { SortIntegersCountIf(n, (e: Event) => e.Logged? && e.logger.normalizer != RawTime && e.timing == RandomInput); }
    assert CountIf(SortIntegersTrace(n), (e: Event) => e.Logged? && e.logger.normalizer != RawTime && e.timing == OrderedInput) == 1 by { SortIntegersCountIf(n, (e: Event) => e.Logged? && e.logger.normalizer != RawTime && e.timing == OrderedInput); }
    assert CountIf(SortIntegersTrace(n), (e: Event) => e.Logged? && e.logger.normalizer != RawTime && e.timing == ReverseOrderedInput) == 1 by { SortIntegersCountIf(n, (e: Event) => e.Logged? && e.logger.normalizer != RawTime && e.timing == ReverseOrderedInput); }
    assert CountIf(SortIntegersTrace(n), (e: Event) => e.Logged? && e.logger.normalizer != RawTime && e.timing == PartiallyOrderedInput) == 1 by { SortIntegersCountIf(n, (e: Event) => e.Logged? && e.logger.normalizer != RawTime && e.timing == PartiallyOrderedInput); }
  }

  /** Over a whole schedule: 14 events per size, in blocks of 14 in schedule order. */
  lemma {:induction false} ScheduleTraceShape(sizes: seq<int>)
    ensures |ScheduleTrace(sizes)| == 14 * |sizes|
    ensures forall k :: 0 <= k < |sizes| ==>
      ScheduleTrace(sizes)[14 * k .. 14 * k + 14] == SortIntegersTrace(sizes[k])
  {
    if sizes != [] {
      var init := sizes[..|sizes| - 1];
      ScheduleTraceShape(init);
      SortIntegersCountIf(sizes[|sizes| - 1], _ => true);
      var t, u := ScheduleTrace(init), SortIntegersTrace(sizes[|sizes| - 1]);
      assert ScheduleTrace(sizes) == t + u;
      forall k | 0 <= k < |sizes|
        ensures (t + u)[14 * k .. 14 * k + 14] == SortIntegersTrace(sizes[k])
      {
        if k < |init| {
          assert (t + u)[14 * k .. 14 * k + 14] == t[14 * k .. 14 * k + 14];
          assert sizes[k] == init[k];
        } else {
          assert (t + u)[14 * k .. 14 * k + 14] == u;
        }
      }
    }
  }

  /** Over a whole schedule: per size, 4 benchmarks and 10 logger calls, 2 quadratic, 8 linearithmic, 5 normalised. */
  lemma {:induction false} ScheduleTraceCounts(sizes: seq<int>)
    ensures CountIf(ScheduleTrace(sizes), IsBenchmark) == 4 * |sizes|
    ensures CountIf(ScheduleTrace(sizes), IsLogCall) == 10 * |sizes|
    ensures CountIf(ScheduleTrace(sizes), (e: Event) => e.Logged? && e.group == Quadratic) == 2 * |sizes|
    ensures CountIf(ScheduleTrace(sizes), (e: Event) => e.Logged? && e.group == Linearithmic) == 8 * |sizes|
    ensures CountIf(ScheduleTrace(sizes), (e: Event) => e.Logged? && e.logger.normalizer != RawTime) == 5 * |sizes|
  {
    if sizes != [] {
      var init, last := sizes[..|sizes| - 1], sizes[|sizes| - 1];
      ScheduleTraceCounts(init);
      SortIntegersCounts(last);
      SortIntegersNormalisedCounts(last);
      var t, u := ScheduleTrace(init), SortIntegersTrace(last);
      assert ScheduleTrace(sizes) == t + u;
      CountIfAppend(t, u, IsBenchmark);
      CountIfAppend(t, u, IsLogCall);
      CountIfAppend(t, u, (e: Event) => e.Logged? && e.group == Quadratic);
      CountIfAppend(t, u, (e: Event) => e.Logged? && e.group == Linearithmic);
      CountIfAppend(t, u, (e: Event) => e.Logged? && e.logger.normalizer != RawTime);
    }
  }

  /** `main`'s sizes: doubling from 1000 while at most 16000. */
  lemma MainSizes()
    ensures Doublings(1000, 16000) == [1000, 2000, 4000, 8000, 16000]
    ensures forall k :: 0 <= k < 5 ==> Doublings(1000, 16000)[k] % 2 == 0
  {
  }

  /** `main` benchmarks 20 times and calls the loggers 50 times. */
  lemma MainCounts()
    ensures CountIf(ScheduleTrace(Doublings(1000, 16000)), IsBenchmark) == 20
    ensures CountIf(ScheduleTrace(Doublings(1000, 16000)), IsLogCall) == 50
  {
    MainSizes();
    ScheduleTraceCounts(Doublings(1000, 16000));
  }

  /** Every scheduled size is even, so the partially ordered supplier never leaves a `null`. */
  lemma ScheduledPartialInputsFullyAssigned(k: int, draws: seq<int>)
    requires 0 <= k < 5
    requires |draws| == Doublings(1000, 16000)[k] / 2
    ensures Suppliers.AllAssigned(Suppliers.Partial(Doublings(1000, 16000)[k], draws))
  {
  }

  // ---------------------------------------------------------------------
  // The driver's methods
  // ---------------------------------------------------------------------

  /** The for-each loop over group `g`'s loggers, logging timing `d` at size `n`. */
  method LogToGroup(g: Group, d: Distribution, n: int) returns (calls: seq<Event>)
    ensures calls == GroupCalls(g, d, n)
  {
    var loggers := Loggers(g);
    calls := [];
    for k := 0 to |loggers|
      invariant |calls| == k
      invariant forall i :: 0 <= i < k ==> calls[i] == Logged(g, loggers[i], d, n)
    {
      calls := calls + [Logged(g, loggers[k], d, n)];
    }
  }

  /**
   * The benchmark of supplier `d` at size `n`: the supplier generates an
   * array, which is copied, and the copy is sorted, so it ends up as a
   * permutation of the generated contents. The array the supplier
   * produced is still the supplier's output afterwards. The timer's
   * repetitions and clock are not modelled.
   */
  method Benchmark(d: Distribution, n: nat)
    returns (event: Event, generated: array<Option<int>>, copy: array<Option<int>>, ghost draws: seq<int>)
    ensures event == Timed(d, n)
    ensures fresh(generated) && fresh(copy) && generated != copy
    ensures generated.Length == n && copy.Length == n
    ensures multiset(copy[..]) == multiset(generated[..])
    ensures d == RandomInput ==>
      |draws| == n && Suppliers.AllInt32(draws) && generated[..] == Suppliers.Boxed(draws)
    ensures d == OrderedInput || d == ReverseOrderedInput ==> generated[..] == Suppliers.Ordered(n)
    ensures d == PartiallyOrderedInput ==>
      |draws| == n / 2 && Suppliers.AllInt32(draws) && generated[..] == Suppliers.Partial(n, draws)
  {
    draws := [];
    match d {
      case RandomInput =>
        generated, draws := Suppliers.RandomIntegers(n);
      case OrderedInput =>
        generated := Suppliers.OrderedIntegers(n);
      case ReverseOrderedInput =>
        generated := Suppliers.ReverseOrderedIntegers(n);
      case PartiallyOrderedInput =>
        generated, draws := Suppliers.PartiallyOrderedIntegers(n);
    }
    copy := Preprocess.Trial(generated);
    event := Timed(d, n);
  }

  /** `sortIntegers(n)`: benchmark each supplier, then log its timing to its groups. */
  method SortIntegers(n: nat) returns (events: seq<Event>)
    ensures events == SortIntegersTrace(n)
  {
    var t1, g1, c1, d1 := Benchmark(RandomInput, n);
    var q1 := LogToGroup(Quadratic, RandomInput, n);
    var l1 := LogToGroup(Linearithmic, RandomInput, n);
    var t2, g2, c2, d2 := Benchmark(OrderedInput, n);
    var l2 := LogToGroup(Linearithmic, OrderedInput, n);
    var t3, g3, c3, d3 := Benchmark(ReverseOrderedInput, n);
    var l3 := LogToGroup(Linearithmic, ReverseOrderedInput, n);
    var t4, g4, c4, d4 := Benchmark(PartiallyOrderedInput, n);
    var l4 := LogToGroup(Linearithmic, PartiallyOrderedInput, n);
    var random, ordered := [t1] + q1 + l1, [t2] + l2;
    var reverse, partial := [t3] + l3, [t4] + l4;
    assert random == RandomBlock(n) && ordered == LinearithmicBlock(OrderedInput, n);
    assert reverse == LinearithmicBlock(ReverseOrderedInput, n);
    assert partial == LinearithmicBlock(PartiallyOrderedInput, n);
    events := random + ordered + reverse + partial;
  }

  /** `main`: `sortIntegers(i)` for `i` from 1000, doubling, while `i` is at most 16000. */
  method RunMain() returns (sizes: seq<int>, events: seq<Event>)
    ensures sizes == [1000, 2000, 4000, 8000, 16000]
    ensures events == ScheduleTrace(sizes)
    ensures |events| == 70
  {
    sizes, events := [], [];
    var i := 1000;
    while i <= 16000
      invariant i > 0
      invariant sizes + Doublings(i, 16000) == Doublings(1000, 16000)
      invariant events == ScheduleTrace(sizes)
      decreases 16000 - i
    {
      var more := SortIntegers(i);
      ScheduleTraceSnoc(sizes, i);
      events := events + more;
      sizes := sizes + [i];
      i := i * 2;
    }
    MainSizes();
    ScheduleTraceShape(sizes);
  }
}
