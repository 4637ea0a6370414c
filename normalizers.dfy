/**
 * The two static `TimeLogger` groups and the expected-work formula used by
 * the quadratic one. Only which normaliser a logger applies is modelled; the
 * floating-point value it computes is not.
 */
module Normalizers {

  /** The normalising function a `TimeLogger` applies to `(time, n)`. */
  datatype Normalizer =
    | RawTime            // the raw time, unchanged
    | PerMinComparisons  // time per minComparisons(n) array accesses, scaled
    | PerMeanInversions  // time per meanInversions(n) array accesses, scaled

  datatype TimeLogger = TimeLogger(description: string, normalizer: Normalizer)

  /** The two logger groups a timing can be sent to. */
  datatype Group = Quadratic | Linearithmic

  /** `timeLoggersLinearithmic`: raw time, then time per `minComparisons(n)`. */
  function LinearithmicLoggers(): (ls: seq<TimeLogger>)
    ensures |ls| == 2
    ensures ls[0].normalizer == RawTime && ls[1].normalizer == PerMinComparisons
  {
    [ TimeLogger("Raw time per run (mSec): ", RawTime),
      TimeLogger("Normalized time per run (n log n): ", PerMinComparisons) ]
  }

  /** `timeLoggersQuadratic`: raw time, then time per `meanInversions(n)`. */
  function QuadraticLoggers(): (ls: seq<TimeLogger>)
    ensures |ls| == 2
    ensures ls[0].normalizer == RawTime && ls[1].normalizer == PerMeanInversions
  {
    [ TimeLogger("Raw time per run (mSec): ", RawTime),
      TimeLogger("Normalized time per run (n^2): ", PerMeanInversions) ]
  }

  /** The loggers of a group, in declaration order. */
  function Loggers(g: Group): (ls: seq<TimeLogger>) {
    match g
    case Linearithmic => LinearithmicLoggers()
    case Quadratic => QuadraticLoggers()
  }

  /** `meanInversions(n)`: a quarter of n times n minus one, over the reals. */
  function MeanInversions(n: int): (r: real) {
    0.25 * n as real * (n - 1) as real
  }

  /** The number of index pairs `i < j` below `n`. */
  function Pairs(n: nat): (c: nat) {
    if n == 0 then 0 else Pairs(n - 1) + (n - 1)
  }

  lemma {:induction false} PairsClosedForm(n: nat)
    ensures 2 * Pairs(n) == n * (n - 1)
  {
    if n > 0 {
      PairsClosedForm(n - 1);
      assert n * (n - 1) == (n - 1) * (n - 2) + 2 * (n - 1);
    }
  }

  /**
   * Each of the `Pairs(n)` pairs of a random permutation is an inversion with
   * probability one half, so the mean inversion count is half the pair count.
   */
  lemma {:induction false} MeanInversionsIsHalfThePairs(n: nat)
    ensures MeanInversions(n) == Pairs(n) as real / 2.0
  {
    PairsClosedForm(n);
  }

  lemma MeanInversionsValues()
    ensures MeanInversions(1) == 0.0
    ensures MeanInversions(4) == 3.0
    ensures MeanInversions(10) == 22.5
  {
  }

  /** Non-negative for every int (in particular for every `n >= 1`). */
  lemma MeanInversionsNonNegative(n: int)
    ensures MeanInversions(n) >= 0.0
  {
    var x := n as real;
    assert MeanInversions(n) == 0.25 * (x * (x - 1.0));
    if n <= 0 {
      assert x * (x - 1.0) == (-x) * (1.0 - x);
      ProductNonNegative(-x, 1.0 - x);
    } else {
      assert x >= 1.0;
      ProductNonNegative(x, x - 1.0);
    }
  }

  /** Strictly increasing from `n = 1` on. */
  lemma MeanInversionsIncreasing(m: int, n: int)
    requires 1 <= m < n
    ensures MeanInversions(m) < MeanInversions(n)
  {
    var x, y := m as real, n as real;
    assert MeanInversions(n) - MeanInversions(m) == 0.25 * ((y - x) * (y + x - 1.0));
    assert y - x > 0.0 && y + x - 1.0 > 0.0;
    ProductPositive(y - x, y + x - 1.0);
  }

  lemma ProductNonNegative(a: real, b: real)
    requires a >= 0.0 && b >= 0.0
    ensures a * b >= 0.0
  {
  }

  lemma ProductPositive(a: real, b: real)
    requires a > 0.0 && b > 0.0
    ensures a * b > 0.0
  {
  }
}
