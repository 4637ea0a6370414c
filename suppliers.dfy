/**
 * The four input suppliers of `InsertionSortBenchmark.sortIntegers`. Each one
 * allocates a fresh `Integer[]` of length `n` (every slot starts as `null`)
 * and fills it with a loop. An `Integer[]` is an `array<Option<int>>`, so a
 * slot the loop never assigns stays visibly `None`.
 */
module Suppliers {
  import opened Wrappers

  // ---------------------------------------------------------------------
  // Reference definitions of the arrays the suppliers produce
  // ---------------------------------------------------------------------

  /** A value of Java's 32-bit `int`. */
  predicate IsInt32(v: int) {
    -0x8000_0000 <= v < 0x8000_0000
  }

  /** Every draw is a 32-bit value. */
  ghost predicate AllInt32(draws: seq<int>) {
    forall k :: 0 <= k < |draws| ==> IsInt32(draws[k])
  }

  /** Every slot holds a value (no `null` left). */
  ghost predicate AllAssigned(s: seq<Option<int>>) {
    forall k :: 0 <= k < |s| ==> s[k].Some?
  }

  /** Every slot holds a value and the values strictly increase. */
  ghost predicate StrictlyAscending(s: seq<Option<int>>) {
    AllAssigned(s) && forall i, j :: 0 <= i < j < |s| ==> s[i].value < s[j].value
  }

  /** Every slot holds a value and the values strictly decrease. */
  ghost predicate StrictlyDescending(s: seq<Option<int>>) {
    AllAssigned(s) && forall i, j :: 0 <= i < j < |s| ==> s[i].value > s[j].value
  }

  /** The boxed integers `lo, lo+1, ..., hi-1`. */
  function Range(lo: int, hi: int): (s: seq<Option<int>>)
    requires lo <= hi
  {
    seq(hi - lo, k requires 0 <= k < hi - lo => Some(lo + k))
  }

  /** The integers of `xs`, boxed, in the same order. */
  function Boxed(xs: seq<int>): (s: seq<Option<int>>) {
    seq(|xs|, k requires 0 <= k < |xs| => Some(xs[k]))
  }

  /** `0, 1, ..., n-1`: what the ordered supplier is meant to produce. */
  function Ordered(n: nat): (s: seq<Option<int>>) {
    Range(0, n)
  }

  /** `n-1, n-2, ..., 0`: what a reverse-ordered input would be. */
  function Descending(n: nat): (s: seq<Option<int>>) {
    seq(n, k requires 0 <= k < n => Some(n - 1 - k))
  }

  /**
   * The partially ordered array: the `n/2` random draws in the first half,
   * the indices themselves in the next `n/2` slots, and, when `n` is odd,
   * one last slot that is never assigned.
   */
  function Partial(n: nat, draws: seq<int>): (s: seq<Option<int>>)
    requires |draws| == n / 2
  {
    Boxed(draws) + Range(n / 2, n / 2 + n / 2) + (if n % 2 == 1 then [None] else [])
  }

  // ---------------------------------------------------------------------
  // Properties of the reference definitions
  // ---------------------------------------------------------------------

  lemma OrderedIsAscending(n: nat)
    ensures |Ordered(n)| == n
    ensures forall i :: 0 <= i < n ==> Ordered(n)[i] == Some(i)
    ensures StrictlyAscending(Ordered(n))
  {
  }

  lemma DescendingIsDescending(n: nat)
    ensures |Descending(n)| == n
    ensures StrictlyDescending(Descending(n))
    ensures multiset(Descending(n)) == multiset(Ordered(n))
  {
    DescendingIsOrderedPermutation(n);
  }

  /** The "reverse ordered" output differs from a descending one as soon as two slots exist. */
  lemma OrderedIsNotDescending(n: nat)
    requires n >= 2
    ensures !StrictlyDescending(Ordered(n))
    ensures Ordered(n) != Descending(n)
    ensures Ordered(n)[0] == Some(0) && Descending(n)[0] == Some(n - 1)
  {
    OrderedIsAscending(n);
    assert Ordered(n)[0].value < Ordered(n)[1].value;
  }

  lemma {:induction false} DescendingIsOrderedPermutation(n: nat)
    ensures multiset(Descending(n)) == multiset(Ordered(n))
  {
    if n > 0 {
      DescendingIsOrderedPermutation(n - 1);
      assert Descending(n) == [Some(n - 1)] + Descending(n - 1);
      assert Ordered(n) == Ordered(n - 1) + [Some(n - 1)];
    }
  }

  /** Slot by slot, what the partially ordered array holds. */
  lemma PartialAt(n: nat, draws: seq<int>, k: int)
    requires |draws| == n / 2 && 0 <= k < n
    ensures |Partial(n, draws)| == n
    ensures k < n / 2 ==> Partial(n, draws)[k] == Some(draws[k])
    ensures n / 2 <= k < n / 2 + n / 2 ==> Partial(n, draws)[k] == Some(k)
    ensures n / 2 + n / 2 <= k ==> Partial(n, draws)[k] == None
  {
  }

  /** The second half (of length n/2) is ascending and equals its own indices. */
  lemma PartialSecondHalf(n: nat, draws: seq<int>)
    requires |draws| == n / 2
    ensures Partial(n, draws)[n / 2 .. n / 2 + n / 2] == Range(n / 2, n / 2 + n / 2)
    ensures StrictlyAscending(Partial(n, draws)[n / 2 .. n / 2 + n / 2])
  {
  }

  /** Every slot is assigned exactly when `n` is even. */
  lemma PartialAllAssignedIff(n: nat, draws: seq<int>)
    requires |draws| == n / 2
    ensures AllAssigned(Partial(n, draws)) <==> n % 2 == 0
  {
    var s := Partial(n, draws);
    if n % 2 == 1 {
      PartialAt(n, draws, n - 1);
    } else {
      forall k | 0 <= k < n ensures s[k].Some? {
        PartialAt(n, draws, k);
      }
    }
  }

  /** For odd `n`, the last slot and only the last slot is left `null`. */
  lemma PartialOddHole(n: nat, draws: seq<int>)
    requires |draws| == n / 2 && n % 2 == 1
    ensures forall k :: 0 <= k < n ==> (Partial(n, draws)[k] == None <==> k == n - 1)
  {
  }

  // ---------------------------------------------------------------------
  // The suppliers
  // ---------------------------------------------------------------------

  /** `random.nextInt()`: some 32-bit int; no distribution is modelled. */
  method NextInt() returns (v: int)
    ensures IsInt32(v)
  {
    v :| IsInt32(v);
  }

  /** `randomIntegers`: every slot gets a fresh draw; `draws` are the values drawn, in order. */
  method RandomIntegers(n: nat) returns (result: array<Option<int>>, ghost draws: seq<int>)
    ensures fresh(result)
    ensures |draws| == n && AllInt32(draws) && result[..] == Boxed(draws)
    ensures AllAssigned(result[..])
  {
    result := new Option<int>[n](_ => None);
    draws := [];
    for i := 0 to n
      invariant |draws| == i && AllInt32(draws)
      invariant forall k :: 0 <= k < i ==> result[k] == Some(draws[k])
    {
      var v := NextInt();
      result[i] := Some(v);
      draws := draws + [v];
    }
  }

  /** `orderedIntegers`: slot `i` gets `i`. */
  method OrderedIntegers(n: nat) returns (result: array<Option<int>>)
    ensures fresh(result)
    ensures result[..] == Ordered(n)
  {
    result := new Option<int>[n](_ => None);
    for i := 0 to n
      invariant forall k :: 0 <= k < i ==> result[k] == Some(k)
    {
      result[i] := Some(i);
    }
  }

  /**
   * `reverseOrdIntegers`: walks `i` from `n-1` down to `0` but stores `i` at
   * index `i`, so it yields the same ascending array as `OrderedIntegers`.
   */
  method ReverseOrderedIntegers(n: nat) returns (result: array<Option<int>>)
    ensures fresh(result)
    ensures result[..] == Ordered(n)
  {
    result := new Option<int>[n](_ => None);
    var i: int := n - 1;
    while i >= 0
      invariant -1 <= i < n
      invariant forall k :: i < k < n ==> result[k] == Some(k)
    {
      result[i] := Some(i);
      i := i - 1;
    }
  }

  /**
   * `partiallyOrdIntegers`: the two-index loop `i = 0, j = n/2` runs while
   * `i < n/2 && j < n`, i.e. exactly `n/2` times (one draw per iteration),
   * storing a random value at `i` and `j` at `j`.
   */
  method PartiallyOrderedIntegers(n: nat) returns (result: array<Option<int>>, ghost draws: seq<int>)
    ensures fresh(result)
    ensures |draws| == n / 2 && AllInt32(draws) && result[..] == Partial(n, draws)
  {
    result := new Option<int>[n](_ => None);
    draws := [];
    var i, j := 0, n / 2;
    while i < n / 2 && j < n
      invariant 0 <= i <= n / 2 && j == n / 2 + i
      invariant |draws| == i && AllInt32(draws)
      invariant forall k :: 0 <= k < i ==> result[k] == Some(draws[k])
      invariant forall k :: n / 2 <= k < j ==> result[k] == Some(k)
      invariant forall k :: i <= k < n / 2 || j <= k < n ==> result[k] == None
    {
      var v := NextInt();
      result[i] := Some(v);
      result[j] := Some(j);
      draws := draws + [v];
      i, j := i + 1, j + 1;
    }
    assert i == n / 2;
    forall k | 0 <= k < n ensures result[k] == Partial(n, draws)[k] {
      PartialAt(n, draws, k);
    }
  }
}
