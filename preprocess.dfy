/**
 * The per-trial steps every benchmark of `sortIntegers` is built from: the
 * preprocess lambda, which copies the whole array with `Arrays.copyOf`, and
 * the timed lambda, which sorts the whole of its argument in place.
 */
module Preprocess {
  import opened Wrappers

  /** `n` `null` slots. */
  function Nulls(n: nat): (s: seq<Option<int>>) {
    seq(n, _ => None)
  }

  /**
   * `Arrays.copyOf(original, newLength)`: a fresh array of `newLength`
   * slots; the first `min(original.length, newLength)` are copied, any extra
   * slot is `null`. (Java throws for a negative length; `nat` rules it out.)
   */
  method CopyOf(original: array<Option<int>>, newLength: nat) returns (copy: array<Option<int>>)
    ensures fresh(copy)
    ensures copy[..] == if newLength <= original.Length then original[..newLength]
                        else original[..] + Nulls(newLength - original.Length)
  {
    copy := new Option<int>[newLength](_ => None);
    var m := if newLength <= original.Length then newLength else original.Length;
    for i := 0 to m
      invariant forall k :: 0 <= k < i ==> copy[k] == original[k]
      invariant forall k :: i <= k < newLength ==> copy[k] == None
    {
      copy[i] := original[i];
    }
  }

  /** The preprocess lambda: a defensive copy, fresh and equal element-wise to `xs`. */
  method DefensiveCopy(xs: array<Option<int>>) returns (copy: array<Option<int>>)
    ensures fresh(copy) && copy != xs
    ensures copy[..] == xs[..]
  {
    copy := CopyOf(xs, xs.Length);
  }

  /**
   * `sorter.sort(xs, from, to)`: the insertion sort itself is not part of this
   * model. A caller may rely on two things: the array's contents are permuted,
   * and only slots in `[from, to)` change. The body swaps arbitrary slots of
   * the range, to promise no more than that.
   */
  method Sort(xs: array<Option<int>>, from: nat, to: nat)
    requires from <= to <= xs.Length
    modifies xs
    ensures multiset(xs[..]) == multiset(old(xs[..]))
    ensures forall k :: 0 <= k < from || to <= k < xs.Length ==> xs[k] == old(xs[k])
  {
    for i := from to to
      invariant multiset(xs[..]) == multiset(old(xs[..]))
      invariant forall k :: 0 <= k < from || to <= k < xs.Length ==> xs[k] == old(xs[k])
    {
      var j: int := *;
      if from <= j < to {
        xs[i], xs[j] := xs[j], xs[i];
      }
    }
  }

  /** The timed lambda: sort the whole array, which may change only that array. */
  method SortAll(xs: array<Option<int>>)
    modifies xs
    ensures multiset(xs[..]) == multiset(old(xs[..]))
  {
    Sort(xs, 0, xs.Length);
  }

  /**
   * One trial: the array a supplier produced is copied, and the copy, not the
   * original, is sorted. The original is left exactly as the supplier made it.
   */
  method Trial(generated: array<Option<int>>) returns (copy: array<Option<int>>)
    ensures fresh(copy) && copy.Length == generated.Length
    ensures multiset(copy[..]) == multiset(generated[..])
    ensures generated[..] == old(generated[..])
  {
    copy := DefensiveCopy(generated);
    SortAll(copy);
  }
}
