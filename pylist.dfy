/**
 The two pieces of Python list semantics the crossover signal relies on:
 slicing with (possibly negative) bounds, `s[start:stop]`, and the builtin
 `sum`, which folds `+` from the left starting at 0. Arithmetic is exact
 (`real`), so the model has no floating-point rounding.
 */
module PyList {

  /** One bound of a slice expression: written as an integer, or left empty. */
  datatype Bound = Omitted | At(i: int)

  /** Python's normalisation of a slice bound against a list of length `n`:
      a negative bound counts from the end, and the result is clamped into `[0, n]`. */
  function Normalize(i: int, n: nat): (k: nat)
    ensures k <= n
  {
    if i < 0 then (if i + n < 0 then 0 else i + n)
    else if i > n then n
    else i
  }

  /** `s[start:stop]` with step 1: an empty slice when the normalised start is not below the normalised stop. */
  function Slice<T>(s: seq<T>, start: Bound, stop: Bound): (r: seq<T>)
    ensures |r| <= |s|
  {
    var lo := if start.Omitted? then 0 else Normalize(start.i, |s|);
    var hi := if stop.Omitted? then |s| else Normalize(stop.i, |s|);
    s[lo..if lo < hi then hi else lo]
  }

  /** `s[-w:]` is the last `w` elements, and both of its bounds are in range, when `1 <= w <= |s|`. */
  lemma SuffixSlice<T>(s: seq<T>, w: int)
    requires 1 <= w <= |s|
    ensures -|s| <= -w < 0
    ensures Slice(s, At(-w), Omitted) == s[|s| - w..]
    ensures |Slice(s, At(-w), Omitted)| == w
  {
  }

  /** `s[-w-1:-1]` is the `w` elements before the last one, and both of its bounds are in range, when `1 <= w < |s|`. */
  lemma ShiftedSlice<T>(s: seq<T>, w: int)
    requires 1 <= w < |s|
    ensures -|s| <= -w - 1 < -1 < 0
    ensures Slice(s, At(-w - 1), At(-1)) == s[|s| - w - 1..|s| - 1]
    ensures |Slice(s, At(-w - 1), At(-1))| == w
  {
  }

  /** Why a window of 0 has to be refused: `s[-0:]` is `s[0:]`, the whole list, not an empty suffix. */
  lemma ZeroWindowSliceIsWhole<T>(s: seq<T>)
    ensures Slice(s, At(-0), Omitted) == s
  {
  }

  /** Python's `sum(xs)`: `((0 + xs[0]) + xs[1]) + ...`. */
  function Sum(xs: seq<real>): real
  {
    if xs == [] then 0.0 else Sum(xs[..|xs| - 1]) + xs[|xs| - 1]
  }

  /** `sum` of a concatenation is the sum of the sums. */
  lemma {:induction false} SumConcat(a: seq<real>, b: seq<real>)
    ensures Sum(a + b) == Sum(a) + Sum(b)
    decreases |b|
  {
    if b == [] {
      assert a + b == a;
    } else {
      var b' := b[..|b| - 1];
      assert (a + b)[..|a + b| - 1] == a + b';
      SumConcat(a, b');
    }
  }

  /** `sum` of a list whose elements all equal `c` is its length times `c`. */
  lemma {:induction false} SumConstant(xs: seq<real>, c: real)
    requires forall k :: 0 <= k < |xs| ==> xs[k] == c
    ensures Sum(xs) == |xs| as real * c
  {
    if xs != [] {
      SumConstant(xs[..|xs| - 1], c);
    }
  }

  /** Elementwise negation of a list. */
  function Negated(xs: seq<real>): (r: seq<real>)
    ensures |r| == |xs|
    ensures forall k :: 0 <= k < |xs| ==> r[k] == -xs[k]
  {
    seq(|xs|, k requires 0 <= k < |xs| => -xs[k])
  }

  /** `sum` commutes with negation. */
  lemma {:induction false} SumNegated(xs: seq<real>)
    ensures Sum(Negated(xs)) == -Sum(xs)
  {
    if xs != [] {
      var xs' := xs[..|xs| - 1];
      assert Negated(xs)[..|xs| - 1] == Negated(xs');
      SumNegated(xs');
    }
  }

  /** Sliding a window of `w` elements one place to the right adds the element that
      enters and subtracts the one that leaves. */
  lemma SumWindowShift(xs: seq<real>, i: nat, w: nat)
    requires i + w < |xs|
    ensures Sum(xs[i + 1..i + w + 1]) == Sum(xs[i..i + w]) - xs[i] + xs[i + w]
  {
    assert xs[i..i + w + 1] == [xs[i]] + xs[i + 1..i + w + 1];
    assert xs[i..i + w + 1] == xs[i..i + w] + [xs[i + w]];
    SumConcat([xs[i]], xs[i + 1..i + w + 1]);
    SumConcat(xs[i..i + w], [xs[i + w]]);
    assert Sum([xs[i]]) == xs[i] by { assert [xs[i]][..0] == []; }
    assert Sum([xs[i + w]]) == xs[i + w] by { assert [xs[i + w]][..0] == []; }
  }
}
