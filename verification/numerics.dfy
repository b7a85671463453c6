/** Reductions over sequences of reals that the plotting script takes from
    numpy (sum, mean, population variance, min, max), and the interval counts
    that its bin masks and histograms compute. */
module Numerics {

  /** A value that may be missing: `None` is the NaN the script stores for a
      bin without points. */
  datatype Option<+T> = None | Some(value: T)

  /** Python's `sum`: the total of the values. */
  function Sum(s: seq<real>): real
  {
    if s == [] then 0.0 else s[0] + Sum(s[1..])
  }

  /** The total of two runs of values laid end to end is the sum of their
      totals, so the total does not depend on how the values are grouped. */
  lemma {:induction false} SumAppend(a: seq<real>, b: seq<real>)
    ensures Sum(a + b) == Sum(a) + Sum(b)
  {
    if a == [] {
      assert a + b == b;
    } else {
      SumAppend(a[1..], b);
      assert (a + b)[1..] == a[1..] + b;
    }
  }

  /** Sum of a sequence of counts, accumulated from the back so that a
      prefix sum extends by one element. */
  function SumNat(s: seq<nat>): nat
  {
    if s == [] then 0 else SumNat(s[..|s| - 1]) + s[|s| - 1]
  }

  /** `np.mean`. */
  function Mean(s: seq<real>): (m: real)
    requires |s| > 0
    ensures m * (|s| as real) == Sum(s)
  {
    Sum(s) / (|s| as real)
  }

  /** Sum of squared deviations of `s` from `m`. */
  function SquaredDeviations(s: seq<real>, m: real): (r: real)
    ensures r >= 0.0
  {
    if s == [] then 0.0
    else
      var d := s[0] - m;
      d * d + SquaredDeviations(s[1..], m)
  }

  /** The population variance, the square of `np.std` (which divides by n). */
  function Variance(s: seq<real>): (r: real)
    requires |s| > 0
    ensures r >= 0.0
  {
    SquaredDeviations(s, Mean(s)) / (|s| as real)
  }

  /** `np.min`: an element of `s` that no element is below. */
  function Min(s: seq<real>): (r: real)
    requires |s| > 0
    ensures r in s
    ensures forall i :: 0 <= i < |s| ==> r <= s[i]
  {
    if |s| == 1 then s[0]
    else
      var m := Min(s[1..]);
      if s[0] <= m then s[0] else m
  }

  /** `np.max`: an element of `s` that no element is above. */
  function Max(s: seq<real>): (r: real)
    requires |s| > 0
    ensures r in s
    ensures forall i :: 0 <= i < |s| ==> s[i] <= r
  {
    if |s| == 1 then s[0]
    else
      var m := Max(s[1..]);
      if s[0] >= m then s[0] else m
  }

  /** Number of values in the half-open interval [lo, hi). */
  function CountIn(xs: seq<real>, lo: real, hi: real): (c: nat)
    ensures c <= |xs|
  {
    if xs == [] then 0
    else (if lo <= xs[0] < hi then 1 else 0) + CountIn(xs[1..], lo, hi)
  }

  /** Number of values in the closed interval [lo, hi]. */
  function CountClosed(xs: seq<real>, lo: real, hi: real): (c: nat)
    ensures c <= |xs|
  {
    if xs == [] then 0
    else (if lo <= xs[0] <= hi then 1 else 0) + CountClosed(xs[1..], lo, hi)
  }

  /** Number of values strictly below `hi`. */
  function CountBelow(xs: seq<real>, hi: real): (c: nat)
    ensures c <= |xs|
  {
    if xs == [] then 0
    else (if xs[0] < hi then 1 else 0) + CountBelow(xs[1..], hi)
  }

  /** Number of values equal to `v`. */
  function CountEqual(xs: seq<real>, v: real): (c: nat)
    ensures c <= |xs|
    ensures v in xs ==> c > 0
  {
    if xs == [] then 0
    else (if xs[0] == v then 1 else 0) + CountEqual(xs[1..], v)
  }

  /** `np.where(mask)`: the positions of the true entries of a mask, in
      increasing order. */
  function Where(mask: seq<bool>): (idx: seq<nat>)
    ensures forall k :: 0 <= k < |idx| ==> idx[k] < |mask| && mask[idx[k]]
  {
    if mask == [] then []
    else
      var init := Where(mask[..|mask| - 1]);
      if mask[|mask| - 1] then init + [|mask| - 1] else init
  }

  /** Every true position of the mask is among those `Where` gives, and
      they come in strictly increasing order. */
  lemma {:induction false} WhereComplete(mask: seq<bool>)
    ensures forall i :: 0 <= i < |mask| && mask[i] ==> i in Where(mask)
    ensures forall j, k :: 0 <= j < k < |Where(mask)| ==> Where(mask)[j] < Where(mask)[k]
  {
    if mask != [] {
      var init := mask[..|mask| - 1];
      WhereComplete(init);
      assert forall i :: 0 <= i < |init| ==> mask[i] == init[i];
    }
  }

  /** Every position moved one place up. */
  function Shift(idx: seq<nat>): (s: seq<nat>)
    ensures |s| == |idx| && forall k :: 0 <= k < |idx| ==> s[k] == idx[k] + 1
  {
    seq(|idx|, k requires 0 <= k < |idx| => idx[k] + 1)
  }

  /** The true positions of a mask with one more entry in front: position 0
      if that entry is true, then the others moved one place up. */
  lemma {:induction false} WhereCons(b: bool, m: seq<bool>)
    ensures Where([b] + m) == (if b then [0] else []) + Shift(Where(m))
  {
    var lead: seq<nat> := if b then [0] else [];
    if m == [] {
      assert ([b] + m)[..0] == [];
      assert Where([b] + m) == Where([]) + lead;
    } else {
      var init := m[..|m| - 1];
      var last := m[|m| - 1];
      var tail: seq<nat> := if last then [|m|] else [];
      WhereCons(b, init);
      assert ([b] + m)[..|m|] == [b] + init;
      assert Where([b] + m) == Where([b] + init) + tail;
      assert Where(m) == Where(init) + (if last then [|m| - 1] else []);
      ShiftAppend(Where(init), if last then [|m| - 1] else []);
      assert Shift(Where(m)) == Shift(Where(init)) + tail;
    }
  }

  /** Shifting distributes over concatenation. */
  lemma ShiftAppend(a: seq<nat>, b: seq<nat>)
    ensures Shift(a + b) == Shift(a) + Shift(b)
  {
    assert forall k :: 0 <= k < |a + b| ==> Shift(a + b)[k] == (Shift(a) + Shift(b))[k];
  }

  /** `s[idx]`: the entries of s at the given positions, in that order. */
  function Pick<T>(s: seq<T>, idx: seq<nat>): (r: seq<T>)
    requires forall k :: 0 <= k < |idx| ==> idx[k] < |s|
    ensures |r| == |idx| && forall k :: 0 <= k < |idx| ==> r[k] == s[idx[k]]
  {
    seq(|idx|, k requires 0 <= k < |idx| => s[idx[k]])
  }

  /** `np.log10` applied entry by entry, with the logarithm passed in. */
  function Log10All(s: seq<real>, log10: real -> real): (r: seq<real>)
    ensures |r| == |s| && forall k :: 0 <= k < |s| ==> r[k] == log10(s[k])
  {
    seq(|s|, k requires 0 <= k < |s| => log10(s[k]))
  }

  /** Taking logs entry by entry distributes over concatenation. */
  lemma Log10AllAppend(a: seq<real>, b: seq<real>, log10: real -> real)
    ensures Log10All(a + b, log10) == Log10All(a, log10) + Log10All(b, log10)
  {
    assert forall k :: 0 <= k < |a + b| ==>
      Log10All(a + b, log10)[k] == (Log10All(a, log10) + Log10All(b, log10))[k];
  }

  /** The logs of the picks at the true positions of a mask with one more
      entry in front: the first log if that entry is true, then the logs
      of the picks from the rest. */
  lemma LogsOfPicks(s: seq<real>, b: bool, m: seq<bool>, log10: real -> real)
    requires |s| == |m| + 1
    ensures Log10All(Pick(s, Where([b] + m)), log10)
         == (if b then [log10(s[0])] else []) + Log10All(Pick(s[1..], Where(m)), log10)
  {
    var lead := if b then [s[0]] else [];
    PickWhereCons(s, b, m);
    Log10AllAppend(lead, Pick(s[1..], Where(m)), log10);
    assert Log10All(lead, log10) == (if b then [log10(s[0])] else []);
  }

  /** The mask `lo <= x < hi`, one entry per x. */
  function InRange(xs: seq<real>, lo: real, hi: real): (mask: seq<bool>)
    ensures |mask| == |xs| && forall i :: 0 <= i < |xs| ==> (mask[i] <==> lo <= xs[i] < hi)
  {
    seq(|xs|, i requires 0 <= i < |xs| => lo <= xs[i] < hi)
  }

  /** The mask `x > 0`, one entry per x. */
  function Positive(xs: seq<real>): (mask: seq<bool>)
    ensures |mask| == |xs| && forall i :: 0 <= i < |xs| ==> (mask[i] <==> xs[i] > 0.0)
  {
    seq(|xs|, i requires 0 <= i < |xs| => xs[i] > 0.0)
  }

  /** `y[mask]` for the mask `lo <= x < hi`: the y values, in order, whose
      partner x lies in [lo, hi) (see SelectPicksMask); there are as many as
      x values in [lo, hi). */
  function Select(xs: seq<real>, ys: seq<real>, lo: real, hi: real): (r: seq<real>)
    requires |xs| == |ys|
    ensures |r| == CountIn(xs, lo, hi)
    ensures forall k :: 0 <= k < |r| ==> r[k] in ys
  {
    if xs == [] then []
    else
      var rest := Select(xs[1..], ys[1..], lo, hi);
      if lo <= xs[0] < hi then [ys[0]] + rest else rest
  }

  /** The selected values are y at the positions `np.where` gives for the
      mask `lo <= x < hi`: the k-th of them is the partner of the k-th x
      in [lo, hi). */
  lemma {:induction false} SelectPicksMask(xs: seq<real>, ys: seq<real>, lo: real, hi: real)
    requires |xs| == |ys|
    ensures Select(xs, ys, lo, hi) == Pick(ys, Where(InRange(xs, lo, hi)))
  {
    if xs != [] {
      SelectPicksMask(xs[1..], ys[1..], lo, hi);
      InRangeCons(xs, lo, hi);
      PickWhereCons(ys, lo <= xs[0] < hi, InRange(xs[1..], lo, hi));
    }
  }

  /** The mask of a sequence is the first entry's test followed by the mask
      of the rest. */
  lemma InRangeCons(xs: seq<real>, lo: real, hi: real)
    requires |xs| > 0
    ensures InRange(xs, lo, hi) == [lo <= xs[0] < hi] + InRange(xs[1..], lo, hi)
  {
  }

  /** Picking at the true positions of a mask with one more entry in front:
      the first element if that entry is true, then the picks from the
      rest. */
  lemma PickWhereCons<T>(s: seq<T>, b: bool, m: seq<bool>)
    requires |s| == |m| + 1
    ensures Pick(s, Where([b] + m)) == (if b then [s[0]] else []) + Pick(s[1..], Where(m))
  {
    WhereCons(b, m);
    PickCons(s, b, Where(m));
  }

  /** Picking from a sequence at positions that start with 0 or not, the
      rest shifted up by one, is picking from its tail. */
  lemma PickCons<T>(s: seq<T>, b: bool, w: seq<nat>)
    requires |s| > 0 && forall k :: 0 <= k < |w| ==> w[k] < |s| - 1
    ensures Pick(s, (if b then [0] else []) + Shift(w)) == (if b then [s[0]] else []) + Pick(s[1..], w)
  {
    var idx := (if b then [0] else []) + Shift(w);
    var lhs, rhs := Pick(s, idx), (if b then [s[0]] else []) + Pick(s[1..], w);
    assert |lhs| == |rhs|;
    forall k | 0 <= k < |lhs|
      ensures lhs[k] == rhs[k]
    {
      if b && k == 0 {
      } else {
        var j := if b then k - 1 else k;
        assert idx[k] == w[j] + 1;
        assert rhs[k] == s[1..][w[j]];
      }
    }
  }

  /** Every value of `s` lies between lo and hi, so its sum lies between
      |s| * lo and |s| * hi. */
  lemma {:induction false} SumBetween(s: seq<real>, lo: real, hi: real)
    requires forall i :: 0 <= i < |s| ==> lo <= s[i] <= hi
    ensures (|s| as real) * lo <= Sum(s) <= (|s| as real) * hi
  {
    if s != [] {
      SumBetween(s[1..], lo, hi);
      assert (|s| as real) * lo == lo + (|s[1..]| as real) * lo;
      assert (|s| as real) * hi == hi + (|s[1..]| as real) * hi;
    }
  }

  /** Dividing bounds n * lo <= a <= n * hi by a positive n. */
  lemma QuotientBetween(a: real, n: real, lo: real, hi: real)
    requires n > 0.0 && n * lo <= a <= n * hi
    ensures lo <= a / n <= hi
  {
    var q := a / n;
    assert q * n == a;
    assert (q - lo) * n == a - n * lo;
    assert (hi - q) * n == n * hi - a;
  }

  /** The mean of values that all lie in [lo, hi] lies in [lo, hi]. */
  lemma MeanWithin(s: seq<real>, lo: real, hi: real)
    requires |s| > 0
    requires forall i :: 0 <= i < |s| ==> lo <= s[i] <= hi
    ensures lo <= Mean(s) <= hi
  {
    SumBetween(s, lo, hi);
    QuotientBetween(Sum(s), |s| as real, lo, hi);
  }

  /** The mean of a non-empty sequence lies between its minimum and maximum. */
  lemma MeanBetweenMinAndMax(s: seq<real>)
    requires |s| > 0
    ensures Min(s) <= Mean(s) <= Max(s)
  {
    MeanWithin(s, Min(s), Max(s));
  }

  /** An empty interval holds no value. */
  lemma {:induction false} CountInEmptyRange(xs: seq<real>, lo: real, hi: real)
    requires hi <= lo
    ensures CountIn(xs, lo, hi) == 0
  {
    if xs != [] {
      CountInEmptyRange(xs[1..], lo, hi);
    }
  }

  /** Splitting [lo, hi) at mid splits its count. */
  lemma {:induction false} SplitHalfOpen(xs: seq<real>, lo: real, mid: real, hi: real)
    requires lo <= mid <= hi
    ensures CountIn(xs, lo, mid) + CountIn(xs, mid, hi) == CountIn(xs, lo, hi)
  {
    if xs != [] {
      SplitHalfOpen(xs[1..], lo, mid, hi);
    }
  }

  /** Splitting [lo, hi] at mid into [lo, mid) and [mid, hi] splits its count. */
  lemma {:induction false} SplitClosed(xs: seq<real>, lo: real, mid: real, hi: real)
    requires lo <= mid <= hi
    ensures CountIn(xs, lo, mid) + CountClosed(xs, mid, hi) == CountClosed(xs, lo, hi)
  {
    if xs != [] {
      SplitClosed(xs[1..], lo, mid, hi);
    }
  }

  /** When no value is below lo, counting [lo, hi) is counting below hi. */
  lemma {:induction false} CountInFromLowerBound(xs: seq<real>, lo: real, hi: real)
    requires forall i :: 0 <= i < |xs| ==> lo <= xs[i]
    ensures CountIn(xs, lo, hi) == CountBelow(xs, hi)
  {
    if xs != [] {
      CountInFromLowerBound(xs[1..], lo, hi);
    }
  }

  /** When no value is above v, every value is either below v or equal to it. */
  lemma {:induction false} BelowOrEqual(xs: seq<real>, v: real)
    requires forall i :: 0 <= i < |xs| ==> xs[i] <= v
    ensures CountBelow(xs, v) + CountEqual(xs, v) == |xs|
  {
    if xs != [] {
      BelowOrEqual(xs[1..], v);
    }
  }

  /** Bin counts over consecutive intervals of non-decreasing edges add up,
      prefix by prefix, to the count over the span of those edges. */
  lemma {:induction false} PrefixCountsSpan(xs: seq<real>, e: seq<real>, counts: seq<nat>, k: nat)
    requires |e| == |counts| + 1
    requires forall i, j :: 0 <= i <= j < |e| ==> e[i] <= e[j]
    requires forall j :: 0 <= j < |counts| ==> counts[j] == CountIn(xs, e[j], e[j + 1])
    requires k <= |counts|
    ensures SumNat(counts[..k]) == CountIn(xs, e[0], e[k])
  {
    if k == 0 {
      CountInEmptyRange(xs, e[0], e[0]);
    } else {
      PrefixCountsSpan(xs, e, counts, k - 1);
      assert counts[..k][..k - 1] == counts[..k - 1];
      SplitHalfOpen(xs, e[0], e[k - 1], e[k]);
    }
  }
}
