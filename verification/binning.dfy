/** The binned-statistics aggregator: uniform bins over the range of x,
    and in each bin the mean, the population variance and the number of the
    y values whose x falls in it, with NaN (here `None`) for an empty bin.
    Also the per-snapshot driver that filters galaxies to positive masses
    and collects one aggregate per snapshot that has any. */
module Binning {
  import opened Numerics

  predicate NonDecreasing(e: seq<real>)
  {
    forall i, j :: 0 <= i <= j < |e| ==> e[i] <= e[j]
  }

  predicate StrictlyIncreasing(e: seq<real>)
  {
    forall i, j :: 0 <= i < j < |e| ==> e[i] < e[j]
  }

  /** `np.linspace(lo, hi, n + 1)`: n + 1 edges from lo to hi (evenly
      spaced, see EdgesEvenlySpaced). */
  function Edges(lo: real, hi: real, n: nat): (e: seq<real>)
    requires n > 0
    ensures |e| == n + 1 && e[0] == lo && e[n] == hi
  {
    StepsFill(lo, hi, n);
    seq(n + 1, k requires 0 <= k <= n => lo + (k as real) * ((hi - lo) / (n as real)))
  }

  /** n steps of (hi - lo) / n lead from lo to hi. */
  lemma StepsFill(lo: real, hi: real, n: nat)
    requires n > 0
    ensures lo + (n as real) * ((hi - lo) / (n as real)) == hi
  {
    var step := (hi - lo) / (n as real);
    assert (n as real) * step == hi - lo;
  }

  /** Edge k is k steps of (hi - lo) / n above lo. */
  lemma EdgeAt(lo: real, hi: real, n: nat, k: nat)
    requires n > 0 && k <= n
    ensures Edges(lo, hi, n)[k] == lo + (k as real) * ((hi - lo) / (n as real))
  {
  }

  /** Neighbouring edges are (hi - lo) / n apart. */
  lemma EdgesEvenlySpaced(lo: real, hi: real, n: nat, k: nat)
    requires n > 0 && k < n
    ensures Edges(lo, hi, n)[k + 1] - Edges(lo, hi, n)[k] == (hi - lo) / (n as real)
  {
    EdgeAt(lo, hi, n, k);
    EdgeAt(lo, hi, n, k + 1);
    var step := (hi - lo) / (n as real);
    assert ((k + 1) as real) * step == (k as real) * step + step;
  }

  /** When n bins of width bw exactly fill [lo, hi], the k-th edge is k
      widths above lo. */
  lemma EdgesWholeBins(lo: real, hi: real, n: nat, bw: real, k: nat)
    requires n > 0 && k <= n && (n as real) * bw == hi - lo
    ensures Edges(lo, hi, n)[k] == lo + (k as real) * bw
  {
    EdgeAt(lo, hi, n, k);
    assert (hi - lo) / (n as real) == bw;
  }

  /** A non-negative step taken i times from lo ends no further than taken
      j >= i times. */
  lemma StepsOrdered(lo: real, step: real, i: nat, j: nat)
    requires 0.0 <= step && i <= j
    ensures lo + (i as real) * step <= lo + (j as real) * step
  {
    assert (j as real) * step - (i as real) * step == ((j - i) as real) * step;
  }

  /** A positive step taken i times from lo ends short of taken j > i times. */
  lemma StepsIncreasing(lo: real, step: real, i: nat, j: nat)
    requires 0.0 < step && i < j
    ensures lo + (i as real) * step < lo + (j as real) * step
  {
    assert (j as real) * step - (i as real) * step == ((j - i) as real) * step;
  }

  /** A non-negative range divided into n parts gives a non-negative step,
      a positive range a positive one. */
  lemma StepSign(lo: real, hi: real, n: nat)
    requires n > 0 && lo <= hi
    ensures (hi - lo) / (n as real) >= 0.0
    ensures lo < hi ==> (hi - lo) / (n as real) > 0.0
  {
    var step := (hi - lo) / (n as real);
    assert step * (n as real) == hi - lo;
  }

  /** Points k steps of a non-negative step above lo, for k = 0, 1, ...,
      never decrease; with a positive step they strictly increase. */
  lemma StepsMonotone(e: seq<real>, lo: real, step: real)
    requires step >= 0.0
    requires forall k :: 0 <= k < |e| ==> e[k] == lo + (k as real) * step
    ensures NonDecreasing(e)
    ensures step > 0.0 ==> StrictlyIncreasing(e)
  {
    forall i, j | 0 <= i <= j < |e|
      ensures e[i] <= e[j]
      ensures i < j && step > 0.0 ==> e[i] < e[j]
    {
      StepsOrdered(lo, step, i, j);
      if i < j && step > 0.0 {
        StepsIncreasing(lo, step, i, j);
      }
    }
  }

  /** Edges over lo <= hi never decrease. */
  lemma EdgesNonDecreasing(lo: real, hi: real, n: nat)
    requires n > 0 && lo <= hi
    ensures NonDecreasing(Edges(lo, hi, n))
  {
    EdgesMonotone(lo, hi, n);
  }

  /** Edges over lo < hi strictly increase. */
  lemma EdgesStrictlyIncreasing(lo: real, hi: real, n: nat)
    requires n > 0 && lo < hi
    ensures StrictlyIncreasing(Edges(lo, hi, n))
  {
    EdgesMonotone(lo, hi, n);
  }

  /** Both orderings of the edges, from their being evenly stepped. */
  lemma EdgesMonotone(lo: real, hi: real, n: nat)
    requires n > 0 && lo <= hi
    ensures NonDecreasing(Edges(lo, hi, n))
    ensures lo < hi ==> StrictlyIncreasing(Edges(lo, hi, n))
  {
    var e := Edges(lo, hi, n);
    var step := (hi - lo) / (n as real);
    StepSign(lo, hi, n);
    forall k | 0 <= k < |e|
      ensures e[k] == lo + (k as real) * step
    {
      EdgeAt(lo, hi, n, k);
    }
    StepsMonotone(e, lo, step);
  }

  /** Edges over an empty range (lo == hi) all coincide. */
  lemma EdgesCollapse(v: real, n: nat)
    requires n > 0
    ensures forall k :: 0 <= k <= n ==> Edges(v, v, n)[k] == v
  {
  }

  /** `0.5 * (bins[1:] + bins[:-1])`: one centre per pair of neighbouring
      edges, equally far from both. */
  function Centers(e: seq<real>): (c: seq<real>)
    requires |e| >= 1
    ensures |c| == |e| - 1
    ensures forall j {:trigger c[j]} :: 0 <= j < |c| ==> c[j] - e[j] == e[j + 1] - c[j]
  {
    seq(|e| - 1, j requires 0 <= j < |e| - 1 => 0.5 * (e[j + 1] + e[j]))
  }

  /** The centre of a bin of positive width lies strictly inside it. */
  lemma CenterInsideBin(e: seq<real>, j: nat)
    requires j < |e| - 1 && e[j] < e[j + 1]
    ensures e[j] < Centers(e)[j] < e[j + 1]
  {
    var c := Centers(e);
    assert c[j] - e[j] == e[j + 1] - c[j];
  }

  /** Centres of strictly increasing edges lie strictly inside their bins
      and strictly increase. */
  lemma CentersInsideBins(e: seq<real>)
    requires |e| >= 1 && StrictlyIncreasing(e)
    ensures forall j :: 0 <= j < |e| - 1 ==> e[j] < Centers(e)[j] < e[j + 1]
    ensures StrictlyIncreasing(Centers(e))
  {
    var c := Centers(e);
    forall j | 0 <= j < |c|
      ensures e[j] < c[j] < e[j + 1]
    {
      CenterInsideBin(e, j);
    }
    forall i, j | 0 <= i < j < |c|
      ensures c[i] < c[j]
    {
      CentersOrdered(e, i, j);
    }
  }

  /** The centre of an earlier bin lies below the centre of a later one. */
  lemma CentersOrdered(e: seq<real>, i: nat, j: nat)
    requires i < j < |e| - 1 && StrictlyIncreasing(e)
    ensures Centers(e)[i] < Centers(e)[j]
  {
    CenterInsideBin(e, i);
    CenterInsideBin(e, j);
    assert e[i + 1] <= e[j];
  }

  /** The statistics of one x/y relation, as the four parallel arrays the
      script keeps: bin centres, mean of y, population variance of y (the
      script keeps its square root) and number of points, per bin. */
  datatype BinnedData = BinnedData(centers: seq<real>, means: seq<Option<real>>,
                                   spreads: seq<Option<real>>, counts: seq<nat>)

  /** Mean of the y values whose x lies in [lo, hi); NaN when there are none. */
  function BinMean(x: seq<real>, y: seq<real>, lo: real, hi: real): (m: Option<real>)
    requires |x| == |y|
    ensures m.None? <==> CountIn(x, lo, hi) == 0
  {
    var inBin := Select(x, y, lo, hi);
    if |inBin| == 0 then None else Some(Mean(inBin))
  }

  /** Population variance of the y values whose x lies in [lo, hi); NaN when
      there are none. */
  function BinVariance(x: seq<real>, y: seq<real>, lo: real, hi: real): (v: Option<real>)
    requires |x| == |y|
    ensures v.None? <==> CountIn(x, lo, hi) == 0
    ensures v.Some? ==> v.value >= 0.0
  {
    var inBin := Select(x, y, lo, hi);
    if |inBin| == 0 then None else Some(Variance(inBin))
  }

  /** Mean, spread and count of one bin. */
  datatype Stats = Stats(mean: Option<real>, spread: Option<real>, count: nat)

  /** The statistics of the points whose x lies in [lo, hi): the count,
      and NaN for both the mean and the spread exactly when it is 0. */
  function BinStats(x: seq<real>, y: seq<real>, lo: real, hi: real): (st: Stats)
    requires |x| == |y|
    ensures st.count == CountIn(x, lo, hi)
    ensures st.mean.None? <==> st.count == 0
    ensures st.spread.None? <==> st.count == 0
  {
    Stats(BinMean(x, y, lo, hi), BinVariance(x, y, lo, hi), CountIn(x, lo, hi))
  }

  /** The four parallel arrays holding the given centres and, bin by bin,
      the given statistics. */
  function FromStats(centers: seq<real>, stats: seq<Stats>): (r: BinnedData)
    ensures r.centers == centers
    ensures |r.means| == |stats| && |r.spreads| == |stats| && |r.counts| == |stats|
    ensures forall j :: 0 <= j < |stats| ==> Stats(r.means[j], r.spreads[j], r.counts[j]) == stats[j]
  {
    BinnedData(centers,
               seq(|stats|, j requires 0 <= j < |stats| => stats[j].mean),
               seq(|stats|, j requires 0 <= j < |stats| => stats[j].spread),
               seq(|stats|, j requires 0 <= j < |stats| => stats[j].count))
  }

  /** Arrays holding the given centres and statistics are the ones
      `FromStats` builds. */
  lemma FromStatsUnique(r: BinnedData, stats: seq<Stats>)
    requires |r.means| == |stats| && |r.spreads| == |stats| && |r.counts| == |stats|
    requires forall j :: 0 <= j < |stats| ==> Stats(r.means[j], r.spreads[j], r.counts[j]) == stats[j]
    ensures r == FromStats(r.centers, stats)
  {
    var f := FromStats(r.centers, stats);
    assert r.means == f.means;
    assert r.spreads == f.spreads;
    assert r.counts == f.counts;
  }

  /** The statistics of the n bins between the given n + 1 edges. */
  function AllBins(x: seq<real>, y: seq<real>, e: seq<real>): (stats: seq<Stats>)
    requires |x| == |y| && |e| >= 1
    ensures |stats| == |e| - 1
    ensures forall j :: 0 <= j < |e| - 1 ==> stats[j] == BinStats(x, y, e[j], e[j + 1])
  {
    seq(|e| - 1, j requires 0 <= j < |e| - 1 => BinStats(x, y, e[j], e[j + 1]))
  }

  /** What the aggregator computes for x, y and n bins: n uniform bins from
      min(x) to max(x), bin j holding the points with
      `bins[j] <= x < bins[j+1]`. */
  function Aggregate(x: seq<real>, y: seq<real>, n: nat): (r: BinnedData)
    requires |x| == |y| > 0 && n > 0
    ensures |r.centers| == n && |r.means| == n && |r.spreads| == n && |r.counts| == n
    ensures forall j :: 0 <= j < n ==> (r.counts[j] == 0 <==> r.means[j].None?)
    ensures forall j :: 0 <= j < n ==> (r.counts[j] == 0 <==> r.spreads[j].None?)
  {
    var e := Edges(Min(x), Max(x), n);
    var r := FromStats(Centers(e), AllBins(x, y, e));
    assert forall j :: 0 <= j < n ==> Stats(r.means[j], r.spreads[j], r.counts[j]) == BinStats(x, y, e[j], e[j + 1]);
    r
  }

  /** The script's computation for one snapshot: edges and centres from the
      range of x, then the statistics of every bin. */
  method BinStatistics(x: seq<real>, y: seq<real>, n: nat) returns (r: BinnedData)
    requires |x| == |y| > 0 && n > 0
    ensures r == Aggregate(x, y, n)
  {
    var xMin, xMax := Min(x), Max(x);
    var bins := Edges(xMin, xMax, n);
    var binCenters := Centers(bins);
    var binMeans, binSpreads, binCounts := FillBins(x, y, bins);
    assert forall t :: 0 <= t < n ==>
      Stats(binMeans[t], binSpreads[t], binCounts[t]) == BinStats(x, y, bins[t], bins[t + 1]);
    r := BinnedData(binCenters, binMeans, binSpreads, binCounts);
    AggregateFromBins(x, y, n, r);
  }

  /** The loop over the bins: three arrays of one entry per bin, zeroed,
      then filled bin by bin with the mean, spread and count of the points
      in `[bins[j], bins[j+1])`. */
  method FillBins(x: seq<real>, y: seq<real>, bins: seq<real>)
    returns (means: seq<Option<real>>, spreads: seq<Option<real>>, counts: seq<nat>)
    requires |x| == |y| && |bins| >= 1
    ensures |means| == |bins| - 1 && |spreads| == |bins| - 1 && |counts| == |bins| - 1
    ensures forall t :: 0 <= t < |bins| - 1 ==>
              Stats(means[t], spreads[t], counts[t]) == BinStats(x, y, bins[t], bins[t + 1])
  {
    var n := |bins| - 1;
    var binMeans := new Option<real>[n](_ => Some(0.0));
    var binSpreads := new Option<real>[n](_ => Some(0.0));
    var binCounts := new nat[n](_ => 0);
    for j := 0 to n
      invariant forall t :: 0 <= t < j ==>
                  Stats(binMeans[t], binSpreads[t], binCounts[t]) == BinStats(x, y, bins[t], bins[t + 1])
    {
      var mean, spread, count := OneBin(x, y, bins[j], bins[j + 1]);
      binMeans[j] := mean;
      binSpreads[j] := spread;
      binCounts[j] := count;
    }
    means, spreads, counts := binMeans[..], binSpreads[..], binCounts[..];
  }

  /** One pass of the loop body: the count of the points in [lo, hi) and,
      when there are any, the mean and the spread of their y values. */
  method OneBin(x: seq<real>, y: seq<real>, lo: real, hi: real)
    returns (mean: Option<real>, spread: Option<real>, count: nat)
    requires |x| == |y|
    ensures Stats(mean, spread, count) == BinStats(x, y, lo, hi)
  {
    count := CountIn(x, lo, hi);
    if count > 0 {
      var inBin := Select(x, y, lo, hi);
      mean := Some(Mean(inBin));
      spread := Some(Variance(inBin));
    } else {
      mean := None;
      spread := None;
      count := 0;
    }
  }

  /** Bin j of an aggregate is the bin statistics over its two edges. */
  lemma AggregateAt(x: seq<real>, y: seq<real>, n: nat, j: nat)
    requires |x| == |y| > 0 && n > 0 && j < n
    ensures var r, e := Aggregate(x, y, n), Edges(Min(x), Max(x), n);
            Stats(r.means[j], r.spreads[j], r.counts[j]) == BinStats(x, y, e[j], e[j + 1])
  {
  }

  /** Data whose every bin holds the statistics over that bin's edges, with
      the centres of those edges, is the aggregate. */
  lemma AggregateFromBins(x: seq<real>, y: seq<real>, n: nat, r: BinnedData)
    requires |x| == |y| > 0 && n > 0
    requires var e := Edges(Min(x), Max(x), n);
             && r.centers == Centers(e) && |r.means| == n && |r.spreads| == n && |r.counts| == n
             && (forall t :: 0 <= t < n ==>
                   Stats(r.means[t], r.spreads[t], r.counts[t]) == BinStats(x, y, e[t], e[t + 1]))
    ensures r == Aggregate(x, y, n)
  {
    var e := Edges(Min(x), Max(x), n);
    FromStatsUnique(r, AllBins(x, y, e));
  }

  /** The edges `Aggregate` bins over. */
  function AggregateEdges(x: seq<real>, n: nat): (e: seq<real>)
    requires |x| > 0 && n > 0
    ensures |e| == n + 1 && e[0] == Min(x) && e[n] == Max(x)
    ensures NonDecreasing(e)
  {
    EdgesNonDecreasing(Min(x), Max(x), n);
    Edges(Min(x), Max(x), n)
  }

  /** Every point but those equal to max(x) is counted in exactly one bin;
      the points equal to max(x) fail the strict upper test of the last bin
      and are counted in none. So the counts never add up to len(x). */
  lemma CountsMissOnlyTheMaximum(x: seq<real>, y: seq<real>, n: nat)
    requires |x| == |y| > 0 && n > 0
    ensures SumNat(Aggregate(x, y, n).counts) + CountEqual(x, Max(x)) == |x|
    ensures SumNat(Aggregate(x, y, n).counts) == CountBelow(x, Max(x)) < |x|
  {
    CountsSpanRange(x, y, n);
    CountInFromLowerBound(x, Min(x), Max(x));
    BelowOrEqual(x, Max(x));
  }

  /** The bins tile [min(x), max(x)), so their counts add up to the number
      of points in that half-open range. */
  lemma CountsSpanRange(x: seq<real>, y: seq<real>, n: nat)
    requires |x| == |y| > 0 && n > 0
    ensures SumNat(Aggregate(x, y, n).counts) == CountIn(x, Min(x), Max(x))
  {
    var counts, e := Aggregate(x, y, n).counts, Edges(Min(x), Max(x), n);
    forall j | 0 <= j < n
      ensures counts[j] == CountIn(x, e[j], e[j + 1])
    {
      AggregateAt(x, y, n, j);
    }
    EdgesNonDecreasing(Min(x), Max(x), n);
    CountsTile(x, e, counts);
  }

  /** Counts over the bins between non-decreasing edges add up to the count
      over the whole range. */
  lemma CountsTile(xs: seq<real>, e: seq<real>, counts: seq<nat>)
    requires |e| == |counts| + 1 && NonDecreasing(e)
    requires forall j :: 0 <= j < |counts| ==> counts[j] == CountIn(xs, e[j], e[j + 1])
    ensures SumNat(counts) == CountIn(xs, e[0], e[|counts|])
  {
    PrefixCountsSpan(xs, e, counts, |counts|);
    assert counts[..|counts|] == counts;
  }

  /** A point at max(x) lies in no bin. */
  lemma MaximumInNoBin(x: seq<real>, n: nat)
    requires |x| > 0 && n > 0
    ensures forall j :: 0 <= j < n ==> !(AggregateEdges(x, n)[j] <= Max(x) < AggregateEdges(x, n)[j + 1])
  {
  }

  /** When every x is the same, all edges coincide and every bin is empty. */
  lemma ConstantXLeavesEveryBinEmpty(x: seq<real>, y: seq<real>, n: nat)
    requires |x| == |y| > 0 && n > 0
    requires Min(x) == Max(x)
    ensures forall j :: 0 <= j < n ==> Aggregate(x, y, n).counts[j] == 0
    ensures forall j :: 0 <= j < n ==> Aggregate(x, y, n).means[j].None?
  {
    var e := Edges(Min(x), Max(x), n);
    EdgesCollapse(Min(x), n);
    forall j | 0 <= j < n
      ensures CountIn(x, e[j], e[j + 1]) == 0
    {
      CountInEmptyRange(x, e[j], e[j + 1]);
    }
  }

  /** In a non-empty bin the mean lies between the smallest and the largest
      y of that bin, and the variance is not negative. */
  lemma MeanWithinBin(x: seq<real>, y: seq<real>, n: nat, j: nat)
    requires |x| == |y| > 0 && n > 0 && j < n
    requires Aggregate(x, y, n).counts[j] > 0
    ensures var e := AggregateEdges(x, n);
            var inBin := Select(x, y, e[j], e[j + 1]);
            |inBin| > 0 &&
            Aggregate(x, y, n).means[j] == Some(Mean(inBin)) &&
            Min(inBin) <= Mean(inBin) <= Max(inBin)
    ensures Aggregate(x, y, n).spreads[j].Some? && Aggregate(x, y, n).spreads[j].value >= 0.0
  {
    var e := AggregateEdges(x, n);
    MeanBetweenMinAndMax(Select(x, y, e[j], e[j + 1]));
  }

  /** When x spans a range, the bin centres strictly increase and lie
      strictly between min(x) and max(x). */
  lemma CentersSpanRange(x: seq<real>, y: seq<real>, n: nat)
    requires |x| == |y| > 0 && n > 0 && Min(x) < Max(x)
    ensures StrictlyIncreasing(Aggregate(x, y, n).centers)
    ensures forall j :: 0 <= j < n ==> Min(x) < Aggregate(x, y, n).centers[j] < Max(x)
  {
    var e := AggregateEdges(x, n);
    EdgesStrictlyIncreasing(Min(x), Max(x), n);
    CentersInsideBins(e);
    forall j | 0 <= j < n
      ensures Min(x) < Aggregate(x, y, n).centers[j] < Max(x)
    {
      assert e[0] <= e[j] && e[j + 1] <= e[n];
    }
  }

  /** The statistics of the two example bins: {10, 20} and {30, 40}. */
  lemma ExampleBinStatistics()
    ensures Mean([10.0, 20.0]) == 15.0 && Variance([10.0, 20.0]) == 25.0
    ensures Mean([30.0, 40.0]) == 35.0 && Variance([30.0, 40.0]) == 25.0
  {
    assert Sum([20.0]) == 20.0;
    assert Sum([10.0, 20.0]) == 30.0;
    assert Sum([40.0]) == 40.0;
    assert Sum([30.0, 40.0]) == 70.0;
    assert SquaredDeviations([10.0, 20.0], 15.0) == 50.0 by {
      assert SquaredDeviations([20.0], 15.0) == 25.0;
    }
    assert SquaredDeviations([30.0, 40.0], 35.0) == 50.0 by {
      assert SquaredDeviations([40.0], 35.0) == 25.0;
    }
  }

  /** The centres of the example edges 1, 2, 3. */
  lemma ExampleCenters()
    ensures Centers([1.0, 2.0, 3.0]) == [1.5, 2.5]
  {
    var e := [1.0, 2.0, 3.0];
    var c := Centers(e);
    assert c[0] == 0.5 * (e[1] + e[0]) == 1.5;
    assert c[1] == 0.5 * (e[2] + e[1]) == 2.5;
  }

  /** The range of the example x is [1, 3]. */
  lemma ExampleRange()
    ensures Min([1.0, 1.0, 2.0, 2.0, 3.0]) == 1.0 && Max([1.0, 1.0, 2.0, 2.0, 3.0]) == 3.0
  {
    var x := [1.0, 1.0, 2.0, 2.0, 3.0];
    assert Min(x[4..]) == 3.0 && Min(x[3..]) == 2.0 && Min(x[2..]) == 2.0 && Min(x[1..]) == 1.0;
    assert Max(x[4..]) == 3.0 && Max(x[3..]) == 3.0 && Max(x[2..]) == 3.0 && Max(x[1..]) == 3.0;
  }

  /** The y values of the example's first bin, [1, 2). */
  lemma ExampleFirstBin()
    ensures Select([1.0, 1.0, 2.0, 2.0, 3.0], [10.0, 20.0, 30.0, 40.0, 50.0], 1.0, 2.0) == [10.0, 20.0]
  {
    var x, y := [1.0, 1.0, 2.0, 2.0, 3.0], [10.0, 20.0, 30.0, 40.0, 50.0];
    assert Select(x[2..], y[2..], 1.0, 2.0) == [];
  }

  /** The y values of the example's second bin, [2, 3): the point at 3 is
      not among them. */
  lemma ExampleSecondBin()
    ensures Select([1.0, 1.0, 2.0, 2.0, 3.0], [10.0, 20.0, 30.0, 40.0, 50.0], 2.0, 3.0) == [30.0, 40.0]
  {
    var x, y := [1.0, 1.0, 2.0, 2.0, 3.0], [10.0, 20.0, 30.0, 40.0, 50.0];
    assert Select(x[4..], y[4..], 2.0, 3.0) == [];
    assert Select(x[2..], y[2..], 2.0, 3.0) == [30.0, 40.0];
  }

  /** The edges of the example, 1, 2 and 3. */
  lemma ExampleEdges()
    ensures Edges(1.0, 3.0, 2) == [1.0, 2.0, 3.0]
  {
    var e := Edges(1.0, 3.0, 2);
    EdgesEvenlySpaced(1.0, 3.0, 2, 0);
    assert e[1] == 2.0;
  }

  /** Bin j of an aggregate, in terms of the y values selected for it. */
  lemma AggregateBin(x: seq<real>, y: seq<real>, n: nat, j: nat)
    requires |x| == |y| > 0 && n > 0 && j < n
    ensures var e := Edges(Min(x), Max(x), n);
            var inBin := Select(x, y, e[j], e[j + 1]);
            && Aggregate(x, y, n).counts[j] == |inBin|
            && Aggregate(x, y, n).means[j] == (if |inBin| == 0 then None else Some(Mean(inBin)))
            && Aggregate(x, y, n).spreads[j] == (if |inBin| == 0 then None else Some(Variance(inBin)))
  {
  }

  /** Two bins over [1, 3] whose y values are {10, 20} and {30, 40}. */
  lemma TwoBinsOverOneToThree(x: seq<real>, y: seq<real>)
    requires |x| == |y| > 0 && Min(x) == 1.0 && Max(x) == 3.0
    requires Select(x, y, 1.0, 2.0) == [10.0, 20.0] && Select(x, y, 2.0, 3.0) == [30.0, 40.0]
    ensures Aggregate(x, y, 2) == BinnedData([1.5, 2.5], [Some(15.0), Some(35.0)],
                                             [Some(25.0), Some(25.0)], [2, 2])
  {
    ExampleEdges();
    ExampleCenters();
    ExampleBinStatistics();
    AggregateBin(x, y, 2, 0);
    AggregateBin(x, y, 2, 1);
    var r := Aggregate(x, y, 2);
    assert r.counts == [2, 2];
    assert r.means == [Some(15.0), Some(35.0)];
    assert r.spreads == [Some(25.0), Some(25.0)];
  }

  /** The worked example x = [1, 1, 2, 2, 3], y = [10, 20, 30, 40, 50] in two
      bins: edges 1, 2, 3; the first bin holds 10 and 20, the second holds
      only 30 and 40, because the point at x = 3 is in no bin. */
  lemma TwoBinExample()
    ensures Aggregate([1.0, 1.0, 2.0, 2.0, 3.0], [10.0, 20.0, 30.0, 40.0, 50.0], 2)
         == BinnedData([1.5, 2.5], [Some(15.0), Some(35.0)], [Some(25.0), Some(25.0)], [2, 2])
  {
    ExampleRange();
    ExampleFirstBin();
    ExampleSecondBin();
    TwoBinsOverOneToThree([1.0, 1.0, 2.0, 2.0, 3.0], [10.0, 20.0, 30.0, 40.0, 50.0]);
  }

  // ---------------------------------------------------------------------
  // One binned relation across snapshots.

  /** The (x, y) pairs that reach the binning step. */
  datatype Points = Points(x: seq<real>, y: seq<real>)

  /** Some galaxy has both masses positive. */
  predicate HasData(xMass: seq<real>, yMass: seq<real>)
    requires |xMass| == |yMass|
  {
    exists i :: 0 <= i < |xMass| && xMass[i] > 0.0 && yMass[i] > 0.0
  }

  /** The mask `(xMass > 0) & (yMass > 0)`, one entry per galaxy. */
  function BothPositive(xMass: seq<real>, yMass: seq<real>): (mask: seq<bool>)
    requires |xMass| == |yMass|
    ensures |mask| == |xMass|
    ensures forall i :: 0 <= i < |xMass| ==> (mask[i] <==> xMass[i] > 0.0 && yMass[i] > 0.0)
  {
    seq(|xMass|, i requires 0 <= i < |xMass| => xMass[i] > 0.0 && yMass[i] > 0.0)
  }

  /** `np.where((xMass > 0) & (yMass > 0))` followed by the logarithm of both
      masses: one pair per galaxy whose two masses are positive, in galaxy
      order (see LogPairsAtPositions). There is at least one pair exactly
      when some galaxy has both masses positive. `log10` stands for numpy's
      logarithm. */
  function LogPairs(xMass: seq<real>, yMass: seq<real>, log10: real -> real): (p: Points)
    requires |xMass| == |yMass|
    ensures |p.x| == |p.y|
    ensures |p.x| > 0 <==> HasData(xMass, yMass)
  {
    if xMass == [] then Points([], [])
    else
      var rest := LogPairs(xMass[1..], yMass[1..], log10);
      assert HasData(xMass[1..], yMass[1..]) ==> HasData(xMass, yMass) by {
        if HasData(xMass[1..], yMass[1..]) {
          var i :| 0 <= i < |xMass[1..]| && xMass[1..][i] > 0.0 && yMass[1..][i] > 0.0;
          assert xMass[i + 1] > 0.0 && yMass[i + 1] > 0.0;
        }
      }
      assert HasData(xMass, yMass) && !(xMass[0] > 0.0 && yMass[0] > 0.0) ==> HasData(xMass[1..], yMass[1..]) by {
        if HasData(xMass, yMass) && !(xMass[0] > 0.0 && yMass[0] > 0.0) {
          var i :| 0 <= i < |xMass| && xMass[i] > 0.0 && yMass[i] > 0.0;
          assert xMass[1..][i - 1] > 0.0 && yMass[1..][i - 1] > 0.0;
        }
      }
      if xMass[0] > 0.0 && yMass[0] > 0.0
      then Points([log10(xMass[0])] + rest.x, [log10(yMass[0])] + rest.y)
      else rest
  }

  /** The pairs are `np.log10(xMass[w])` and `np.log10(yMass[w])` for
      `w = np.where((xMass > 0) & (yMass > 0))`: pair k holds the logs of
      the two masses of the k-th galaxy whose masses are both positive. */
  lemma {:induction false} LogPairsAtPositions(xMass: seq<real>, yMass: seq<real>, log10: real -> real)
    requires |xMass| == |yMass|
    ensures var w, p := Where(BothPositive(xMass, yMass)), LogPairs(xMass, yMass, log10);
            p.x == Log10All(Pick(xMass, w), log10) && p.y == Log10All(Pick(yMass, w), log10)
  {
    if xMass != [] {
      var xs, ys := xMass[1..], yMass[1..];
      var b := xMass[0] > 0.0 && yMass[0] > 0.0;
      LogPairsAtPositions(xs, ys, log10);
      BothPositiveCons(xMass, yMass);
      LogsOfPicks(xMass, b, BothPositive(xs, ys), log10);
      LogsOfPicks(yMass, b, BothPositive(xs, ys), log10);
    }
  }

  /** The mask of two mass fields is the first galaxy's test followed by
      the mask of the rest. */
  lemma BothPositiveCons(xMass: seq<real>, yMass: seq<real>)
    requires |xMass| == |yMass| > 0
    ensures BothPositive(xMass, yMass)
         == [xMass[0] > 0.0 && yMass[0] > 0.0] + BothPositive(xMass[1..], yMass[1..])
  {
  }

  /** Per-snapshot mass fields, indexed by snapshot number, with matching
      galaxy counts, and a list of snapshots that are all read. */
  predicate PanelInputs(xMass: seq<seq<real>>, yMass: seq<seq<real>>, snaps: seq<nat>)
  {
    && |xMass| == |yMass|
    && (forall s :: 0 <= s < |xMass| ==> |xMass[s]| == |yMass[s]|)
    && (forall i :: 0 <= i < |snaps| ==> snaps[i] < |xMass|)
  }

  /** For each listed snapshot, whether it has a galaxy whose two masses
      are positive. */
  function DataMask(xMass: seq<seq<real>>, yMass: seq<seq<real>>, snaps: seq<nat>): (mask: seq<bool>)
    requires PanelInputs(xMass, yMass, snaps)
    ensures |mask| == |snaps|
    ensures forall i :: 0 <= i < |snaps| ==> (mask[i] <==> HasData(xMass[snaps[i]], yMass[snaps[i]]))
  {
    seq(|snaps|, i requires 0 <= i < |snaps| => HasData(xMass[snaps[i]], yMass[snaps[i]]))
  }

  /** The listed snapshots the loop does not skip, in list order: those
      with a galaxy whose two masses are positive (see
      DataSnapsPicksMask). */
  function DataSnaps(xMass: seq<seq<real>>, yMass: seq<seq<real>>, snaps: seq<nat>): (ds: seq<nat>)
    requires PanelInputs(xMass, yMass, snaps)
    ensures |ds| <= |snaps|
    ensures forall k :: 0 <= k < |ds| ==> ds[k] < |xMass| && HasData(xMass[ds[k]], yMass[ds[k]])
  {
    if snaps == [] then []
    else
      var init := DataSnaps(xMass, yMass, snaps[..|snaps| - 1]);
      var last := snaps[|snaps| - 1];
      if HasData(xMass[last], yMass[last]) then init + [last] else init
  }

  /** The snapshots kept are the listed ones at the positions `np.where`
      would give for the has-data mask. */
  lemma {:induction false} DataSnapsPicksMask(xMass: seq<seq<real>>, yMass: seq<seq<real>>, snaps: seq<nat>)
    requires PanelInputs(xMass, yMass, snaps)
    ensures DataSnaps(xMass, yMass, snaps) == Pick(snaps, Where(DataMask(xMass, yMass, snaps)))
  {
    if snaps != [] {
      var init := snaps[..|snaps| - 1];
      DataSnapsPicksMask(xMass, yMass, init);
      var m, m' := DataMask(xMass, yMass, snaps), DataMask(xMass, yMass, init);
      assert m[..|snaps| - 1] == m';
      var w, w' := Where(m), Where(m');
      var lhs, rhs := DataSnaps(xMass, yMass, snaps), Pick(snaps, w);
      assert |lhs| == |rhs|;
      forall k | 0 <= k < |lhs|
        ensures lhs[k] == rhs[k]
      {
        if k < |w'| {
          assert w[k] == w'[k] && snaps[w'[k]] == init[w'[k]];
        }
      }
    }
  }

  /** The aggregate of one snapshot that has data. */
  function SnapAggregate(xMass: seq<seq<real>>, yMass: seq<seq<real>>, s: nat,
                         log10: real -> real, n: nat): (r: BinnedData)
    requires s < |xMass| == |yMass| && |xMass[s]| == |yMass[s]| && n > 0
    requires HasData(xMass[s], yMass[s])
    ensures |r.centers| == n && |r.means| == n && |r.spreads| == n && |r.counts| == n
  {
    var p := LogPairs(xMass[s], yMass[s], log10);
    Aggregate(p.x, p.y, n)
  }

  /** `binned_data` after the loop over the listed snapshots: a snapshot with
      no galaxy whose two masses are positive is skipped, every other one
      adds its aggregate. Entry k is the aggregate of the k-th listed
      snapshot that has data. */
  function Panel(xMass: seq<seq<real>>, yMass: seq<seq<real>>, snaps: seq<nat>,
                 log10: real -> real, n: nat): (binned: seq<BinnedData>)
    requires PanelInputs(xMass, yMass, snaps) && n > 0
    ensures var ds := DataSnaps(xMass, yMass, snaps);
            && |binned| == |ds|
            && forall k :: 0 <= k < |ds| ==> binned[k] == SnapAggregate(xMass, yMass, ds[k], log10, n)
  {
    if snaps == [] then []
    else
      var init := Panel(xMass, yMass, snaps[..|snaps| - 1], log10, n);
      var last := snaps[|snaps| - 1];
      var p := LogPairs(xMass[last], yMass[last], log10);
      if |p.x| == 0 then init else init + [SnapAggregate(xMass, yMass, last, log10, n)]
  }

  /** One more listed snapshot adds its aggregate to the panel when it has
      data, and nothing otherwise. */
  lemma PanelStep(xMass: seq<seq<real>>, yMass: seq<seq<real>>, snaps: seq<nat>,
                  log10: real -> real, n: nat, i: nat)
    requires PanelInputs(xMass, yMass, snaps) && n > 0 && i < |snaps|
    ensures var s, before := snaps[i], Panel(xMass, yMass, snaps[..i], log10, n);
            Panel(xMass, yMass, snaps[..i + 1], log10, n)
              == if HasData(xMass[s], yMass[s])
                 then before + [SnapAggregate(xMass, yMass, s, log10, n)]
                 else before
  {
    assert snaps[..i + 1][..i] == snaps[..i];
  }

  /** The script's loop over the listed snapshots, appending one aggregate
      per snapshot that has data. */
  method BinnedPanel(xMass: seq<seq<real>>, yMass: seq<seq<real>>, snaps: seq<nat>,
                     log10: real -> real, n: nat) returns (binned: seq<BinnedData>)
    requires PanelInputs(xMass, yMass, snaps) && n > 0
    ensures binned == Panel(xMass, yMass, snaps, log10, n)
  {
    binned := [];
    for i := 0 to |snaps|
      invariant binned == Panel(xMass, yMass, snaps[..i], log10, n)
    {
      PanelStep(xMass, yMass, snaps, log10, n, i);
      var snap := snaps[i];
      var p := LogPairs(xMass[snap], yMass[snap], log10);
      if |p.x| == 0 {
        continue;
      }
      var stats := BinStatistics(p.x, p.y, n);
      binned := binned + [stats];
    }
    assert snaps[..|snaps|] == snaps;
  }
}
