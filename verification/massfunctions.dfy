/** The mass-function builder: a histogram of log masses over a fixed range
    in bins of 0.1 dex, turned into a number density per unit volume and per
    dex, one (x, y) pair of columns per snapshot. */
module MassFunctions {
  import opened Numerics
  import Binning

  /** Bin width of both mass functions, in dex. */
  const BinWidth: real := 0.1
  /** Range of log stellar mass of the stellar mass function. */
  const StellarMin: real := 7.0
  const StellarMax: real := 15.0
  /** Range of log black-hole mass of the black-hole mass function. */
  const BlackHoleMin: real := 6.0
  const BlackHoleMax: real := 10.0

  /** `int((hi - lo) / binwidth)`: the number of whole bins of width bw that
      fit in [lo, hi]. */
  function NumBins(lo: real, hi: real, bw: real): (nb: nat)
    requires bw > 0.0 && lo <= hi
    ensures (nb as real) * bw <= hi - lo < ((nb + 1) as real) * bw
  {
    var q := (hi - lo) / bw;
    assert q * bw == hi - lo;
    var nb := q.Floor;
    assert (nb as real) <= q < ((nb + 1) as real);
    assert (q - (nb as real)) * bw >= 0.0;
    assert (((nb + 1) as real) - q) * bw > 0.0;
    nb
  }

  /** A range at least one bin wide holds at least one bin. */
  lemma AtLeastOneBin(lo: real, hi: real, bw: real)
    requires bw > 0.0 && lo + bw <= hi
    ensures NumBins(lo, hi, bw) >= 1
  {
    var nb := NumBins(lo, hi, bw);
    assert ((nb + 1) as real) * bw > bw;
    assert (nb as real) * bw > 0.0;
  }

  /** `np.histogram(vals, range=(lo, hi), bins=nb)`: nb equal bins from lo to
      hi, each half-open [left, right) except the last, which is closed and
      so also counts the values equal to hi; values outside [lo, hi] are not
      counted. */
  function Histogram(vals: seq<real>, lo: real, hi: real, nb: nat): (c: seq<nat>)
    requires lo < hi && nb > 0
    ensures |c| == nb
  {
    var e := Binning.Edges(lo, hi, nb);
    seq(nb, k requires 0 <= k < nb =>
      if k < nb - 1 then CountIn(vals, e[k], e[k + 1]) else CountClosed(vals, e[k], e[k + 1]))
  }

  /** The histogram counts a value equal to the upper end in its last bin
      and the binned statistics do not: over [1, 3] in two bins, the
      histogram puts 1 in the first bin and 2 and 3 in the second, while the
      binned statistics of the same values put 1 in the first bin, 2 in the
      second and 3 in neither. */
  lemma HistogramClosesLastBin(vals: seq<real>, y: seq<real>)
    requires vals == [1.0, 2.0, 3.0] && |y| == 3
    ensures Histogram(vals, 1.0, 3.0, 2) == [1, 2]
    ensures Binning.Aggregate(vals, y, 2).counts == [1, 1]
  {
    Binning.ExampleEdges();
    assert vals[1..] == [2.0, 3.0] && vals[1..][1..] == [3.0];
    assert Histogram(vals, 1.0, 3.0, 2) == [1, 2] by {
      assert CountIn([3.0], 1.0, 2.0) == 0 && CountClosed([3.0], 2.0, 3.0) == 1;
      assert CountIn([2.0, 3.0], 1.0, 2.0) == 0 && CountClosed([2.0, 3.0], 2.0, 3.0) == 2;
    }
    assert Binning.Aggregate(vals, y, 2).counts == [1, 1] by {
      assert Min(vals[1..][1..]) == 3.0 && Min(vals[1..]) == 2.0 && Min(vals) == 1.0;
      assert Max(vals[1..][1..]) == 3.0 && Max(vals[1..]) == 3.0 && Max(vals) == 3.0;
      Binning.AggregateAt(vals, y, 2, 0);
      Binning.AggregateAt(vals, y, 2, 1);
      assert CountIn([3.0], 2.0, 3.0) == 0 && CountIn([2.0, 3.0], 2.0, 3.0) == 1;
      assert CountIn(vals, 1.0, 2.0) == 1 && CountIn(vals, 2.0, 3.0) == 1;
    }
  }

  /** The counts of a histogram add up to the number of values in [lo, hi]. */
  lemma HistogramTotal(vals: seq<real>, lo: real, hi: real, nb: nat)
    requires lo < hi && nb > 0
    ensures SumNat(Histogram(vals, lo, hi, nb)) == CountClosed(vals, lo, hi)
  {
    var c, e := Histogram(vals, lo, hi, nb), Binning.Edges(lo, hi, nb);
    Binning.EdgesNonDecreasing(lo, hi, nb);
    var open := c[..nb - 1];
    forall j | 0 <= j < |open|
      ensures open[j] == CountIn(vals, e[j], e[j + 1])
    {
    }
    PrefixCountsSpan(vals, e[..nb], open, nb - 1);
    assert open[..nb - 1] == open;
    assert c[..nb - 1] == open;
    SplitClosed(vals, lo, e[nb - 1], hi);
  }

  /** One snapshot's mass function: bin positions (left edge plus half a bin
      width) and number densities. */
  datatype MassFunction = MassFunction(x: seq<real>, y: seq<real>)

  /** `counts / volume / bw`: each count turned into a number density per
      unit volume and per unit of log mass. Multiplying back by volume and
      bin width gives the count again; densities are never negative and are
      zero exactly where the count is. */
  function Densities(counts: seq<nat>, volume: real, bw: real): (d: seq<real>)
    requires volume > 0.0 && bw > 0.0
    ensures |d| == |counts|
    ensures forall k :: 0 <= k < |d| ==> d[k] * (volume * bw) == counts[k] as real
    ensures forall k :: 0 <= k < |d| ==> d[k] >= 0.0 && (d[k] == 0.0 <==> counts[k] == 0)
  {
    var d := seq(|counts|, k requires 0 <= k < |counts| => (counts[k] as real) / volume / bw);
    forall k | 0 <= k < |d|
      ensures d[k] * (volume * bw) == counts[k] as real
      ensures d[k] >= 0.0 && (d[k] == 0.0 <==> counts[k] == 0)
    {
      DensityArithmetic(d[k], counts[k] as real, volume, bw);
    }
    d
  }

  /** Dividing a count by a positive volume and bin width: the division is
      undone by multiplying back, keeps the sign and sends only 0 to 0. */
  lemma DensityArithmetic(density: real, count: real, volume: real, bw: real)
    requires count >= 0.0 && volume > 0.0 && bw > 0.0
    requires density == count / volume / bw
    ensures density * (volume * bw) == count
    ensures density >= 0.0
    ensures density == 0.0 <==> count == 0.0
  {
    var perVolume := count / volume;
    assert perVolume * volume == count;
    assert density * bw == perVolume;
    assert density * (volume * bw) == density * bw * volume;
  }

  /** The mass function of a snapshot's log masses: a histogram over [lo, hi]
      in NumBins(lo, hi, bw) bins, positions `binedges[:-1] + 0.5 * bw` and
      densities `counts / volume / bw`. */
  function Build(logMasses: seq<real>, lo: real, hi: real, bw: real, volume: real): (mf: MassFunction)
    requires bw > 0.0 && volume > 0.0 && lo + bw <= hi
    ensures |mf.x| == NumBins(lo, hi, bw) && |mf.y| == NumBins(lo, hi, bw)
  {
    AtLeastOneBin(lo, hi, bw);
    var nb := NumBins(lo, hi, bw);
    var e := Binning.Edges(lo, hi, nb);
    MassFunction(seq(nb, k requires 0 <= k < nb => e[k] + 0.5 * bw),
                 Densities(Histogram(logMasses, lo, hi, nb), volume, bw))
  }

  /** Where the range is a whole number of bins, the k-th position is
      lo + k * bw + bw / 2, the middle of the k-th bin. */
  lemma PositionsAreBinMiddles(logMasses: seq<real>, lo: real, hi: real, bw: real, volume: real, k: nat)
    requires bw > 0.0 && volume > 0.0 && lo + bw <= hi
    requires (NumBins(lo, hi, bw) as real) * bw == hi - lo
    requires k < NumBins(lo, hi, bw)
    ensures Build(logMasses, lo, hi, bw, volume).x[k] == lo + (k as real) * bw + bw / 2.0
  {
    AtLeastOneBin(lo, hi, bw);
    var nb := NumBins(lo, hi, bw);
    Binning.EdgesWholeBins(lo, hi, nb, bw, k);
    assert Build(logMasses, lo, hi, bw, volume).x[k] == Binning.Edges(lo, hi, nb)[k] + 0.5 * bw;
  }

  /** The two configured ranges hold 80 stellar-mass bins and 40 black-hole
      mass bins, and both are whole numbers of bins. */
  lemma ConfiguredBinCounts()
    ensures NumBins(StellarMin, StellarMax, BinWidth) == 80
    ensures NumBins(BlackHoleMin, BlackHoleMax, BinWidth) == 40
    ensures (80 as real) * BinWidth == StellarMax - StellarMin
    ensures (40 as real) * BinWidth == BlackHoleMax - BlackHoleMin
  {
    var q := (StellarMax - StellarMin) / BinWidth;
    assert q == 80.0;
    var p := (BlackHoleMax - BlackHoleMin) / BinWidth;
    assert p == 40.0;
  }

  /** Every counted value is in [lo, hi]; so a snapshot whose log masses
      all lie outside the range, or which has none, gives an all-zero mass
      function of the usual length. */
  lemma EmptyRangeGivesZeros(logMasses: seq<real>, lo: real, hi: real, bw: real, volume: real)
    requires bw > 0.0 && volume > 0.0 && lo + bw <= hi
    requires CountClosed(logMasses, lo, hi) == 0
    ensures forall k :: 0 <= k < NumBins(lo, hi, bw) ==> Build(logMasses, lo, hi, bw, volume).y[k] == 0.0
  {
    AtLeastOneBin(lo, hi, bw);
    var nb := NumBins(lo, hi, bw);
    var c := Histogram(logMasses, lo, hi, nb);
    HistogramTotal(logMasses, lo, hi, nb);
    forall k | 0 <= k < nb
      ensures Build(logMasses, lo, hi, bw, volume).y[k] == 0.0
    {
      SumNatBoundsElement(c, k);
    }
  }

  /** No count exceeds the sum of all counts. */
  lemma {:induction false} SumNatBoundsElement(s: seq<nat>, k: nat)
    requires k < |s|
    ensures s[k] <= SumNat(s)
  {
    if k < |s| - 1 {
      SumNatBoundsElement(s[..|s| - 1], k);
    }
  }

  /** log10 of the positive masses, in galaxy order (`np.where(mass > 0)`
      followed by `np.log10`). */
  function LogPositive(masses: seq<real>, log10: real -> real): (logs: seq<real>)
    ensures |logs| <= |masses|
    ensures (forall i :: 0 <= i < |masses| ==> masses[i] <= 0.0) ==> logs == []
  {
    if masses == [] then []
    else
      var rest := LogPositive(masses[1..], log10);
      if masses[0] > 0.0 then [log10(masses[0])] + rest else rest
  }

  /** `LogPositive` is `np.log10(mass[np.where(mass > 0)])`: log10 of the
      masses at the positions of the positive ones, in galaxy order. */
  lemma {:induction false} LogPositiveAtPositions(masses: seq<real>, log10: real -> real)
    ensures LogPositive(masses, log10) == Log10All(Pick(masses, Where(Positive(masses))), log10)
  {
    if masses != [] {
      var tail := masses[1..];
      LogPositiveAtPositions(tail, log10);
      assert Positive(masses) == [masses[0] > 0.0] + Positive(tail);
      LogsOfPicks(masses, masses[0] > 0.0, Positive(tail), log10);
    }
  }

  /** The script's loop over the listed snapshots, appending one mass
      function per snapshot. */
  method MassFunctionPanel(masses: seq<seq<real>>, snaps: seq<nat>, log10: real -> real,
                           lo: real, hi: real, bw: real, volume: real) returns (data: seq<MassFunction>)
    requires forall i :: 0 <= i < |snaps| ==> snaps[i] < |masses|
    requires bw > 0.0 && volume > 0.0 && lo + bw <= hi
    ensures |data| == |snaps|
    ensures forall k :: 0 <= k < |snaps| ==>
              data[k] == Build(LogPositive(masses[snaps[k]], log10), lo, hi, bw, volume)
    ensures forall k :: 0 <= k < |snaps| ==>
              |data[k].x| == NumBins(lo, hi, bw) && |data[k].y| == NumBins(lo, hi, bw)
  {
    ghost var spec := seq(|snaps|, k requires 0 <= k < |snaps| =>
                            Build(LogPositive(masses[snaps[k]], log10), lo, hi, bw, volume));
    data := [];
    for i := 0 to |snaps|
      invariant data == spec[..i]
    {
      var mass := LogPositive(masses[snaps[i]], log10);
      var mf := Build(mass, lo, hi, bw, volume);
      data := data + [mf];
    }
    assert data == spec;
  }
}
