/** The two cosmic histories: the star-formation-rate density and the
    stellar-mass density of every snapshot, each a sum over the snapshot's
    galaxies divided by the comoving volume, and the snapshots with a
    positive density that the log-scale curves are drawn through. */
module History {
  import opened Numerics

  /** Galaxies' stellar masses count towards the stellar-mass density when
      they lie strictly between 1e8 and 1e13 solar masses. */
  const WindowLo: real := 1.0e8
  const WindowHi: real := 1.0e13

  /** `a + b` on two numpy arrays of the same length: the galaxy-by-galaxy
      sum of disk and bulge star formation rates. */
  function AddElementwise(a: seq<real>, b: seq<real>): (c: seq<real>)
    requires |a| == |b|
    ensures |c| == |a|
  {
    seq(|a|, i requires 0 <= i < |a| => a[i] + b[i])
  }

  /** Summing the galaxy-by-galaxy totals is summing each part and adding. */
  lemma {:induction false} SumOfElementwise(a: seq<real>, b: seq<real>)
    requires |a| == |b|
    ensures Sum(AddElementwise(a, b)) == Sum(a) + Sum(b)
  {
    if a != [] {
      SumOfElementwise(a[1..], b[1..]);
      assert AddElementwise(a, b)[1..] == AddElementwise(a[1..], b[1..]);
    }
  }

  /** A sum of non-negative values is non-negative; if one of them is
      positive, so is the sum. */
  lemma {:induction false} SumOfNonNegative(s: seq<real>)
    requires forall i :: 0 <= i < |s| ==> s[i] >= 0.0
    ensures Sum(s) >= 0.0
    ensures (exists i :: 0 <= i < |s| && s[i] > 0.0) ==> Sum(s) > 0.0
  {
    if s != [] {
      SumOfNonNegative(s[1..]);
      if exists i :: 0 <= i < |s| && s[i] > 0.0 {
        var i :| 0 <= i < |s| && s[i] > 0.0;
        if i > 0 {
          assert s[1..][i - 1] > 0.0;
        }
      }
    }
  }

  /** Disk and bulge star formation rates of every snapshot, galaxy by
      galaxy, indexed by snapshot number. */
  predicate SfrInputs(disk: seq<seq<real>>, bulge: seq<seq<real>>)
  {
    |disk| == |bulge| && forall s :: 0 <= s < |disk| ==> |disk[s]| == |bulge[s]|
  }

  /** One snapshot's star-formation-rate density: the total rate of its
      galaxies, disk and bulge, per unit volume. Multiplied back by the
      volume it is the sum of both rates; where no rate is negative it is
      positive exactly when some galaxy forms stars. */
  function SfrDensity(disk: seq<real>, bulge: seq<real>, volume: real): (r: real)
    requires |disk| == |bulge| && volume > 0.0
    ensures r * volume == Sum(disk) + Sum(bulge)
    ensures NonNegativeRates(disk, bulge) ==>
              (r > 0.0 <==> exists i :: 0 <= i < |disk| && disk[i] + bulge[i] > 0.0)
  {
    var total := AddElementwise(disk, bulge);
    SumOfElementwise(disk, bulge);
    ScaledSign(Sum(total), volume, Sum(total) / volume);
    TotalRatePositive(disk, bulge);
    Sum(total) / volume
  }

  /** Where no rate is negative, the total rate is positive exactly when
      some galaxy forms stars. */
  lemma TotalRatePositive(disk: seq<real>, bulge: seq<real>)
    requires |disk| == |bulge|
    ensures NonNegativeRates(disk, bulge) ==>
              (Sum(AddElementwise(disk, bulge)) > 0.0 <==> exists i :: 0 <= i < |disk| && disk[i] + bulge[i] > 0.0)
  {
    var total := AddElementwise(disk, bulge);
    if NonNegativeRates(disk, bulge) {
      SumOfNonNegative(total);
      if exists i :: 0 <= i < |disk| && disk[i] + bulge[i] > 0.0 {
        var i :| 0 <= i < |disk| && disk[i] + bulge[i] > 0.0;
        assert total[i] > 0.0;
      } else {
        assert forall i :: 0 <= i < |total| ==> total[i] == 0.0;
        AllZeroSum(total);
      }
    }
  }

  /** A sum of zeros is zero. */
  lemma {:induction false} AllZeroSum(s: seq<real>)
    requires forall i :: 0 <= i < |s| ==> s[i] == 0.0
    ensures Sum(s) == 0.0
  {
    if s != [] {
      AllZeroSum(s[1..]);
    }
  }

  /** The script's loop filling `SFR_density`, a zeroed array with one entry
      per snapshot. */
  method SfrDensityHistory(disk: seq<seq<real>>, bulge: seq<seq<real>>, volume: real)
    returns (density: seq<real>)
    requires SfrInputs(disk, bulge) && volume > 0.0
    ensures |density| == |disk|
    ensures forall s :: 0 <= s < |disk| ==> density[s] == SfrDensity(disk[s], bulge[s], volume)
  {
    var d := new real[|disk|](_ => 0.0);
    for s := 0 to |disk|
      invariant forall t :: 0 <= t < s ==> d[t] == SfrDensity(disk[t], bulge[t], volume)
    {
      d[s] := Sum(AddElementwise(disk[s], bulge[s])) / volume;
    }
    density := d[..];
  }

  /** No galaxy has a negative disk or bulge star formation rate. */
  predicate NonNegativeRates(disk: seq<real>, bulge: seq<real>)
    requires |disk| == |bulge|
  {
    forall i :: 0 <= i < |disk| ==> disk[i] >= 0.0 && bulge[i] >= 0.0
  }

  /** Dividing by a positive volume: multiplying back gives the total, and
      the sign is kept. */
  lemma ScaledSign(total: real, volume: real, density: real)
    requires volume > 0.0 && density == total / volume
    ensures density * volume == total
    ensures density > 0.0 <==> total > 0.0
  {
  }

  /** A stellar mass counted by the stellar-mass density. */
  predicate InWindow(m: real)
  {
    WindowLo < m < WindowHi
  }

  /** The mask `(mass > 1e8) & (mass < 1e13)`, one entry per galaxy. */
  function WindowMask(ms: seq<real>): (mask: seq<bool>)
    ensures |mask| == |ms| && forall i :: 0 <= i < |ms| ==> (mask[i] <==> InWindow(ms[i]))
  {
    seq(|ms|, i requires 0 <= i < |ms| => InWindow(ms[i]))
  }

  /** `mass[np.where((mass > 1e8) & (mass < 1e13))]`: the masses inside
      the window, in galaxy order (see WindowPicksMask). */
  function Window(ms: seq<real>): (w: seq<real>)
    ensures |w| <= |ms|
    ensures forall k :: 0 <= k < |w| ==> InWindow(w[k])
  {
    if ms == [] then []
    else
      var rest := Window(ms[1..]);
      if InWindow(ms[0]) then [ms[0]] + rest else rest
  }

  /** Every mass inside the window is kept, and every kept mass is one of
      the galaxies' masses. */
  lemma {:induction false} WindowMembers(ms: seq<real>)
    ensures forall i :: 0 <= i < |ms| && InWindow(ms[i]) ==> ms[i] in Window(ms)
    ensures forall k :: 0 <= k < |Window(ms)| ==> Window(ms)[k] in ms
  {
    if ms != [] {
      WindowMembers(ms[1..]);
      assert forall i :: 1 <= i < |ms| ==> ms[i] == ms[1..][i - 1];
    }
  }

  /** The window keeps exactly the masses at the positions `np.where` gives
      for the window's mask, in galaxy order and each as often as it
      occurs. */
  lemma {:induction false} WindowPicksMask(ms: seq<real>)
    ensures Window(ms) == Pick(ms, Where(WindowMask(ms)))
  {
    if ms != [] {
      WindowPicksMask(ms[1..]);
      assert WindowMask(ms) == [InWindow(ms[0])] + WindowMask(ms[1..]);
      PickWhereCons(ms, InWindow(ms[0]), WindowMask(ms[1..]));
    }
  }

  /** One snapshot's stellar-mass density: where some galaxy lies in the
      mass window, the total mass of those galaxies per unit volume, and 0
      where none does. Multiplied back by the volume it is the window's
      total; it is positive exactly when some galaxy lies in the window. */
  function MassDensity(ms: seq<real>, volume: real): (r: real)
    requires volume > 0.0
    ensures r * volume == Sum(Window(ms))
    ensures r > 0.0 <==> exists i :: 0 <= i < |ms| && InWindow(ms[i])
  {
    var w := Window(ms);
    WindowSum(ms);
    var r := if |w| > 0 then Sum(w) / volume else 0.0;
    GuardedDensity(Sum(w), |w| > 0, volume, r);
    r
  }

  /** A total that is positive exactly when there is something to count,
      and 0 when there is nothing, divided by a positive volume when there
      is something and 0 otherwise: multiplied back it is the total, and it
      is positive exactly when there is something. */
  lemma GuardedDensity(total: real, any: bool, volume: real, r: real)
    requires volume > 0.0 && (total > 0.0 <==> any) && (!any ==> total == 0.0)
    requires r == if any then total / volume else 0.0
    ensures r * volume == total
    ensures r > 0.0 <==> any
  {
    if any {
      ScaledSign(total, volume, r);
    }
  }

  /** The script's loop filling `smd`, a zeroed array with one entry per
      snapshot, of which the snapshots without a galaxy in the window keep
      their 0. */
  method StellarMassDensityHistory(mass: seq<seq<real>>, volume: real) returns (smd: seq<real>)
    requires volume > 0.0
    ensures |smd| == |mass|
    ensures forall s :: 0 <= s < |mass| ==> smd[s] == MassDensity(mass[s], volume)
  {
    var d := new real[|mass|](_ => 0.0);
    for s := 0 to |mass|
      invariant forall t :: s <= t < |mass| ==> d[t] == 0.0
      invariant forall t :: 0 <= t < s ==> d[t] == MassDensity(mass[t], volume)
    {
      var w := Window(mass[s]);
      if |w| > 0 {
        d[s] := Sum(w) / volume;
      }
    }
    smd := d[..];
  }

  /** The window's total is positive exactly when some galaxy lies in the
      window, and 0 when none does. */
  lemma WindowSum(ms: seq<real>)
    ensures Sum(Window(ms)) > 0.0 <==> exists i :: 0 <= i < |ms| && InWindow(ms[i])
    ensures |Window(ms)| > 0 <==> exists i :: 0 <= i < |ms| && InWindow(ms[i])
    ensures |Window(ms)| == 0 ==> Sum(Window(ms)) == 0.0
  {
    var w := Window(ms);
    WindowMembers(ms);
    SumOfNonNegative(w);
    if exists i :: 0 <= i < |ms| && InWindow(ms[i]) {
      var i :| 0 <= i < |ms| && InWindow(ms[i]);
      assert ms[i] in w;
    }
    if |w| > 0 {
      assert InWindow(w[0]);
      assert w[0] in ms;
    }
  }

  /** `np.where(d > 0.0)[0]`: the indices of the positive entries, in
      increasing order. */
  function PositiveIndices(d: seq<real>): (idx: seq<nat>)
    ensures forall k :: 0 <= k < |idx| ==> idx[k] < |d| && d[idx[k]] > 0.0
    ensures forall i :: 0 <= i < |d| && d[i] > 0.0 ==> i in idx
    ensures forall j, k :: 0 <= j < k < |idx| ==> idx[j] < idx[k]
  {
    WhereComplete(Positive(d));
    Where(Positive(d))
  }

  /** The curve drawn for a history: redshift against log density at every
      snapshot with a positive density (`z[nonzero]`, `np.log10(d[nonzero])`),
      the k-th point belonging to the k-th such snapshot. */
  function LogCurve(z: seq<real>, d: seq<real>, log10: real -> real): (pts: seq<(real, real)>)
    requires |z| == |d|
    ensures |pts| == |PositiveIndices(d)|
    ensures forall k :: 0 <= k < |pts| ==>
              pts[k] == (z[PositiveIndices(d)[k]], log10(d[PositiveIndices(d)[k]]))
    ensures forall s :: 0 <= s < |d| && d[s] > 0.0 ==> (z[s], log10(d[s])) in pts
  {
    var idx := PositiveIndices(d);
    var pts := seq(|idx|, k requires 0 <= k < |idx| => (z[idx[k]], log10(d[idx[k]])));
    forall s | 0 <= s < |d| && d[s] > 0.0
      ensures (z[s], log10(d[s])) in pts
    {
      var k :| 0 <= k < |idx| && idx[k] == s;
      assert pts[k] == (z[s], log10(d[s]));
    }
    pts
  }
}
