/** The run's fixed configuration (simulation constants, snapshot lists,
    binning ranges) and the two conversions applied when galaxy properties
    are read: internal mass units to solar masses, and the comoving volume
    that every density divides by. */
module Config {

  /** Hubble parameter of the simulation. */
  const HubbleH: real := 0.73
  /** Side of the simulation box, in Mpc/h. */
  const BoxSize: real := 62.5
  /** Fraction of the full volume written out by the model. */
  const VolumeFraction: real := 1.0

  const FirstSnap: nat := 0
  const LastSnap: nat := 63

  /** Redshift of each snapshot, indexed by snapshot number. */
  const Redshifts: seq<real> := [
    127.000, 79.998, 50.000, 30.000, 19.916, 18.244, 16.725, 15.343, 14.086, 12.941, 11.897, 10.944, 10.073,
    9.278, 8.550, 7.883, 7.272, 6.712, 6.197, 5.724, 5.289, 4.888, 4.520, 4.179, 3.866, 3.576, 3.308, 3.060,
    2.831, 2.619, 2.422, 2.239, 2.070, 1.913, 1.766, 1.630, 1.504, 1.386, 1.276, 1.173, 1.078, 0.989, 0.905,
    0.828, 0.755, 0.687, 0.624, 0.564, 0.509, 0.457, 0.408, 0.362, 0.320, 0.280, 0.242, 0.208, 0.175, 0.144,
    0.116, 0.089, 0.064, 0.041, 0.020, 0.000]

  /** Snapshots whose stellar mass functions (and binned relations) are tabulated. */
  const SMFSnaps: seq<nat> := [63, 40, 32, 27, 23, 20, 18, 16]
  /** Snapshots whose black-hole mass functions are tabulated. */
  const BHMFSnaps: seq<nat> := [63, 40, 32, 27, 23, 20, 18, 16]

  /** Mass fields are stored in units of 1e10 Msun/h. */
  const MassUnit: real := 1.0e10

  /** A stored mass converted to solar masses: times 1e10, over h. The
      conversion keeps the sign, so the `> 0` filters that follow select the
      same galaxies before and after it, and it is undone by multiplying
      back by h / 1e10. */
  function ToSolarMasses(m: real, h: real): (r: real)
    requires h > 0.0
    ensures r > 0.0 <==> m > 0.0
    ensures r * h == m * MassUnit
  {
    m * MassUnit / h
  }

  /** A whole mass field of one snapshot, converted galaxy by galaxy. */
  function ConvertMasses(ms: seq<real>, h: real): (r: seq<real>)
    requires h > 0.0
    ensures |r| == |ms|
    ensures forall i :: 0 <= i < |ms| ==> (r[i] > 0.0 <==> ms[i] > 0.0)
    ensures forall i :: 0 <= i < |ms| ==> r[i] * h == ms[i] * MassUnit
  {
    seq(|ms|, i requires 0 <= i < |ms| => ToSolarMasses(ms[i], h))
  }

  /** Comoving volume in Mpc^3: the box side in Mpc (BoxSize / h) cubed,
      times the fraction of the volume written out. */
  function Volume(boxSize: real, h: real, fraction: real): (v: real)
    requires h > 0.0
    ensures boxSize > 0.0 && fraction > 0.0 ==> v > 0.0
    ensures v * (h * h * h) == boxSize * boxSize * boxSize * fraction
  {
    var side := boxSize / h;
    side * side * side * fraction
  }

  /** The configured snapshot lists and the redshift table agree with the
      snapshot range that is read, and the configured volume is positive. */
  lemma ConfigurationConsistent()
    ensures |Redshifts| == LastSnap - FirstSnap + 1
    ensures forall i :: 0 <= i < |SMFSnaps| ==> FirstSnap <= SMFSnaps[i] <= LastSnap
    ensures forall i :: 0 <= i < |BHMFSnaps| ==> FirstSnap <= BHMFSnaps[i] <= LastSnap
    ensures Volume(BoxSize, HubbleH, VolumeFraction) > 0.0
  {
  }
}
