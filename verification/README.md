# Numerical core of the SAGE history plots

The SAGE semi-analytic galaxy model ships a plotting script,
`allresults-history.py`. It reads galaxy properties for every snapshot of a
run, plots how they evolve with redshift and writes some results out as
tab-separated tables. This project models the arithmetic inside that script.
It does not model the plots themselves.

- **Conversions.** Stored masses are turned into solar masses
  (`* 1e10 / Hubble_h`). The comoving volume is
  `(BoxSize / Hubble_h)^3 * VolumeFraction`. Both are in module `Config`,
  together with the run's constants and snapshot lists.
- **Binned relations.** Two relations are binned for each listed snapshot:
  stellar mass against halo mass, and black-hole mass against bulge mass.
  - Only galaxies whose two masses are both positive are kept, and both
    masses are put on a log scale.
  - The x range `[min(x), max(x)]` is cut into 50 equal bins.
  - Each bin records its centre, the mean and spread of y, and its point
    count. An empty bin has a missing mean and spread.
  - A snapshot with no usable galaxy adds nothing.
  - These are in module `Binning`, on the reductions of module `Numerics`.
- **Mass functions.** The stellar and black-hole mass functions are
  histograms of log mass over a fixed range, in bins of 0.1 dex, divided by
  volume and bin width (module `MassFunctions`).
- **Tables.** The tab-separated tables are built row by row (module
  `Tables`). A binned table writes four cells per snapshot, with `NaN` for a
  missing value. A mass-function table writes two cells per snapshot, with
  empty cells past the end of a shorter curve.
- **Histories.** The star-formation-rate density and the stellar-mass
  density of every snapshot, and the snapshots where they are positive,
  which are the ones drawn on a log scale (module `History`).

## The binning rule

The binning loop treats every bin as half-open, `bins[j] <= x < bins[j+1]`,
including the last. The last edge is `max(x)`, so a point at the maximum
falls into no bin, and the counts always add up to fewer than the number
of points.

- The model follows the code.
  `Binning.CountsMissOnlyTheMaximum` states this exactly: the counts add up
  to the number of points below the maximum.
- numpy's histogram closes its last bin; this loop does not.
  `MassFunctions.HistogramClosesLastBin` applies both to the values 1, 2, 3
  over [1, 3] in two bins: the histogram counts 1 and 2, the loop counts 1
  and 1.

## Model

| member | source | states |
|---|---|---|
| Numerics.Min | sage-model/plotting/allresults-history.py:207 | `x_min` is one of the x values and no x value lies below it |
| Numerics.Max | sage-model/plotting/allresults-history.py:207 | `x_max` is one of the x values and no x value lies above it |
| Numerics.CountIn | sage-model/plotting/allresults-history.py:217-218 | `n_points`, the number of x values in `[bins[j], bins[j+1])`, is at most the number of points |
| Numerics.SumAppend | sage-model/plotting/allresults-history.py:1010 | `sum` over values laid end to end is the sum of the parts' totals, so the total does not depend on how galaxies are grouped |
| Numerics.Mean | sage-model/plotting/allresults-history.py:221 | `np.mean` of a non-empty selection: the mean times the number of values is their total |
| Numerics.Where | sage-model/plotting/allresults-history.py:184 | `np.where(mask)[0]`: every index returned is in range and marks a true entry of the mask |
| Numerics.WhereComplete | sage-model/plotting/allresults-history.py:184 | every true entry of the mask is returned, and the indices strictly increase, so each true position appears once and in order |
| Numerics.Pick | sage-model/plotting/allresults-history.py:190-191 | `a[w]`: one value per index, the k-th being `a[w[k]]` |
| Numerics.Log10All | sage-model/plotting/allresults-history.py:190-191 | `np.log10` of an array: one value per entry, the k-th being the log of entry k |
| Numerics.InRange | sage-model/plotting/allresults-history.py:218 | the mask `(x >= bins[j]) & (x < bins[j+1])`: one entry per point, true exactly when x lies in `[lo, hi)` |
| Numerics.Positive | sage-model/plotting/allresults-history.py:689 | the mask `masses > 0`: one entry per galaxy, true exactly when its mass is positive |
| Numerics.Select | sage-model/plotting/allresults-history.py:218-221 | `y[mask]` has exactly `n_points` values, all taken from y |
| Numerics.SelectPicksMask | sage-model/plotting/allresults-history.py:218-221 | `y[mask]` is y at the positions of the true entries of the mask: the k-th selected value is the partner of the k-th x in `[lo, hi)`, in point order |
| Numerics.Variance | sage-model/plotting/allresults-history.py:222 | the population variance that `np.std` takes the root of (dividing by n) is never negative |
| Numerics.MeanBetweenMinAndMax | sage-model/plotting/allresults-history.py:221 | the mean of a non-empty selection lies between its smallest and largest value |
| Config.ToSolarMasses | sage-model/plotting/allresults-history.py:93 | the conversion to solar masses keeps the sign, so `> 0` filters select the same galaxies, and multiplying by h / 1e10 undoes it |
| Config.ConvertMasses | sage-model/plotting/allresults-history.py:93-98 | a snapshot's field is converted galaxy by galaxy: same length, same signs, each value undone by h / 1e10 |
| Config.Volume | sage-model/plotting/allresults-history.py:74 | the volume times h³ is BoxSize³ · VolumeFraction, and it is positive for a positive box and fraction |
| Config.ConfigurationConsistent | sage-model/plotting/allresults-history.py:22-49 | 64 redshifts, one per snapshot read; every listed snapshot is read; the configured volume is positive |
| Binning.Edges | sage-model/plotting/allresults-history.py:208 | `np.linspace(x_min, x_max, n_bins+1)`: n + 1 edges, the first `x_min` and the last `x_max` |
| Binning.EdgesEvenlySpaced | sage-model/plotting/allresults-history.py:208 | neighbouring edges are (max − min) / n apart |
| Binning.EdgesNonDecreasing | sage-model/plotting/allresults-history.py:208 | edges never decrease |
| Binning.EdgesStrictlyIncreasing | sage-model/plotting/allresults-history.py:208 | over a range of positive width, edges strictly increase |
| Binning.EdgesCollapse | sage-model/plotting/allresults-history.py:207-208 | when `x_min == x_max` every edge equals that value |
| Binning.Centers | sage-model/plotting/allresults-history.py:209 | one centre per bin, equally far from the bin's two edges |
| Binning.CentersInsideBins | sage-model/plotting/allresults-history.py:209 | with increasing edges each centre lies strictly inside its bin and the centres increase |
| Binning.BinMean | sage-model/plotting/allresults-history.py:217-225 | a bin's mean is missing (NaN) exactly when no point lies in the bin |
| Binning.BinVariance | sage-model/plotting/allresults-history.py:217-226 | a bin's spread is missing exactly when no point lies in the bin, and is never negative otherwise |
| Binning.BinStats | sage-model/plotting/allresults-history.py:216-227 | a bin's count is the number of x values in `[lo, hi)`, and its mean and spread are missing exactly when that count is 0 |
| Binning.Aggregate | sage-model/plotting/allresults-history.py:207-227 | exactly `n_bins` centres, means, spreads and counts; a count is 0 exactly when the mean and the spread are missing |
| Binning.BinStatistics | sage-model/plotting/allresults-history.py:212-227 | the loop that fills the three zeroed arrays bin by bin produces the aggregate |
| Binning.FillBins | sage-model/plotting/allresults-history.py:212-227 | the loop over `range(n_bins)` leaves in slot j of the three arrays the statistics of the points in `[bins[j], bins[j+1])` |
| Binning.OneBin | sage-model/plotting/allresults-history.py:217-227 | one pass of the loop body computes the statistics of one bin: NaN mean and spread and a zero count for an empty bin |
| Binning.AggregateFromBins | sage-model/plotting/allresults-history.py:207-229 | arrays holding, bin by bin, the statistics over the edges, with the centres of those edges, are exactly the aggregate |
| Binning.AggregateEdges | sage-model/plotting/allresults-history.py:207-208 | the edges run from the smallest to the largest x and never decrease |
| Binning.AggregateBin | sage-model/plotting/allresults-history.py:216-227 | bin j's count is the number of points in `[bins[j], bins[j+1])`; its mean and spread are those of their y values, or missing when there are none |
| Binning.CountsMissOnlyTheMaximum | sage-model/plotting/allresults-history.py:207-218 | the counts add up to the number of points below `x_max`, which is fewer than the number of points; only the points equal to `x_max` are left out |
| Binning.CountsSpanRange | sage-model/plotting/allresults-history.py:207-218 | the bins tile `[x_min, x_max)`: their counts add up to the number of points in that half-open range |
| Binning.MaximumInNoBin | sage-model/plotting/allresults-history.py:208-217 | a point at `x_max` passes no bin's test, the last one included |
| Binning.ConstantXLeavesEveryBinEmpty | sage-model/plotting/allresults-history.py:207-227 | when all x values are equal every bin is empty and every mean is missing |
| Binning.MeanWithinBin | sage-model/plotting/allresults-history.py:217-223 | a non-empty bin's mean lies between the smallest and largest y in it, and its spread is present and non-negative |
| Binning.CentersSpanRange | sage-model/plotting/allresults-history.py:207-209 | over a range of positive width the centres strictly increase and lie strictly between `x_min` and `x_max` |
| Binning.TwoBinExample | sage-model/plotting/allresults-history.py:207-227 | x = [1, 1, 2, 2, 3], y = [10, 20, 30, 40, 50] in two bins gives centres 1.5 and 2.5, means 15 and 35, variances 25 and 25, counts 2 and 2: the point at x = 3 is dropped |
| Binning.BothPositive | sage-model/plotting/allresults-history.py:184 | the mask `(StellarMass > 0) & (HaloMass > 0)`: one entry per galaxy, true exactly when both its masses are positive |
| Binning.LogPairs | sage-model/plotting/allresults-history.py:184-191 | as many x values as y values, and at least one pair exactly when some galaxy has both masses positive (so `len(w) == 0` is the no-data test) |
| Binning.LogPairsAtPositions | sage-model/plotting/allresults-history.py:184-191 | `x = np.log10(HaloMass[w])` and `y = np.log10(StellarMass[w])` for `w` the positions where both masses are positive: pair k is the logs of the two masses of the k-th such galaxy, in galaxy order |
| Binning.DataMask | sage-model/plotting/allresults-history.py:182-186 | one entry per listed snapshot, true exactly when that snapshot has a galaxy with both masses positive |
| Binning.DataSnaps | sage-model/plotting/allresults-history.py:182-186 | the snapshots the loop does not skip: no more than the listed ones, each read and each with a galaxy whose two masses are positive |
| Binning.DataSnapsPicksMask | sage-model/plotting/allresults-history.py:182-186 | those snapshots are exactly the listed ones whose has-data test holds, in list order |
| Binning.SnapAggregate | sage-model/plotting/allresults-history.py:184-229 | a snapshot with data gives an aggregate of its log pairs with `n_bins` values of each kind |
| Binning.Panel | sage-model/plotting/allresults-history.py:182-230 | `binned_data` has one entry per listed snapshot that is not skipped, and entry k is the aggregate of the log pairs of the k-th such snapshot |
| Binning.BinnedPanel | sage-model/plotting/allresults-history.py:182-230 | the loop over the listed snapshots, which skips a snapshot without data and appends the others' aggregates, produces that panel |
| MassFunctions.NumBins | sage-model/plotting/allresults-history.py:695 | `int((ma - mi) / binwidth)` bins of width `binwidth` fit in `[mi, ma]` and one more would not |
| MassFunctions.AtLeastOneBin | sage-model/plotting/allresults-history.py:695 | a range at least one bin wide gives at least one bin |
| MassFunctions.Histogram | sage-model/plotting/allresults-history.py:696 | `np.histogram` over `[mi, ma]` gives one count per bin |
| MassFunctions.HistogramTotal | sage-model/plotting/allresults-history.py:696 | the counts add up to the number of log masses in the closed range `[mi, ma]`, so values outside it are dropped |
| MassFunctions.HistogramClosesLastBin | sage-model/plotting/allresults-history.py:696 | 1, 2, 3 over [1, 3] in two bins: `np.histogram` counts 1 and 2, putting the upper end in the last bin, while the binning loop of lines 216-227 counts 1 and 1, leaving it out |
| MassFunctions.Densities | sage-model/plotting/allresults-history.py:698 | `counts / volume / binwidth`: each density times volume and bin width is its count; it is never negative and is 0 exactly where its count is |
| MassFunctions.Build | sage-model/plotting/allresults-history.py:692-698 | a snapshot's mass function has `NB` positions and `NB` densities |
| MassFunctions.PositionsAreBinMiddles | sage-model/plotting/allresults-history.py:697 | when the range is a whole number of bins, position k is `mi + k * binwidth + binwidth / 2`, the middle of bin k |
| MassFunctions.ConfiguredBinCounts | sage-model/plotting/allresults-history.py:692-695 | the stellar range [7, 15] holds 80 bins and the black-hole range [6, 10] holds 40, both exactly |
| MassFunctions.EmptyRangeGivesZeros | sage-model/plotting/allresults-history.py:696-698 | a snapshot with no log mass in `[mi, ma]`, or with none at all, gives an all-zero mass function |
| MassFunctions.LogPositive | sage-model/plotting/allresults-history.py:689-690 | no more logs than masses, and none when no mass is positive |
| MassFunctions.LogPositiveAtPositions | sage-model/plotting/allresults-history.py:689-690 | `np.log10(mass[np.where(mass > 0)[0]])`: log k is the log of the k-th positive mass, in galaxy order |
| MassFunctions.MassFunctionPanel | sage-model/plotting/allresults-history.py:688-700 | `data` has one mass function per listed snapshot, each the one built from that snapshot's positive masses, and every one has `NB` entries |
| Tables.MissingAsNaN | sage-model/plotting/allresults-history.py:260-261 | a cell reads `NaN` exactly when its value is missing |
| Tables.BinnedCells | sage-model/plotting/allresults-history.py:257-265 | a snapshot's block is four cells; it is four `NaN` cells exactly when the snapshot has no bin i |
| Tables.BinnedBlocks | sage-model/plotting/allresults-history.py:256-265 | one four-cell block per stored snapshot |
| Tables.BinnedRowLayout | sage-model/plotting/allresults-history.py:255-265 | row i has `4 * len(binned_data)` cells, and snapshot k's block sits at cells 4k to 4k + 3 |
| Tables.BinnedRows | sage-model/plotting/allresults-history.py:254-266 | the nested loop writes the requested number of rows (`n_bins` in the script), row i being the blocks of row i end to end |
| Tables.EmptyBinsReadNaN | sage-model/plotting/allresults-history.py:259-263 | for an aggregate, a bin's mean and spread cells read `NaN` exactly when its count is 0; centre and count are written as numbers |
| Tables.PanelRowsAreFull | sage-model/plotting/allresults-history.py:254-265 | with 50-bin aggregates and 50 rows, no snapshot is padded: every block starts with a numeric centre |
| Tables.MaxLength | sage-model/plotting/allresults-history.py:703 | `max_length` is the length of some curve and no curve is longer |
| Tables.CurveCells | sage-model/plotting/allresults-history.py:717-720 | a curve's block is two cells; it is two empty cells exactly past the end of the curve |
| Tables.CurveBlocks | sage-model/plotting/allresults-history.py:716-720 | one two-cell block per curve |
| Tables.CurveRowLayout | sage-model/plotting/allresults-history.py:715-720 | row i has `2 * len(data)` cells, and curve k's block sits at cells 2k and 2k + 1 |
| Tables.MassFunctionRows | sage-model/plotting/allresults-history.py:703-721 | `max_length` rows, row i being the blocks of row i end to end |
| Tables.AlignedCurvesHaveNoBlanks | sage-model/plotting/allresults-history.py:703-721 | when all curves have the same length, as mass functions over one range do, there are that many rows and no empty cell |
| History.AddElementwise | sage-model/plotting/allresults-history.py:1010 | adding disk and bulge rates galaxy by galaxy keeps the number of galaxies |
| History.SumOfElementwise | sage-model/plotting/allresults-history.py:1010 | the sum of the galaxy-by-galaxy totals is the sum of disk rates plus the sum of bulge rates |
| History.SumOfNonNegative | sage-model/plotting/allresults-history.py:1097 | `sum` of masses or rates none of which is negative is not negative, and is positive as soon as one of them is |
| History.AllZeroSum | sage-model/plotting/allresults-history.py:1010 | a snapshot whose every rate is 0 sums to 0 |
| History.SfrDensity | sage-model/plotting/allresults-history.py:1010 | a snapshot's density times the volume is its total disk plus bulge rate; with no negative rate it is positive exactly when some galaxy forms stars |
| History.TotalRatePositive | sage-model/plotting/allresults-history.py:1010 | with no negative rate, the total rate is positive exactly when some galaxy's rate is |
| History.SfrDensityHistory | sage-model/plotting/allresults-history.py:1008-1010 | the loop filling the zeroed `SFR_density` array gives every snapshot its density |
| History.WindowMask | sage-model/plotting/allresults-history.py:1095 | the mask `(mass > 1e8) & (mass < 1e13)`: true exactly for the galaxies in the window |
| History.Window | sage-model/plotting/allresults-history.py:1095 | no more selected masses than galaxies, all strictly between 1e8 and 1e13 |
| History.WindowMembers | sage-model/plotting/allresults-history.py:1095 | every mass in the window is selected, and every selected mass is a galaxy's mass |
| History.WindowPicksMask | sage-model/plotting/allresults-history.py:1095-1097 | `mass[w]` for `w` the window mask's positions: the k-th selected mass is the mass of the k-th galaxy in the window, in galaxy order |
| History.WindowSum | sage-model/plotting/allresults-history.py:1095-1097 | the selection is non-empty, and its total positive, exactly when some galaxy lies in the window |
| History.MassDensity | sage-model/plotting/allresults-history.py:1095-1097 | a snapshot's density times the volume is the total mass in the window; it is positive exactly when some galaxy lies in the window, and 0 otherwise |
| History.GuardedDensity | sage-model/plotting/allresults-history.py:1096-1097 | the `if len(w) > 0` guard: dividing a non-empty total by the volume keeps its sign and multiplies back to it, and an empty window leaves 0 |
| History.StellarMassDensityHistory | sage-model/plotting/allresults-history.py:1093-1097 | the loop filling the zeroed `smd` array gives every snapshot its density, and snapshots without a galaxy in the window keep 0 |
| History.PositiveIndices | sage-model/plotting/allresults-history.py:1013 | `np.where(d > 0)`: exactly the indices of the positive entries, in increasing order |
| History.LogCurve | sage-model/plotting/allresults-history.py:1012-1014 | one plotted point per positive entry, in snapshot order: point k pairs the redshift and the log density of the k-th snapshot whose density is positive, and every such snapshot is plotted |

## Left out

- Reading the HDF5 output. The model starts from per-snapshot sequences of
  reals indexed by snapshot number (`FirstSnap` is 0). The file reader
  ignores its `filename` argument and reopens the file on every call; that
  is not modelled.
- Plotting, directory creation, and writing the tables to a file. A table
  is modelled as the sequence of rows handed to the tab-separated writer,
  each a sequence of cells.
- `np.log10` and `np.sqrt`. Both are transcendental and are passed in as
  uninterpreted function parameters, with nothing assumed about them. The
  spreads are specified as population variances. The square root is
  applied only when a cell is written.
- IEEE floating point: rounding, infinities and NaN in the inputs. Inputs
  are exact, finite reals.
  - So the `np.isfinite` filter keeps every pair, and the second
    empty-input skip after `np.min` can never be reached.
  - The centre and count cells can never be NaN.
  - A missing statistic is `None` rather than a NaN value.
- The random dilution of scatter plots (`random.sample`). It only feeds
  plots and depends on a seeded random generator.
- The literal observational tables and the IMF-dependent branch. They only
  shape the comparison curves that are drawn.
- The disabled triple-quoted blocks. Also the histogram plots of the first
  four snapshots, whose range depends on the data and which are never
  tabulated.
- Binning.BinVariance: states the variance, not the standard deviation
  `np.std` returns, because the square root is left out.
- Numerics.CountIn: its own contract only bounds the count. What is counted
  is stated through `Binning.AggregateBin` and the splitting lemmas of
  `Numerics`.
- MassFunctions.Build: its own contract gives only the lengths. The values
  are stated by `MassFunctions.Densities` and
  `MassFunctions.PositionsAreBinMiddles`. The latter applies when the range
  is a whole number of bins, as both configured ranges are
  (`MassFunctions.ConfiguredBinCounts`).
- Config.Volume: the `volume` parameters of `History` and `MassFunctions`
  are not tied to it. No module imports `Config`; those operations
  accept any positive volume, of which the configured one is a case.
- Numerics.Sum: carries no contract of its own. What the total is, is stated
  by `Numerics.SumAppend`, `History.SumOfElementwise`,
  `History.SumOfNonNegative` and `History.AllZeroSum`.
