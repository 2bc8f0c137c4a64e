# Pie chart slice values

A Dafny model of `BTSPieViewValues`, the C++ class the Core Animation pie
chart uses to turn the numbers its data source supplies into per-slice
percentages and angular sweeps.

The class is built from a slice count and a fetch block that maps a slice
index to its raw value. The constructor runs two passes:

1. The first pass calls the fetch block for indices 0, 1, ..., n - 1. It stores
   each value and adds it to a running sum that starts at zero.
2. The second pass divides every value by the completed sum to get its
   percentage. It multiplies the percentage by 2 pi (`M_PI * 2.0`) to get the
   slice's angle in radians.

The const accessors then expose the values, percentages, angles and sum.

The model has two modules:

- `SliceMath` (`slice_math.dfy`) is the specification. `Fetched` gives the
  fetched values in index order. `Total` is the left-to-right running total.
  `Proportions` divides each value by a sum, and `Sweeps` scales each
  proportion by `TwoPi`. Its lemmas prove that, with a nonzero total, the
  percentages add up to 1 and the angles to 2 pi; with non-negative values,
  each slice lies between 0 and a full circle; with a positive total, larger
  values get larger slices; and the values [1, 1], [1, 1, 1, 1] and
  [10, 20, 70] give the expected percentages and angles. Negative values are
  accepted as in the source. Against a positive total, a negative value gives
  a negative percentage and angle; against a negative total, every sign flips
  (values [-1, -3] give percentages [0.25, 0.75]).
- `PieChart` (`pie_view_values.dfy`) holds the class `BTSPieViewValues`. It
  has the three arrays and the `sum` field of the source. The constructor
  runs its two passes as `AccumulateValues` and `ComputeShares`, each a loop
  proved against the specification functions. The accessors are read-only
  methods, with no `modifies` clause. A ghost `trace` records each call of
  the fetch block and each division, in order. `Schedule` and
  `ScheduleOrder` use it to show three things: every index is fetched once,
  in increasing order; the sum is complete before the first division; and
  an empty chart does neither.

Numbers are exact `real`s in place of `double` and `CGFloat`. `Pi` is the
decimal literal that the platform's math header gives for `M_PI`.

## Model

| member | source | states |
|---|---|---|
| SliceMath.Fetched | BTSPieChart/BTSPieViewValues.h:20-22 | the fetched values have one entry per index below the slice count, and entry i is what the fetch block returns for i |
| SliceMath.Total | BTSPieChart/BTSPieViewValues.h:15-24 | the running total that `_sum` accumulates, starting from 0.0 and adding each value in index order; with no values it stays 0 |
| SliceMath.Proportions | BTSPieChart/BTSPieViewValues.h:27-30 | one percentage per value, each the value divided by the sum; against a positive sum each percentage is non-negative exactly when its value is, and positive exactly when its value is, so it has its value's sign |
| SliceMath.Sweeps | BTSPieChart/BTSPieViewValues.h:26-33 | one angle per percentage, each 2 pi times the percentage, so dividing an angle by 2 pi gives its percentage back |
| SliceMath.TotalExtend | BTSPieChart/BTSPieViewValues.h:23 | adding one more value to the sum extends the running total by that value |
| SliceMath.TotalOfProportions | BTSPieChart/BTSPieViewValues.h:27-30 | dividing every value by the same nonzero sum divides their running total by that sum |
| SliceMath.TotalOfSweeps | BTSPieChart/BTSPieViewValues.h:26-33 | multiplying every percentage by 2 pi multiplies their running total by 2 pi |
| SliceMath.ProportionsTotalOne | BTSPieChart/BTSPieViewValues.h:20-30 | with a nonzero sum, the percentages computed from the accumulated sum add up to exactly 1 |
| SliceMath.SweepsTotalFullCircle | BTSPieChart/BTSPieViewValues.h:20-34 | with a nonzero sum, the angles add up to exactly 2 pi |
| SliceMath.TotalNonNegative | BTSPieChart/BTSPieViewValues.h:15-24 | a sum that starts at 0 and only adds non-negative values is non-negative |
| SliceMath.ValueAtMostTotal | BTSPieChart/BTSPieViewValues.h:20-24 | with non-negative values, no single value exceeds the accumulated sum |
| SliceMath.SliceWithinCircle | BTSPieChart/BTSPieViewValues.h:26-33 | with non-negative values and a nonzero sum, every percentage lies in [0, 1] and every angle in [0, 2 pi] |
| SliceMath.LargerValueLargerSlice | BTSPieChart/BTSPieViewValues.h:26-33 | with a positive accumulated sum, one value is smaller than another if and only if its percentage is smaller, and if and only if its angle is smaller |
| SliceMath.TwoEqualSlices | BTSPieChart/BTSPieViewValues.h:20-34 | values [1, 1] give sum 2, percentages [0.5, 0.5] and angles [pi, pi] |
| SliceMath.FourEqualSlices | BTSPieChart/BTSPieViewValues.h:20-34 | values [1, 1, 1, 1] give sum 4, percentages 0.25 each and angles pi / 2 each |
| SliceMath.UnequalSlices | BTSPieChart/BTSPieViewValues.h:20-34 | values [10, 20, 70] give sum 100, percentages [0.1, 0.2, 0.7] and angles [0.2 pi, 0.4 pi, 1.4 pi] |
| SliceMath.NegativeSlices | BTSPieChart/BTSPieViewValues.h:20-34 | values [-1, -3] give sum -4, percentages [0.25, 0.75] and angles [0.5 pi, 1.5 pi]: against a negative total every sign flips |
| PieChart.FetchPass | BTSPieChart/BTSPieViewValues.h:20-22 | the first loop's calls of the fetch block: n calls, each for an index below n, in strictly increasing index order, so each index is fetched exactly once |
| PieChart.DividePass | BTSPieChart/BTSPieViewValues.h:27-30 | the second loop's divisions: n divisions, all by the same sum, each for an index below n, in strictly increasing index order, so each index is divided exactly once |
| PieChart.Schedule | BTSPieChart/BTSPieViewValues.h:20-34 | the constructor's steps, the first pass followed by the second: 2n steps, and no fetch ever follows a division |
| PieChart.ScheduleOrder | BTSPieChart/BTSPieViewValues.h:20-34 | the constructor's 2n steps are exactly the fetches of indices 0 to n - 1 in order, then the divisions of indices 0 to n - 1 in order, all by the same completed sum. So every index is fetched once and divided once, and every fetch comes before every division. With no slices it neither fetches nor divides |
| PieChart.SharesAreProportions | BTSPieChart/BTSPieViewValues.h:27-30 | an array filled index by index with value / sum holds exactly the proportions of the values |
| PieChart.AnglesAreSweeps | BTSPieChart/BTSPieViewValues.h:32-33 | an array filled index by index with 2 pi times the percentage holds exactly the sweeps of the percentages |
| PieChart.BTSPieViewValues.constructor | BTSPieChart/BTSPieViewValues.h:14-35 | allocates three fresh arrays of length sliceCount. The values are the fetch block's results in index order, and sum is their running total. The percentages are the values divided by that sum, and the angles are the percentages times 2 pi. The recorded steps are the fetches of every index in order, then one division per index by that sum |
| PieChart.BTSPieViewValues.AccumulateValues | BTSPieChart/BTSPieViewValues.h:20-24 | starting from sum 0, fills values in index order with the fetch block's results and leaves sum equal to their running total, recording one fetch per index |
| PieChart.BTSPieViewValues.ComputeShares | BTSPieChart/BTSPieViewValues.h:26-34 | sets every percentage to value / sum and every angle to 2 pi * percentage, so the arrays hold the proportions and sweeps of the values. It changes nothing else but the recorded steps, one division per index by the same sum |
| PieChart.BTSPieViewValues.Values | BTSPieChart/BTSPieViewValues.h:44-47 | returns, without changing anything, the values the fetch block gave for each index |
| PieChart.BTSPieViewValues.Percentages | BTSPieChart/BTSPieViewValues.h:49-52 | returns, without changing anything, each fetched value divided by their total. When there are slices, these add up to 1 |
| PieChart.BTSPieViewValues.Angles | BTSPieChart/BTSPieViewValues.h:54-57 | returns, without changing anything, 2 pi times each percentage. When there are slices, these add up to 2 pi |
| PieChart.BTSPieViewValues.Sum | BTSPieChart/BTSPieViewValues.h:59-62 | returns, without changing anything, the running total of the fetched values |

## Left out

- PieChart.BTSPieViewValues.constructor: requires the fetched values to have a nonzero total when there is at least one slice. The source divides by the sum unguarded (BTSPieChart/BTSPieViewValues.h:29), which gives NaN or infinite percentages and angles for a zero sum. Exact reals cannot represent those results. With no slices, nothing is divided and the constructor accepts the input.
- Floating point: `double` and `CGFloat` rounding, NaN and infinity, and the `(CGFloat)` narrowing casts (lines 26 and 32) are not modelled. The arithmetic is exact over `real`, so "the percentages total 1" holds exactly in the model but only approximately in the source.
- The signed `int` index of the second loop (line 27) is compared against an unsigned count. Its overflow for counts above `INT_MAX` is not modelled; indices are `nat`.
- Memory management: the destructor's `delete[]` calls (lines 37-42) have no counterpart, because Dafny arrays are garbage-collected.
- The accessors return `const` pointers to the arrays. The model returns immutable sequence snapshots of the array contents instead, so it does not capture the aliasing of the returned pointer with the object's storage.
- The fetch block is a pure `nat -> real` function. A block that has side effects, reads changing state or raises an exception is not modelled.
- The constructor's two loops are written as two methods, `AccumulateValues` and then `ComputeShares`, which the constructor calls in that order. The steps keep the source's order and effect; the only difference is that the passes are also callable on their own.
- BTSPieChart/BTSPieView.h, BTSPieChart/BTSPieLayer.h and BTSPieChart/BTSSliceLayer.h are UIKit view and Core Animation layer declarations. They have no logic to model: data-source and delegate protocols, selection callbacks, colours, animated insert, remove and reload, and rendering are all framework plumbing.
