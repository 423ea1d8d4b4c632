# Descriptive statistics of the MHZ4377 Applied Statistics scripts, in Dafny

The repository is a set of small Go programs for a statistics course. Each
program takes a hard-coded sample, works out descriptive statistics and
prints them, and some also draw charts. This project models the
computations underneath the printing and the charts, and proves what they
promise:

- frequency tables and modes;
- medians and quartiles of sorted samples;
- grouping into classes with a first-match tally and a "total equals n"
  check;
- mean, variances and the least-squares line;
- the map from an hour value to a bar position on the work-hours chart.

`float64` is modelled as `real`, so every rational operation is exact. Go
`int` is modelled as `int`. `sort.Ints` and `sort.Float64s` are modelled by
one ordering function, `Order.Sort`, whose result is an ascending
permutation of its input. Go maps are Dafny `map`s, and a missing key reads
as Go's zero count. Slices are values (`seq`), so a function that sorts a
copy leaves its argument unchanged by construction. Each Go loop that
builds a result is a `method` with its loop and invariants. Each method is
proved against a specification function, and the lemmas about those
functions state the properties the scripts rely on.

Shared modules:

- `Order`: the sort model. An ascending permutation is unique, so sorting
  is insensitive to the input order.
- `Frequency`: value→count maps, sorted keys, the highest count, the
  "no mode when every count is 1" rule, and bar heights over a key list.
- `Moments`: sums, mean, population and sample variance, and third central
  moments. Also the paired sums behind the least-squares line.
- `OrderStats`: the even/odd middle rule, the two ways of splitting a
  sorted sample into halves, and quartiles as medians of the halves.
- `Binning`: the first-match tally of a sample into bins, with its total.
- `Apples`: the apple record shared by the two qualitative scripts.

There is one module per script: `Workhours`, `Freq`, `MarksAnalysis`,
`FertilizerStats`, `Histogram`, `QuartileDemo` (the root `main.go`),
`WorkhoursPlot`, `QualBivariate` and `QualAnalysis`.

## Model

| member | source | states |
|---|---|---|
| `Order.Sort` | cmd/fertilizer_stats/main.go:10 | the sorted sample is ascending, a permutation of the input, of the same length |
| `Order.AscendingPermutationUnique` | cmd/fertilizer_stats/main.go:10 | two ascending arrangements of the same multiset are equal, so "sorted permutation" determines the result |
| `Order.SortOfAscending` | cmd/marks_analysis/main.go:18 | sorting an already ascending sample leaves it as it is |
| `Order.SortPermutationInvariant` | cmd/workhours/main.go:399-401 | the sorted copy does not depend on the order of the input |
| `Order.StrictlyAscendingUnique` | cmd/workhours/main.go:426-433 | two strictly ascending lists with the same members are equal, so sorted keys and modes are determined by their members |
| `Order.DistinctAscending` | cmd/freq/main.go:59-63 | the distinct values of a sample in strictly ascending order: the reference for "collect the map keys, then sort them" |
| `Order.RealsOfSort` | cmd/workhours/main.go:401-406 | converting to float64 after `sort.Ints` equals sorting the converted values |
| `Order.SortInts` | cmd/freq/main.go:69 | `sort.Ints` gives a non-decreasing permutation of the sample |
| `Order.SortReals` | cmd/histogram/main.go:71-73 | `sort.Float64s` on a copy gives the sorted permutation of the sample |
| `Frequency.Tally` | cmd/freq/main.go:52-55 | the map built by `freq[v]++` has exactly the sample's values as keys, and each count is the number of occurrences |
| `Frequency.SortedKeys` | cmd/freq/main.go:59-63 | the collected and sorted keys are strictly ascending and are exactly the keys of the map |
| `Frequency.SumCountsIsCovered` | cmd/freq/main.go:64-66 | over distinct keys, the counts add up to the number of observations that are among the keys |
| `Frequency.CoveredAll` | cmd/freq/main.go:64-66 | every observation is covered exactly when none lies outside the keys |
| `Frequency.CountsSumToSize` | cmd/workhours/main.go:410-413 | the counts of a frequency table over the sample's distinct values add up to n |
| `Frequency.MaxCount` | cmd/workhours/main.go:415-420 | the highest frequency bounds every count and is attained, 0 for an empty sample |
| `Frequency.ModeListMeaning` | cmd/workhours/main.go:422-433 | the mode list is strictly ascending; it is empty exactly when the highest count is at most 1; otherwise it holds exactly the values of highest count |
| `Frequency.HighestCount` | cmd/marks_analysis/main.go:170-175 | the loop over the map finds an attained upper bound of the counts, whatever the iteration order |
| `Frequency.KeysWithCount` | cmd/marks_analysis/main.go:179-184 | the loop over the map collects exactly the keys with the given count, each once |
| `Frequency.Modes` | cmd/marks_analysis/main.go:165-187 | `mode` returns the reference mode list: empty when the highest count is at most 1, otherwise the values of highest count in ascending order |
| `Frequency.MaxCountIs` | cmd/marks_analysis/main.go:170-175 | an attained upper bound of the counts is the highest count |
| `Frequency.MaxCountPermutation` | cmd/fertilizer_stats/main.go:30-40 | the highest count does not depend on the order of the sample |
| `Frequency.ModeListPermutation` | cmd/fertilizer_stats/main.go:29-50 | the mode list does not depend on the order of the sample, so computing it after the in-place sort is harmless |
| `Frequency.HeightsSum` | cmd/workhours_plot/main.go:34-39 | the bar values add up to the total count of the keys |
| `Frequency.HeightsCoverSample` | cmd/qual_analysis/main.go:53-57 | with distinct keys, the bars add up to n exactly when every observation is one of the keys |
| `Moments.SumOfPermutation` | cmd/fertilizer_stats/main.go:15-18 | a sum does not depend on the order of the sample |
| `Moments.SumIntsAsReal` | cmd/workhours/main.go:389-395 | converting the integer sum to float64 equals summing the converted values |
| `Moments.SumOfDev` | cmd/marks_analysis/main.go:149-155 | the deviations from m sum to Σv − n·m |
| `Moments.MeanBetween` | cmd/workhours_plot/main.go:77-81 | the mean lies between any lower and upper bound of the sample |
| `Moments.DeviationsCancel` | cmd/marks_analysis/main.go:149-155 | the deviations from the mean add up to zero |
| `Moments.SumSqDevZero` | cmd/workhours/main.go:443-448 | the sum of squared deviations is zero exactly when every value equals the centre |
| `Moments.MeanOfConstant` | cmd/workhours/main.go:389-395 | the mean of a constant sample is that constant |
| `Moments.PopVarianceZero` | cmd/workhours/main.go:457-459 | the population variance is zero exactly when all values are equal |
| `Moments.SampleVarianceScaled` | cmd/marks_analysis/main.go:199-207 | the sample variance is the population variance times n/(n−1), so it is at least as large |
| `Moments.MeanPermutation` | cmd/fertilizer_stats/main.go:10-19 | reordering the sample leaves the mean unchanged |
| `Moments.SumSqDevPermutation` | cmd/histogram/main.go:117-122 | summing the squared deviations over the sorted copy gives the same sum as over the sample |
| `Moments.PopVariancePermutation` | cmd/marks_analysis/main.go:189-197 | reordering the sample leaves the population variance unchanged |
| `Moments.SumOfLinear` | cmd/qual_bivariate/main.go:79-81 | for points on y = a·x + b, Σy = a·Σx + n·b |
| `Moments.SumCrossIsSumProd` | cmd/qual_bivariate/main.go:82-89 | the cross-deviation sum is the sum of products of the two deviation sequences |
| `Moments.SumProdScaled` | cmd/qual_bivariate/main.go:82-89 | Σu·(a·u) = a·Σu·u |
| `Moments.DevsOnLine` | cmd/qual_bivariate/main.go:84-85 | on y = a·x + b, the y deviations from a·mx + b are a times the x deviations from mx |
| `Moments.SumCrossOfLinear` | cmd/qual_bivariate/main.go:82-89 | on y = a·x + b, the cross-deviation sum is a times the x squared deviations |
| `Moments.SumCrossSelf` | cmd/qual_bivariate/main.go:86-87 | the cross sum of a sample with itself is its sum of squared deviations, so `cov` of x with x is `varx` |
| `Moments.SquareOfDeviation` | cmd/marks_analysis/main.go:192-195 | one step of the `s += d * d` loop extends Σ(v − m)² by one value |
| `Moments.CrossOfDeviations` | cmd/qual_bivariate/main.go:84-86 | one step of the `cov += dx * dy` loop extends the cross sum by one pair |
| `Moments.CubeOfDeviation` | cmd/histogram/main.go:310-313 | one step of the `sumCubed += diff * diff * diff` loop extends Σ(v − m)³ by one value |
| `Moments.SampleMean` | cmd/marks_analysis/main.go:149-155 | the `s += v` loop divided by the length is the mean |
| `Moments.SquaredDeviations` | cmd/marks_analysis/main.go:189-197 | the accumulation loop computes Σ(v − m)² |
| `Moments.CubedDeviations` | cmd/histogram/main.go:309-313 | the accumulation loop computes Σ(v − m)³ |
| `Moments.Cube` | cmd/histogram/main.go:314 | sd³ is positive for a positive standard deviation |
| `OrderStats.LowerHalf` | cmd/fertilizer_stats/main.go:56 | the lower half has ⌊n/2⌋ values |
| `OrderStats.UpperHalfWithMiddle` | main.go:132 | the upper half that keeps the middle value has n − ⌊n/2⌋ values |
| `OrderStats.UpperHalfWithoutMiddle` | cmd/fertilizer_stats/main.go:57-60 | the upper half that drops the middle value has ⌊n/2⌋ values in both branches |
| `OrderStats.SortedSlice` | cmd/fertilizer_stats/main.go:53-61 | the halves of a sorted sample are sorted |
| `OrderStats.MiddleBetween` | main.go:93-106 | the middle of a sorted slice lies between its first and last values |
| `OrderStats.MiddleSplits` | cmd/fertilizer_stats/main.go:22-27 | on a sorted sample the first ⌈n/2⌉ values are at most the median and the last ⌈n/2⌉ are at least the median |
| `OrderStats.MedianPermutation` | cmd/workhours/main.go:397-407 | the median of a sorted copy does not depend on the order of the sample |
| `OrderStats.MedianOfSorted` | cmd/marks_analysis/main.go:157-163 | on an already sorted slice, `median`'s index rule gives the median |
| `OrderStats.SortIsSorted` | cmd/histogram/main.go:71-73 | the sorted copy is non-decreasing |
| `OrderStats.MedianBetween` | cmd/workhours_plot/main.go:108-118 | the median lies between any lower and upper bound of the sample |
| `OrderStats.QuartilesAroundMedianWithMiddle` | main.go:127-150 | with the middle kept in the upper half: min ≤ Q1 ≤ median ≤ Q3 ≤ max once n ≥ 2 |
| `OrderStats.QuartilesAroundMedianWithoutMiddle` | cmd/fertilizer_stats/main.go:52-63 | with the middle excluded: Q1 ≤ median ≤ Q3 once n ≥ 2 |
| `OrderStats.SortedEnds` | cmd/histogram/main.go:82-84 | the ends of the sorted copy are values of the sample, and they bound every value |
| `OrderStats.MedianOfSliceBetween` | cmd/fertilizer_stats/main.go:111-120 | `medianOfSlice` gives 0 on an empty slice and otherwise a value between the ends of the sorted slice |
| `OrderStats.Halves` | cmd/fertilizer_stats/main.go:53-61 | both halves have ⌊n/2⌋ values; with the middle value between them for odd n, they make up the sample |
| `OrderStats.QuartilesOfHalves` | cmd/histogram/main.go:181-243 | for n = 1 both quartiles are 0; from n = 2 on, min ≤ Q1 ≤ median ≤ Q3 ≤ max |
| `OrderStats.QuartilesByHalves` | cmd/fertilizer_stats/main.go:52-64 | Q1 and Q3 are the medians of the halves, and the IQR is not negative |
| `Binning.FirstMatch` | cmd/freq/main.go:101-107 | the inner loop with `break` chooses the first bin containing the value, or none when no bin does |
| `Binning.FirstMatchIs` | cmd/freq/main.go:101-107 | a containing bin with no earlier containing bin is the first match |
| `Binning.Place` | cmd/freq/main.go:102-107 | one pass of the inner loop raises the count of the first matching bin by one and changes nothing else |
| `Binning.Tally` | cmd/freq/main.go:100-108 | the nested loop produces the first-match counts of the sample |
| `Binning.SumClasses` | cmd/freq/main.go:113-117 | the `total += counts[i]` loop adds the counts up |
| `Binning.TotalIsMatched` | cmd/freq/main.go:113-117 | the total is the number of observations that fall in some bin |
| `Binning.MatchedAll` | cmd/freq/main.go:131-136 | every observation is matched exactly when each one falls in some bin |
| `Binning.TotalIsSize` | cmd/marks_analysis/main.go:68-75 | the total equals n exactly when every observation lies in some bin |
| `Binning.AddMatchCommutes` | cmd/freq/main.go:100-108 | tallying two observations in either order gives the same counts |
| `Binning.ClassCountsSnoc` | cmd/qual_bivariate/main.go:138-149 | tallying one more observation raises its first matching bin by one |
| `Binning.ClassCountsRemove` | cmd/freq/main.go:100-108 | removing one observation anywhere in the sample lowers its first matching bin by one |
| `Binning.ClassCountsPermutation` | cmd/marks_analysis/main.go:55-63 | the class counts do not depend on the order of the observations, so tallying the sorted sample counts the original one |
| `Apples.ProjectPermutation` | cmd/qual_analysis/main.go:49-52 | reordering the records reorders each column of field values the same way |
| `Workhours.GetMean` | cmd/workhours/main.go:389-395 | the integer sum converted and divided by n is the mean; an empty sample is excluded |
| `Workhours.GetMedian` | cmd/workhours/main.go:397-407 | the even/odd middle of the sorted copy, computed in ints, is the median of the sample |
| `Workhours.MiddleOfInts` | cmd/workhours/main.go:403-406 | the middle computed in ints and then converted equals the middle of the converted values |
| `Workhours.GetModes` | cmd/workhours/main.go:409-434 | empty exactly when the highest count is at most 1; otherwise exactly the values of highest count, strictly ascending |
| `Workhours.GetVariance` | cmd/workhours/main.go:436-451 | 0 for an empty sample, otherwise the population variance, never negative |
| `Workhours.GetStdDev` | cmd/workhours/main.go:453-466 | 0 for an empty sample and never negative; 0 exactly when all the hours are equal, since the Newton iterate stays positive |
| `Workhours.NewtonStepPositive` | cmd/workhours/main.go:462-464 | a Newton step from a positive guess for a positive variance stays positive |
| `Workhours.CalculateMode` | cmd/workhours/main.go:175-213 | the highest count over the sorted keys is the highest frequency; the keys collected are exactly those with that count, ascending; when it exceeds 1 they are `getModes`' list |
| `Workhours.HighestCountOver` | cmd/workhours/main.go:193-200 | the loop over the sorted keys finds an attained upper bound of their counts, 0 with no keys |
| `Workhours.KeysHolding` | cmd/workhours/main.go:208-213 | the loop over the sorted keys collects exactly the keys with the given count, strictly ascending |
| `Freq.ClassWidth` | cmd/freq/main.go:82-85 | the class width is at least 1 |
| `Freq.ClassWidthIsCeiling` | cmd/freq/main.go:82-85 | the width is ⌈rng/numClasses⌉ raised to 1: its classes span the range, and one less would not unless it is 1 |
| `Freq.BuildClasses` | cmd/freq/main.go:88-97 | the loop fills class i with [min + i·width, min + i·width + width − 1] |
| `Freq.ClassesContiguous` | cmd/freq/main.go:87-97 | the first class starts at min and the last ends at min + numClasses·width − 1; each class is non-empty and starts one past the end of the previous one |
| `Freq.FirstMatchInClasses` | cmd/freq/main.go:100-108 | a value in [min, last end] is tallied into class (v − min)/width, and any other value into none |
| `Freq.CountedInRange` | cmd/freq/main.go:113-136 | the total equals n exactly when every observation lies in [min, last end] |
| `Freq.RawTable` | cmd/freq/main.go:52-66 | the raw counts are the occurrence counts, the keys are the distinct values in ascending order, and their counts add up to n |
| `Freq.FrequencyTable` | cmd/freq/main.go:52-136 | raw table, min and max, width, classes and first-match counts as above; the sanity check passes exactly when the range is 0 or not a multiple of the class count |
| `Freq.GroupedTable` | cmd/freq/main.go:88-117 | classes, tally and total of the sorted sample are those of the sample in its given order |
| `Freq.SortedBounds` | cmd/freq/main.go:69-72 | `data[0]` and `data[n-1]` after sorting are values of the sample and bound all of it |
| `Freq.SanityCheck` | cmd/freq/main.go:131-136 | on a sample between two of its own values, the total equals n exactly when the upper one is covered by the classes |
| `Freq.SanityCheckAsWritten` | cmd/freq/main.go:131-136 | with the script's width, the total equals n exactly when max = min or the range is not a multiple of the class count |
| `Freq.LastClassCoversMax` | cmd/freq/main.go:92-94 | the last class reaches the maximum exactly when the range is 0 or not a multiple of the class count |
| `Freq.MaxDroppedExample` | cmd/freq/main.go:92-94 | for the sample [0, 6] with six classes the width is 1, the last class ends at 5, and only one observation is counted |
| `Freq.CoveringWidth` | cmd/freq/main.go:82-85 | the corrected width ⌊rng/numClasses⌋ + 1 is at least 1 |
| `Freq.CoveringWidthCovers` | cmd/freq/main.go:82-97 | the corrected width always reaches the maximum, and equals the script's width whenever the script's reaches it |
| `Freq.CorrectedFrequencyTable` | cmd/freq/main.go:69-136 | with the corrected width every observation is counted and the sanity check always passes |
| `Freq.GrainYieldsRange` | cmd/freq/main.go:11-42 | the wheat yields lie in [138, 172], and both ends occur |
| `Freq.GrainYieldsTable` | cmd/freq/main.go:69-117 | for the wheat yields the width is 6, the classes run from 138 to 173, and all 30 observations are counted |
| `MarksAnalysis.Ceil` | cmd/marks_analysis/main.go:33 | `math.Ceil` gives the least whole number at or above its argument |
| `MarksAnalysis.ClassWidth` | cmd/marks_analysis/main.go:33-36 | the width is a whole number ≥ 1; its classes span the range, and it exceeds range/numClasses by less than 1 unless it is the clamp value 1 |
| `MarksAnalysis.BuildTypes` | cmd/marks_analysis/main.go:41-52 | the loop carrying `start` builds class i as [min + i·width, min + (i+1)·width), the last one ending at max + 0.0001 |
| `MarksAnalysis.TypesContiguous` | cmd/marks_analysis/main.go:41-52 | the first class starts at min, each starts where the previous one ends, and the last ends at max + 0.0001 |
| `MarksAnalysis.TypesDisjoint` | cmd/marks_analysis/main.go:41-52 | no value lies in two classes |
| `MarksAnalysis.TypesCover` | cmd/marks_analysis/main.go:41-52 | every value between min and max lies in some class, whatever the width |
| `MarksAnalysis.AllCounted` | cmd/marks_analysis/main.go:54-75 | every mark in [min, max] is counted, so the printed total is n |
| `MarksAnalysis.FrequencyTable` | cmd/marks_analysis/main.go:16-75 | the marks are sorted; the class count is clamped to at least 1; min, max, range, width and classes are as above; the counts are the first-match counts of the sample and their total is n |
| `MarksAnalysis.RankBracketed` | cmd/marks_analysis/main.go:209-223 | between the clamps, the indices lower and upper are in range and the interpolated value lies between a[lower] and a[upper] |
| `MarksAnalysis.RankBetween` | cmd/marks_analysis/main.go:209-223 | on a sorted sample the value at any rank lies between the least and the greatest value |
| `MarksAnalysis.RankMonotone` | cmd/marks_analysis/main.go:209-223 | on a sorted sample the interpolated value does not decrease with the rank, so a quantile does not decrease with its fraction p |
| `MarksAnalysis.QuartileBetween` | cmd/marks_analysis/main.go:209-223 | on a sorted sample a quartile lies between the least and the greatest value |
| `MarksAnalysis.QuartilesOrdered` | cmd/marks_analysis/main.go:104-106 | on a sorted sample Q1 ≤ Q3, so the IQR is not negative |
| `MarksAnalysis.VariancePopulation` | cmd/marks_analysis/main.go:189-197 | `variancePopulation` is the population variance |
| `MarksAnalysis.VarianceSample` | cmd/marks_analysis/main.go:199-207 | `varianceSample` is the sample variance and is at least the population variance (n > 1) |
| `MarksAnalysis.Skewness` | cmd/marks_analysis/main.go:225-241 | 0 when the variance is 0, that is when all marks are equal; otherwise the third central moment over sd³ with sd > 0 |
| `MarksAnalysis.CentralSums` | cmd/marks_analysis/main.go:228-233 | the loop computes Σ(v − m)² and Σ(v − m)³ together |
| `MarksAnalysis.Summarise` | cmd/marks_analysis/main.go:96-106 | mean, index median, modes, both variances (the sample one absent for n = 1), quartiles and IQR; on sorted marks the median is the median and Q1 ≤ Q3 lie within the sample |
| `MarksAnalysis.Analyse` | cmd/marks_analysis/main.go:14-130 | on the unsorted marks every mark is counted once, and mean, median, modes and population variance are those of the sample; Q1 ≤ Q3 |
| `FertilizerStats.Outside` | cmd/fertilizer_stats/main.go:98-103 | the values kept are exactly the sample's values strictly below the low fence or above the high fence |
| `FertilizerStats.OutsideCounts` | cmd/fertilizer_stats/main.go:98-103 | each outside value keeps all its occurrences, and no inside value is kept |
| `FertilizerStats.OutsideSorted` | cmd/fertilizer_stats/main.go:98-103 | filtering a sorted sample leaves it sorted |
| `FertilizerStats.Outliers` | cmd/fertilizer_stats/main.go:97-103 | the loop appends exactly the outside values, in sample order |
| `FertilizerStats.MeanOf` | cmd/fertilizer_stats/main.go:14-19 | the mean of the sorted data is the mean of the sample |
| `FertilizerStats.MedianOf` | cmd/fertilizer_stats/main.go:21-27 | the even/odd middle of the sorted data is the median of the sample |
| `FertilizerStats.ModesOf` | cmd/fertilizer_stats/main.go:29-50 | `maxf` is the highest count; the modes are strictly ascending and are exactly the values of count `maxf` when it exceeds 1 |
| `FertilizerStats.Spread` | cmd/fertilizer_stats/main.go:52-103 | quartiles of the halves with Q1 ≤ median ≤ Q3 inside the sample; IQR and range not negative; the fences lie outside [Q1, Q3]; the outliers are the sorted values outside the fences |
| `FertilizerStats.Describe` | cmd/fertilizer_stats/main.go:8-109 | the whole report on a non-empty sample, each figure stated on the sample as given |
| `Histogram.CalculateVariability` | cmd/histogram/main.go:62-264 | the sorted copy with its ends, range ≥ 0, the mean, the squared deviations over the sorted copy equal to those over the sample, variance ≥ 0, the halves without the middle, and min ≤ Q1 ≤ median ≤ Q3 ≤ max |
| `Histogram.ShapeAsWritten` | cmd/histogram/main.go:328-343 | "positive" only for a defined skewness above 0, "symmetric" only for a defined one |
| `Histogram.ShapeAsWrittenNotMirrored` | cmd/histogram/main.go:329-343 | skewness 0.5 and a constant sample are both called negatively skewed, so mirroring the sample does not mirror the verdict |
| `Histogram.ShapeOf` | cmd/histogram/main.go:329-343 | intended rule: positive exactly for skewness ≥ 0.5, negative exactly for ≤ −0.5 |
| `Histogram.ShapeOfMirrors` | cmd/histogram/main.go:329-343 | under the intended rule, negating the skewness mirrors the verdict |
| `Histogram.ShapeRulesAgree` | cmd/histogram/main.go:329-343 | the two rules differ exactly at skewness 0.5 and on a constant sample |
| `Histogram.AnalyzeDistribution` | cmd/histogram/main.go:278-343 | mean, median and population standard deviation; the skewness is undefined exactly when all values are equal and is otherwise Σ(v − mean)³/n over sd³; the verdict is the script's, and it agrees with the intended rule except at 0.5 and on a constant sample |
| `Histogram.MedianOfCopy` | cmd/histogram/main.go:288-298 | the even/odd middle of the sorted copy is the median of the sample |
| `QuartileDemo.GetMedian` | main.go:93-106 | the middle rule with no empty guard; on a sorted slice it lies between the ends |
| `QuartileDemo.SplitAndMedians` | main.go:127-150 | the halves split the sorted data, the upper one a value longer for odd n; min ≤ Q1 ≤ median ≤ Q3 ≤ max; for 60 values both halves have 30 and Q1, Q3 average their positions 14 and 15 |
| `QuartileDemo.SixtyValues` | main.go:141-150 | for 60 values the medians of the halves average their positions 14 and 15 |
| `QuartileDemo.Demo` | main.go:108-155 | the sorted copy is a sorted permutation, and min ≤ Q1 ≤ median ≤ Q3 ≤ max of the sample |
| `WorkhoursPlot.BarValues` | cmd/workhours_plot/main.go:34-39 | value i is the count of key i |
| `WorkhoursPlot.MaxBar` | cmd/workhours_plot/main.go:68-74 | `maxY` is at least 0 and at least every bar, and it is 0 or the height of some bar |
| `WorkhoursPlot.Segment` | cmd/workhours_plot/main.go:96-104 | the interpolated position from bracket j on lies between j and the last index |
| `WorkhoursPlot.FractionBetween` | cmd/workhours_plot/main.go:99-102 | inside a bracket the fraction lies in [0, 1] |
| `WorkhoursPlot.Position` | cmd/workhours_plot/main.go:85-106 | 0 with no keys; otherwise a position within [0, len(keys) − 1] |
| `WorkhoursPlot.HourToPos` | cmd/workhours_plot/main.go:85-106 | the closure computes `Position`; the final `return 0` cannot be reached and no division is by zero |
| `WorkhoursPlot.PositionOfKey` | cmd/workhours_plot/main.go:85-106 | key j maps to exactly j |
| `WorkhoursPlot.PositionMonotone` | cmd/workhours_plot/main.go:85-106 | a larger hour is never placed left of a smaller one |
| `WorkhoursPlot.Annotate` | cmd/workhours_plot/main.go:21-121 | the keys are the distinct hours ascending; the bars are their counts and add up to n; maxY is the highest count; mean and median lie between the first and last key, and so do their positions within the bar range |
| `WorkhoursPlot.Bars` | cmd/workhours_plot/main.go:34-74 | the bars add up to n and the tallest is the highest count |
| `WorkhoursPlot.WithinKeys` | cmd/workhours_plot/main.go:76-121 | the mean and the median lie between the first and the last key |
| `QualAnalysis.CategoryCounts` | cmd/qual_analysis/main.go:49-57 | the values are the counts of the keys in key order, a missing key giving 0 |
| `QualAnalysis.Analyse` | cmd/qual_analysis/main.go:46-84 | each chart holds its key counts; the bars add up to n exactly when every crunchiness is a key, every quality is good or bad, and every ripeness is 1 to 4 |
| `QualAnalysis.KeysDistinct` | cmd/qual_analysis/main.go:53-77 | none of the three key lists repeats a key |
| `QualAnalysis.RipenessScale` | cmd/qual_analysis/main.go:77 | the ripeness keys are exactly 1 to 4 |
| `QualAnalysis.ChartCoversSample` | cmd/qual_analysis/main.go:73-83 | a chart's bars add up to n exactly when every record's value is a key; other values are dropped |
| `QualAnalysis.RecordOrderIrrelevant` | cmd/qual_analysis/main.go:53-57 | the charts do not depend on the order of the records |
| `QualBivariate.PointsMembers` | cmd/qual_bivariate/main.go:60-64 | a point is in a group exactly when some record of that group has its weight and sweetness ("good", or any other label for bad) |
| `QualBivariate.PartitionSizes` | cmd/qual_bivariate/main.go:57-65 | the two groups together hold every record once, and the good group has as many points as there are "good" records |
| `QualBivariate.Scatter` | cmd/qual_bivariate/main.go:54-65 | the loop yields the two groups' points and the sums of weight and of sweetness |
| `QualBivariate.LineFrom` | cmd/qual_bivariate/main.go:96-97 | undefined exactly when the variance is 0; otherwise the line passes through (x̄, ȳ) |
| `QualBivariate.LeastSquares` | cmd/qual_bivariate/main.go:79-97 | undefined exactly when every weight is equal; otherwise the least-squares line passes through the means |
| `QualBivariate.FitRecoversLine` | cmd/qual_bivariate/main.go:82-97 | points lying on a non-vertical line y = a·x + b are fitted by exactly that line |
| `QualBivariate.ExactLine` | cmd/qual_bivariate/main.go:96-97 | a cross sum a·sxx with the means on y = a·x + b gives slope a and intercept b |
| `QualBivariate.MeanOnLine` | cmd/qual_bivariate/main.go:79-81 | on an exact line, the mean of y is the line at the mean of x |
| `QualBivariate.Accumulate` | cmd/qual_bivariate/main.go:82-89 | the loop computes the cross sum and both sums of squared deviations about the given means |
| `QualBivariate.NormalisationCancels` | cmd/qual_bivariate/main.go:90-97 | dividing cov and varx by n first leaves slope and intercept unchanged |
| `QualBivariate.Regress` | cmd/qual_bivariate/main.go:78-97 | the means, covariance and variances, and slope and intercept equal to the least-squares line |
| `QualBivariate.WeightRange` | cmd/qual_bivariate/main.go:100-109 | xmin ≤ every weight ≤ xmax, and both are attained |
| `QualBivariate.ExactlyOneBin` | cmd/qual_bivariate/main.go:125-140 | the four bins are disjoint and cover every value; the first match is the value's own bin |
| `QualBivariate.BoundariesGoDown` | cmd/qual_bivariate/main.go:129-140 | the boundary values 1, 2 and 3 are counted in "<=1", "1-2" and "2-3" |
| `QualBivariate.PlaceRecord` | cmd/qual_bivariate/main.go:139-148 | the inner loop raises the first matching bin in the good or the bad counts, by label, and leaves the other counts alone |
| `QualBivariate.Composition` | cmd/qual_bivariate/main.go:136-149 | the good and bad counts are the first-match counts of the good and the bad points |
| `QualBivariate.CompositionTotals` | cmd/qual_bivariate/main.go:136-149 | with the script's bins each group's counts add up to its size |
| `QualBivariate.EveryPointCounted` | cmd/qual_bivariate/main.go:125-149 | every point is counted once by the script's bins |
| `QualBivariate.Analyse` | cmd/qual_bivariate/main.go:13-149 | the points, means, population covariance and both population variances, and the least-squares line of weight against sweetness; the weight bounds; the bin counts, which add up to each group's size and together to n |

## Left out

- Chart drawing and PNG output (gonum `plot`, `plotter`, `Save`, `plotBar`), and the whole of `cmd/boxplot/main.go` and `cmd/fertilizer_boxplot2/main.go`. These are calls into an external plotting library and file output.
- The printed report text and its interpretation branches (the thresholds on standard deviation, skewness and Pearson r). These are presentation only.
- IEEE-754 rounding. Values are exact reals. NaN and infinities from a division by zero appear as `None` where the model keeps the case: `QualBivariate.LineFrom`, `Histogram.AnalyzeDistribution` and `MarksAnalysis.Summarise` (the sample variance of a single mark, 0/0 in the source). Elsewhere the zero-length case is excluded by a precondition, because every mean divides by `len` without a guard.
- The ±Inf sentinels of the sweetness bins are absent bounds (`None`).
- Go map iteration order is unspecified. Loops over a map choose any remaining key, and the results are proved for every order.
- The commented-out program at the top of `main.go` (lines 1-82) is dead code.
- The √n rule for the class count (cmd/marks_analysis/main.go:23, cmd/freq/main.go:76) is not modelled. `MarksAnalysis.FrequencyTable` takes the rounded root as a parameter, and the freq script fixes 6 classes.
- The Pearson coefficient (cmd/qual_bivariate/main.go:93) and the end points of the drawn regression line (line 110) need square roots or only feed the chart.
- The ten-step Newton demonstration in `calculateVarianceAndStdDev` (cmd/workhours/main.go:331-334) only feeds printed text.
- `Workhours.GetStdDev`: states sign and zero only, not that 20 Newton steps approximate √variance, because that is a floating-point convergence claim.
- `MarksAnalysis.Skewness`: `math.Sqrt` is a parameter known only to be 0 at 0 and positive above, so the value is stated in terms of that parameter.
- `Histogram.AnalyzeDistribution`: as for `MarksAnalysis.Skewness`, the standard deviation is the parameter `sqrt` applied to the variance.
- `Histogram.CalculateVariability`: as for `MarksAnalysis.Skewness`, the standard deviation is the parameter `sqrt` applied to the variance.
- In-place sorts (`sort.Ints(data)`, `sort.Float64s(marks)`) are modelled on values. The sorted sequence is returned and used in place of the sorted slice, so aliasing of the slice is not captured.
- The hard-coded samples are not modelled, except the wheat yields of `cmd/freq/main.go` (`Freq.GrainYields`). This includes the work hours, marks, fertilizer yields, the 60 values of `main.go` and the apple records. So the concrete figures printed for them are not proved (for example, mode 40 and median 40 for the work hours, or mode 64 for the fertilizer yields).
- The report methods (`FertilizerStats.Describe`, `Histogram.CalculateVariability`, `WorkhoursPlot.Annotate`, `QualBivariate.Analyse` and others) require a non-empty sample, because the scripts index `data[0]` or divide by `len` without a guard.

## Findings

| source | as written | input that shows it | evidently intended | confidence | as-written member | corrected member |
|---|---|---|---|---|---|---|
| cmd/freq/main.go:82-97 | width = ⌈rng / numClasses⌉; the comment says the last class always contains the maximum | the sample [0, 6] with 6 classes: width 1, classes [0,0] … [5,5], so 6 is in no class and the total is 1, not 2 | a width whose classes always reach the maximum, such as ⌊rng / numClasses⌋ + 1 | not executed | `Freq.LastClassCoversMax` | `Freq.CoveringWidthCovers` |
| cmd/histogram/main.go:329-343 | \|s\| < 0.5 is symmetric, s > 0.5 positive, everything else negative | skewness exactly 0.5, or a constant sample such as [150, 150, 150] whose skewness is 0/0 = NaN: both reported as negatively skewed | s ≥ 0.5 positive, s ≤ −0.5 negative, no spread symmetric | not executed | `Histogram.ShapeAsWrittenNotMirrored` | `Histogram.ShapeOfMirrors` |

The corrected freq table is `Freq.CorrectedFrequencyTable`: every observation is counted. `Freq.MaxDroppedExample` works the [0, 6] case out. The histogram report in the model keeps the rule as written: `Histogram.AnalyzeDistribution` returns `ShapeAsWritten`. Its contract states where that verdict differs from the intended `ShapeOf`, namely only on the two inputs above (`Histogram.ShapeRulesAgree`).
