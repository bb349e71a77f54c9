# Lubricant quality comparison engine — Dafny model

This project models the decision core of a tool that compares laboratory
reports of the same lubricating fluid from two origins, the *Mineradora*
(the mining company) and the *Distribuidora* (the distributor). Its three
engines are:

- **`StatisticalAnalyzer`** (`statistical_analyzer.dfy`). For each of five
  known parameters (viscosity at 40 °C, water content, and particle counts
  at 4, 6 and 14 µm) it:
  - describes both origins' samples;
  - judges normality with Shapiro-Wilk (three values or more);
  - picks Student's t, Welch's t or a two-sided Mann-Whitney U test;
  - computes a 95 % confidence interval per origin and Cohen's d.

  Either origin having fewer than two values yields the "Dados
  insuficientes" record instead.
- **`ParameterClassifier`** (`classifier.dfy`). It labels every parameter
  column that both origins report, comparing the two means with a normative
  range and with a divergence threshold. "Fora do Padrão" (out of standard) wins
  over "Divergente", which wins over "Normal".
- **`IshikawaAnalyzer`** (`ishikawa.dfy`). It suggests probable causes in
  the six categories of an Ishikawa diagram for the flagged parameters:
  - Each category lists the flagged parameters' specific causes first.
  - A category with fewer than three entries is topped up from a general
    list.
  - Each category is then deduplicated and cut to five.
  - With nothing flagged it returns one fixed piece of advice per category.

Supporting modules:

- `table.dfy`: the input frame. It has one row per report, with its origin
  and its cells. The pandas selection `df[df['origem'] == o][col].dropna()`
  is `Sample`. Python's insertion-ordered result dictionaries are sequences
  of (key, value) pairs. `Collect` is the ordered dictionary that a loop
  over keys builds.
- `numerics.dfy`: `np.mean`, `np.median` and `np.var(ddof=1)`, computed
  exactly over the reals.
- `seqs.dfy`: duplicate-freedom, the `lst[:n]` slice, order-preserving
  subsequences given by an index witness, and first-occurrence
  deduplication (`Dedup`).

The scipy routines, `stats.sem`, `stats.t.ppf` and `np.sqrt` are
uninterpreted functions, passed in as a `Library` value. `Lawful(lib)`
lists the only facts assumed about them:
- a square root is non-negative, and zero exactly at zero;
- standard errors are non-negative;
- the t quantile is non-negative from the median up.

A NaN result is `None` (or the `Undefined` interval).

The three loops over dictionaries, and the loops of `suggest_causes`, are
methods. Each is proved against a specification function
(`Collect`, `SpecificCauses`, `TopUp`, `Dedup`, `Suggestions`), and the
properties are lemmas about those functions.

## Model

| member | source | states |
|---|---|---|
| `Table.SampleValues` | statistical_analyzer.py:26-27 | `dropna` over the rows of one origin keeps one value per contributing row, in row order, repeats included. An increasing index list names exactly the rows of that origin with a present cell, and the k-th sample value is the cell of the k-th such row. The sample is never longer than the frame. |
| `Table.SampleMembers` | statistical_analyzer.py:26-27 | The sample holds the present value of every row of that origin, and only such values. |
| `Numerics.MeanBounds` | statistical_analyzer.py:62 | The mean of a non-empty sample lies between its smallest and largest value. |
| `Numerics.Sort` | statistical_analyzer.py:63 | The sorted sample that `np.median` works on is ordered and a permutation of the sample. |
| `Numerics.MedianBounds` | statistical_analyzer.py:63 | The median lies between the smallest and the largest value. |
| `Numerics.VarianceNonNegative` | statistical_analyzer.py:97 | The ddof=1 sample variance is never negative. |
| `Numerics.ConstantVarianceZero` | statistical_analyzer.py:97 | A sample whose values are all equal has zero variance. |
| `StatisticalAnalyzer.Describe` | statistical_analyzer.py:60-66 | The count is the sample size. Mean and median are defined exactly for a non-empty sample and lie within its range. The ddof=1 deviation is defined exactly from two values on and is the square root of the sample variance. |
| `StatisticalAnalyzer.DescribeStd` | statistical_analyzer.py:64 | Given a lawful square root, the deviation is non-negative and is zero for a constant sample. |
| `StatisticalAnalyzer.AssessNormality` | statistical_analyzer.py:68-72 | Below three values: not normal, with no p-value and no statistic. Otherwise Shapiro-Wilk's statistic and p-value are reported, and the sample is normal exactly when p > alpha. |
| `StatisticalAnalyzer.TestNameInjective` | statistical_analyzer.py:80-85 | The reported test names are all different, so the name records which test ran and its variance assumption. |
| `StatisticalAnalyzer.ChooseTest` | statistical_analyzer.py:74-85 | A t-test runs exactly when both groups are normal. Student's t runs exactly when Levene's p also exceeds alpha, and its `equal_var` flag matches. Otherwise a two-sided Mann-Whitney U runs. The reported statistic and p-value are those of the test that ran. |
| `StatisticalAnalyzer.ConfidenceInterval` | statistical_analyzer.py:87-93 | Undefined exactly below two values. Otherwise symmetric about the mean, with half-width sem × t quantile at n - 1 degrees of freedom. |
| `StatisticalAnalyzer.IntervalContainsMean` | statistical_analyzer.py:90-93 | For a confidence level in [0, 1) and a lawful library, the interval contains the mean. |
| `StatisticalAnalyzer.Standardized` | statistical_analyzer.py:99-101 | A zero divisor gives NaN. Otherwise the result times the pooled deviation is the mean difference. |
| `StatisticalAnalyzer.CohenD` | statistical_analyzer.py:95-101 | Undefined when a group has fewer than two values. Otherwise undefined exactly when the pooled deviation is zero. When defined, d × pooled deviation is mean(a) - mean(b). |
| `StatisticalAnalyzer.PooledVarianceNonNegative` | statistical_analyzer.py:97-98 | The pooled variance under the square root is never negative. |
| `StatisticalAnalyzer.CohenDUndefinedForConstantGroups` | statistical_analyzer.py:97-100 | Two constant groups give NaN as effect size, not 0. |
| `StatisticalAnalyzer.CohenDSign` | statistical_analyzer.py:101 | A defined effect size is positive, negative or zero exactly as mean(a) - mean(b) is. |
| `StatisticalAnalyzer.CohenDAntisymmetric` | statistical_analyzer.py:95-101 | Swapping the groups keeps the effect undefined or negates its value. |
| `StatisticalAnalyzer.AnalyzeParam` | statistical_analyzer.py:25-58 | The insufficient record, with nothing available, comes exactly when a group has fewer than two values. Otherwise means, medians, deviations, normality, both intervals and Cohen's d are those of the two samples. The test, its p-value and its statistic are those of the test `_choose_test` picks. |
| `StatisticalAnalyzer.TTestNeedsThreeValues` | statistical_analyzer.py:29-38 | A t-test is only ever chosen with three or more values per group. A group of exactly two values next to a sufficient group always gets Mann-Whitney U. |
| `StatisticalAnalyzer.PerformAnalysis` | statistical_analyzer.py:11-23 | The loop builds the ordered dictionary of the five parameters. Its keys are exactly the known parameters present in the frame, in the fixed order, and each value is that parameter's analysis. |
| `StatisticalAnalyzer.AnalyzedParams` | statistical_analyzer.py:20-22 | The dictionary's keys, their order and their values, proved from `Collect`. |
| `Classifier.DivergentSymmetric` | classifier.py:73-77 | Divergence does not depend on which origin comes first. |
| `Classifier.EqualMeansDoNotDiverge` | classifier.py:73-77 | With a positive threshold (or none), equal means never diverge. |
| `Classifier.ClassifyMeans` | classifier.py:33-65 | With precedence, the label is "Fora do Padrão" exactly when a mean is outside the range, "Divergente" otherwise exactly when the means diverge, and "Normal" otherwise. For that label the details are exactly: the Mineradora mean if it is out of range, then the Distribuidora mean if it is out of range, then the range. A divergence detail gives the difference and the threshold; a normal label gets the agreement note. The means and flags are reported. |
| `Classifier.ClassifyOne` | classifier.py:28-34 | Nothing when either origin has no value. Otherwise the classification of the two sample means. |
| `Classifier.ClassifiedMeansBounded` | classifier.py:33-34 | Each reported mean lies within the range of its origin's values. |
| `Classifier.WithinValuesNotOutOfSpec` | classifier.py:35-39 | When every value of both origins is in the normative range, the parameter is not out of standard. |
| `Classifier.UnregisteredAlwaysNormal` | classifier.py:67-77 | A parameter with neither a range nor a threshold is always normal. |
| `Classifier.WaterContentDivergent` | classifier.py:49-52 | Water content at 100 and 170 ppm (70 apart, threshold 50) is divergent, with detail difference 70 and limit 50. |
| `Classifier.WaterContentOutOfSpec` | classifier.py:39-48 | Water content at 250 and 190 ppm is out of standard even though it also diverges. The details are the Mineradora mean and the 0-200 ppm range. |
| `Classifier.WaterContentNormal` | classifier.py:53-55 | Water content at 100 and 120 ppm is normal. |
| `Classifier.ClassifyParameters` | classifier.py:18-26 | Its keys are exactly the columns other than `origem` where both origins have a value, in column order and without repeats. Each value is that column's classification. |
| `Classifier.ClassifiedColumns` | classifier.py:20-25 | The same key, order and value facts proved about `Collect` over the columns. |
| `Seqs.DedupDistinctMembers` | ishikawa_analyzer.py:88-93 | The deduplicated list has no repeats, has exactly the elements of the list and is no longer. |
| `Seqs.DedupFirstOccurrences` | ishikawa_analyzer.py:88-93 | Deduplication keeps each element at its first occurrence, in order. |
| `Seqs.DedupPrefix` | ishikawa_analyzer.py:88-93 | Appending elements never changes the deduplication of what came before. |
| `Seqs.DedupOfDistinct` | ishikawa_analyzer.py:88-93 | A list without repeats is left as it is. |
| `Ishikawa.DefaultTablesComplete` | ishikawa_analyzer.py:3-31 | The general cause table has all six categories. |
| `Ishikawa.ProblemsMembers` | ishikawa_analyzer.py:64 | The problems are exactly the parameters labelled "Divergente" or "Fora do Padrão". |
| `Ishikawa.ProblemsInOrder` | ishikawa_analyzer.py:64 | The problems keep the classification order. |
| `Ishikawa.NothingFlagged` | ishikawa_analyzer.py:64-65 | Without a flagged entry the problem list is empty. |
| `Ishikawa.SpecificCausesConcat` | ishikawa_analyzer.py:75-78 | The specific causes of two runs of problems are those of each run, in turn. |
| `Ishikawa.UnlistedProblemsContributeNothing` | ishikawa_analyzer.py:76 | Problems without a specific table add no cause. |
| `Ishikawa.TopUpShape` | ishikawa_analyzer.py:82-84 | A list of k < 3 causes gets the first min(3 - k, available) general causes appended. A longer list is unchanged. |
| `Ishikawa.DedupList` | ishikawa_analyzer.py:88-93 | The seen-set loop computes `Dedup`. |
| `Ishikawa.AddContribution` | ishikawa_analyzer.py:76-78 | Every category is extended by the flagged parameter's specific causes for it, if any. Categories the parameter's table does not list get nothing. |
| `Ishikawa.CollectSpecific` | ishikawa_analyzer.py:62-78 | Starting from empty lists, every category holds the specific causes of all problems in problem order. |
| `Ishikawa.TopUpAll` | ishikawa_analyzer.py:81-84 | Every category is topped up from its general list and nothing else changes. |
| `Ishikawa.DedupAll` | ishikawa_analyzer.py:87-94 | Every category is deduplicated and cut to five. |
| `Ishikawa.SuggestCauses` | ishikawa_analyzer.py:61-95 | The method returns `Suggestions`: the fallback advice when nothing is flagged, otherwise per category the specific causes, then the top-up, then deduplication and the cut to five. |
| `Ishikawa.AssembledSuggestions` | ishikawa_analyzer.py:61-95 | A map holding `CategoryCauses` at all six categories is `Suggestions`. |
| `Ishikawa.SuggestionsAt` | ishikawa_analyzer.py:75-95 | With problems, each category maps to its specific causes, topped up, deduplicated and cut to five. |
| `Ishikawa.SuggestionsCoverCategories` | ishikawa_analyzer.py:62-73 | All six categories are keys of the result, also those left with no cause. |
| `Ishikawa.NoProblemsGiveFallback` | ishikawa_analyzer.py:64-73 | With nothing flagged the result is the fixed advice, one entry per category. |
| `Ishikawa.CategoryCausesDistinctAndShort` | ishikawa_analyzer.py:86-94 | A category's list has no repeats and at most five causes. |
| `Ishikawa.SuggestionsDistinctAndShort` | ishikawa_analyzer.py:61-95 | Every category of the result has no repeats and at most five causes, flagged or not. |
| `Ishikawa.CategoryCausesAreOrdered` | ishikawa_analyzer.py:75-94 | A category's list is a subsequence of its specific causes followed by its general list. |
| `Ishikawa.SuggestionsAreOrderedCauses` | ishikawa_analyzer.py:61-95 | The same ordering holds for every category of the result. |
| `Ishikawa.CategoryCausesStartWithSpecific` | ishikawa_analyzer.py:75-94 | A category's list begins with the deduplicated specific causes, as many as fit in five. |
| `Ishikawa.SpecificCausesComeFirst` | ishikawa_analyzer.py:61-95 | The specific-first property holds for every category of the result. |
| `Ishikawa.CategoryCausesWithoutRepeats` | ishikawa_analyzer.py:80-94 | With no repeated cause and at most five specific ones, deduplication and the cut change nothing. The list is the specific causes plus the top-up. |

## Left out

- The PDF extraction, the plotting module and the user-interface shell are outside the modelled core. Rows arrive already parsed into a `Frame`.
- Floating point is not modelled. Means, medians and variances are exact reals, and a NaN result (an empty group's mean, `float('nan')` intervals and effect sizes) is `None` or `Undefined`.
- The numerics of Shapiro-Wilk, Levene, `ttest_ind`, `mannwhitneyu`, `stats.sem`, `stats.t.ppf` and `np.sqrt` are not modelled. The model only uses the facts listed in `Lawful`.
- The insufficient record (`Insufficient`): the source's version gives normality as a dictionary without a `statistic` key. The model gives it `statistic = None`, so "absent" and "None" cannot be told apart.
- Classifier.ClassifyMeans: the detail strings are structured `Detail` values (`OutOfLimit`, `LimitRange`, `Difference`, `WithinAndAgreeing`). Their `:.2f` number formatting and the `"; "` join are not modelled.
- Numerics.ConstantVarianceZero: only "a constant sample has zero variance" is proved. The converse, that zero variance implies a constant sample, is not proved.
- Ishikawa.AddContribution: the order in which a parameter's specific table is walked is an arbitrary choice of category. Each category's list receives one block, so the result is the same for every order.
- Origin labels other than "Mineradora" and "Distribuidora" are not modelled. Rows with another `origem` value belong to neither group in the source. The model's `Origin` has only the two values.
- The category keys are the `Category` datatype rather than strings. The source's KeyError for a specific table naming an unknown category therefore cannot arise. The string names are kept in `CategoryName`.
- `suggest_causes` receives the classifier's full records, but only the label is consulted. The model passes `Classification` values and reads `verdict`.
- Ishikawa.Suggestions: the result is a `map`, which has no order. The source returns an insertion-ordered dictionary whose keys follow the general table's category order (the order `CategoryOrder` records), in both the fallback and the flagged branch. That order is not part of the modelled result.
- The default cause tables' concrete suggestion lists are not worked out in lemmas. Only the general properties above are proved, for any tables with all six categories.
- `StatisticalAnalyzer.__init__`'s `alpha` is the `Config` value, 0.05 by default. The `confidence` argument of `_ci` is always its default 0.95 at the only call site.
