/**
 * `StatisticalAnalyzer`: per parameter, descriptive statistics for both
 * origins, a normality verdict per origin, the choice among Student's t,
 * Welch's t and Mann-Whitney U, a confidence interval per origin and
 * Cohen's d, with the "insufficient data" record when either origin has
 * fewer than two values.
 *
 * The scipy and numpy routines whose numerics are not modelled (Shapiro-Wilk,
 * Levene, the t-test, Mann-Whitney U, `stats.sem`, `stats.t.ppf`, `np.sqrt`)
 * are uninterpreted functions collected in a `Library` value; `Lawful` states
 * the few facts about them that the interval and effect-size properties need.
 */
module StatisticalAnalyzer {
  import opened Seqs
  import opened Table
  import opened Numerics

  /** A test's statistic and p-value, as scipy returns them. */
  datatype Outcome = Outcome(statistic: real, pValue: real)

  datatype Alternative = TwoSided | Less | Greater

  datatype Library = Library(
    shapiro: seq<real> -> Outcome,
    levene: (seq<real>, seq<real>) -> Outcome,
    ttestInd: (seq<real>, seq<real>, bool) -> Outcome,  // the flag is `equal_var`
    mannWhitneyU: (seq<real>, seq<real>, Alternative) -> Outcome,
    sem: seq<real> -> real,
    tPpf: (real, int) -> real,  // quantile function of Student's t at the given degrees of freedom
    sqrt: real -> real)

  /** What the interval and effect-size properties assume of the library. */
  ghost predicate Lawful(lib: Library) {
    && (forall v: real :: v >= 0.0 ==> lib.sqrt(v) >= 0.0 && (lib.sqrt(v) == 0.0 <==> v == 0.0))
    && (forall x: seq<real> :: lib.sem(x) >= 0.0)
    && (forall q: real, df: int :: 0.5 <= q < 1.0 && df >= 1 ==> lib.tPpf(q, df) >= 0.0)
  }

  /** The analyzer's one setting, the significance level (0.05 by default). */
  datatype Config = Config(alpha: real)

  const DefaultConfig: Config := Config(0.05)

  /** `_ci` is always called with its default confidence level. */
  const DefaultConfidence: real := 0.95

  /** The parameters `perform_analysis` looks for, in this order. */
  const Params: seq<string> := ["viscosidade_40c", "teor_agua", "particulas_4um", "particulas_6um", "particulas_14um"]

  // ---------------------------------------------------------------- _desc

  datatype Description = Description(mean: Option<real>, median: Option<real>, std: Option<real>, count: nat)

  /** `_desc`: numpy yields NaN for the mean and median of an empty sample and for the ddof=1 deviation of fewer than two values. */
  function Describe(lib: Library, x: seq<real>): (d: Description)
    ensures d.count == |x|
    ensures d.mean.Some? <==> |x| > 0
    ensures d.median.Some? <==> |x| > 0
    ensures d.std.Some? <==> |x| >= 2
    ensures d.mean.Some? ==> Minimum(x) <= d.mean.value <= Maximum(x)
    ensures d.median.Some? ==> Minimum(x) <= d.median.value <= Maximum(x)
    ensures d.std.Some? ==> d.std.value == lib.sqrt(SampleVariance(x))
  {
    if |x| == 0 then Description(None, None, None, 0)
    else
      MeanBounds(x);
      MedianBounds(x);
      var std := if |x| >= 2 then Some(lib.sqrt(SampleVariance(x))) else None;
      Description(Some(Mean(x)), Some(Median(x)), std, |x|)
  }

  /** With a lawful square root the deviation is non-negative, and zero for a constant sample. */
  lemma DescribeStd(lib: Library, x: seq<real>)
    requires Lawful(lib) && |x| >= 2
    ensures Describe(lib, x).std.value >= 0.0
    ensures Constant(x) ==> Describe(lib, x).std.value == 0.0
  {
    VarianceNonNegative(x);
    if Constant(x) {
      ConstantVarianceZero(x);
    }
  }

  // ----------------------------------------------------------- _normality

  datatype Normality = Normality(isNormal: bool, pValue: Option<real>, statistic: Option<real>)

  /** `_normality`: fewer than three values are never normal and carry no test; otherwise Shapiro-Wilk decides. */
  function AssessNormality(cfg: Config, lib: Library, x: seq<real>): (n: Normality)
    ensures |x| < 3 ==> n == Normality(false, None, None)
    ensures |x| >= 3 ==> n.pValue == Some(lib.shapiro(x).pValue) && n.statistic == Some(lib.shapiro(x).statistic)
    ensures n.isNormal <==> |x| >= 3 && lib.shapiro(x).pValue > cfg.alpha
  {
    if |x| < 3 then Normality(false, None, None)
    else
      var o := lib.shapiro(x);
      Normality(o.pValue > cfg.alpha, Some(o.pValue), Some(o.statistic))
  }

  // --------------------------------------------------------- _choose_test

  /** The tests the analyzer can report, plus the insufficient-data marker. */
  datatype TestKind = StudentT | WelchT | MannWhitneyU | InsufficientData

  function TestName(k: TestKind): string {
    match k
    case StudentT => "Teste t (variâncias iguais)"
    case WelchT => "Teste t (variâncias diferentes)"
    case MannWhitneyU => "Mann-Whitney U"
    case InsufficientData => "Dados insuficientes"
  }

  /** The reported name tells the four outcomes apart, so it records the variance assumption. */
  lemma TestNameInjective(k1: TestKind, k2: TestKind)
    ensures TestName(k1) == TestName(k2) ==> k1 == k2
  {
  }

  datatype TestResult = TestResult(kind: TestKind, pValue: real, statistic: real)

  /**
   * `_choose_test`: a t-test when both groups are normal, with `equal_var`
   * exactly when Levene's p-value exceeds alpha; Mann-Whitney U, two-sided,
   * in every other case.
   */
  function ChooseTest(cfg: Config, lib: Library, a: seq<real>, b: seq<real>, na: Normality, nb: Normality): (t: TestResult)
    ensures t.kind != InsufficientData
    ensures t.kind in {StudentT, WelchT} <==> na.isNormal && nb.isNormal
    ensures t.kind == StudentT <==> na.isNormal && nb.isNormal && lib.levene(a, b).pValue > cfg.alpha
    ensures t.kind in {StudentT, WelchT} ==> Outcome(t.statistic, t.pValue) == lib.ttestInd(a, b, t.kind == StudentT)
    ensures t.kind == MannWhitneyU ==> Outcome(t.statistic, t.pValue) == lib.mannWhitneyU(a, b, TwoSided)
  {
    if na.isNormal && nb.isNormal then
      var equalVar := lib.levene(a, b).pValue > cfg.alpha;
      var o := lib.ttestInd(a, b, equalVar);
      TestResult(if equalVar then StudentT else WelchT, o.pValue, o.statistic)
    else
      var o := lib.mannWhitneyU(a, b, TwoSided);
      TestResult(MannWhitneyU, o.pValue, o.statistic)
  }

  // ------------------------------------------------------------------ _ci

  datatype Interval = Undefined | Bounds(lower: real, upper: real)

  /** Standard error times the two-sided critical value of t at n - 1 degrees of freedom. */
  function HalfWidth(lib: Library, x: seq<real>, confidence: real): real {
    lib.sem(x) * lib.tPpf((1.0 + confidence) / 2.0, |x| - 1)
  }

  /** `_ci`: undefined below two values, otherwise symmetric about the mean. */
  function ConfidenceInterval(lib: Library, x: seq<real>, confidence: real): (ci: Interval)
    ensures ci.Undefined? <==> |x| < 2
    ensures ci.Bounds? ==> ci.upper - Mean(x) == Mean(x) - ci.lower == HalfWidth(lib, x, confidence)
  {
    if |x| < 2 then Undefined
    else
      var m, h := Mean(x), HalfWidth(lib, x, confidence);
      Bounds(m - h, m + h)
  }

  /** For a confidence level in [0, 1) and a lawful library, the interval contains the mean. */
  lemma IntervalContainsMean(lib: Library, x: seq<real>, confidence: real)
    requires Lawful(lib) && 0.0 <= confidence < 1.0 && |x| >= 2
    ensures var ci := ConfidenceInterval(lib, x, confidence);
      ci.Bounds? && ci.lower <= Mean(x) <= ci.upper
  {
    var s, t := lib.sem(x), lib.tPpf((1.0 + confidence) / 2.0, |x| - 1);
    assert s >= 0.0 && t >= 0.0;
    ProductNonNegative(s, t);
  }

  // ------------------------------------------------------------- _cohen_d

  /** The pooled variance, ((n1 - 1) s1 + (n2 - 1) s2) / (n1 + n2 - 2). */
  function PooledVariance(a: seq<real>, b: seq<real>): real
    requires |a| >= 2 && |b| >= 2
  {
    (((|a| - 1) as real) * SampleVariance(a) + ((|b| - 1) as real) * SampleVariance(b)) / ((|a| + |b| - 2) as real)
  }

  function PooledSd(lib: Library, a: seq<real>, b: seq<real>): real
    requires |a| >= 2 && |b| >= 2
  {
    lib.sqrt(PooledVariance(a, b))
  }

  /**
   * `_cohen_d`: the mean difference in pooled-deviation units; NaN when the
   * pooled deviation is zero, and NaN (through numpy's ddof=1 variance) when
   * either group has fewer than two values.
   */
  function CohenD(lib: Library, a: seq<real>, b: seq<real>): (d: Option<real>)
    ensures |a| < 2 || |b| < 2 ==> d.None?
    ensures |a| >= 2 && |b| >= 2 ==> (d.None? <==> PooledSd(lib, a, b) == 0.0)
    ensures d.Some? ==> d.value * PooledSd(lib, a, b) == Mean(a) - Mean(b)
  {
    if |a| < 2 || |b| < 2 then None
    else Standardized(Mean(a) - Mean(b), PooledSd(lib, a, b))
  }

  /** `diff / pooled`, NaN when the divisor is zero. */
  function Standardized(diff: real, pooled: real): (z: Option<real>)
    ensures z.None? <==> pooled == 0.0
    ensures z.Some? ==> z.value * pooled == diff
  {
    if pooled == 0.0 then None
    else
      QuotientTimesDivisor(diff, pooled);
      Some(diff / pooled)
  }

  lemma PooledVarianceNonNegative(a: seq<real>, b: seq<real>)
    requires |a| >= 2 && |b| >= 2
    ensures PooledVariance(a, b) >= 0.0
  {
    VarianceNonNegative(a);
    VarianceNonNegative(b);
    var va, vb := SampleVariance(a), SampleVariance(b);
    var ka, kb := (|a| - 1) as real, (|b| - 1) as real;
    ProductNonNegative(ka, va);
    ProductNonNegative(kb, vb);
    DivideZero(ka * va + kb * vb, (|a| + |b| - 2) as real);
  }

  /** Two constant groups have zero pooled spread, so their effect size is undefined rather than 0. */
  lemma CohenDUndefinedForConstantGroups(lib: Library, a: seq<real>, b: seq<real>)
    requires Lawful(lib) && |a| >= 2 && |b| >= 2 && Constant(a) && Constant(b)
    ensures CohenD(lib, a, b).None?
  {
    ConstantVarianceZero(a);
    ConstantVarianceZero(b);
    var ka, kb := (|a| - 1) as real, (|b| - 1) as real;
    assert ka * SampleVariance(a) == 0.0 && kb * SampleVariance(b) == 0.0;
    DivideZero(0.0, (|a| + |b| - 2) as real);
    assert PooledVariance(a, b) == 0.0;
  }

  /** When defined, the effect size has the sign of the mean difference. */
  lemma CohenDSign(lib: Library, a: seq<real>, b: seq<real>)
    requires Lawful(lib) && CohenD(lib, a, b).Some?
    ensures var d := CohenD(lib, a, b).value;
      && (d > 0.0 <==> Mean(a) > Mean(b))
      && (d < 0.0 <==> Mean(a) < Mean(b))
      && (d == 0.0 <==> Mean(a) == Mean(b))
  {
    PooledVarianceNonNegative(a, b);
    var pooled := PooledSd(lib, a, b);
    assert pooled > 0.0;
    QuotientSign(Mean(a) - Mean(b), pooled);
  }

  /** Swapping the groups negates the effect size and keeps it undefined when it was. */
  lemma CohenDAntisymmetric(lib: Library, a: seq<real>, b: seq<real>)
    ensures CohenD(lib, b, a).None? <==> CohenD(lib, a, b).None?
    ensures CohenD(lib, a, b).Some? ==> CohenD(lib, b, a).value == -CohenD(lib, a, b).value
  {
    if |a| >= 2 && |b| >= 2 {
      assert PooledVariance(a, b) == PooledVariance(b, a);
      var pooled := PooledSd(lib, a, b);
      if pooled != 0.0 {
        QuotientOfNegation(Mean(a) - Mean(b), pooled);
      }
    }
  }

  // ------------------------------------------------- _analyze_param

  datatype AnalysisResult = AnalysisResult(
    meanMineradora: Option<real>, meanDistribuidora: Option<real>,
    medianMineradora: Option<real>, medianDistribuidora: Option<real>,
    stdMineradora: Option<real>, stdDistribuidora: Option<real>,
    normalityMineradora: Normality, normalityDistribuidora: Normality,
    testUsed: TestKind, pValue: Option<real>, statistic: Option<real>,
    ciMineradora: Interval, ciDistribuidora: Interval,
    effectSize: Option<real>)

  /** `_insufficient`: every figure NaN, both groups non-normal without a p-value. */
  const Insufficient: AnalysisResult := AnalysisResult(
    None, None, None, None, None, None,
    Normality(false, None, None), Normality(false, None, None),
    InsufficientData, None, None, Undefined, Undefined, None)

  /** Every numeric field of the record is unavailable. */
  predicate NothingAvailable(r: AnalysisResult) {
    && r.meanMineradora.None? && r.meanDistribuidora.None?
    && r.medianMineradora.None? && r.medianDistribuidora.None?
    && r.stdMineradora.None? && r.stdDistribuidora.None?
    && !r.normalityMineradora.isNormal && r.normalityMineradora.pValue.None?
    && !r.normalityDistribuidora.isNormal && r.normalityDistribuidora.pValue.None?
    && r.pValue.None? && r.statistic.None?
    && r.ciMineradora.Undefined? && r.ciDistribuidora.Undefined?
    && r.effectSize.None?
  }

  /** `_analyze_param`. */
  function AnalyzeParam(cfg: Config, lib: Library, rows: seq<Row>, param: string): (r: AnalysisResult)
    ensures var m, d := Sample(rows, Mineradora, param), Sample(rows, Distribuidora, param);
      && (r.testUsed == InsufficientData <==> |m| < 2 || |d| < 2)
      && (r.testUsed == InsufficientData ==> NothingAvailable(r))
      && (r.testUsed != InsufficientData ==>
            && r.meanMineradora == Some(Mean(m)) && r.meanDistribuidora == Some(Mean(d))
            && r.medianMineradora == Some(Median(m)) && r.medianDistribuidora == Some(Median(d))
            && r.stdMineradora == Some(lib.sqrt(SampleVariance(m)))
            && r.stdDistribuidora == Some(lib.sqrt(SampleVariance(d)))
            && r.normalityMineradora == AssessNormality(cfg, lib, m)
            && r.normalityDistribuidora == AssessNormality(cfg, lib, d)
            && r.testUsed == ChooseTest(cfg, lib, m, d, r.normalityMineradora, r.normalityDistribuidora).kind
            && r.pValue == Some(ChooseTest(cfg, lib, m, d, r.normalityMineradora, r.normalityDistribuidora).pValue)
            && r.statistic == Some(ChooseTest(cfg, lib, m, d, r.normalityMineradora, r.normalityDistribuidora).statistic)
            && r.ciMineradora.Bounds? && r.ciMineradora == ConfidenceInterval(lib, m, DefaultConfidence)
            && r.ciDistribuidora.Bounds? && r.ciDistribuidora == ConfidenceInterval(lib, d, DefaultConfidence)
            && r.effectSize == CohenD(lib, m, d))
  {
    var m, d := Sample(rows, Mineradora, param), Sample(rows, Distribuidora, param);
    if |m| < 2 || |d| < 2 then Insufficient
    else
      var statsM, statsD := Describe(lib, m), Describe(lib, d);
      var normM, normD := AssessNormality(cfg, lib, m), AssessNormality(cfg, lib, d);
      var test := ChooseTest(cfg, lib, m, d, normM, normD);
      AnalysisResult(
        statsM.mean, statsD.mean, statsM.median, statsD.median, statsM.std, statsD.std,
        normM, normD, test.kind, Some(test.pValue), Some(test.statistic),
        ConfidenceInterval(lib, m, DefaultConfidence), ConfidenceInterval(lib, d, DefaultConfidence),
        CohenD(lib, m, d))
  }

  /**
   * A t-test needs three values in each group, so a group with exactly two
   * values always gets Mann-Whitney U (or the insufficient record when the
   * other group has fewer than two).
   */
  lemma TTestNeedsThreeValues(cfg: Config, lib: Library, rows: seq<Row>, param: string)
    ensures var m, d := Sample(rows, Mineradora, param), Sample(rows, Distribuidora, param);
      var t := AnalyzeParam(cfg, lib, rows, param).testUsed;
      && (t in {StudentT, WelchT} ==> |m| >= 3 && |d| >= 3)
      && ((|m| == 2 && |d| >= 2) || (|d| == 2 && |m| >= 2) ==> t == MannWhitneyU)
  {
  }

  // ---------------------------------------------------- perform_analysis

  /** The per-parameter step of `perform_analysis`: parameters missing from the frame are skipped. */
  function ParamAnalyzer(cfg: Config, lib: Library, df: Frame): string -> Option<AnalysisResult> {
    p => if p in df.columns then Some(AnalyzeParam(cfg, lib, df.rows, p)) else None
  }

  /**
   * `perform_analysis`: one record for each of the five known parameters that
   * is a column of the frame, in the fixed order; absent parameters get none.
   */
  method PerformAnalysis(cfg: Config, lib: Library, df: Frame) returns (results: seq<(string, AnalysisResult)>)
    ensures results == Collect(Params, ParamAnalyzer(cfg, lib, df))
    ensures forall p :: p in Keys(results) <==> p in Params && p in df.columns
    ensures IsSubsequence(Keys(results), Params)
    ensures forall i :: 0 <= i < |results| ==> results[i].1 == AnalyzeParam(cfg, lib, df.rows, results[i].0)
  {
    results := [];
    var i := 0;
    while i < |Params|
      invariant 0 <= i <= |Params|
      invariant results == Collect(Params[..i], ParamAnalyzer(cfg, lib, df))
    {
      var p := Params[i];
      assert Params[..i + 1][..i] == Params[..i];
      if p in df.columns {
        results := results + [(p, AnalyzeParam(cfg, lib, df.rows, p))];
      }
      i := i + 1;
    }
    assert Params[..i] == Params;
    AnalyzedParams(cfg, lib, df);
  }

  /** The dictionary `perform_analysis` builds: its keys, their order and their values. */
  lemma AnalyzedParams(cfg: Config, lib: Library, df: Frame)
    ensures var results := Collect(Params, ParamAnalyzer(cfg, lib, df));
      && (forall p :: p in Keys(results) <==> p in Params && p in df.columns)
      && IsSubsequence(Keys(results), Params)
      && (forall i :: 0 <= i < |results| ==> results[i].1 == AnalyzeParam(cfg, lib, df.rows, results[i].0))
  {
    var f := ParamAnalyzer(cfg, lib, df);
    CollectKeys(Params, f);
    CollectValues(Params, f);
    var idx := CollectOrder(Params, f);
  }
}
