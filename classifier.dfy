/**
 * `ParameterClassifier`: labels each parameter by comparing the two origins'
 * means with a normative range and with a divergence threshold. "Fora do
 * Padrão" (out of standard) takes precedence over "Divergente", which takes
 * precedence over "Normal".
 */
module Classifier {
  import opened Seqs
  import opened Table
  import opened Numerics

  /** A normative range and its unit. */
  datatype Limit = Limit(min: real, max: real, unit: string)

  /** The classifier's two tables: normative ranges and divergence thresholds, by parameter. */
  datatype Criteria = Criteria(limits: map<string, Limit>, thresholds: map<string, real>)

  /** The tables the classifier is built with. */
  const DefaultCriteria: Criteria := Criteria(
    map[
      "viscosidade_40c" := Limit(2.0, 4.1, "cSt"),
      "teor_agua" := Limit(0.0, 200.0, "ppm"),
      "particulas_14um" := Limit(0.0, 20.0, "part/mL")],
    map[
      "viscosidade_40c" := 0.4,
      "teor_agua" := 50.0,
      "particulas_14um" := 5.0])

  datatype Label = Normal | Divergente | ForaDoPadrao

  function LabelText(l: Label): string {
    match l
    case Normal => "Normal"
    case Divergente => "Divergente"
    case ForaDoPadrao => "Fora do Padrão"
  }

  /** One entry of the `details` text, before it is formatted and joined with "; ". */
  datatype Detail =
    | OutOfLimit(origin: Origin, mean: real)     // "<origin> fora do limite: <mean>"
    | LimitRange(limit: Limit)                    // "Limite: <min>-<max> <unit>"
    | Difference(amount: real, threshold: real)   // "Diferença de <amount> (limite <threshold>)"
    | WithinAndAgreeing                           // "Dentro dos limites e sem divergência significativa"

  datatype Classification = Classification(
    verdict: Label,
    details: seq<Detail>,
    meanMineradora: real,
    meanDistribuidora: real,
    withinMineradora: bool,
    withinDistribuidora: bool,
    isDivergent: bool)

  function Abs(x: real): real {
    if x < 0.0 then -x else x
  }

  /** `_within`: a parameter without a normative range is always within it. */
  predicate Within(cr: Criteria, param: string, v: real) {
    param in cr.limits ==> cr.limits[param].min <= v <= cr.limits[param].max
  }

  /** `_divergent`: a parameter without a threshold never diverges. */
  predicate Divergent(cr: Criteria, param: string, a: real, b: real) {
    param in cr.thresholds && Abs(a - b) >= cr.thresholds[param]
  }

  /** Divergence does not depend on which origin comes first. */
  lemma DivergentSymmetric(cr: Criteria, param: string, a: real, b: real)
    ensures Divergent(cr, param, a, b) <==> Divergent(cr, param, b, a)
  {
  }

  /** With a positive threshold, equal means never diverge. */
  lemma EqualMeansDoNotDiverge(cr: Criteria, param: string, a: real)
    requires param in cr.thresholds ==> cr.thresholds[param] > 0.0
    ensures !Divergent(cr, param, a, a)
  {
  }

  /** The body of `_classify_one` once both means are known. */
  function ClassifyMeans(cr: Criteria, param: string, ma: real, mb: real): (c: Classification)
    ensures c.meanMineradora == ma && c.meanDistribuidora == mb
    ensures c.withinMineradora == Within(cr, param, ma) && c.withinDistribuidora == Within(cr, param, mb)
    ensures c.isDivergent == Divergent(cr, param, ma, mb)
    ensures c.verdict == ForaDoPadrao <==> !Within(cr, param, ma) || !Within(cr, param, mb)
    ensures c.verdict == Divergente <==> Within(cr, param, ma) && Within(cr, param, mb) && Divergent(cr, param, ma, mb)
    ensures c.verdict == Normal <==> Within(cr, param, ma) && Within(cr, param, mb) && !Divergent(cr, param, ma, mb)
    ensures c.verdict == ForaDoPadrao ==> param in cr.limits
    ensures OutOfLimit(Mineradora, ma) in c.details <==> !Within(cr, param, ma)
    ensures OutOfLimit(Distribuidora, mb) in c.details <==> !Within(cr, param, mb)
    ensures c.verdict == ForaDoPadrao ==> 2 <= |c.details| <= 3 && c.details[|c.details| - 1] == LimitRange(cr.limits[param])
    ensures c.verdict == ForaDoPadrao ==>
      && |c.details| == (if Within(cr, param, ma) then 0 else 1) + (if Within(cr, param, mb) then 0 else 1) + 1
      && (!Within(cr, param, ma) ==> c.details[0] == OutOfLimit(Mineradora, ma))
      && (!Within(cr, param, mb) ==> c.details[|c.details| - 2] == OutOfLimit(Distribuidora, mb))
    ensures c.verdict == Divergente ==> c.details == [Difference(Abs(ma - mb), cr.thresholds[param])]
    ensures c.verdict == Normal ==> c.details == [WithinAndAgreeing]
  {
    var withinA, withinB := Within(cr, param, ma), Within(cr, param, mb);
    var divergent := Divergent(cr, param, ma, mb);
    if !withinA || !withinB then
      var details :=
        (if !withinA then [OutOfLimit(Mineradora, ma)] else []) +
        (if !withinB then [OutOfLimit(Distribuidora, mb)] else []) +
        (if param in cr.limits then [LimitRange(cr.limits[param])] else []);
      Classification(ForaDoPadrao, details, ma, mb, withinA, withinB, divergent)
    else if divergent then
      var thr := if param in cr.thresholds then cr.thresholds[param] else 0.0;
      Classification(Divergente, [Difference(Abs(ma - mb), thr)], ma, mb, withinA, withinB, divergent)
    else
      Classification(Normal, [WithinAndAgreeing], ma, mb, withinA, withinB, divergent)
  }

  /** `_classify_one`: nothing when either origin has no value of the parameter. */
  function ClassifyOne(cr: Criteria, rows: seq<Row>, param: string): (c: Option<Classification>)
    ensures var a, b := Sample(rows, Mineradora, param), Sample(rows, Distribuidora, param);
      && (c.None? <==> |a| == 0 || |b| == 0)
      && (c.Some? ==> c.value == ClassifyMeans(cr, param, Mean(a), Mean(b)))
  {
    var a, b := Sample(rows, Mineradora, param), Sample(rows, Distribuidora, param);
    if |a| == 0 || |b| == 0 then None
    else Some(ClassifyMeans(cr, param, Mean(a), Mean(b)))
  }

  /** Each reported mean lies between the smallest and largest value of its origin. */
  lemma ClassifiedMeansBounded(cr: Criteria, rows: seq<Row>, param: string)
    requires ClassifyOne(cr, rows, param).Some?
    ensures var a, b := Sample(rows, Mineradora, param), Sample(rows, Distribuidora, param);
      var c := ClassifyOne(cr, rows, param).value;
      && Minimum(a) <= c.meanMineradora <= Maximum(a)
      && Minimum(b) <= c.meanDistribuidora <= Maximum(b)
  {
    MeanBounds(Sample(rows, Mineradora, param));
    MeanBounds(Sample(rows, Distribuidora, param));
  }

  /** When every value of both origins lies in the normative range, the parameter is not out of standard. */
  lemma WithinValuesNotOutOfSpec(cr: Criteria, rows: seq<Row>, param: string)
    requires ClassifyOne(cr, rows, param).Some?
    requires param in cr.limits
    requires forall v :: v in Sample(rows, Mineradora, param) ==> cr.limits[param].min <= v <= cr.limits[param].max
    requires forall v :: v in Sample(rows, Distribuidora, param) ==> cr.limits[param].min <= v <= cr.limits[param].max
    ensures ClassifyOne(cr, rows, param).value.verdict != ForaDoPadrao
  {
    var a, b := Sample(rows, Mineradora, param), Sample(rows, Distribuidora, param);
    var lim := cr.limits[param];
    forall i | 0 <= i < |a| ensures lim.min <= a[i] <= lim.max {
      assert a[i] in a;
    }
    forall i | 0 <= i < |b| ensures lim.min <= b[i] <= lim.max {
      assert b[i] in b;
    }
    MeanAtLeast(a, lim.min);
    MeanAtMost(a, lim.max);
    MeanAtLeast(b, lim.min);
    MeanAtMost(b, lim.max);
  }

  /** The per-column step of `classify_parameters`: `origem` is skipped, any other column is `_classify_one`. */
  function ColumnClassifier(cr: Criteria, rows: seq<Row>): string -> Option<Classification> {
    col => if col == "origem" then None else ClassifyOne(cr, rows, col)
  }

  /**
   * `classify_parameters`: every column except `origem` for which both
   * origins have a value, in column order.
   */
  method ClassifyParameters(cr: Criteria, df: Frame) returns (out: seq<(string, Classification)>)
    ensures out == Collect(df.columns, ColumnClassifier(cr, df.rows))
    ensures forall p :: p in Keys(out) <==> p in df.columns && p != "origem" && ClassifyOne(cr, df.rows, p).Some?
    ensures IsSubsequence(Keys(out), df.columns)
    ensures NoDuplicates(Keys(out))
    ensures forall i :: 0 <= i < |out| ==> out[i].0 != "origem" && ClassifyOne(cr, df.rows, out[i].0) == Some(out[i].1)
  {
    out := [];
    var i := 0;
    while i < |df.columns|
      invariant 0 <= i <= |df.columns|
      invariant out == Collect(df.columns[..i], ColumnClassifier(cr, df.rows))
    {
      var col := df.columns[i];
      assert df.columns[..i + 1][..i] == df.columns[..i];
      if col != "origem" {
        var c := ClassifyOne(cr, df.rows, col);
        if c.Some? {
          out := out + [(col, c.value)];
        }
      }
      i := i + 1;
    }
    assert df.columns[..i] == df.columns;
    ClassifiedColumns(cr, df);
  }

  /** The dictionary `classify_parameters` builds: its keys, their order and their values. */
  lemma ClassifiedColumns(cr: Criteria, df: Frame)
    ensures var out := Collect(df.columns, ColumnClassifier(cr, df.rows));
      && (forall p :: p in Keys(out) <==> p in df.columns && p != "origem" && ClassifyOne(cr, df.rows, p).Some?)
      && IsSubsequence(Keys(out), df.columns)
      && NoDuplicates(Keys(out))
      && (forall i :: 0 <= i < |out| ==> out[i].0 != "origem" && ClassifyOne(cr, df.rows, out[i].0) == Some(out[i].1))
  {
    var f := ColumnClassifier(cr, df.rows);
    var out := Collect(df.columns, f);
    CollectKeys(df.columns, f);
    CollectValues(df.columns, f);
    var idx := CollectOrder(df.columns, f);
    SubsequenceNoDuplicates(Keys(out), df.columns);
  }

  // Worked cases with the default tables (water content: range 0-200 ppm, threshold 50 ppm).

  /** Both means in range but 70 ppm apart: divergent. */
  lemma WaterContentDivergent()
    ensures ClassifyMeans(DefaultCriteria, "teor_agua", 100.0, 170.0).verdict == Divergente
    ensures ClassifyMeans(DefaultCriteria, "teor_agua", 100.0, 170.0).details == [Difference(70.0, 50.0)]
  {
  }

  /** One mean above range: out of standard, even though the means also diverge. */
  lemma WaterContentOutOfSpec()
    ensures var c := ClassifyMeans(DefaultCriteria, "teor_agua", 250.0, 190.0);
      && c.verdict == ForaDoPadrao && c.isDivergent
      && c.details == [OutOfLimit(Mineradora, 250.0), LimitRange(Limit(0.0, 200.0, "ppm"))]
  {
  }

  /** Both means in range and 20 ppm apart: normal. */
  lemma WaterContentNormal()
    ensures ClassifyMeans(DefaultCriteria, "teor_agua", 100.0, 120.0).verdict == Normal
  {
  }

  /** A parameter with neither a range nor a threshold is always normal. */
  lemma UnregisteredAlwaysNormal(cr: Criteria, param: string, ma: real, mb: real)
    requires param !in cr.limits && param !in cr.thresholds
    ensures ClassifyMeans(cr, param, ma, mb).verdict == Normal
  {
  }
}
