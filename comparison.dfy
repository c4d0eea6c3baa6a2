/** The `POST /api/performance/comparison` handler: looks up the optimized
    and the same-scenario baseline documents and computes the guarded
    per-metric improvement. */
module Comparison {
  import opened Types
  import opened JsMath
  import opened Performance
  import opened Store

  /** The handler's successful response. */
  datatype ComparisonData = ComparisonData(baseline: Doc, optimized: Doc, improvement: Improvement)

  /** `metrics[metric] || 0`: an absent field reads as 0. */
  function FieldOrZero(d: Doc, f: Field): (v: real)
    ensures f in d ==> v == d[f]
    ensures f !in d ==> v == 0.0
  {
    if f in d then d[f] else 0.0
  }

  /** The guarded percentage: 0 unless the baseline is positive, and then the
      same rounded percentage as the unguarded calculator. */
  function GuardedPercent(b: real, o: real): (r: int)
    ensures b <= 0.0 ==> r == 0
    ensures b > 0.0 ==> Percentage(b, o) == Finite(r)
  {
    if b > 0.0 then Round((b - o) / b * 100.0) else 0
  }

  /** The improvement of one metric, read from two stored metrics objects. */
  function MetricImprovement(baseline: Doc, optimized: Doc, f: Field): Percent {
    Finite(GuardedPercent(FieldOrZero(baseline, f), FieldOrZero(optimized, f)))
  }

  /** The improvement record the handler builds: one entry per metric name. */
  function GuardedImprovement(baseline: Doc, optimized: Doc): (r: Improvement)
    ensures r.Keys == AllFields && forall f :: f in r
  {
    AllFieldsCompleteAll();
    map f | f in AllFields :: MetricImprovement(baseline, optimized, f)
  }

  /** The `forEach` over the twelve metric names that fills `improvement`. */
  method ComputeImprovement(baseline: Doc, optimized: Doc) returns (improvement: Improvement)
    ensures improvement == GuardedImprovement(baseline, optimized)
  {
    improvement := map[];
    for i := 0 to |MetricNames|
      invariant improvement.Keys == set j | 0 <= j < i :: MetricNames[j]
      invariant forall f :: f in improvement ==> improvement[f] == MetricImprovement(baseline, optimized, f)
    {
      var metric := MetricNames[i];
      var b := FieldOrZero(baseline, metric);
      var o := FieldOrZero(optimized, metric);
      if b > 0.0 {
        improvement := improvement[metric := Finite(Round((b - o) / b * 100.0))];
      } else {
        improvement := improvement[metric := Finite(0)];
      }
    }
    AllFieldsCompleteAll();
    assert improvement.Keys == AllFields by {
      forall f | f in AllFields ensures f in improvement {
        AllFieldsComplete(f);
      }
    }
  }

  /** The query for the baseline document of the same scenario. */
  function BaselineQuery(q: Query): Query {
    q.(solutionId := "baseline")
  }

  /** The status code of the error thrown when either document is missing. */
  const NotFound := 404

  /** What the handler answers once the body is read and the database is
      connected: a 404 when either document is missing, else both stored
      metrics objects and their guarded improvement. */
  function ComparisonResult(q: Query, rows: seq<Row>): Result<ComparisonData, int> {
    var optimizedRow := FindOne(rows, q);
    var baselineRow := FindOne(rows, BaselineQuery(q));
    if optimizedRow.None? || baselineRow.None? then Err(NotFound)
    else Ok(ComparisonData(baselineRow.value.metrics, optimizedRow.value.metrics,
                           GuardedImprovement(baselineRow.value.metrics, optimizedRow.value.metrics)))
  }

  /** The catch block: an error with a (non-zero) status code is rethrown as
      is, anything else becomes a 500. A code of 0 stands for an error with no
      status code. */
  function CaughtStatus(statusCode: int): (r: int)
    ensures r != 0
    ensures statusCode != 0 ==> r == statusCode
    ensures statusCode == 0 ==> r == 500
  {
    if statusCode != 0 then statusCode else 500
  }

  /** The handler. Reading the body and connecting may fail with an error
      carrying a status code (0 for none). */
  method HandleComparison(body: Result<Query, int>, connection: Result<Database, int>)
    returns (r: Result<ComparisonData, int>)
    ensures body.Err? ==> r == Err(CaughtStatus(body.error))
    ensures body.Ok? && connection.Err? ==> r == Err(CaughtStatus(connection.error))
    ensures body.Ok? && connection.Ok? ==>
              r == ComparisonResult(body.value, connection.value.performanceMetrics)
  {
    if body.Err? {
      return Err(CaughtStatus(body.error));
    }
    var q := body.value;
    if connection.Err? {
      return Err(CaughtStatus(connection.error));
    }
    var rows := connection.value.performanceMetrics;
    var optimizedMetrics := FindOne(rows, q);
    var baselineMetrics := FindOne(rows, BaselineQuery(q));
    if optimizedMetrics.None? || baselineMetrics.None? {
      return Err(CaughtStatus(NotFound));
    }
    var improvement := ComputeImprovement(baselineMetrics.value.metrics, optimizedMetrics.value.metrics);
    return Ok(ComparisonData(baselineMetrics.value.metrics, optimizedMetrics.value.metrics, improvement));
  }

  // ---------------------------------------------------------------------
  // Properties of the guarded improvement and of the handler

  /** Every entry is a finite number: no NaN and no infinity ever reaches the response. */
  lemma GuardedImprovementIsFinite(baseline: Doc, optimized: Doc)
    ensures forall f :: GuardedImprovement(baseline, optimized)[f].Finite?
  {
    AllFieldsCompleteAll();
  }

  /** A missing, zero or negative baseline field gives improvement 0. */
  lemma NonPositiveBaselineGivesZero(baseline: Doc, optimized: Doc, f: Field)
    requires f !in baseline || baseline[f] <= 0.0
    ensures GuardedImprovement(baseline, optimized)[f] == Finite(0)
  {
    AllFieldsComplete(f);
  }

  /** A missing optimized field counts as 0, so a positive baseline improves by 100. */
  lemma MissingOptimizedGivesHundred(baseline: Doc, optimized: Doc, f: Field)
    requires f in baseline && baseline[f] > 0.0 && f !in optimized
    ensures GuardedImprovement(baseline, optimized)[f] == Finite(100)
  {
    AllFieldsComplete(f);
    var b := baseline[f];
    assert (b - 0.0) / b * 100.0 == 100.0;
    RoundOfInt(100);
  }

  /** On complete records whose baseline fields are all positive, the guarded
      improvement equals the unguarded `calculateImprovement`. */
  lemma GuardedAgreesWithCalculateImprovement(baseline: Metrics, optimized: Metrics)
    requires forall f :: baseline.Get(f) > 0.0
    ensures GuardedImprovement(ToDoc(baseline), ToDoc(optimized)) == CalculateImprovement(baseline, optimized)
  {
    var g := GuardedImprovement(ToDoc(baseline), ToDoc(optimized));
    var c := CalculateImprovement(baseline, optimized);
    forall f | f in AllFields ensures g[f] == c[f] {
      assert GuardedPercent(baseline.Get(f), optimized.Get(f)) == Percentage(baseline.Get(f), optimized.Get(f)).value;
    }
  }

  /** When both documents are found and hold complete records with a positive
      baseline, the handler answers with those records and `calculateImprovement`. */
  lemma ComparisonOfFoundRecords(q: Query, rows: seq<Row>, baseline: Metrics, optimized: Metrics)
    requires FindOne(rows, q).Some? && FindOne(rows, q).value.metrics == ToDoc(optimized)
    requires FindOne(rows, BaselineQuery(q)).Some?
    requires FindOne(rows, BaselineQuery(q)).value.metrics == ToDoc(baseline)
    requires forall f :: baseline.Get(f) > 0.0
    ensures ComparisonResult(q, rows)
            == Ok(ComparisonData(ToDoc(baseline), ToDoc(optimized), CalculateImprovement(baseline, optimized)))
  {
    GuardedAgreesWithCalculateImprovement(baseline, optimized);
  }

  /** The handler answers 404 exactly when the optimized document or the
      same-scenario baseline document is absent; otherwise it returns the two
      stored metrics objects unchanged. */
  lemma ComparisonOutcome(q: Query, rows: seq<Row>)
    ensures ComparisonResult(q, rows).Err? <==>
              (forall t :: 0 <= t < |rows| ==> QueryOf(rows[t]) != q)
              || (forall t :: 0 <= t < |rows| ==> QueryOf(rows[t]) != BaselineQuery(q))
    ensures ComparisonResult(q, rows).Err? ==> ComparisonResult(q, rows).error == NotFound
    ensures ComparisonResult(q, rows).Ok? ==>
              && (exists t :: 0 <= t < |rows| && QueryOf(rows[t]) == q
                                && rows[t].metrics == ComparisonResult(q, rows).value.optimized)
              && (exists t :: 0 <= t < |rows| && QueryOf(rows[t]) == BaselineQuery(q)
                                && rows[t].metrics == ComparisonResult(q, rows).value.baseline)
  {
    var o, b := FindOne(rows, q), FindOne(rows, BaselineQuery(q));
    if o.Some? && b.Some? {
      var to :| 0 <= to < |rows| && rows[to] == o.value;
      var tb :| 0 <= tb < |rows| && rows[tb] == b.value;
    }
  }
}
