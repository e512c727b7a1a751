/** The evidence tables and the summary computed from them at read time
    (backend/app/control_plane/metrics_service.py). Times are in microseconds. */
module Metrics {
  import opened Prelude
  import opened Models
  import opened Lists
  import opened Percentile

  /** One row of prediction_metrics. */
  datatype MetricRow = MetricRow(
    deploymentId: DeploymentId,
    modelVersion: Version,
    latencyMs: real,
    statusCode: int,
    prediction: Option<int>,
    predictionId: Option<string>,
    createdAt: Time)

  /** One row of ground_truth_labels. */
  datatype LabelRow = LabelRow(predictionId: string, actualLabel: int, occurredAt: Time, ingestedAt: Time)

  /** A row of the outer join. */
  datatype Joined = Joined(metric: MetricRow, truth: Option<LabelRow>)

  // ---------------------------------------------------------------------------------------------
  // The two writers

  predicate MetricKeyTaken(metrics: seq<MetricRow>, row: MetricRow) {
    row.predictionId.Some? && exists i | 0 <= i < |metrics| :: metrics[i].predictionId == row.predictionId
  }

  /** `record_metric`: a plain INSERT under the unique prediction_id. */
  function RecordMetric(metrics: seq<MetricRow>, row: MetricRow): seq<MetricRow> {
    if MetricKeyTaken(metrics, row) then metrics else metrics + [row]
  }

  predicate Labeled(labels: seq<LabelRow>, predictionId: string) {
    exists i | 0 <= i < |labels| :: labels[i].predictionId == predictionId
  }

  /** The committed effect of `ingest_label`: the first label of a prediction stays. */
  function StoreLabel(labels: seq<LabelRow>, row: LabelRow): seq<LabelRow> {
    if Labeled(labels, row.predictionId) then labels else labels + [row]
  }

  // ---------------------------------------------------------------------------------------------
  // The read-time join

  /** Rows of `labels` the join condition pairs with a metric; NULL pairs with nothing. */
  function Matches(labels: seq<LabelRow>, key: Option<string>): seq<LabelRow> {
    FlatMap(labels, (l: LabelRow) => if key == Some(l.predictionId) then [l] else [])
  }

  lemma {:induction false} LabeledMeansMatched(labels: seq<LabelRow>, id: string)
    ensures Labeled(labels, id) <==> Matches(labels, Some(id)) != []
  {
    if labels != [] {
      LabeledMeansMatched(labels[1..], id);
      if Labeled(labels[1..], id) {
        var i :| 0 <= i < |labels[1..]| && labels[1..][i].predictionId == id;
        assert labels[i + 1].predictionId == id;
      }
      if Labeled(labels, id) && labels[0].predictionId != id {
        var i :| 0 <= i < |labels| && labels[i].predictionId == id;
        assert labels[1..][i - 1].predictionId == id;
      }
    }
  }

  /** The label on record for a prediction. */
  function FindLabel(labels: seq<LabelRow>, id: string): Option<LabelRow> {
    var found := Matches(labels, Some(id));
    if found == [] then None else Some(found[0])
  }

  /** INSERT of a label whose key is free. */
  lemma FindAfterInsert(labels: seq<LabelRow>, row: LabelRow, id: string)
    ensures FindLabel(labels, id).Some? <==> Labeled(labels, id)
    ensures FindLabel(labels + [row], id) ==
            if FindLabel(labels, id).None? && row.predictionId == id then Some(row) else FindLabel(labels, id)
  {
    var f := (l: LabelRow) => if Some(id) == Some(l.predictionId) then [l] else [];
    LabeledMeansMatched(labels, id);
    FlatMapAppend(labels, [row], f);
    FlatMapOne(row, f);
  }

  /** `_find_metric`: the deployment a prediction was made for, once its metric has landed. */
  function FindMetric(metrics: seq<MetricRow>, id: string): Option<DeploymentId> {
    if metrics == [] then None
    else if metrics[0].predictionId == Some(id) then Some(metrics[0].deploymentId)
    else FindMetric(metrics[1..], id)
  }

  /** It is the deployment of the first metric with that prediction id. */
  lemma {:induction false} FindMetricMeaning(metrics: seq<MetricRow>, id: string)
    ensures FindMetric(metrics, id).None? <==>
            forall i | 0 <= i < |metrics| :: metrics[i].predictionId != Some(id)
    ensures forall i | 0 <= i < |metrics| && metrics[i].predictionId == Some(id)
              && (forall j | 0 <= j < i :: metrics[j].predictionId != Some(id)) ::
              FindMetric(metrics, id) == Some(metrics[i].deploymentId)
  {
    if metrics != [] {
      var rest := metrics[1..];
      FindMetricMeaning(rest, id);
      assert forall i | 0 < i < |metrics| :: metrics[i] == rest[i - 1];
      if metrics[0].predictionId != Some(id) {
        forall i | 0 <= i < |metrics| && metrics[i].predictionId == Some(id)
            && (forall j | 0 <= j < i :: metrics[j].predictionId != Some(id))
          ensures FindMetric(metrics, id) == Some(metrics[i].deploymentId)
        {
          assert forall j | 0 <= j < i - 1 :: rest[j] == metrics[j + 1];
        }
      }
    }
  }

  function JoinOne(metric: MetricRow, labels: seq<LabelRow>): seq<Joined> {
    var found := Matches(labels, metric.predictionId);
    if found == [] then [Joined(metric, None)]
    else seq(|found|, i requires 0 <= i < |found| => Joined(metric, Some(found[i])))
  }

  function OuterJoin(metrics: seq<MetricRow>, labels: seq<LabelRow>): seq<Joined> {
    FlatMap(metrics, (m: MetricRow) => JoinOne(m, labels))
  }

  /** No prediction has two labels. */
  ghost predicate UniqueKeys(labels: seq<LabelRow>) {
    forall i, j | 0 <= i < j < |labels| :: labels[i].predictionId != labels[j].predictionId
  }

  /** The label on record for a metric, if it has a prediction id and the id has a label. */
  ghost predicate LabelOf(labels: seq<LabelRow>, m: MetricRow, truth: Option<LabelRow>) {
    match truth
    case Some(l) => l in labels && m.predictionId == Some(l.predictionId)
    case None => forall l | l in labels :: m.predictionId != Some(l.predictionId)
  }

  lemma {:induction false} MatchesAll(labels: seq<LabelRow>, key: Option<string>)
    ensures forall l :: l in Matches(labels, key) <==> l in labels && key == Some(l.predictionId)
    ensures UniqueKeys(labels) ==> |Matches(labels, key)| <= 1
  {
    if labels != [] {
      MatchesAll(labels[1..], key);
      assert labels == [labels[0]] + labels[1..];
      if UniqueKeys(labels) {
        assert UniqueKeys(labels[1..]);
        forall l | l in labels[1..] ensures l.predictionId != labels[0].predictionId {
          var i :| 0 <= i < |labels[1..]| && labels[1..][i] == l;
          assert labels[i + 1] == l;
        }
        if |Matches(labels[1..], key)| == 1 {
          assert Matches(labels[1..], key)[0] in Matches(labels[1..], key);
        }
      }
    }
  }

  /** Without duplicate labels the outer join has one row for each metric, with the label on record. */
  lemma JoinOneMeaning(m: MetricRow, labels: seq<LabelRow>)
    requires UniqueKeys(labels)
    ensures |JoinOne(m, labels)| == 1 && JoinOne(m, labels)[0].metric == m
    ensures LabelOf(labels, m, JoinOne(m, labels)[0].truth)
  {
    MatchesAll(labels, m.predictionId);
    var found := Matches(labels, m.predictionId);
    if found != [] {
      assert found[0] in found;
    } else {
      assert forall l | l in labels :: l !in found;
    }
  }

  /** The WHERE clause of the summary. */
  datatype Query = Query(deploymentId: DeploymentId, version: Version, windowStart: Time, windowEnd: Time)

  predicate Selects(q: Query, m: MetricRow) {
    m.deploymentId == q.deploymentId && m.modelVersion == q.version && q.windowStart <= m.createdAt <= q.windowEnd
  }

  function Select(q: Query, metrics: seq<MetricRow>): seq<MetricRow> {
    FlatMap(metrics, (m: MetricRow) => if Selects(q, m) then [m] else [])
  }

  function Rows(q: Query, metrics: seq<MetricRow>, labels: seq<LabelRow>): seq<Joined> {
    OuterJoin(Select(q, metrics), labels)
  }

  /** `window_end = now - offset`, `window_start = window_end - window`. */
  function QueryAt(deploymentId: DeploymentId, version: Version, windowSeconds: int, offsetSeconds: int,
                   now: Time): Query {
    var end := now - offsetSeconds * SECOND;
    Query(deploymentId, version, end - windowSeconds * SECOND, end)
  }

  /** Which rows a query at `now` reads, told by their age: of the deployment and version, at least
      the offset old and at most offset and window together. */
  lemma WindowMeaning(deploymentId: DeploymentId, version: Version, windowSeconds: int, offsetSeconds: int, now: Time,
                      m: MetricRow)
    ensures Selects(QueryAt(deploymentId, version, windowSeconds, offsetSeconds, now), m) <==>
            && m.deploymentId == deploymentId && m.modelVersion == version
            && offsetSeconds * SECOND <= now - m.createdAt <= (offsetSeconds + windowSeconds) * SECOND
  {
  }

  /** The rows a query reads, by index. */
  ghost function Window(q: Query, metrics: seq<MetricRow>): set<int> {
    set i | 0 <= i < |metrics| && Selects(q, metrics[i])
  }

  lemma SelectCounts(q: Query, metrics: seq<MetricRow>)
    ensures |Select(q, metrics)| == |Window(q, metrics)|
  {
    var p := (m: MetricRow) => Selects(q, m);
    FlatMapCounts(metrics, (m: MetricRow) => if Selects(q, m) then [m] else [], p);
    assert Window(q, metrics) == Places(metrics, p);
  }

  lemma RowsSnoc(q: Query, metrics: seq<MetricRow>, m: MetricRow, labels: seq<LabelRow>)
    ensures Rows(q, metrics + [m], labels) ==
            Rows(q, metrics, labels) + if Selects(q, m) then JoinOne(m, labels) else []
  {
    var select := (m: MetricRow) => if Selects(q, m) then [m] else [];
    var join := (m: MetricRow) => JoinOne(m, labels);
    FlatMapAppend(metrics, [m], select);
    FlatMapOne(m, select);
    FlatMapAppend(Select(q, metrics), select(m), join);
    FlatMapOne(m, join);
  }

  /** The selected metrics with a property, by index. */
  ghost function SelectedWith(q: Query, metrics: seq<MetricRow>, p: MetricRow -> bool): set<int> {
    set i | 0 <= i < |metrics| && Selects(q, metrics[i]) && p(metrics[i])
  }

  lemma SelectedSnoc(q: Query, metrics: seq<MetricRow>, m: MetricRow, p: MetricRow -> bool)
    ensures |SelectedWith(q, metrics + [m], p)|
         == |SelectedWith(q, metrics, p)| + if Selects(q, m) && p(m) then 1 else 0
  {
    assert SelectedWith(q, metrics + [m], p)
        == SelectedWith(q, metrics, p) + if Selects(q, m) && p(m) then {|metrics|} else {};
  }

  /** What a query reads, row by row: as many rows with a property as there are selected metrics that have
      it together with their label. */
  lemma {:induction false} RowsCount<T>(q: Query, metrics: seq<MetricRow>, labels: seq<LabelRow>,
                                        f: Joined -> seq<T>, p: MetricRow -> bool)
    requires forall m | m in metrics :: |FlatMap(JoinOne(m, labels), f)| == if p(m) then 1 else 0
    ensures |FlatMap(Rows(q, metrics, labels), f)| == |SelectedWith(q, metrics, p)|
  {
    if metrics == [] {
      assert SelectedWith(q, metrics, p) == {};
    } else {
      var n := |metrics| - 1;
      var front, last := metrics[..n], metrics[n];
      assert metrics == front + [last];
      RowsCount(q, front, labels, f, p);
      RowsSnoc(q, front, last, labels);
      FlatMapAppend(Rows(q, front, labels), if Selects(q, last) then JoinOne(last, labels) else [], f);
      SelectedSnoc(q, front, last, p);
    }
  }

  // ---------------------------------------------------------------------------------------------
  // The summary

  datatype MetricsSummary = MetricsSummary(
    version: Version,
    sampleCount: nat,
    p50LatencyMs: Option<real>,
    p95LatencyMs: Option<real>,
    p99LatencyMs: Option<real>,
    errorRate: Option<real>,
    precision: Option<real>,
    recall: Option<real>,
    falsePositiveRate: Option<real>,
    labeledSampleCount: nat,
    labelCoverage: Option<real>,
    positiveLabelCount: nat,
    labelDelayP50Seconds: Option<real>,
    labelDelayP95Seconds: Option<real>)

  function When(condition: bool, j: Joined): seq<Joined> {
    if condition then [j] else []
  }

  function Latency(j: Joined): seq<real> { [j.metric.latencyMs] }
  function Error(j: Joined): seq<Joined> { When(j.metric.statusCode >= 400, j) }
  function WithLabel(j: Joined): seq<Joined> { When(j.truth.Some?, j) }
  function Delay(j: Joined): seq<real> {
    if j.truth.None? then [] else [(j.truth.value.ingestedAt - j.metric.createdAt) as real / SECOND as real]
  }
  function Judged(j: Joined): seq<Joined> { When(j.truth.Some? && j.metric.prediction.Some?, j) }
  function Cell(j: Joined, prediction: int, actual: int): seq<Joined> {
    When(j.truth.Some? && j.metric.prediction == Some(prediction) && j.truth.value.actualLabel == actual, j)
  }
  function TruePositive(j: Joined): seq<Joined> { Cell(j, 1, 1) }
  function FalsePositive(j: Joined): seq<Joined> { Cell(j, 1, 0) }
  function FalseNegative(j: Joined): seq<Joined> { Cell(j, 0, 1) }
  function TrueNegative(j: Joined): seq<Joined> { Cell(j, 0, 0) }

  function Count(rows: seq<Joined>, f: Joined -> seq<Joined>): nat {
    |FlatMap(rows, f)|
  }

  /** True and false positives and negatives among the judged rows. */
  datatype Confusion = Confusion(tp: nat, fp: nat, fn: nat, tn: nat)

  function ConfusionOf(rows: seq<Joined>): Confusion {
    Confusion(Count(rows, TruePositive), Count(rows, FalsePositive), Count(rows, FalseNegative),
              Count(rows, TrueNegative))
  }

  function Ratio(part: nat, whole: nat): Option<real> {
    if whole > 0 then Some(part as real / whole as real) else None
  }

  function PercentileOrNone(samples: seq<real>, pct: real): Option<real>
    requires 0.0 <= pct <= 100.0
  {
    SortedMeaning(samples);
    if samples == [] then None else Some(PercentileOf(Sorted(samples), pct))
  }

  /** `compute_version_summary` after its query. */
  function Summarize(version: Version, rows: seq<Joined>): MetricsSummary {
    if rows == [] then
      MetricsSummary(version, 0, None, None, None, None, None, None, None, 0, None, 0, None, None)
    else
      var latencies := FlatMap(rows, Latency);
      var delays := FlatMap(rows, Delay);
      var judged := FlatMap(rows, Judged);
      var c := ConfusionOf(rows);
      MetricsSummary(
        version,
        |rows|,
        PercentileOrNone(latencies, 50.0),
        PercentileOrNone(latencies, 95.0),
        PercentileOrNone(latencies, 99.0),
        Ratio(Count(rows, Error), |rows|),
        if judged == [] then None else Ratio(c.tp, c.tp + c.fp),
        if judged == [] then None else Ratio(c.tp, c.tp + c.fn),
        if judged == [] then None else Ratio(c.fp, c.fp + c.tn),
        Count(rows, WithLabel),
        Ratio(Count(rows, WithLabel), |rows|),
        if judged == [] then 0 else c.tp + c.fn,
        PercentileOrNone(delays, 50.0),
        PercentileOrNone(delays, 95.0))
  }

  function VersionSummary(q: Query, metrics: seq<MetricRow>, labels: seq<LabelRow>): MetricsSummary {
    Summarize(q.version, Rows(q, metrics, labels))
  }

  // ---------------------------------------------------------------------------------------------
  // Facts about one summary

  lemma CountsNest(rows: seq<Joined>)
    ensures var c := ConfusionOf(rows);
            && c.tp + c.fn <= |FlatMap(rows, Judged)| <= Count(rows, WithLabel) <= |rows|
            && c.fp + c.tn <= |FlatMap(rows, Judged)|
    ensures Count(rows, Error) <= |rows|
  {
    FlatMapBounded(rows, WithLabel);
    FlatMapBounded(rows, Error);
    FlatMapLengths(rows, TruePositive, FalseNegative, Judged);
    FlatMapLengths(rows, FalsePositive, TrueNegative, Judged);
    FlatMapShorter(rows, Judged, WithLabel);
  }

  /** Recall is the share of the rows labelled 1 that were predicted 1, precision the share of those
      predicted 1 that are labelled 1, the false positive rate the share of those labelled 0 that were
      predicted 1, and recall's denominator is what gets reported as the positive label count.
      With nothing judged every denominator is zero, so one reading fits both branches. */
  lemma QualityMeaning(version: Version, rows: seq<Joined>)
    ensures var (s, c) := (Summarize(version, rows), ConfusionOf(rows));
            && s.positiveLabelCount == c.tp + c.fn
            && s.recall == Ratio(c.tp, c.tp + c.fn)
            && s.precision == Ratio(c.tp, c.tp + c.fp)
            && s.falsePositiveRate == Ratio(c.fp, c.fp + c.tn)
  {
    CountsNest(rows);
  }

  /** The counts are nested, the rates are rates, and recall is missing exactly when there is no
      positive label to divide by. */
  lemma SummaryBounds(version: Version, rows: seq<Joined>)
    ensures var s := Summarize(version, rows);
            && s.positiveLabelCount <= s.labeledSampleCount <= s.sampleCount == |rows|
            && (s.recall.None? <==> s.positiveLabelCount == 0)
            && (s.recall.Some? ==> 0.0 <= s.recall.value <= 1.0)
            && (s.precision.Some? ==> 0.0 <= s.precision.value <= 1.0)
            && (s.falsePositiveRate.Some? ==> 0.0 <= s.falsePositiveRate.value <= 1.0)
            && (s.errorRate.Some? <==> rows != []) && (s.errorRate.Some? ==> 0.0 <= s.errorRate.value <= 1.0)
            && (s.labelCoverage.Some? <==> rows != [])
                && (s.labelCoverage.Some? ==> 0.0 <= s.labelCoverage.value <= 1.0)
            && (s.p95LatencyMs.Some? <==> rows != [])
  {
    CountsNest(rows);
    QualityMeaning(version, rows);
    LatencyPerRow(rows);
    var c := ConfusionOf(rows);
    RatioBounds(Count(rows, Error), |rows|);
    RatioBounds(Count(rows, WithLabel), |rows|);
    RatioBounds(c.tp, c.tp + c.fn);
    RatioBounds(c.tp, c.tp + c.fp);
    RatioBounds(c.fp, c.fp + c.tn);
  }

  /** The rows whose label and prediction are the given ones, by index. */
  ghost function InCell(rows: seq<Joined>, prediction: int, actual: int): set<int> {
    set i | 0 <= i < |rows| && rows[i].truth.Some? && rows[i].metric.prediction == Some(prediction)
            && rows[i].truth.value.actualLabel == actual
  }

  lemma CellCounts(rows: seq<Joined>, prediction: int, actual: int, f: Joined -> seq<Joined>)
    requires forall j | j in rows :: f(j) == Cell(j, prediction, actual)
    ensures |InCell(rows, prediction, actual)| == Count(rows, f)
  {
    var p := (j: Joined) =>
      j.truth.Some? && j.metric.prediction == Some(prediction) && j.truth.value.actualLabel == actual;
    FlatMapCounts(rows, f, p);
    assert InCell(rows, prediction, actual) == Places(rows, p);
  }

  /** The confusion matrix, told from the rows: each entry is the number of rows with that prediction
      and that label. */
  lemma ConfusionMeaning(rows: seq<Joined>)
    ensures ConfusionOf(rows) ==
        Confusion(|InCell(rows, 1, 1)|, |InCell(rows, 1, 0)|, |InCell(rows, 0, 1)|, |InCell(rows, 0, 0)|)
  {
    CellCounts(rows, 1, 1, TruePositive);
    CellCounts(rows, 0, 1, FalseNegative);
    CellCounts(rows, 1, 0, FalsePositive);
    CellCounts(rows, 0, 0, TrueNegative);
  }

  /** The rows whose prediction failed, and those with a label, by index. */
  ghost function FailedIn(rows: seq<Joined>): set<int> {
    set i | 0 <= i < |rows| && rows[i].metric.statusCode >= 400
  }

  ghost function LabeledIn(rows: seq<Joined>): set<int> {
    set i | 0 <= i < |rows| && rows[i].truth.Some?
  }

  /** A row counts as an error from status 400 up, and as labelled if the join found a label. */
  lemma CountsMeaning(rows: seq<Joined>)
    ensures Count(rows, Error) == |FailedIn(rows)|
    ensures Count(rows, WithLabel) == |LabeledIn(rows)|
  {
    var failed, labeled := (j: Joined) => j.metric.statusCode >= 400, (j: Joined) => j.truth.Some?;
    FlatMapCounts(rows, Error, failed);
    FlatMapCounts(rows, WithLabel, labeled);
    assert FailedIn(rows) == Places(rows, failed) && LabeledIn(rows) == Places(rows, labeled);
  }

  /** Counts and rates of a summary, told from the rows. */
  lemma RatesMeaning(version: Version, rows: seq<Joined>)
    ensures var (s, n) := (Summarize(version, rows), |rows|);
            && s.version == version && s.sampleCount == n && s.labeledSampleCount == |LabeledIn(rows)|
            && s.errorRate == (if n == 0 then None else Some(|FailedIn(rows)| as real / n as real))
            && s.labelCoverage == (if n == 0 then None else Some(|LabeledIn(rows)| as real / n as real))
  {
    CountsMeaning(rows);
  }

  /** The rows with a given latency, and those whose label came in with a given delay, by index. The delay
      is counted in seconds, from the metric to the ingestion of its label. */
  ghost function WithLatency(rows: seq<Joined>, x: real): set<int> {
    set i | 0 <= i < |rows| && rows[i].metric.latencyMs == x
  }

  ghost function WithDelay(rows: seq<Joined>, x: real): set<int> {
    set i | 0 <= i < |rows| && rows[i].truth.Some?
            && (rows[i].truth.value.ingestedAt - rows[i].metric.createdAt) as real == x * 1000000.0
  }

  ghost predicate AreLatencies(samples: seq<real>, rows: seq<Joined>) {
    forall x {:trigger WithLatency(rows, x)} :: multiset(samples)[x] == |WithLatency(rows, x)|
  }

  ghost predicate AreDelays(samples: seq<real>, rows: seq<Joined>) {
    forall x {:trigger WithDelay(rows, x)} :: multiset(samples)[x] == |WithDelay(rows, x)|
  }

  lemma PerSecond(d: int, x: real)
    ensures d as real / SECOND as real == x <==> d as real == x * 1000000.0
  {
  }

  lemma LatencyOccurs(rows: seq<Joined>, x: real)
    ensures multiset(FlatMap(rows, Latency))[x] == |WithLatency(rows, x)|
  {
    var p := (j: Joined) => j.metric.latencyMs == x;
    FlatMapOccurs(rows, Latency, x, p);
    assert Places(rows, p) == WithLatency(rows, x);
  }

  lemma DelayIs(j: Joined, x: real)
    ensures Delay(j) == [x] <==>
            j.truth.Some? && (j.truth.value.ingestedAt - j.metric.createdAt) as real == x * 1000000.0
  {
    if j.truth.Some? {
      PerSecond(j.truth.value.ingestedAt - j.metric.createdAt, x);
      assert Delay(j) == [x] ==> Delay(j)[0] == x;
    }
  }

  lemma DelayOccurs(rows: seq<Joined>, x: real)
    ensures multiset(FlatMap(rows, Delay))[x] == |WithDelay(rows, x)|
  {
    var p := (j: Joined) =>
      j.truth.Some? && (j.truth.value.ingestedAt - j.metric.createdAt) as real == x * 1000000.0;
    forall j | j in rows ensures |Delay(j)| <= 1 && (p(j) <==> Delay(j) == [x]) {
      DelayIs(j, x);
    }
    FlatMapOccurs(rows, Delay, x, p);
    assert Places(rows, p) == WithDelay(rows, x);
  }

  lemma LatenciesAre(rows: seq<Joined>, given: seq<real>)
    requires IsSorted(given) && AreLatencies(given, rows)
    ensures Sorted(FlatMap(rows, Latency)) == given
  {
    forall x ensures multiset(FlatMap(rows, Latency))[x] == multiset(given)[x] {
      LatencyOccurs(rows, x);
      assert multiset(given)[x] == |WithLatency(rows, x)|;
    }
    SortedSamples(FlatMap(rows, Latency), given);
  }

  lemma DelaysAre(rows: seq<Joined>, given: seq<real>)
    requires IsSorted(given) && AreDelays(given, rows)
    ensures Sorted(FlatMap(rows, Delay)) == given
  {
    forall x ensures multiset(FlatMap(rows, Delay))[x] == multiset(given)[x] {
      DelayOccurs(rows, x);
      assert multiset(given)[x] == |WithDelay(rows, x)|;
    }
    SortedSamples(FlatMap(rows, Delay), given);
  }

  lemma SortedSamples(samples: seq<real>, given: seq<real>)
    requires IsSorted(given) && multiset(samples) == multiset(given)
    ensures Sorted(samples) == given
  {
    SortedMeaning(samples);
    SortedUnique(Sorted(samples), given);
  }

  /** Which percentage of which samples each quantile of a summary is. */
  lemma QuantilesMeaning(version: Version, rows: seq<Joined>, latencies: seq<real>, delays: seq<real>)
    requires IsSorted(latencies) && AreLatencies(latencies, rows) && IsSorted(delays) && AreDelays(delays, rows)
    ensures var s := Summarize(version, rows);
            && (if latencies == [] then s.p50LatencyMs == s.p95LatencyMs == s.p99LatencyMs == None
                else && s.p50LatencyMs == Some(PercentileOf(latencies, 50.0))
                     && s.p95LatencyMs == Some(PercentileOf(latencies, 95.0))
                     && s.p99LatencyMs == Some(PercentileOf(latencies, 99.0)))
            && (if delays == [] then s.labelDelayP50Seconds == s.labelDelayP95Seconds == None
                else && s.labelDelayP50Seconds == Some(PercentileOf(delays, 50.0))
                     && s.labelDelayP95Seconds == Some(PercentileOf(delays, 95.0)))
  {
    LatenciesAre(rows, latencies);
    DelaysAre(rows, delays);
    SortedMeaning(FlatMap(rows, Latency));
    SortedMeaning(FlatMap(rows, Delay));
  }

  lemma RatioBounds(part: nat, whole: nat)
    requires part <= whole
    ensures Ratio(part, whole).Some? ==> 0.0 <= Ratio(part, whole).value <= 1.0
  {
    if whole > 0 {
      assert part as real <= 1.0 * whole as real;
    }
  }

  lemma LatencyCount(rows: seq<Joined>)
    ensures |FlatMap(rows, Latency)| == |rows|
  {
    LatencyPerRow(rows);
  }

  lemma {:induction false} LatencyPerRow(rows: seq<Joined>)
    ensures |FlatMap(rows, Latency)| == |rows|
    ensures forall i | 0 <= i < |rows| :: FlatMap(rows, Latency)[i] == rows[i].metric.latencyMs
  {
    if rows != [] {
      LatencyPerRow(rows[1..]);
      assert FlatMap(rows, Latency) == [rows[0].metric.latencyMs] + FlatMap(rows[1..], Latency);
    }
  }

  lemma CountForgetsOrder(rows: seq<Joined>, other: seq<Joined>, f: Joined -> seq<Joined>)
    requires multiset(rows) == multiset(other)
    ensures Count(rows, f) == Count(other, f)
  {
    FlatMapForgetsOrder(rows, other, f);
  }

  lemma QuantileForgetsOrder(rows: seq<Joined>, other: seq<Joined>, f: Joined -> seq<real>, pct: real)
    requires multiset(rows) == multiset(other) && 0.0 <= pct <= 100.0
    ensures PercentileOrNone(FlatMap(rows, f), pct) == PercentileOrNone(FlatMap(other, f), pct)
  {
    FlatMapForgetsOrder(rows, other, f);
    SortedForgetsOrder(FlatMap(rows, f), FlatMap(other, f));
  }

  /** The summary forgets the order in which the database returned the rows. */
  lemma SummaryForgetsOrder(version: Version, rows: seq<Joined>, other: seq<Joined>)
    requires multiset(rows) == multiset(other)
    ensures Summarize(version, rows) == Summarize(version, other)
  {
    SameLength(rows, other);
    QuantileForgetsOrder(rows, other, Latency, 50.0);
    QuantileForgetsOrder(rows, other, Latency, 95.0);
    QuantileForgetsOrder(rows, other, Latency, 99.0);
    QuantileForgetsOrder(rows, other, Delay, 50.0);
    QuantileForgetsOrder(rows, other, Delay, 95.0);
    CountForgetsOrder(rows, other, Judged);
    CountForgetsOrder(rows, other, WithLabel);
    CountForgetsOrder(rows, other, Error);
    CountForgetsOrder(rows, other, TruePositive);
    CountForgetsOrder(rows, other, FalsePositive);
    CountForgetsOrder(rows, other, FalseNegative);
    CountForgetsOrder(rows, other, TrueNegative);
  }
}
