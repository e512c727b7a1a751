/** `run_evaluation` (backend/app/policy/service.py): three summaries over three windows, judged together,
    and what the verdict says about the evidence in the tables. */
module Verdicts {
  import opened Prelude
  import opened Models
  import opened Percentile
  import opened Lists
  import opened Metrics
  import opened ArrivalOrder
  import opened Policy

  /** The verdict `run_evaluation` reaches at `now`: reliability from the newest window, quality from
      the one that ended label_maturity_seconds ago. */
  function VerdictAt(metrics: seq<MetricRow>, labels: seq<LabelRow>, id: DeploymentId, row: Deployment,
                     now: Time): Verdict {
    var window := row.policy.evaluationWindowSeconds;
    Judge(
      VersionSummary(QueryAt(id, row.stableVersion, window, 0, now), metrics, labels),
      VersionSummary(QueryAt(id, row.canaryVersion, window, 0, now), metrics, labels),
      VersionSummary(QueryAt(id, row.canaryVersion, window, row.policy.labelMaturitySeconds, now), metrics, labels),
      row.policy)
  }

  /** A worker's verdict does not depend on the order in which its evidence arrived. */
  lemma VerdictForgetsArrivalOrder(xs: seq<Arrival>, ys: seq<Arrival>,
                                   id: DeploymentId, row: Deployment, now: Time)
    requires Shuffled(xs, ys)
    ensures VerdictAt(After(xs).metrics, After(xs).labels, id, row, now)
         == VerdictAt(After(ys).metrics, After(ys).labels, id, row, now)
  {
    var window := row.policy.evaluationWindowSeconds;
    ArrivalOrderIrrelevant(xs, ys, QueryAt(id, row.stableVersion, window, 0, now));
    ArrivalOrderIrrelevant(xs, ys, QueryAt(id, row.canaryVersion, window, 0, now));
    ArrivalOrderIrrelevant(xs, ys,
                                        QueryAt(id, row.canaryVersion, window, row.policy.labelMaturitySeconds, now));
  }

  /** The worker moves traffic, either way, only on enough recent evidence for both versions: a verdict
      other than INCONCLUSIVE means that the newest window holds the minimum of requests each. */
  lemma VerdictNeedsTraffic(arrivals: seq<Arrival>, id: DeploymentId, row: Deployment, now: Time)
    requires VerdictAt(After(arrivals).metrics, After(arrivals).labels, id, row,
                       now) != NoVerdict
    ensures var metrics, window := After(arrivals).metrics, row.policy.evaluationWindowSeconds;
            && |Window(QueryAt(id, row.stableVersion, window, 0, now), metrics)| >= row.policy.minimumRequests
            && |Window(QueryAt(id, row.canaryVersion, window, 0, now), metrics)| >= row.policy.minimumRequests
  {
    var t, window := After(arrivals), row.policy.evaluationWindowSeconds;
    var stable := QueryAt(id, row.stableVersion, window, 0, now);
    var canary := QueryAt(id, row.canaryVersion, window, 0, now);
    var quality := QueryAt(id, row.canaryVersion, window, row.policy.labelMaturitySeconds, now);
    SampleCountMeaning(arrivals, stable);
    SampleCountMeaning(arrivals, canary);
    JudgeIsWorst(VersionSummary(stable, t.metrics, t.labels), VersionSummary(canary, t.metrics, t.labels),
                        VersionSummary(quality, t.metrics, t.labels), row.policy);
  }

  // ---------------------------------------------------------------------------------------------
  // The evidence by age

  /** The metrics of a version that are at least so many seconds old, and at most a window older. */
  ghost function Aged(metrics: seq<MetricRow>, id: DeploymentId, version: Version, seconds: int, window: int,
                      now: Time): set<int> {
    set i | 0 <= i < |metrics| && metrics[i].deploymentId == id && metrics[i].modelVersion == version
            && seconds * 1000000 <= now - metrics[i].createdAt <= (seconds + window) * 1000000
  }

  /** The newest window, and the one that ended when its labels were due. */
  ghost function Recent(metrics: seq<MetricRow>, id: DeploymentId, version: Version, config: PolicyConfig,
                        now: Time): set<int> {
    Aged(metrics, id, version, 0, config.evaluationWindowSeconds, now)
  }

  ghost function Mature(metrics: seq<MetricRow>, id: DeploymentId, version: Version, config: PolicyConfig,
                        now: Time): set<int> {
    Aged(metrics, id, version, config.labelMaturitySeconds, config.evaluationWindowSeconds, now)
  }

  ghost predicate HasLabel(labels: seq<LabelRow>, m: MetricRow) {
    exists l | l in labels :: m.predictionId == Some(l.predictionId)
  }

  ghost predicate LabelledAs(labels: seq<LabelRow>, m: MetricRow, actual: int) {
    exists l | l in labels :: m.predictionId == Some(l.predictionId) && l.actualLabel == actual
  }

  ghost function FailedOf(metrics: seq<MetricRow>, aged: set<int>): set<int> {
    set i | 0 <= i < |metrics| && i in aged && metrics[i].statusCode >= 400
  }

  ghost function LabelledOf(metrics: seq<MetricRow>, labels: seq<LabelRow>, aged: set<int>): set<int> {
    set i | 0 <= i < |metrics| && i in aged && HasLabel(labels, metrics[i])
  }

  ghost function CellOf(metrics: seq<MetricRow>, labels: seq<LabelRow>, aged: set<int>, prediction: int,
                        actual: int): set<int> {
    set i | 0 <= i < |metrics| && i in aged && metrics[i].prediction == Some(prediction)
            && LabelledAs(labels, metrics[i], actual)
  }

  ghost function LatencyOf(metrics: seq<MetricRow>, aged: set<int>, x: real): set<int> {
    set i | 0 <= i < |metrics| && i in aged && metrics[i].latencyMs == x
  }

  /** The latencies of these metrics, sorted. */
  ghost predicate SamplesOf(samples: seq<real>, metrics: seq<MetricRow>, aged: set<int>) {
    && IsSorted(samples)
    && forall x {:trigger LatencyOf(metrics, aged, x)} :: multiset(samples)[x] == |LatencyOf(metrics, aged, x)|
  }

  lemma AgedIsWindow(metrics: seq<MetricRow>, id: DeploymentId, version: Version, seconds: int, window: int, now: Time)
    ensures Aged(metrics, id, version, seconds, window, now)
         == Window(QueryAt(id, version, window, seconds, now), metrics)
  {
    forall i | 0 <= i < |metrics|
      ensures i in Aged(metrics, id, version, seconds, window, now) <==>
              i in Window(QueryAt(id, version, window, seconds, now), metrics)
    {
      WindowMeaning(id, version, window, seconds, now, metrics[i]);
    }
  }

  lemma FailedCount(q: Query, metrics: seq<MetricRow>, labels: seq<LabelRow>)
    requires UniqueKeys(labels)
    ensures |FailedIn(Rows(q, metrics, labels))| == |FailedOf(metrics, Window(q, metrics))|
  {
    var p := (m: MetricRow) => m.statusCode >= 400;
    forall m | m in metrics ensures |FlatMap(JoinOne(m, labels), Error)| == if p(m) then 1 else 0 {
      JoinOneMeaning(m, labels);
    }
    RowsCount(q, metrics, labels, Error, p);
    CountsMeaning(Rows(q, metrics, labels));
    assert SelectedWith(q, metrics, p) == FailedOf(metrics, Window(q, metrics));
  }

  lemma LabelledCount(q: Query, metrics: seq<MetricRow>, labels: seq<LabelRow>)
    requires UniqueKeys(labels)
    ensures |LabeledIn(Rows(q, metrics, labels))| == |LabelledOf(metrics, labels, Window(q, metrics))|
  {
    ghost var p := (m: MetricRow) => HasLabel(labels, m);
    forall m | m in metrics ensures |FlatMap(JoinOne(m, labels), WithLabel)| == if p(m) then 1 else 0 {
      JoinOneMeaning(m, labels);
    }
    RowsCount(q, metrics, labels, WithLabel, p);
    CountsMeaning(Rows(q, metrics, labels));
    assert SelectedWith(q, metrics, p) == LabelledOf(metrics, labels, Window(q, metrics));
  }

  /** Without duplicates a label found is the label. */
  lemma OnlyLabel(labels: seq<LabelRow>, m: MetricRow, actual: int)
    requires UniqueKeys(labels)
    ensures var truth := JoinOne(m, labels)[0].truth;
            (truth.Some? && truth.value.actualLabel == actual) <==> LabelledAs(labels, m, actual)
  {
    JoinOneMeaning(m, labels);
    var truth := JoinOne(m, labels)[0].truth;
    if LabelledAs(labels, m, actual) {
      var l :| l in labels && m.predictionId == Some(l.predictionId) && l.actualLabel == actual;
      assert truth.Some?;
      var i :| 0 <= i < |labels| && labels[i] == l;
      var j :| 0 <= j < |labels| && labels[j] == truth.value;
      assert i == j;
    }
  }

  lemma CellCount(q: Query, metrics: seq<MetricRow>, labels: seq<LabelRow>, prediction: int, actual: int)
    requires UniqueKeys(labels)
    ensures |InCell(Rows(q, metrics, labels), prediction, actual)|
         == |CellOf(metrics, labels, Window(q, metrics), prediction, actual)|
  {
    var f := (j: Joined) => Cell(j, prediction, actual);
    ghost var p := (m: MetricRow) => m.prediction == Some(prediction) && LabelledAs(labels, m, actual);
    forall m | m in metrics ensures |FlatMap(JoinOne(m, labels), f)| == if p(m) then 1 else 0 {
      JoinOneMeaning(m, labels);
      OnlyLabel(labels, m, actual);
    }
    RowsCount(q, metrics, labels, f, p);
    CellCounts(Rows(q, metrics, labels), prediction, actual, f);
    assert SelectedWith(q, metrics, p) == CellOf(metrics, labels, Window(q, metrics), prediction, actual);
  }

  lemma LatencySamples(q: Query, metrics: seq<MetricRow>, labels: seq<LabelRow>, x: real)
    requires UniqueKeys(labels)
    ensures |WithLatency(Rows(q, metrics, labels), x)| == |LatencyOf(metrics, Window(q, metrics), x)|
  {
    var rows := Rows(q, metrics, labels);
    var f := (j: Joined) => When(j.metric.latencyMs == x, j);
    var has := (j: Joined) => j.metric.latencyMs == x;
    var p := (m: MetricRow) => m.latencyMs == x;
    forall m | m in metrics ensures |FlatMap(JoinOne(m, labels), f)| == if p(m) then 1 else 0 {
      JoinOneMeaning(m, labels);
    }
    RowsCount(q, metrics, labels, f, p);
    FlatMapCounts(rows, f, has);
    assert Places(rows, has) == WithLatency(rows, x);
    assert SelectedWith(q, metrics, p) == LatencyOf(metrics, Window(q, metrics), x);
  }

  lemma RowCount(q: Query, metrics: seq<MetricRow>, labels: seq<LabelRow>)
    requires UniqueKeys(labels)
    ensures |Rows(q, metrics, labels)| == |Window(q, metrics)|
  {
    var p := (m: MetricRow) => true;
    forall m | m in metrics ensures |FlatMap(JoinOne(m, labels), Latency)| == 1 {
      JoinOneMeaning(m, labels);
    }
    RowsCount(q, metrics, labels, Latency, p);
    LatencyCount(Rows(q, metrics, labels));
    assert SelectedWith(q, metrics, p) == Window(q, metrics);
  }

  // ---------------------------------------------------------------------------------------------
  // The verdict by age

  /** Stable's p95 exists and is a base to compare with. */
  predicate Compared(stable: seq<real>, canary: seq<real>) {
    stable != [] && canary != [] && PercentileOf(stable, 95.0) != 0.0
  }

  predicate FastEnough(stable: seq<real>, canary: seq<real>, config: PolicyConfig)
    requires Compared(stable, canary)
  {
    AtMostTimes(PercentileOf(canary, 95.0), PercentileOf(stable, 95.0), 1.0 + config.p95MaxIncreasePercent / 100.0)
  }

  ghost predicate FewFailures(metrics: seq<MetricRow>, recent: set<int>, config: PolicyConfig) {
    AtMostPercent(|FailedOf(metrics, recent)|, |recent|, config.maxErrorRatePercent)
  }

  ghost function PositivesOf(metrics: seq<MetricRow>, labels: seq<LabelRow>, mature: set<int>): nat {
    |CellOf(metrics, labels, mature, 1, 1)| + |CellOf(metrics, labels, mature, 0, 1)|
  }

  ghost predicate EnoughLabels(metrics: seq<MetricRow>, labels: seq<LabelRow>, mature: set<int>, config: PolicyConfig) {
    && mature != {}
    && |LabelledOf(metrics, labels, mature)| >= config.minimumLabeledSamples
    && AtLeastShare(|LabelledOf(metrics, labels, mature)|, |mature|, config.minimumLabelCoverage)
    && PositivesOf(metrics, labels, mature) >= config.minimumPositiveLabels
  }

  ghost predicate CaughtEnough(metrics: seq<MetricRow>, labels: seq<LabelRow>, mature: set<int>, config: PolicyConfig) {
    AtLeastShare(|CellOf(metrics, labels, mature, 1, 1)|, PositivesOf(metrics, labels, mature), config.minimumRecall)
  }

  lemma SamplesAreLatencies(q: Query, metrics: seq<MetricRow>, labels: seq<LabelRow>, samples: seq<real>)
    requires UniqueKeys(labels) && SamplesOf(samples, metrics, Window(q, metrics))
    ensures Sorted(FlatMap(Rows(q, metrics, labels), Latency)) == samples
    ensures samples == [] <==> Rows(q, metrics, labels) == []
  {
    var rows := Rows(q, metrics, labels);
    forall x ensures multiset(samples)[x] == |WithLatency(rows, x)| {
      assert multiset(samples)[x] == |LatencyOf(metrics, Window(q, metrics), x)|;
      LatencySamples(q, metrics, labels, x);
    }
    LatenciesAre(rows, samples);
    SortedLength(FlatMap(rows, Latency));
    LatencyCount(rows);
  }

  lemma LatencyByAge(q: Query, p: Query, metrics: seq<MetricRow>, labels: seq<LabelRow>, stable: seq<real>,
                     canary: seq<real>, config: PolicyConfig)
    requires UniqueKeys(labels)
    requires SamplesOf(stable, metrics, Window(q, metrics)) && SamplesOf(canary, metrics, Window(p, metrics))
    ensures Comparable(Rows(q, metrics, labels), Rows(p, metrics, labels)) <==> Compared(stable, canary)
    ensures Compared(stable, canary) ==>
              (WithinLatency(Rows(q, metrics, labels), Rows(p, metrics, labels), config) <==>
               FastEnough(stable, canary, config))
  {
    SamplesAreLatencies(q, metrics, labels, stable);
    SamplesAreLatencies(p, metrics, labels, canary);
  }

  lemma LabelsByAge(q: Query, metrics: seq<MetricRow>, labels: seq<LabelRow>, config: PolicyConfig)
    requires UniqueKeys(labels)
    ensures var (rows, mature) := (Rows(q, metrics, labels), Window(q, metrics));
            && Positives(rows) == PositivesOf(metrics, labels, mature)
            && (WellLabeled(rows, config) <==> EnoughLabels(metrics, labels, mature, config))
            && (EnoughRecall(rows, config) <==> CaughtEnough(metrics, labels, mature, config))
  {
    RowCount(q, metrics, labels);
    LabelledCount(q, metrics, labels);
    CellCount(q, metrics, labels, 1, 1);
    CellCount(q, metrics, labels, 0, 1);
  }

  lemma FailuresByAge(q: Query, metrics: seq<MetricRow>, labels: seq<LabelRow>, config: PolicyConfig)
    requires UniqueKeys(labels)
    ensures WithinErrors(Rows(q, metrics, labels), config) <==> FewFailures(metrics, Window(q, metrics), config)
    ensures |Rows(q, metrics, labels)| == |Window(q, metrics)|
  {
    RowCount(q, metrics, labels);
    FailedCount(q, metrics, labels);
  }

  /** No row has a negative latency. */
  predicate LatenciesReported(metrics: seq<MetricRow>) {
    forall i | 0 <= i < |metrics| :: metrics[i].latencyMs >= 0.0
  }

  lemma {:induction false} RowsReported(q: Query, metrics: seq<MetricRow>, labels: seq<LabelRow>)
    requires UniqueKeys(labels) && LatenciesReported(metrics)
    ensures Policy.Reported(Rows(q, metrics, labels))
  {
    if metrics != [] {
      var n := |metrics| - 1;
      assert metrics == metrics[..n] + [metrics[n]];
      RowsReported(q, metrics[..n], labels);
      RowsSnoc(q, metrics[..n], metrics[n], labels);
      JoinOneMeaning(metrics[n], labels);
    }
  }

  lemma VerdictIsJudged(metrics: seq<MetricRow>, labels: seq<LabelRow>, id: DeploymentId, row: Deployment, now: Time)
    ensures var (window, maturity) := (row.policy.evaluationWindowSeconds, row.policy.labelMaturitySeconds);
            VerdictAt(metrics, labels, id, row, now) ==
            JudgeRows(row.stableVersion, row.canaryVersion,
                      Rows(QueryAt(id, row.stableVersion, window, 0, now), metrics, labels),
                      Rows(QueryAt(id, row.canaryVersion, window, 0, now), metrics, labels),
                      Rows(QueryAt(id, row.canaryVersion, window, maturity, now), metrics, labels),
                      row.policy)
  {
  }

  /** Speed and errors of the canary in the newest window, as PASS demands and FAIL forbids. */
  ghost predicate Healthy(metrics: seq<MetricRow>, stable: seq<real>, canary: seq<real>, recent: set<int>,
                          config: PolicyConfig) {
    Compared(stable, canary) && FastEnough(stable, canary, config) && FewFailures(metrics, recent, config)
  }

  ghost predicate Unhealthy(metrics: seq<MetricRow>, stable: seq<real>, canary: seq<real>, recent: set<int>,
                            config: PolicyConfig) {
    || (Compared(stable, canary) && !FastEnough(stable, canary, config))
    || (recent != {} && !FewFailures(metrics, recent, config))
  }

  /** Recall can be told, in the window that ended when its labels were due. */
  ghost predicate RecallKnown(metrics: seq<MetricRow>, labels: seq<LabelRow>, mature: set<int>, config: PolicyConfig) {
    EnoughLabels(metrics, labels, mature, config) && PositivesOf(metrics, labels, mature) >= 1
  }

  /** The verdict, told from the tables by the age of the metrics: traffic, speed and errors are those of the
      newest window, labels and recall those of the window label_maturity_seconds ago. PASS if and only if
      all of them are known and good, FAIL if and only if there is traffic and one of them is known and bad. */
  lemma VerdictByAge(metrics: seq<MetricRow>, labels: seq<LabelRow>, id: DeploymentId, row: Deployment, now: Time,
                     stable: seq<real>, canary: seq<real>)
    requires UniqueKeys(labels) && LatenciesReported(metrics)
    requires SamplesOf(stable, metrics, Recent(metrics, id, row.stableVersion, row.policy, now))
    requires SamplesOf(canary, metrics, Recent(metrics, id, row.canaryVersion, row.policy, now))
    ensures var verdict := VerdictAt(metrics, labels, id, row, now);
            var config := row.policy;
            var base := Recent(metrics, id, row.stableVersion, config, now);
            var recent := Recent(metrics, id, row.canaryVersion, config, now);
            var mature := Mature(metrics, id, row.canaryVersion, config, now);
            var traffic := |base| >= config.minimumRequests && |recent| >= config.minimumRequests;
            && (verdict == Pass <==>
                  && traffic && Healthy(metrics, stable, canary, recent, config)
                  && RecallKnown(metrics, labels, mature, config) && CaughtEnough(metrics, labels, mature, config))
            && (verdict == Fail <==>
                  && traffic
                  && (|| Unhealthy(metrics, stable, canary, recent, config)
                      || (RecallKnown(metrics, labels, mature, config)
                          && !CaughtEnough(metrics, labels, mature, config))))
  {
    var window := row.policy.evaluationWindowSeconds;
    var q := QueryAt(id, row.stableVersion, window, 0, now);
    var p := QueryAt(id, row.canaryVersion, window, 0, now);
    var m := QueryAt(id, row.canaryVersion, window, row.policy.labelMaturitySeconds, now);
    AgedIsWindow(metrics, id, row.stableVersion, 0, window, now);
    AgedIsWindow(metrics, id, row.canaryVersion, 0, window, now);
    AgedIsWindow(metrics, id, row.canaryVersion, row.policy.labelMaturitySeconds, window, now);
    ByWindows(metrics, labels, q, p, m, row, stable, canary);
    VerdictIsJudged(metrics, labels, id, row, now);
  }

  lemma ByWindows(metrics: seq<MetricRow>, labels: seq<LabelRow>, q: Query, p: Query, m: Query, row: Deployment,
                  stable: seq<real>, canary: seq<real>)
    requires UniqueKeys(labels) && LatenciesReported(metrics)
    requires SamplesOf(stable, metrics, Window(q, metrics)) && SamplesOf(canary, metrics, Window(p, metrics))
    ensures var config := row.policy;
            var verdict := JudgeRows(row.stableVersion, row.canaryVersion, Rows(q, metrics, labels),
                                     Rows(p, metrics, labels), Rows(m, metrics, labels), config);
            var (base, recent, mature) := (Window(q, metrics), Window(p, metrics), Window(m, metrics));
            var traffic := |base| >= config.minimumRequests && |recent| >= config.minimumRequests;
            && (verdict == Pass <==>
                  && traffic && Healthy(metrics, stable, canary, recent, config)
                  && RecallKnown(metrics, labels, mature, config) && CaughtEnough(metrics, labels, mature, config))
            && (verdict == Fail <==>
                  && traffic
                  && (|| Unhealthy(metrics, stable, canary, recent, config)
                      || (RecallKnown(metrics, labels, mature, config)
                          && !CaughtEnough(metrics, labels, mature, config))))
  {
    RowsReported(q, metrics, labels);
    LatencyByAge(q, p, metrics, labels, stable, canary, row.policy);
    FailuresByAge(p, metrics, labels, row.policy);
    RowCount(q, metrics, labels);
    LabelsByAge(m, metrics, labels, row.policy);
    VerdictMeaning(row.stableVersion, row.canaryVersion, Rows(q, metrics, labels), Rows(p, metrics, labels),
                   Rows(m, metrics, labels), row.policy);
  }

  /** There are such samples. */
  lemma SamplesExist(metrics: seq<MetricRow>, labels: seq<LabelRow>, id: DeploymentId, version: Version,
                     config: PolicyConfig, now: Time) returns (samples: seq<real>)
    requires UniqueKeys(labels)
    ensures SamplesOf(samples, metrics, Recent(metrics, id, version, config, now))
  {
    var window := config.evaluationWindowSeconds;
    var q := QueryAt(id, version, window, 0, now);
    var rows := Rows(q, metrics, labels);
    samples := Sorted(FlatMap(rows, Latency));
    SortedMeaning(FlatMap(rows, Latency));
    AgedIsWindow(metrics, id, version, 0, window, now);
    forall x ensures multiset(samples)[x] == |LatencyOf(metrics, Window(q, metrics), x)| {
      LatencyOccurs(rows, x);
      LatencySamples(q, metrics, labels, x);
    }
  }

  /** A PASS needs mature evidence: metrics of the canary whose labels were due a window ago at most, labelled
      as often as is demanded, one of them positive at least. Fresh metrics alone never pass, however they
      and their labels arrived. */
  lemma PassNeedsMaturity(arrivals: seq<Arrival>, id: DeploymentId, row: Deployment, now: Time)
    requires LatenciesReported(After(arrivals).metrics)
    requires VerdictAt(After(arrivals).metrics, After(arrivals).labels, id, row, now) == Pass
    ensures var (metrics, labels) := (After(arrivals).metrics, After(arrivals).labels);
            var mature := Mature(metrics, id, row.canaryVersion, row.policy, now);
            && mature != {}
            && |LabelledOf(metrics, labels, mature)| >= row.policy.minimumLabeledSamples
            && PositivesOf(metrics, labels, mature) >= 1
  {
    var (metrics, labels) := (After(arrivals).metrics, After(arrivals).labels);
    KeysStayUnique(arrivals);
    var stable := SamplesExist(metrics, labels, id, row.stableVersion, row.policy, now);
    var canary := SamplesExist(metrics, labels, id, row.canaryVersion, row.policy, now);
    VerdictByAge(metrics, labels, id, row, now, stable, canary);
  }

  /** The same labels on these metrics. */
  ghost predicate SameLabels(metrics: seq<MetricRow>, labels: seq<LabelRow>, others: seq<LabelRow>, mature: set<int>) {
    forall i | 0 <= i < |metrics| && i in mature ::
      && (HasLabel(labels, metrics[i]) <==> HasLabel(others, metrics[i]))
      && forall a :: LabelledAs(labels, metrics[i], a) <==> LabelledAs(others, metrics[i], a)
  }

  lemma SameCells(metrics: seq<MetricRow>, labels: seq<LabelRow>, others: seq<LabelRow>, mature: set<int>,
                  prediction: int, actual: int)
    requires SameLabels(metrics, labels, others, mature)
    ensures CellOf(metrics, labels, mature, prediction, actual) == CellOf(metrics, others, mature, prediction, actual)
  {
  }

  lemma SameFindings(metrics: seq<MetricRow>, labels: seq<LabelRow>, others: seq<LabelRow>, mature: set<int>,
                     config: PolicyConfig)
    requires SameLabels(metrics, labels, others, mature)
    ensures RecallKnown(metrics, labels, mature, config) <==> RecallKnown(metrics, others, mature, config)
    ensures CaughtEnough(metrics, labels, mature, config) <==> CaughtEnough(metrics, others, mature, config)
  {
    SameCells(metrics, labels, others, mature, 1, 1);
    SameCells(metrics, labels, others, mature, 0, 1);
    assert LabelledOf(metrics, labels, mature) == LabelledOf(metrics, others, mature);
  }

  /** Labels of metrics that are younger than the maturity, or older than the window, leave no trace in the
      verdict: neither early labels nor late ones move it. */
  lemma OtherLabelsIrrelevant(metrics: seq<MetricRow>, labels: seq<LabelRow>, others: seq<LabelRow>,
                              id: DeploymentId, row: Deployment, now: Time)
    requires UniqueKeys(labels) && UniqueKeys(others) && LatenciesReported(metrics)
    requires SameLabels(metrics, labels, others, Mature(metrics, id, row.canaryVersion, row.policy, now))
    ensures VerdictAt(metrics, labels, id, row, now) == VerdictAt(metrics, others, id, row, now)
  {
    var mature := Mature(metrics, id, row.canaryVersion, row.policy, now);
    var stable := SamplesExist(metrics, labels, id, row.stableVersion, row.policy, now);
    var canary := SamplesExist(metrics, labels, id, row.canaryVersion, row.policy, now);
    VerdictByAge(metrics, labels, id, row, now, stable, canary);
    VerdictByAge(metrics, others, id, row, now, stable, canary);
    SameFindings(metrics, labels, others, mature, row.policy);
  }
}
