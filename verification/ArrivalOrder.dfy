/** Two independent writers, one read-time join: the order in which metrics and labels arrive leaves
    no trace (backend/app/control_plane/metrics_service.py, backend/app/control_plane/label_service.py). */
module ArrivalOrder {
  import opened Prelude
  import opened Lists
  import opened Metrics

  datatype Arrival = Measured(metric: MetricRow) | Reported(truth: LabelRow)

  datatype Tables = Tables(metrics: seq<MetricRow>, labels: seq<LabelRow>)

  function Arrive(t: Tables, a: Arrival): Tables {
    match a
    case Measured(row) => t.(metrics := RecordMetric(t.metrics, row))
    case Reported(row) => t.(labels := StoreLabel(t.labels, row))
  }

  /** The two tables after a sequence of committed writes. */
  function After(arrivals: seq<Arrival>): Tables {
    if arrivals == [] then Tables([], [])
    else Arrive(After(arrivals[..|arrivals| - 1]), arrivals[|arrivals| - 1])
  }

  // ---------------------------------------------------------------------------------------------
  // What one prediction id sees

  function LabelsFor(arrivals: seq<Arrival>, key: Option<string>): seq<LabelRow> {
    FlatMap(arrivals, (a: Arrival) => if a.Reported? && key == Some(a.truth.predictionId) then [a.truth] else [])
  }

  function MetricsFor(arrivals: seq<Arrival>, key: Option<string>): seq<MetricRow> {
    FlatMap(arrivals, (a: Arrival) => if a.Measured? && a.metric.predictionId == key then [a.metric] else [])
  }

  function First<T>(s: seq<T>): seq<T> {
    if s == [] then [] else [s[0]]
  }

  /** The label table answers every key with the first label reported for it. */
  lemma {:induction false} FirstLabelStays(arrivals: seq<Arrival>, key: Option<string>)
    ensures Matches(After(arrivals).labels, key) == First(LabelsFor(arrivals, key))
  {
    if arrivals != [] {
      var n := |arrivals| - 1;
      var f := (a: Arrival) => if a.Reported? && key == Some(a.truth.predictionId) then [a.truth] else [];
      var g := (l: LabelRow) => if key == Some(l.predictionId) then [l] else [];
      FirstLabelStays(arrivals[..n], key);
      assert arrivals == arrivals[..n] + [arrivals[n]];
      FlatMapAppend(arrivals[..n], [arrivals[n]], f);
      FlatMapOne(arrivals[n], f);
      assert LabelsFor(arrivals, key) == LabelsFor(arrivals[..n], key) + f(arrivals[n]);
      if arrivals[n].Reported? {
        var before, row := After(arrivals[..n]).labels, arrivals[n].truth;
        LabeledMeansMatched(before, row.predictionId);
        FlatMapAppend(before, [row], g);
        FlatMapOne(row, g);
      }
    }
  }

  predicate OneRow(row: MetricRow, found: seq<MetricRow>) {
    found != [] && found[0] == row
  }

  /** How often a row is in the metrics table: a row without prediction id as often as it arrived,
      a row with one once, if it arrived first. */
  function Copies(arrivals: seq<Arrival>, row: MetricRow): nat {
    if row.predictionId.None? then multiset(arrivals)[Measured(row)]
    else if OneRow(row, MetricsFor(arrivals, row.predictionId)) then 1 else 0
  }

  lemma {:induction false} KeyTakenMeansArrived(arrivals: seq<Arrival>, row: MetricRow)
    requires row.predictionId.Some?
    ensures MetricKeyTaken(After(arrivals).metrics, row) <==> MetricsFor(arrivals, row.predictionId) != []
  {
    if arrivals != [] {
      var n := |arrivals| - 1;
      KeyTakenMeansArrived(arrivals[..n], row);
      MetricsForSnoc(arrivals[..n], arrivals[n], row.predictionId);
      assert arrivals == arrivals[..n] + [arrivals[n]];
      KeyTakenStep(After(arrivals[..n]), arrivals[n], row);
    }
  }

  lemma KeyTakenStep(t: Tables, a: Arrival, row: MetricRow)
    requires row.predictionId.Some?
    ensures MetricKeyTaken(Arrive(t, a).metrics, row) <==>
            MetricKeyTaken(t.metrics, row) || (a.Measured? && a.metric.predictionId == row.predictionId)
  {
    var after := Arrive(t, a).metrics;
    if MetricKeyTaken(t.metrics, row) {
      var i :| 0 <= i < |t.metrics| && t.metrics[i].predictionId == row.predictionId;
      assert after[i].predictionId == row.predictionId;
    }
    if a.Measured? && !MetricKeyTaken(t.metrics, a.metric) {
      assert after[|t.metrics|] == a.metric;
    }
  }

  /** One more row of the metrics table. */
  lemma RecordedOnce(metrics: seq<MetricRow>, added: MetricRow, row: MetricRow)
    ensures multiset(RecordMetric(metrics, added))[row] ==
            multiset(metrics)[row] + if added == row && !MetricKeyTaken(metrics, added) then 1 else 0
  {
  }

  lemma CountSnoc<T>(s: seq<T>, x: T, y: T)
    ensures multiset(s + [x])[y] == multiset(s)[y] + if x == y then 1 else 0
  {
  }

  lemma MetricsForSnoc(arrivals: seq<Arrival>, last: Arrival, key: Option<string>)
    ensures MetricsFor(arrivals + [last], key) ==
            MetricsFor(arrivals, key) + if last.Measured? && last.metric.predictionId == key then [last.metric] else []
  {
    var f := (a: Arrival) => if a.Measured? && a.metric.predictionId == key then [a.metric] else [];
    FlatMapAppend(arrivals, [last], f);
    FlatMapOne(last, f);
  }

  lemma CopiesSnoc(arrivals: seq<Arrival>, last: Arrival, row: MetricRow)
    ensures Copies(arrivals + [last], row) ==
            Copies(arrivals, row)
            + if last == Measured(row)
                && (row.predictionId.None? || MetricsFor(arrivals, row.predictionId) == []) then 1 else 0
  {
    CountSnoc(arrivals, last, Measured(row));
    MetricsForSnoc(arrivals, last, row.predictionId);
  }

  lemma StoredSnoc(t: Tables, last: Arrival, row: MetricRow)
    ensures multiset(Arrive(t, last).metrics)[row] ==
            multiset(t.metrics)[row] + if last == Measured(row) && !MetricKeyTaken(t.metrics, row) then 1 else 0
  {
    if last.Measured? {
      RecordedOnce(t.metrics, last.metric, row);
    }
  }

  /** The last arrival is stored exactly if it counts as a new copy. */
  predicate CountsAsNew(arrivals: seq<Arrival>, row: MetricRow)
    requires arrivals != []
  {
    var n := |arrivals| - 1;
    arrivals[n] == Measured(row) && (row.predictionId.None? || MetricsFor(arrivals[..n], row.predictionId) == [])
  }

  lemma OneMoreCopy(arrivals: seq<Arrival>, row: MetricRow)
    requires arrivals != []
    ensures Copies(arrivals, row) ==
            Copies(arrivals[..|arrivals| - 1], row) + if CountsAsNew(arrivals, row) then 1 else 0
  {
    var n := |arrivals| - 1;
    CopiesSnoc(arrivals[..n], arrivals[n], row);
    assert arrivals == arrivals[..n] + [arrivals[n]];
  }

  lemma OneMoreStored(arrivals: seq<Arrival>, row: MetricRow)
    requires arrivals != []
    ensures multiset(After(arrivals).metrics)[row] ==
            multiset(After(arrivals[..|arrivals| - 1]).metrics)[row] + if CountsAsNew(arrivals, row) then 1 else 0
  {
    var n := |arrivals| - 1;
    StoredSnoc(After(arrivals[..n]), arrivals[n], row);
    if row.predictionId.Some? {
      KeyTakenMeansArrived(arrivals[..n], row);
    }
  }

  lemma {:induction false} CopiesStored(arrivals: seq<Arrival>, row: MetricRow)
    ensures multiset(After(arrivals).metrics)[row] == Copies(arrivals, row)
  {
    if arrivals == [] {
      assert MetricsFor(arrivals, row.predictionId) == [];
    } else {
      CopiesStored(arrivals[..|arrivals| - 1], row);
      OneMoreStored(arrivals, row);
      OneMoreCopy(arrivals, row);
    }
  }

  lemma StoreKeepsKeys(labels: seq<LabelRow>, row: LabelRow)
    requires UniqueKeys(labels)
    ensures UniqueKeys(StoreLabel(labels, row))
  {
    var after := StoreLabel(labels, row);
    forall i, j | 0 <= i < j < |after| ensures after[i].predictionId != after[j].predictionId {
      assert after[i] == labels[i];
    }
  }

  /** No prediction ever has two labels. */
  lemma {:induction false} KeysStayUnique(arrivals: seq<Arrival>)
    ensures UniqueKeys(After(arrivals).labels)
  {
    if arrivals != [] {
      var front, last := arrivals[..|arrivals| - 1], arrivals[|arrivals| - 1];
      KeysStayUnique(front);
      if last.Reported? {
        StoreKeepsKeys(After(front).labels, last.truth);
      }
    }
  }

  // ---------------------------------------------------------------------------------------------
  // The theorems

  /** The same writes, with each prediction's labels in the same order and each prediction's metrics
      (there is only one unless an id is reused) in the same order; otherwise shuffled at will. */
  ghost predicate Shuffled(xs: seq<Arrival>, ys: seq<Arrival>) {
    && multiset(xs) == multiset(ys)
    && (forall key :: LabelsFor(xs, key) == LabelsFor(ys, key))
    && (forall key: Option<string> :: key.Some? ==> MetricsFor(xs, key) == MetricsFor(ys, key))
  }

  lemma SameTables(xs: seq<Arrival>, ys: seq<Arrival>)
    requires Shuffled(xs, ys)
    ensures multiset(After(xs).metrics) == multiset(After(ys).metrics)
    ensures forall key :: Matches(After(xs).labels, key) == Matches(After(ys).labels, key)
  {
    forall row ensures multiset(After(xs).metrics)[row] == multiset(After(ys).metrics)[row] {
      CopiesStored(xs, row);
      CopiesStored(ys, row);
    }
    forall key ensures Matches(After(xs).labels, key) == Matches(After(ys).labels, key) {
      FirstLabelStays(xs, key);
      FirstLabelStays(ys, key);
    }
  }

  /** Shuffling arrivals changes neither the joined rows of any query nor any number in its summary. */
  lemma ArrivalOrderIrrelevant(xs: seq<Arrival>, ys: seq<Arrival>, q: Query)
    requires Shuffled(xs, ys)
    ensures multiset(Rows(q, After(xs).metrics, After(xs).labels)) ==
        multiset(Rows(q, After(ys).metrics, After(ys).labels))
    ensures VersionSummary(q, After(xs).metrics, After(xs).labels) ==
        VersionSummary(q, After(ys).metrics, After(ys).labels)
  {
    SameTables(xs, ys);
    RowsForgetOrder(q, After(xs), After(ys));
    SummaryForgetsOrder(q.version, Rows(q, After(xs).metrics, After(xs).labels),
                        Rows(q, After(ys).metrics, After(ys).labels));
  }

  lemma RowsForgetOrder(q: Query, t: Tables, u: Tables)
    requires multiset(t.metrics) == multiset(u.metrics)
    requires forall key :: Matches(t.labels, key) == Matches(u.labels, key)
    ensures multiset(Rows(q, t.metrics, t.labels)) == multiset(Rows(q, u.metrics, u.labels))
  {
    var selected := Select(q, u.metrics);
    FlatMapForgetsOrder(t.metrics, u.metrics, (m: MetricRow) => if Selects(q, m) then [m] else []);
    FlatMapForgetsOrder(Select(q, t.metrics), selected, (m: MetricRow) => JoinOne(m, t.labels));
    FlatMapExt(selected, (m: MetricRow) => JoinOne(m, t.labels), (m: MetricRow) => JoinOne(m, u.labels));
  }

  /** In every reachable label table the outer join keeps each selected metric exactly once, with
      the first label ever reported for its prediction id, if any. */
  lemma {:induction false} JoinKeepsEveryMetric(metrics: seq<MetricRow>, arrivals: seq<Arrival>)
    ensures var rows := OuterJoin(metrics, After(arrivals).labels);
            && |rows| == |metrics|
            && forall i | 0 <= i < |rows| ::
                 && rows[i].metric == metrics[i]
                 && var reported := LabelsFor(arrivals, metrics[i].predictionId);
                    rows[i].truth == if reported == [] then None else Some(reported[0])
  {
    if metrics != [] {
      JoinKeepsEveryMetric(metrics[1..], arrivals);
      FirstLabelStays(arrivals, metrics[0].predictionId);
      var rows := OuterJoin(metrics, After(arrivals).labels);
      assert rows == JoinOne(metrics[0], After(arrivals).labels) + OuterJoin(metrics[1..], After(arrivals).labels);
    }
  }

  /** Whatever labels there are, a summary's sample count is the number of metrics in its window. */
  lemma SampleCountMeaning(arrivals: seq<Arrival>, q: Query)
    ensures VersionSummary(q, After(arrivals).metrics, After(arrivals).labels).sampleCount ==
        |Window(q, After(arrivals).metrics)|
  {
    JoinKeepsEveryMetric(Select(q, After(arrivals).metrics), arrivals);
    SelectCounts(q, After(arrivals).metrics);
  }
}
