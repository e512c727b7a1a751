/** Evidence the tables can hold: any number of predictions, each with an id of its own, all predicted 0
    and labelled 0, all inside the window of a given query. */
module LabeledEvidence {
  import opened Prelude
  import opened Lists
  import opened Metrics
  import opened ArrivalOrder

  const DIGITS := "0123456789"

  /** Decimal notation, for ids that never repeat. */
  function Decimal(n: nat): (id: string)
    ensures |id| == 1 <==> n < 10
    ensures id != []
  {
    if n < 10 then [DIGITS[n]] else Decimal(n / 10) + [DIGITS[n % 10]]
  }

  lemma DigitsDiffer(a: nat, b: nat)
    requires a < 10 && b < 10 && DIGITS[a] == DIGITS[b]
    ensures a == b
  {
  }

  lemma {:induction false} DecimalsDiffer(m: nat, n: nat)
    requires Decimal(m) == Decimal(n)
    ensures m == n
  {
    if m < 10 {
      DigitsDiffer(m, n);
    } else {
      var s, t := Decimal(m), Decimal(n);
      assert s[..|s| - 1] == Decimal(m / 10) && t[..|t| - 1] == Decimal(n / 10);
      assert s[|s| - 1] == DIGITS[m % 10] && t[|t| - 1] == DIGITS[n % 10];
      DecimalsDiffer(m / 10, n / 10);
      DigitsDiffer(m % 10, n % 10);
    }
  }

  function Negative(q: Query, k: nat): MetricRow {
    MetricRow(q.deploymentId, q.version, 0.0, 200, Some(0), Some(Decimal(k)), q.windowStart)
  }

  function TruthOf(q: Query, k: nat): LabelRow {
    LabelRow(Decimal(k), 0, q.windowStart, q.windowStart)
  }

  /** n predictions and their labels, one after the other. */
  function Evidence(q: Query, n: nat): seq<Arrival> {
    if n == 0 then []
    else Evidence(q, n - 1) + [Measured(Negative(q, n - 1))] + [Reported(TruthOf(q, n - 1))]
  }

  function NegativeRows(q: Query, n: nat): seq<MetricRow> {
    seq(n, k requires 0 <= k < n => Negative(q, k))
  }

  lemma AfterSnoc(arrivals: seq<Arrival>, last: Arrival)
    ensures After(arrivals + [last]) == Arrive(After(arrivals), last)
  {
    assert (arrivals + [last])[..|arrivals + [last]| - 1] == arrivals;
  }

  lemma AfterPair(arrivals: seq<Arrival>, row: MetricRow, truth: LabelRow)
    ensures After(arrivals + [Measured(row)] + [Reported(truth)]).metrics == RecordMetric(After(arrivals).metrics, row)
  {
    AfterSnoc(arrivals, Measured(row));
    AfterSnoc(arrivals + [Measured(row)], Reported(truth));
  }

  lemma OneMoreNegative(q: Query, n: nat)
    ensures RecordMetric(NegativeRows(q, n), Negative(q, n)) == NegativeRows(q, n + 1)
  {
    FreshId(q, n);
    assert NegativeRows(q, n + 1) == NegativeRows(q, n) + [Negative(q, n)];
  }

  /** No id repeats, so every metric is stored. */
  lemma {:induction false} EvidenceIsStored(q: Query, n: nat)
    ensures After(Evidence(q, n)).metrics == NegativeRows(q, n)
  {
    if n > 0 {
      EvidenceIsStored(q, n - 1);
      AfterPair(Evidence(q, n - 1), Negative(q, n - 1), TruthOf(q, n - 1));
      OneMoreNegative(q, n - 1);
    }
  }

  lemma FreshId(q: Query, n: nat)
    ensures !MetricKeyTaken(NegativeRows(q, n), Negative(q, n))
  {
    forall k | 0 <= k < n ensures Decimal(k) != Decimal(n) {
      if Decimal(k) == Decimal(n) {
        DecimalsDiffer(k, n);
      }
    }
  }

  lemma LabelsForSnoc(arrivals: seq<Arrival>, last: Arrival, key: Option<string>)
    ensures LabelsFor(arrivals + [last], key) ==
            LabelsFor(arrivals, key)
            + if last.Reported? && key == Some(last.truth.predictionId) then [last.truth] else []
  {
    var f := (a: Arrival) => if a.Reported? && key == Some(a.truth.predictionId) then [a.truth] else [];
    FlatMapAppend(arrivals, [last], f);
    FlatMapOne(last, f);
  }

  lemma LabelsForPair(arrivals: seq<Arrival>, row: MetricRow, truth: LabelRow, key: Option<string>)
    ensures LabelsFor(arrivals + [Measured(row)] + [Reported(truth)], key) ==
            LabelsFor(arrivals, key) + if key == Some(truth.predictionId) then [truth] else []
  {
    LabelsForSnoc(arrivals, Measured(row), key);
    LabelsForSnoc(arrivals + [Measured(row)], Reported(truth), key);
  }

  ghost predicate AllZero(labels: seq<LabelRow>) {
    forall i | 0 <= i < |labels| :: labels[i].actualLabel == 0
  }

  lemma {:induction false} EvidenceIsNegative(q: Query, n: nat, key: Option<string>)
    ensures AllZero(LabelsFor(Evidence(q, n), key))
  {
    if n > 0 {
      EvidenceIsNegative(q, n - 1, key);
      LabelsForPair(Evidence(q, n - 1), Negative(q, n - 1), TruthOf(q, n - 1), key);
    }
  }

  lemma {:induction false} EvidenceIsLabeled(q: Query, n: nat, k: nat)
    requires k < n
    ensures LabelsFor(Evidence(q, n), Some(Decimal(k))) != []
  {
    if k < n - 1 {
      EvidenceIsLabeled(q, n - 1, k);
    }
    LabelsForPair(Evidence(q, n - 1), Negative(q, n - 1), TruthOf(q, n - 1), Some(Decimal(k)));
  }

  lemma {:induction false} AllSelected(q: Query, metrics: seq<MetricRow>)
    requires forall m | m in metrics :: Selects(q, m)
    ensures Select(q, metrics) == metrics
  {
    if metrics != [] {
      assert metrics[0] in metrics;
      AllSelected(q, metrics[1..]);
    }
  }

  /** A row predicted 0 and labelled 0. */
  predicate TrueNegativeRow(j: Joined) {
    j.truth.Some? && j.truth.value.actualLabel == 0 && j.metric.prediction == Some(0)
  }

  /** What the query then reads: n rows, all of them true negatives. */
  lemma EvidenceRows(q: Query, n: nat)
    requires q.windowStart <= q.windowEnd
    ensures var rows := Rows(q, After(Evidence(q, n)).metrics, After(Evidence(q, n)).labels);
            |rows| == n && forall i | 0 <= i < n :: TrueNegativeRow(rows[i])
  {
    var metrics := After(Evidence(q, n)).metrics;
    EvidenceIsStored(q, n);
    AllSelected(q, metrics);
    JoinKeepsEveryMetric(metrics, Evidence(q, n));
    forall i | 0 <= i < n
      ensures TrueNegativeRow(Rows(q, metrics, After(Evidence(q, n)).labels)[i])
    {
      EvidenceIsLabeled(q, n, i);
      EvidenceIsNegative(q, n, metrics[i].predictionId);
    }
  }
}
