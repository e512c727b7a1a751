/** The promotion gate (backend/app/policy/engine.py): seven checks over three summaries, and the
    verdict they add up to. */
module Policy {
  import opened Prelude
  import opened Models
  import opened Lists
  import opened Percentile
  import opened Metrics
  import opened ArrivalOrder
  import opened LabeledEvidence

  datatype PolicyName =
    | MinimumRequests
    | LatencyP95Increase
    | MaxErrorRate
    | MinimumLabeledSamples
    | MinimumLabelCoverage
    | MinimumPositiveLabels
    | MinimumRecall

  datatype Check = Check(name: PolicyName, observed: Option<real>, threshold: real, result: Verdict)

  function Min(a: nat, b: nat): nat {
    if a <= b then a else b
  }

  function RequireAtLeast(name: PolicyName, observed: nat, threshold: nat): Check {
    Check(name, Some(observed as real), threshold as real, if observed >= threshold then Pass else NoVerdict)
  }

  function CheckRequests(stable: MetricsSummary, canary: MetricsSummary, config: PolicyConfig): Check {
    RequireAtLeast(MinimumRequests, Min(stable.sampleCount, canary.sampleCount), config.minimumRequests)
  }

  /** A stable p95 of zero counts as missing: the code tests its truth value. */
  function CheckLatency(stable: MetricsSummary, canary: MetricsSummary, limit: real): Check {
    if stable.p95LatencyMs.None? || stable.p95LatencyMs.value == 0.0 || canary.p95LatencyMs.None? then
      Check(LatencyP95Increase, None, limit, NoVerdict)
    else
      var base := stable.p95LatencyMs.value;
      var increase := (canary.p95LatencyMs.value - base) / base * 100.0;
      Check(LatencyP95Increase, Some(increase), limit, if increase > limit then Fail else Pass)
  }

  function CheckReliability(canary: MetricsSummary, limit: real): Check {
    if canary.errorRate.None? then Check(MaxErrorRate, None, limit, NoVerdict)
    else
      var percent := canary.errorRate.value * 100.0;
      Check(MaxErrorRate, Some(percent), limit, if percent > limit then Fail else Pass)
  }

  function CheckCoverage(quality: MetricsSummary, minimum: real): Check {
    var coverage := quality.labelCoverage;
    Check(MinimumLabelCoverage, coverage, minimum,
          if coverage.None? || coverage.value < minimum then NoVerdict else Pass)
  }

  function CheckRecall(quality: MetricsSummary, minimum: real): Check {
    if quality.recall.None? then Check(MinimumRecall, None, minimum, NoVerdict)
    else Check(MinimumRecall, quality.recall, minimum, if quality.recall.value < minimum then Fail else Pass)
  }

  function GateChecks(quality: MetricsSummary, config: PolicyConfig): seq<Check> {
    [RequireAtLeast(MinimumLabeledSamples, quality.labeledSampleCount, config.minimumLabeledSamples),
     CheckCoverage(quality, config.minimumLabelCoverage),
     RequireAtLeast(MinimumPositiveLabels, quality.positiveLabelCount, config.minimumPositiveLabels)]
  }

  predicate Passed(checks: seq<Check>) {
    forall i | 0 <= i < |checks| :: checks[i].result == Pass
  }

  /** `evaluate_quality_policies`: recall is looked at only when every gate passes. */
  function EvaluateQualityPolicies(quality: MetricsSummary, config: PolicyConfig): seq<Check> {
    var gates := GateChecks(quality, config);
    if !Passed(gates) then gates else gates + [CheckRecall(quality, config.minimumRecall)]
  }

  /** `evaluate_policies`: with too little traffic nothing else is evaluated. */
  function EvaluatePolicies(stable: MetricsSummary, canary: MetricsSummary, quality: MetricsSummary,
                            config: PolicyConfig): seq<Check> {
    var requests := CheckRequests(stable, canary, config);
    if requests.result != Pass then [requests]
    else
      [requests, CheckLatency(stable, canary, config.p95MaxIncreasePercent),
       CheckReliability(canary, config.maxErrorRatePercent)]
      + EvaluateQualityPolicies(quality, config)
  }

  function Outcomes(checks: seq<Check>): set<Verdict> {
    set i | 0 <= i < |checks| :: checks[i].result
  }

  /** `overall_result`. */
  function OverallResult(checks: seq<Check>): Verdict {
    var outcomes := Outcomes(checks);
    if Fail in outcomes then Fail else if NoVerdict in outcomes then NoVerdict else Pass
  }

  function Judge(stable: MetricsSummary, canary: MetricsSummary, quality: MetricsSummary,
                 config: PolicyConfig): Verdict {
    OverallResult(EvaluatePolicies(stable, canary, quality, config))
  }

  // ---------------------------------------------------------------------------------------------
  // The verdict as a fold: order and grouping of checks do not matter

  function Worse(a: Verdict, b: Verdict): Verdict {
    if a == Fail || b == Fail then Fail else if a == NoVerdict || b == NoVerdict then NoVerdict else Pass
  }

  /** The overall result is the worst single result, so it can be computed check by check. */
  lemma {:induction false} OverallIsWorst(checks: seq<Check>, more: seq<Check>)
    ensures OverallResult(checks + more) == Worse(OverallResult(checks), OverallResult(more))
  {
    assert Outcomes(checks + more) == Outcomes(checks) + Outcomes(more) by {
      forall v | v in Outcomes(checks) + Outcomes(more) ensures v in Outcomes(checks + more) {
        if v in Outcomes(checks) {
          var i :| 0 <= i < |checks| && checks[i].result == v;
          assert (checks + more)[i].result == v;
        } else {
          var i :| 0 <= i < |more| && more[i].result == v;
          assert (checks + more)[|checks| + i].result == v;
        }
      }
    }
  }

  /** Any reordering of the checks gives the same verdict. */
  lemma CheckOrderIrrelevant(checks: seq<Check>, other: seq<Check>)
    requires multiset(checks) == multiset(other)
    ensures OverallResult(checks) == OverallResult(other)
  {
    OutcomesWithin(checks, other);
    OutcomesWithin(other, checks);
    assert Outcomes(checks) == Outcomes(other);
  }

  lemma OutcomesWithin(checks: seq<Check>, other: seq<Check>)
    requires multiset(checks) == multiset(other)
    ensures Outcomes(checks) <= Outcomes(other)
  {
    forall v | v in Outcomes(checks) ensures v in Outcomes(other) {
      var i :| 0 <= i < |checks| && checks[i].result == v;
      assert checks[i] in multiset(other);
      var j :| 0 <= j < |other| && other[j] == checks[i];
    }
  }

  lemma OverallOne(c: Check)
    ensures OverallResult([c]) == c.result
  {
    assert [c][0].result in Outcomes([c]);
  }

  lemma OverallCons(c: Check, rest: seq<Check>)
    ensures OverallResult([c] + rest) == Worse(c.result, OverallResult(rest))
  {
    OverallIsWorst([c], rest);
    OverallOne(c);
  }

  // ---------------------------------------------------------------------------------------------
  // A stored evaluation speaks for itself

  /** What one stored row says on its own: data-sufficiency checks wait, the others fail. */
  function RowVerdict(c: Check): Verdict {
    if c.observed.None? then NoVerdict
    else match c.name
      case MinimumRequests | MinimumLabeledSamples | MinimumLabelCoverage | MinimumPositiveLabels =>
        if c.observed.value >= c.threshold then Pass else NoVerdict
      case LatencyP95Increase | MaxErrorRate => if c.observed.value <= c.threshold then Pass else Fail
      case MinimumRecall => if c.observed.value >= c.threshold then Pass else Fail
  }

  function Names(checks: seq<Check>): seq<PolicyName> {
    seq(|checks|, i requires 0 <= i < |checks| => checks[i].name)
  }

  const GATES := [MinimumLabeledSamples, MinimumLabelCoverage, MinimumPositiveLabels]

  /** Every stored result follows from the observed value and the threshold stored beside it, and
      which checks were stored says how far the evaluation got. */
  lemma RecordSpeaksForItself(stable: MetricsSummary, canary: MetricsSummary, quality: MetricsSummary,
                              config: PolicyConfig)
    ensures var checks := EvaluatePolicies(stable, canary, quality, config);
            && (forall i | 0 <= i < |checks| :: checks[i].result == RowVerdict(checks[i]))
            && (|| Names(checks) == [MinimumRequests]
                || Names(checks) == [MinimumRequests, LatencyP95Increase, MaxErrorRate] + GATES
                || Names(checks) == [MinimumRequests, LatencyP95Increase, MaxErrorRate] + GATES + [MinimumRecall])
            && (|checks| == 1 <==> checks[0].result == NoVerdict)
            && (|checks| == 7 <==> |checks| > 1 && Passed(checks[3..6]))
  {
    var gates := GateChecks(quality, config);
    var checks := EvaluatePolicies(stable, canary, quality, config);
    if |checks| > 1 {
      assert checks[3..6] == gates;
    }
  }

  /** What is stored with each result: the number that was looked at, and the configured limit. */
  lemma StoredValues(stable: MetricsSummary, canary: MetricsSummary, quality: MetricsSummary, config: PolicyConfig)
    ensures var checks := EvaluatePolicies(stable, canary, quality, config);
            var least := if stable.sampleCount <= canary.sampleCount then stable.sampleCount else canary.sampleCount;
            && checks[0].threshold == config.minimumRequests as real && checks[0].observed == Some(least as real)
            && (|checks| > 1 ==>
                  && checks[1].threshold == config.p95MaxIncreasePercent
                  && checks[2].threshold == config.maxErrorRatePercent
                  && checks[3].threshold == config.minimumLabeledSamples as real
                  && checks[3].observed == Some(quality.labeledSampleCount as real)
                  && checks[4].threshold == config.minimumLabelCoverage && checks[4].observed == quality.labelCoverage
                  && checks[5].threshold == config.minimumPositiveLabels as real
                  && checks[5].observed == Some(quality.positiveLabelCount as real))
            && (|checks| > 6 ==> checks[6].threshold == config.minimumRecall && checks[6].observed == quality.recall)
  {
  }

  /** The two observations that are computed: the canary's p95 above stable's in percent of stable's, and
      the canary's errors in percent. */
  lemma StoredPercentages(stable: MetricsSummary, canary: MetricsSummary, quality: MetricsSummary, config: PolicyConfig)
    requires |EvaluatePolicies(stable, canary, quality, config)| > 1
    ensures var checks := EvaluatePolicies(stable, canary, quality, config);
            && (checks[1].observed.None? <==>
                  stable.p95LatencyMs == None || stable.p95LatencyMs == Some(0.0) || canary.p95LatencyMs == None)
            && (checks[1].observed.Some? ==>
                  var (base, value) := (stable.p95LatencyMs.value, canary.p95LatencyMs.value);
                  value == base + base * (checks[1].observed.value / 100.0))
            && checks[2].observed == if canary.errorRate.None? then None else Some(canary.errorRate.value * 100.0)
  {
    var checks := EvaluatePolicies(stable, canary, quality, config);
    if checks[1].observed.Some? {
      PercentOf(stable.p95LatencyMs.value, canary.p95LatencyMs.value, checks[1].observed.value);
    }
  }

  lemma PercentOf(base: real, value: real, increase: real)
    requires base != 0.0 && increase == (value - base) / base * 100.0
    ensures value == base + base * (increase / 100.0)
  {
    var share := (value - base) / base;
    assert increase / 100.0 == share;
    assert base * share == value - base;
  }

  // ---------------------------------------------------------------------------------------------
  // The verdict, told from the evidence rows

  /** Every row a client can report has a latency of at least zero. */
  predicate Reported(rows: seq<Joined>) {
    forall i | 0 <= i < |rows| :: rows[i].metric.latencyMs >= 0.0
  }

  predicate TrafficSufficient(stable: seq<Joined>, canary: seq<Joined>, config: PolicyConfig) {
    |stable| >= config.minimumRequests && |canary| >= config.minimumRequests
  }

  function LatencyQuantile(rows: seq<Joined>, pct: real): real
    requires rows != [] && 0.0 <= pct <= 100.0
  {
    LatencyCount(rows);
    SortedLength(FlatMap(rows, Latency));
    PercentileOf(Sorted(FlatMap(rows, Latency)), pct)
  }

  function P95(rows: seq<Joined>): real
    requires rows != []
  {
    LatencyQuantile(rows, 95.0)
  }

  /** There is a baseline to compare with. */
  predicate Comparable(stable: seq<Joined>, canary: seq<Joined>) {
    stable != [] && canary != [] && P95(stable) != 0.0
  }

  predicate AtMostTimes(value: real, base: real, factor: real) {
    value <= base * factor
  }

  predicate WithinLatency(stable: seq<Joined>, canary: seq<Joined>, config: PolicyConfig)
    requires Comparable(stable, canary)
  {
    AtMostTimes(P95(canary), P95(stable), 1.0 + config.p95MaxIncreasePercent / 100.0)
  }

  predicate AtMostPercent(part: nat, whole: nat, percent: real) {
    100.0 * part as real <= percent * whole as real
  }

  predicate AtLeastShare(part: nat, whole: nat, share: real) {
    part as real >= share * whole as real
  }

  ghost predicate WithinErrors(canary: seq<Joined>, config: PolicyConfig) {
    AtMostPercent(|FailedIn(canary)|, |canary|, config.maxErrorRatePercent)
  }

  /** The three data-sufficiency gates. */
  ghost predicate WellLabeled(quality: seq<Joined>, config: PolicyConfig) {
    && quality != []
    && |LabeledIn(quality)| >= config.minimumLabeledSamples
    && AtLeastShare(|LabeledIn(quality)|, |quality|, config.minimumLabelCoverage)
    && Positives(quality) >= config.minimumPositiveLabels
  }

  /** The rows labelled 1 that were predicted 1 or 0. */
  ghost function Positives(quality: seq<Joined>): nat {
    |InCell(quality, 1, 1)| + |InCell(quality, 0, 1)|
  }

  ghost predicate EnoughRecall(quality: seq<Joined>, config: PolicyConfig) {
    AtLeastShare(|InCell(quality, 1, 1)|, Positives(quality), config.minimumRecall)
  }

  function JudgeRows(version: Version, canaryVersion: Version, stable: seq<Joined>, canary: seq<Joined>,
                     quality: seq<Joined>, config: PolicyConfig): Verdict {
    Judge(Summarize(version, stable), Summarize(canaryVersion, canary), Summarize(canaryVersion, quality), config)
  }

  /** What a summary says about its rows. */
  ghost predicate Describes(s: MetricsSummary, rows: seq<Joined>) {
    && s.sampleCount == |rows|
    && HasP95(s, rows)
    && s.errorRate == Ratio(|FailedIn(rows)|, |rows|)
    && s.labeledSampleCount == |LabeledIn(rows)|
    && s.labelCoverage == Ratio(|LabeledIn(rows)|, |rows|)
    && s.positiveLabelCount == Positives(rows)
    && s.recall == Ratio(|InCell(rows, 1, 1)|, Positives(rows))
  }

  lemma SummaryDescribes(version: Version, rows: seq<Joined>)
    ensures Describes(Summarize(version, rows), rows)
  {
    QualityMeaning(version, rows);
    ConfusionMeaning(rows);
    CountsMeaning(rows);
    LatencyPerRow(rows);
  }

  lemma RatioAtLeast(part: nat, whole: nat, limit: real)
    requires whole > 0
    ensures Ratio(part, whole).value >= limit <==> part as real >= limit * whole as real
    ensures Ratio(part, whole).value > limit <==> part as real > limit * whole as real
  {
    DivideThrough(part as real, whole as real, limit);
  }

  lemma DivideThrough(a: real, b: real, limit: real)
    requires b > 0.0
    ensures a / b >= limit <==> a >= limit * b
    ensures a / b > limit <==> a > limit * b
  {
    assert a == a / b * b;
    if a / b > limit {
      ScaleStrict(b, limit, a / b);
    } else if a / b < limit {
      ScaleStrict(b, a / b, limit);
    }
  }

  lemma ScaleStrict(a: real, x: real, y: real)
    requires a > 0.0 && x < y
    ensures x * a < y * a
  {
  }

  /** `increase_percent > limit`, without the division. */
  lemma IncreaseMeaning(base: real, value: real, limit: real)
    requires base > 0.0
    ensures (value - base) / base * 100.0 > limit <==> value > base * (1.0 + limit / 100.0)
  {
    DivideThrough(value - base, base, limit / 100.0);
    assert base * (1.0 + limit / 100.0) == base + limit / 100.0 * base;
  }

  lemma P95Positive(rows: seq<Joined>)
    requires rows != [] && Reported(rows)
    ensures P95(rows) >= 0.0
  {
    var samples := FlatMap(rows, Latency);
    LatencyPerRow(rows);
    SortedMeaning(samples);
    PercentileBounds(Sorted(samples), 95.0, 95.0);
    assert Sorted(samples)[0] in multiset(samples);
  }

  /** The check on two numbers. */
  function LatencyResult(base: Option<real>, value: Option<real>, limit: real): Verdict {
    if base.None? || base.value == 0.0 || value.None? then NoVerdict
    else if AtMostTimes(value.value, base.value, 1.0 + limit / 100.0) then Pass else Fail
  }

  lemma LatencyCheck(s: MetricsSummary, c: MetricsSummary, limit: real)
    requires s.p95LatencyMs.Some? ==> s.p95LatencyMs.value >= 0.0
    ensures CheckLatency(s, c, limit).result == LatencyResult(s.p95LatencyMs, c.p95LatencyMs, limit)
  {
    if s.p95LatencyMs.Some? && s.p95LatencyMs.value > 0.0 && c.p95LatencyMs.Some? {
      IncreaseMeaning(s.p95LatencyMs.value, c.p95LatencyMs.value, limit);
    }
  }

  function LatencyOutcome(stable: seq<Joined>, canary: seq<Joined>, config: PolicyConfig): Verdict {
    if !Comparable(stable, canary) then NoVerdict
    else if WithinLatency(stable, canary, config) then Pass else Fail
  }

  ghost function ErrorOutcome(canary: seq<Joined>, config: PolicyConfig): Verdict {
    if canary == [] then NoVerdict else if WithinErrors(canary, config) then Pass else Fail
  }

  ghost function QualityOutcome(quality: seq<Joined>, config: PolicyConfig): Verdict {
    if !WellLabeled(quality, config) || Positives(quality) == 0 then NoVerdict
    else if EnoughRecall(quality, config) then Pass else Fail
  }

  function P95Of(rows: seq<Joined>): Option<real> {
    if rows == [] then None else Some(P95(rows))
  }

  predicate HasP95(s: MetricsSummary, rows: seq<Joined>) {
    s.p95LatencyMs == P95Of(rows)
  }

  lemma LatencyOfRows(stable: seq<Joined>, canary: seq<Joined>, config: PolicyConfig)
    ensures LatencyOutcome(stable, canary, config) ==
            LatencyResult(P95Of(stable), P95Of(canary), config.p95MaxIncreasePercent)
  {
  }

  lemma LatencyVerdict(s: MetricsSummary, c: MetricsSummary, stable: seq<Joined>, canary: seq<Joined>,
                       config: PolicyConfig)
    requires HasP95(s, stable) && HasP95(c, canary) && Reported(stable)
    ensures CheckLatency(s, c, config.p95MaxIncreasePercent).result == LatencyOutcome(stable, canary, config)
  {
    if stable != [] {
      P95Positive(stable);
    }
    LatencyCheck(s, c, config.p95MaxIncreasePercent);
    LatencyOfRows(stable, canary, config);
  }

  lemma ErrorCheck(c: MetricsSummary, errors: nat, total: nat, limit: real)
    requires c.errorRate == Ratio(errors, total)
    ensures CheckReliability(c, limit).result ==
            if total == 0 then NoVerdict else if AtMostPercent(errors, total, limit) then Pass else Fail
  {
    if total > 0 {
      RatioAtLeast(errors, total, limit / 100.0);
    }
  }

  lemma GateResults(q: MetricsSummary, labeled: nat, total: nat, positives: nat, config: PolicyConfig)
    requires q.labeledSampleCount == labeled && q.labelCoverage == Ratio(labeled, total)
    requires q.positiveLabelCount == positives
    ensures var gates := GateChecks(q, config);
            && (gates[0].result == Pass <==> labeled >= config.minimumLabeledSamples)
            && (gates[1].result == Pass <==> total > 0 && AtLeastShare(labeled, total, config.minimumLabelCoverage))
            && (gates[2].result == Pass <==> positives >= config.minimumPositiveLabels)
            && gates[0].result != Fail && gates[1].result != Fail && gates[2].result != Fail
  {
    if total > 0 {
      RatioAtLeast(labeled, total, config.minimumLabelCoverage);
    }
  }

  /** Three gates none of which can fail. */
  lemma GatesOverall(gates: seq<Check>)
    requires |gates| == 3 && gates[0].result != Fail && gates[1].result != Fail && gates[2].result != Fail
    ensures Passed(gates) <==> gates[0].result == Pass && gates[1].result == Pass && gates[2].result == Pass
    ensures OverallResult(gates) == if Passed(gates) then Pass else NoVerdict
  {
    assert gates == [gates[0]] + ([gates[1]] + [gates[2]]);
    OverallCons(gates[0], [gates[1]] + [gates[2]]);
    OverallCons(gates[1], [gates[2]]);
    OverallOne(gates[2]);
  }

  lemma GateVerdict(q: MetricsSummary, quality: seq<Joined>, config: PolicyConfig)
    requires Describes(q, quality)
    ensures var gates := GateChecks(q, config);
            && (Passed(gates) <==> WellLabeled(quality, config))
            && OverallResult(gates) == if WellLabeled(quality, config) then Pass else NoVerdict
  {
    GateResults(q, |LabeledIn(quality)|, |quality|, Positives(quality), config);
    GatesOverall(GateChecks(q, config));
  }

  lemma RecallCheck(q: MetricsSummary, caught: nat, positives: nat, minimum: real)
    requires q.recall == Ratio(caught, positives)
    ensures CheckRecall(q, minimum).result ==
            if positives == 0 then NoVerdict else if AtLeastShare(caught, positives, minimum) then Pass else Fail
  {
    if positives > 0 {
      RatioAtLeast(caught, positives, minimum);
    }
  }

  lemma QualityVerdict(q: MetricsSummary, quality: seq<Joined>, config: PolicyConfig)
    requires Describes(q, quality)
    ensures OverallResult(EvaluateQualityPolicies(q, config)) == QualityOutcome(quality, config)
  {
    GateVerdict(q, quality, config);
    RecallCheck(q, |InCell(quality, 1, 1)|, Positives(quality), config.minimumRecall);
    OverallIsWorst(GateChecks(q, config), [CheckRecall(q, config.minimumRecall)]);
    OverallOne(CheckRecall(q, config.minimumRecall));
  }

  /** The partial verdicts put together. */
  lemma JudgeIsWorst(s: MetricsSummary, c: MetricsSummary, q: MetricsSummary, config: PolicyConfig)
    ensures Judge(s, c, q, config) ==
            if Min(s.sampleCount, c.sampleCount) < config.minimumRequests then NoVerdict
            else Worse(CheckLatency(s, c, config.p95MaxIncreasePercent).result,
                       Worse(CheckReliability(c, config.maxErrorRatePercent).result,
                             OverallResult(EvaluateQualityPolicies(q, config))))
  {
    var requests := CheckRequests(s, c, config);
    var latency := CheckLatency(s, c, config.p95MaxIncreasePercent);
    var errors := CheckReliability(c, config.maxErrorRatePercent);
    var rest := EvaluateQualityPolicies(q, config);
    if requests.result == Pass {
      assert EvaluatePolicies(s, c, q, config) == [requests] + ([latency] + ([errors] + rest));
      OverallCons(requests, [latency] + ([errors] + rest));
      OverallCons(latency, [errors] + rest);
      OverallCons(errors, rest);
    } else {
      OverallOne(requests);
    }
  }

  /** PASS exactly when all seven conditions hold of the rows; FAIL exactly when there is enough
      traffic and latency, errors or fully gated recall breaks its threshold; anything else waits. */
  lemma VerdictMeaning(version: Version, canaryVersion: Version, stable: seq<Joined>, canary: seq<Joined>,
                       quality: seq<Joined>, config: PolicyConfig)
    requires Reported(stable)
    ensures var verdict := JudgeRows(version, canaryVersion, stable, canary, quality, config);
            && (verdict == Pass <==>
                  && TrafficSufficient(stable, canary, config)
                  && Comparable(stable, canary) && WithinLatency(stable, canary, config)
                  && WithinErrors(canary, config)
                  && WellLabeled(quality, config) && Positives(quality) >= 1 && EnoughRecall(quality, config))
            && (verdict == Fail <==>
                  && TrafficSufficient(stable, canary, config)
                  && (|| (Comparable(stable, canary) && !WithinLatency(stable, canary, config))
                      || (canary != [] && !WithinErrors(canary, config))
                      || (WellLabeled(quality, config) && Positives(quality) >= 1 && !EnoughRecall(quality, config))))
  {
    SummaryDescribes(version, stable);
    SummaryDescribes(canaryVersion, canary);
    SummaryDescribes(canaryVersion, quality);
    VerdictFrom(Summarize(version, stable), Summarize(canaryVersion, canary), Summarize(canaryVersion, quality),
                stable, canary, quality, config);
  }

  lemma ErrorVerdict(c: MetricsSummary, canary: seq<Joined>, config: PolicyConfig)
    requires Describes(c, canary)
    ensures CheckReliability(c, config.maxErrorRatePercent).result == ErrorOutcome(canary, config)
  {
    ErrorCheck(c, |FailedIn(canary)|, |canary|, config.maxErrorRatePercent);
  }

  lemma TrafficCheck(s: MetricsSummary, c: MetricsSummary, stable: seq<Joined>, canary: seq<Joined>,
                     config: PolicyConfig)
    requires Describes(s, stable) && Describes(c, canary)
    ensures Min(s.sampleCount, c.sampleCount) < config.minimumRequests <==> !TrafficSufficient(stable, canary, config)
  {
  }

  lemma VerdictFrom(s: MetricsSummary, c: MetricsSummary, q: MetricsSummary,
                    stable: seq<Joined>, canary: seq<Joined>, quality: seq<Joined>, config: PolicyConfig)
    requires Describes(s, stable) && Describes(c, canary) && Describes(q, quality) && Reported(stable)
    ensures Judge(s, c, q, config) ==
            if !TrafficSufficient(stable, canary, config) then NoVerdict
            else Worse(LatencyOutcome(stable, canary, config),
                       Worse(ErrorOutcome(canary, config), QualityOutcome(quality, config)))
  {
    TrafficCheck(s, c, stable, canary, config);
    LatencyVerdict(s, c, stable, canary, config);
    ErrorVerdict(c, canary, config);
    QualityVerdict(q, quality, config);
    JudgeIsWorst(s, c, q, config);
  }

  // ---------------------------------------------------------------------------------------------
  // Recall behind its gates

  lemma {:induction false} NegativesCount(rows: seq<Joined>)
    requires forall i | 0 <= i < |rows| :: TrueNegativeRow(rows[i])
    ensures Count(rows, WithLabel) == |rows| && Count(rows, TruePositive) == 0 && Count(rows, FalseNegative) == 0
  {
    if rows != [] {
      assert TrueNegativeRow(rows[0]);
      forall i | 0 <= i < |rows[1..]| ensures TrueNegativeRow(rows[1..][i]) {
        assert TrueNegativeRow(rows[i + 1]);
      }
      NegativesCount(rows[1..]);
    }
  }

  /** Enough labelled rows, none of them positive. */
  lemma NegativesAreWellLabeled(config: PolicyConfig, rows: seq<Joined>)
    requires config.minimumLabelCoverage <= 1.0 && config.minimumPositiveLabels == 0
    requires |rows| == config.minimumLabeledSamples + 1
    requires forall i | 0 <= i < |rows| :: TrueNegativeRow(rows[i])
    ensures WellLabeled(rows, config) && Positives(rows) == 0
  {
    NegativesCount(rows);
    CountsMeaning(rows);
    ConfusionMeaning(rows);
    WholeIsEnough(|rows|, config.minimumLabelCoverage);
  }

  lemma WholeIsEnough(whole: nat, share: real)
    requires share <= 1.0
    ensures AtLeastShare(whole, whole, share)
  {
    ScaleMonotone(whole as real, share, 1.0);
  }

  lemma UngatedRecall(version: Version, config: PolicyConfig, rows: seq<Joined>)
    requires WellLabeled(rows, config) && Positives(rows) == 0
    ensures Passed(GateChecks(Summarize(version, rows), config)) && Summarize(version, rows).recall.None?
  {
    SummaryDescribes(version, rows);
    GateVerdict(Summarize(version, rows), rows, config);
  }

  lemma GatedRecall(version: Version, config: PolicyConfig, rows: seq<Joined>)
    requires config.minimumPositiveLabels >= 1 && Passed(GateChecks(Summarize(version, rows), config))
    ensures Summarize(version, rows).recall.Some?
  {
    SummaryDescribes(version, rows);
    GateVerdict(Summarize(version, rows), rows, config);
  }

  /** The summary a query reads after these arrivals. */
  function SummaryAfter(arrivals: seq<Arrival>, q: Query): MetricsSummary {
    VersionSummary(q, After(arrivals).metrics, After(arrivals).labels)
  }

  /** Once the gates pass there is a recall to look at. */
  predicate GatesFindRecall(quality: MetricsSummary, config: PolicyConfig) {
    Passed(GateChecks(quality, config)) ==> quality.recall.Some?
  }

  /** "Recall is never missing once the gates pass" is a property of the configuration. For every query
      with a window: it holds of all evidence that can arrive, in any order, exactly when at least one
      positive label is demanded. */
  lemma RecallBehindGates(q: Query, config: PolicyConfig)
    requires q.windowStart <= q.windowEnd && 0.0 <= config.minimumLabelCoverage <= 1.0
    ensures (forall arrivals :: GatesFindRecall(SummaryAfter(arrivals, q), config)) <==>
        config.minimumPositiveLabels >= 1
  {
    if config.minimumPositiveLabels >= 1 {
      forall arrivals ensures GatesFindRecall(SummaryAfter(arrivals, q), config) {
        if Passed(GateChecks(SummaryAfter(arrivals, q), config)) {
          GatedRecall(q.version, config, Rows(q, After(arrivals).metrics, After(arrivals).labels));
        }
      }
    } else {
      var arrivals := Evidence(q, config.minimumLabeledSamples + 1);
      var rows := Rows(q, After(arrivals).metrics, After(arrivals).labels);
      EvidenceRows(q, config.minimumLabeledSamples + 1);
      NegativesAreWellLabeled(config, rows);
      UngatedRecall(q.version, config, rows);
      assert !GatesFindRecall(SummaryAfter(arrivals, q), config);
    }
  }

  // ---------------------------------------------------------------------------------------------
  // From samples to the latency check

  /** Each sorted canary latency is within the allowed increase of stable's. */
  predicate UniformlyWithin(stable: seq<Joined>, canary: seq<Joined>, factor: real) {
    Dominated(Sorted(FlatMap(canary, Latency)), Scaled(Sorted(FlatMap(stable, Latency)), factor))
  }

  lemma QuantileWithin(stable: seq<Joined>, canary: seq<Joined>, factor: real, pct: real)
    requires stable != [] && canary != [] && UniformlyWithin(stable, canary, factor) && 0.0 <= pct <= 100.0
    ensures AtMostTimes(LatencyQuantile(canary, pct), LatencyQuantile(stable, pct), factor)
  {
    LatencyCount(stable);
    LatencyCount(canary);
    SortedLength(FlatMap(stable, Latency));
    SortedLength(FlatMap(canary, Latency));
    PercentileWithin(Sorted(FlatMap(canary, Latency)), Sorted(FlatMap(stable, Latency)), factor, pct,
                     LatencyQuantile(canary, pct), LatencyQuantile(stable, pct));
  }

  lemma EachWithinMeansWithin(stable: seq<Joined>, canary: seq<Joined>, config: PolicyConfig)
    requires Comparable(stable, canary)
    requires UniformlyWithin(stable, canary, 1.0 + config.p95MaxIncreasePercent / 100.0)
    ensures WithinLatency(stable, canary, config)
  {
    QuantileWithin(stable, canary, 1.0 + config.p95MaxIncreasePercent / 100.0, 95.0);
  }

  lemma WithinMeansPass(version: Version, canaryVersion: Version, stable: seq<Joined>, canary: seq<Joined>,
                        config: PolicyConfig)
    requires Reported(stable) && (Comparable(stable, canary) ==> WithinLatency(stable, canary, config))
    ensures CheckLatency(Summarize(version, stable), Summarize(canaryVersion, canary),
                         config.p95MaxIncreasePercent).result ==
            if Comparable(stable, canary) then Pass else NoVerdict
  {
    SummaryDescribes(version, stable);
    SummaryDescribes(canaryVersion, canary);
    LatencyVerdict(Summarize(version, stable), Summarize(canaryVersion, canary), stable, canary, config);
  }

  /** A canary with as many samples as stable, each of its sorted latencies within t percent of
      stable's, never fails a threshold of t percent: it passes, or there is nothing to compare with. */
  lemma UniformlyFastEnoughPasses(version: Version, canaryVersion: Version, stable: seq<Joined>, canary: seq<Joined>,
                                  config: PolicyConfig)
    requires Reported(stable)
    requires UniformlyWithin(stable, canary, 1.0 + config.p95MaxIncreasePercent / 100.0)
    ensures CheckLatency(Summarize(version, stable), Summarize(canaryVersion, canary),
                         config.p95MaxIncreasePercent).result ==
            if Comparable(stable, canary) then Pass else NoVerdict
  {
    if Comparable(stable, canary) {
      EachWithinMeansWithin(stable, canary, config);
    }
    WithinMeansPass(version, canaryVersion, stable, canary, config);
  }
}
