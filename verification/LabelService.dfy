/** backend/app/control_plane/label_service.py in its own form: two tables that unrelated writers append
    to, one unique key each, and an ingest_label that checks, inserts, and looks again when its insert is
    refused. */
module LabelService {
  import opened Prelude
  import opened Models
  import opened Metrics
  import opened LabelProtocol

  /** What _resolve_existing answers for a label that is on record already. */
  function Resolution(existing: int, actual: int, metric: Option<DeploymentId>): Answer {
    if existing == actual then NoOp else Conflict(existing, metric)
  }

  /** ... and what it puts on record: a conflict that can be attributed to a deployment. */
  function OnRecord(id: string, existing: int, actual: int, metric: Option<DeploymentId>): seq<(DeploymentId, Event)> {
    if existing == actual || metric.None? then [] else [(metric.value, LabelConflict(id, existing, actual))]
  }

  /** A label that agrees with the one on record leaves nothing behind; one that differs leaves one event, with
      the deployment whose metric has that prediction id, if there is one. */
  lemma OnRecordMeaning(metrics: seq<MetricRow>, id: string, existing: int, actual: int)
    ensures var left := OnRecord(id, existing, actual, FindMetric(metrics, id));
            && (left != [] <==>
                  existing != actual && exists i | 0 <= i < |metrics| :: metrics[i].predictionId == Some(id))
            && (left != [] ==>
                  exists i | 0 <= i < |metrics| :: metrics[i].predictionId == Some(id)
                    && left == [(metrics[i].deploymentId, LabelConflict(id, existing, actual))])
  {
    FindMetricMeaning(metrics, id);
    if FindMetric(metrics, id).Some? {
      var i := FirstMetric(metrics, id);
    }
  }

  lemma {:induction false} FirstMetric(metrics: seq<MetricRow>, id: string) returns (i: nat)
    requires FindMetric(metrics, id).Some?
    ensures i < |metrics| && metrics[i].predictionId == Some(id)
    ensures FindMetric(metrics, id) == Some(metrics[i].deploymentId)
  {
    if metrics[0].predictionId == Some(id) {
      i := 0;
    } else {
      var k := FirstMetric(metrics[1..], id);
      i := k + 1;
    }
  }

  class EvidenceStore {
    var metrics: seq<MetricRow>
    var labels: seq<LabelRow>
    var conflicts: seq<(DeploymentId, Event)>

    constructor ()
      ensures metrics == [] && labels == [] && conflicts == []
    {
      metrics, labels, conflicts := [], [], [];
    }

    ghost predicate Valid()
      reads this
    {
      UniqueKeys(labels)
    }

    /** Other requests commit between two statements of this one. All a caller knows is that they
        insert and never update or delete, under the same unique key. */
    method Elapse()
      requires Valid()
      modifies this
      ensures Valid() && old(labels) <= labels && old(metrics) <= metrics && old(conflicts) <= conflicts
    {
    }

    method Resolve(existing: LabelRow, id: string, actual: int) returns (answer: Answer)
      modifies this`conflicts
      ensures answer == Resolution(existing.actualLabel, actual, FindMetric(metrics, id))
      ensures conflicts == old(conflicts) + OnRecord(id, existing.actualLabel, actual, FindMetric(metrics, id))
    {
      if existing.actualLabel == actual {
        return NoOp;
      }
      var metric := FindMetric(metrics, id);
      if metric.Some? {
        conflicts := conflicts + [(metric.value, LabelConflict(id, existing.actualLabel, actual))];
      }
      answer := Conflict(existing.actualLabel, metric);
    }

    /** `ingest_label`. Whatever others commit in between, exactly one label is on record for the
        prediction afterwards, and the answer tells the truth about it: stored by this call (and there
        was none before), there already and the same, or there already and different. */
    method IngestLabel(id: string, actual: int, occurredAt: Time, now: Time) returns (answer: Answer)
      requires Valid()
      modifies this
      ensures Valid() && old(labels) <= labels && old(metrics) <= metrics && old(conflicts) <= conflicts
      ensures FindLabel(labels, id).Some?
      ensures var kept := FindLabel(labels, id).value;
              match answer
              case AppliedLabel | PendingLabel =>
                FindLabel(old(labels), id).None? && kept == LabelRow(id, actual, occurredAt, now)
              case NoOp => kept.actualLabel == actual
              case Conflict(existing, metric) =>
                existing == kept.actualLabel != actual && metric == FindMetric(metrics, id)
      ensures answer == AppliedLabel ==> FindMetric(metrics, id).Some?
      ensures answer == PendingLabel ==> FindMetric(metrics, id).None?
      ensures answer.Conflict? && answer.deploymentId.Some? ==>
                conflicts != [] &&
                conflicts[|conflicts| - 1] == (answer.deploymentId.value, LabelConflict(id, answer.existing, actual))
      ensures FindLabel(old(labels), id).Some? ==>
                labels == old(labels) && metrics == old(metrics)
                && answer == Resolution(FindLabel(labels, id).value.actualLabel, actual, FindMetric(metrics, id))
                && conflicts == old(conflicts) + OnRecord(id, FindLabel(labels, id).value.actualLabel, actual,
                                                          FindMetric(metrics, id))
    {
      var existing := FindLabel(labels, id);
      if existing.Some? {
        answer := Resolve(existing.value, id, actual);
        return;
      }
      Elapse();
      label insert:
      var row := LabelRow(id, actual, occurredAt, now);
      FindAfterInsert(labels, row, id);
      if Labeled(labels, id) {
        // IntegrityError: another writer's row for this key was committed first.
        answer := Resolve(FindLabel(labels, id).value, id, actual);
        return;
      }
      labels := labels + [row];
      UniqueAfterInsert(old@insert(labels), row);
      Elapse();
      StillFound(old@insert(labels) + [row], labels, id);
      answer := if FindMetric(metrics, id).Some? then AppliedLabel else PendingLabel;
    }
  }
}
