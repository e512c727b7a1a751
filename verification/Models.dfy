/** The rows of the control plane's database (backend/app/control_plane/models.py) as values. */
module Models {
  import opened Prelude

  type DeploymentId = string
  type ModelName = string
  type Version = string
  type Time = int

  /** Times are in microseconds. */
  const SECOND: int := 1000000

  datatype Status =
    | Pending
    | Deploying
    | CanaryRunning
    | Evaluating
    | Promoting
    | Promoted
    | RollingBack
    | RolledBack
    | Failed
    | Inconclusive
  {
    /** TERMINAL_STATUSES: what the partial unique index does not cover. */
    predicate IsTerminal() {
      this == Promoted || this == RolledBack || this == Failed
    }

    /** ACTIVE_STATUSES: what the automated worker may still act on. */
    predicate IsActive() {
      this == CanaryRunning || this == Evaluating
    }

    /** Live or frozen: the rollout is not decided yet. */
    predicate InFlight() {
      IsActive() || this == Inconclusive
    }
  }

  datatype PolicyConfig = PolicyConfig(
    minimumRequests: nat,
    evaluationWindowSeconds: nat,
    maxInconclusiveRetries: nat,
    labelMaturitySeconds: nat,
    minimumLabeledSamples: nat,
    minimumLabelCoverage: real,
    minimumPositiveLabels: nat,
    p95MaxIncreasePercent: real,
    maxErrorRatePercent: real,
    minimumRecall: real)

  /** PolicyEvaluationResult. NoVerdict is its INCONCLUSIVE. */
  datatype Verdict = Pass | Fail | NoVerdict

  datatype Target = Target(version: Version, weight: real)

  datatype Allocation = Allocation(targets: seq<Target>, revision: nat)

  /** One row of `deployments`. `versionId` is the optimistic-lock column. */
  datatype Deployment = Deployment(
    modelName: ModelName,
    stableVersion: Version,
    canaryVersion: Version,
    status: Status,
    idempotencyKey: Option<string>,
    policy: PolicyConfig,
    retryCount: nat,
    paused: bool,
    createdAt: Time,
    completedAt: Option<Time>,
    versionId: nat)

  /** One row of `deployment_events`; the free text is reduced to the facts it carries. */
  datatype Event =
    | Created
    | StatusChanged(source: Status, target: Status)
    | AutomationPaused
    | AutomationResumed
    | TrafficAdvanced(fromWeight: real, toWeight: real)
    | InconclusiveCycle(attempt: nat, maxRetries: nat)
    | RouterUnreachable
    | RouterRecovered
    | RouterReconciled(fromDeployment: Option<DeploymentId>, fromRevision: int,
                       toDeployment: DeploymentId, toRevision: int)
    | LabelConflict(predictionId: string, recorded: int, rejected: int)

  /** The committed contents of the routing tables. */
  datatype Db = Db(
    deployments: map<DeploymentId, Deployment>,
    allocations: map<DeploymentId, Allocation>,
    generations: map<ModelName, nat>,
    events: map<DeploymentId, seq<Event>>)

  const EMPTY_DB := Db(map[], map[], map[], map[])

  function EventsOf(db: Db, id: DeploymentId): seq<Event> {
    if id in db.events then db.events[id] else []
  }

  function AllocationOf(db: Db, id: DeploymentId): Option<Allocation> {
    if id in db.allocations then Some(db.allocations[id]) else None
  }

  function GenerationOf(db: Db, m: ModelName): Option<nat> {
    if m in db.generations then Some(db.generations[m]) else None
  }
}
