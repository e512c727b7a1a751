/** What each operation of backend/app/control_plane/service.py writes, as functions of what its
    session read. Nothing here commits: `Persist` and `Insert` are the two committed effects. */
module Rollout {
  import opened Prelude
  import opened Models
  import opened StateMachine
  import opened Weights
  import opened Audit

  datatype ServiceError =
    | NotFound
    | InvalidTransition(current: Status, target: Status)
    | NotActive(status: Status)
    | AlreadyTerminal(status: Status)
    | AlreadyAtFinalStage
    | ActiveDeploymentExists
    | IdempotencyKeyTaken
    | ConcurrentUpdate

  datatype Action = Promote | Rollback | Advance | RecordInconclusive | Pause | Resume

  /** A session's uncommitted work on one deployment. The generation it will write is the
      revision of `allocation`. */
  datatype Draft = Draft(row: Deployment, allocation: Option<Allocation>, events: seq<Event>)

  datatype Plan = Write(draft: Draft) | NoChange | Refused(error: ServiceError)

  function Log(draft: Draft, event: Event): Draft {
    draft.(events := draft.events + [event])
  }

  /** `_transition`. */
  function Transition(draft: Draft, target: Status): Result<Draft, ServiceError> {
    var current := draft.row.status;
    if Allowed(current, target) then
      Success(Log(draft.(row := draft.row.(status := target)), StatusChanged(current, target)))
    else
      Failure(InvalidTransition(current, target))
  }

  /** `_next_routing_generation`, given the counter row the session read. */
  function NextGeneration(read: Option<nat>): nat {
    if read.None? then 1 else read.value + 1
  }

  /** The shared first half of promote, rollback and freeze. */
  function LeaveRunning(draft: Draft): Result<Draft, ServiceError> {
    if draft.row.status == CanaryRunning then Transition(draft, Evaluating) else Success(draft)
  }

  /** Through `via` to `final`, writing the winner's split on the way. */
  function Settle(judged: Draft, generation: Option<nat>, via: Status, final: Status, winner: Version)
    : Result<Draft, ServiceError>
  {
    var leaving :- Transition(judged, via);
    Transition(leaving.(allocation := Some(Allocation([Target(winner, 1.0)], NextGeneration(generation)))), final)
  }

  /** promote (via Promoting to Promoted) and rollback (via RollingBack to RolledBack). */
  function Conclude(row: Deployment, generation: Option<nat>, now: Time,
                    via: Status, final: Status, winner: Version): Result<Draft, ServiceError> {
    var judged :- LeaveRunning(Draft(row, None, []));
    var done :- Settle(judged, generation, via, final, winner);
    Success(done.(row := done.row.(completedAt := Some(now))))
  }

  function AsPlan(r: Result<Draft, ServiceError>): Plan {
    match r
    case Success(draft) => Write(draft)
    case Failure(error) => Refused(error)
  }

  /** `advance_traffic`. */
  function PlanAdvance(row: Deployment, allocation: Option<Allocation>, generation: Option<nat>): Plan {
    var weight := CanaryWeight(allocation, row.canaryVersion);
    var next := NextStage(weight);
    if !row.status.IsActive() then Refused(NotActive(row.status))
    else if next.None? then Refused(AlreadyAtFinalStage)
    else
      Write(Draft(row,
                  Some(Allocation(Split(row.stableVersion, row.canaryVersion, next.value),
                                  NextGeneration(generation))),
                  [TrafficAdvanced(weight, next.value)]))
  }

  /** `record_inconclusive` with the deployment's own retry budget. */
  function PlanInconclusive(row: Deployment, now: Time): Plan {
    var max := row.policy.maxInconclusiveRetries;
    if !row.status.IsActive() then Refused(NotActive(row.status))
    else
      var attempt := row.retryCount + 1;
      var counted := Draft(row.(retryCount := attempt), None, [InconclusiveCycle(attempt, max)]);
      if attempt > max then AsPlan(Freeze(counted, now)) else Write(counted)
  }

  function Freeze(draft: Draft, now: Time): Result<Draft, ServiceError> {
    var judged :- LeaveRunning(draft);
    var frozen :- Transition(judged, Inconclusive);
    Success(frozen.(row := frozen.row.(completedAt := Some(now))))
  }

  /** `pause_automation` and `resume_automation`. */
  function PlanHold(row: Deployment, paused: bool): Plan {
    if row.status.IsTerminal() then Refused(AlreadyTerminal(row.status))
    else if row.paused == paused then NoChange
    else Write(Draft(row.(paused := paused), None, [if paused then AutomationPaused else AutomationResumed]))
  }

  function PlanFor(action: Action, row: Deployment, allocation: Option<Allocation>,
                   generation: Option<nat>, now: Time): Plan {
    match action
    case Promote => AsPlan(Conclude(row, generation, now, Promoting, Promoted, row.canaryVersion))
    case Rollback => AsPlan(Conclude(row, generation, now, RollingBack, RolledBack, row.stableVersion))
    case Advance => PlanAdvance(row, allocation, generation)
    case RecordInconclusive => PlanInconclusive(row, now)
    case Pause => PlanHold(row, true)
    case Resume => PlanHold(row, false)
  }

  /** The committed effect of a draft: every table in one transaction, and the version bumped. */
  function Persist(db: Db, id: DeploymentId, draft: Draft): Db {
    Db(db.deployments[id := draft.row.(versionId := draft.row.versionId + 1)],
       if draft.allocation.Some? then db.allocations[id := draft.allocation.value] else db.allocations,
       if draft.allocation.Some?
         then db.generations[draft.row.modelName := draft.allocation.value.revision] else db.generations,
       db.events[id := EventsOf(db, id) + draft.events])
  }

  /** `version_id_col`: the UPDATE finds the row the session read. */
  predicate StillCurrent(db: Db, id: DeploymentId, row: Deployment) {
    id in db.deployments && db.deployments[id].versionId == row.versionId
  }

  datatype CreateRequest = CreateRequest(
    modelName: ModelName,
    stableVersion: Version,
    canaryVersion: Version,
    canaryWeight: real,
    idempotencyKey: Option<string>,
    policy: PolicyConfig,
    paused: bool)
  {
    /** CreateDeploymentRequest's own validation, degenerate weights included. */
    predicate Valid() {
      stableVersion != canaryVersion && 0.0 <= canaryWeight <= 1.0
    }
  }

  /** Rows the partial unique index would put beside a new row of `m`. */
  predicate Occupied(db: Db, m: ModelName) {
    exists id | id in db.deployments :: db.deployments[id].modelName == m && !db.deployments[id].status.IsTerminal()
  }

  predicate KeyTaken(db: Db, key: Option<string>) {
    key.Some? && exists id | id in db.deployments :: db.deployments[id].idempotencyKey == key
  }

  /** What `create_deployment` writes once its INSERT went through. The row is flushed at version 1
      and updated at commit. */
  function FreshDraft(request: CreateRequest, generation: Option<nat>, now: Time): Draft {
    var row := Deployment(request.modelName, request.stableVersion, request.canaryVersion, CanaryRunning,
                          request.idempotencyKey, request.policy, 0, request.paused, now, None, 1);
    Draft(row,
          Some(Allocation(Split(request.stableVersion, request.canaryVersion, request.canaryWeight),
                          NextGeneration(generation))),
          [Created] + (if request.paused then [AutomationPaused] else [])
          + [StatusChanged(Pending, Deploying), StatusChanged(Deploying, CanaryRunning)])
  }

  /** The INSERT with its two unique constraints, then the commit. */
  function Insert(db: Db, id: DeploymentId, request: CreateRequest, now: Time): Result<Db, ServiceError> {
    if KeyTaken(db, request.idempotencyKey) then Failure(IdempotencyKeyTaken)
    else if Occupied(db, request.modelName) then Failure(ActiveDeploymentExists)
    else Success(Persist(db, id, FreshDraft(request, GenerationOf(db, request.modelName), now)))
  }

  /** What a creation leaves in the tables, told from the request. */
  ghost predicate CreatedFrom(db: Db, id: DeploymentId, request: CreateRequest, now: Time, db': Db) {
    && id in db'.deployments && id in db'.allocations
    && var d := db'.deployments[id];
    && d.modelName == request.modelName
    && d.stableVersion == request.stableVersion && d.canaryVersion == request.canaryVersion
    && d.idempotencyKey == request.idempotencyKey && d.policy == request.policy && d.paused == request.paused
    && d.status == CanaryRunning && d.retryCount == 0 && d.createdAt == now && d.completedAt == None
    && db'.allocations[id].targets == [Target(request.stableVersion, Round6(1.0 - request.canaryWeight)),
                                       Target(request.canaryVersion, Round6(request.canaryWeight))]
    && db'.allocations[id].revision == GenerationOf(db, request.modelName).GetOr(0) + 1
    && GenerationOf(db', request.modelName) == Some(db'.allocations[id].revision)
    && EventsOf(db', id) == EventsOf(db, id) + [Created] + (if request.paused then [AutomationPaused] else [])
                            + [StatusChanged(Pending, Deploying), StatusChanged(Deploying, CanaryRunning)]
  }

  /** Nothing else is touched. */
  ghost predicate OnlyThisOne(db: Db, id: DeploymentId, m: ModelName, db': Db) {
    && db'.deployments - {id} == db.deployments - {id} && db'.allocations - {id} == db.allocations - {id}
    && db'.generations - {m} == db.generations - {m} && db'.events - {id} == db.events - {id}
  }

  /** An INSERT goes through exactly if no row has its key and every row of its model is promoted, rolled
      back or failed; it then creates the row the request asks for, and otherwise says which constraint
      was violated. */
  lemma InsertMeaning(db: Db, id: DeploymentId, request: CreateRequest, now: Time)
    ensures var result := Insert(db, id, request, now);
            var taken := request.idempotencyKey.Some?
                && exists o | o in db.deployments :: db.deployments[o].idempotencyKey == request.idempotencyKey;
            var occupied := exists o | o in db.deployments ::
                db.deployments[o].modelName == request.modelName
                && db.deployments[o].status !in {Promoted, RolledBack, Failed};
            && (result.Success? <==> !taken && !occupied)
            && (result.Success? ==>
                  CreatedFrom(db, id, request, now, result.value)
                  && OnlyThisOne(db, id, request.modelName, result.value))
            && (result.Failure? ==> result.error == if taken then IdempotencyKeyTaken else ActiveDeploymentExists)
  {
    if Insert(db, id, request, now).Success? {
      InsertCreates(db, id, request, now);
    }
  }

  lemma InsertCreates(db: Db, id: DeploymentId, request: CreateRequest, now: Time)
    requires Insert(db, id, request, now).Success?
    ensures CreatedFrom(db, id, request, now, Insert(db, id, request, now).value)
    ensures OnlyThisOne(db, id, request.modelName, Insert(db, id, request, now).value)
  {
    FreshEvents(db, id, request, now);
    PersistMeaning(db, id, FreshDraft(request, GenerationOf(db, request.modelName), now));
  }

  /** A committed draft in the tables: its row one version on, its events at the end of the log, its split
      and the counter if it has one, and nothing else. */
  lemma PersistMeaning(db: Db, id: DeploymentId, draft: Draft)
    ensures var db' := Persist(db, id, draft);
            && OnlyThisOne(db, id, draft.row.modelName, db')
            && id in db'.deployments && db'.deployments[id] == draft.row.(versionId := draft.row.versionId + 1)
            && EventsOf(db', id) == EventsOf(db, id) + draft.events
            && (draft.allocation.None? ==>
                  AllocationOf(db', id) == AllocationOf(db, id)
                  && GenerationOf(db', draft.row.modelName) == GenerationOf(db, draft.row.modelName))
            && (draft.allocation.Some? ==>
                  AllocationOf(db', id) == draft.allocation
                  && GenerationOf(db', draft.row.modelName) == Some(draft.allocation.value.revision))
  {
  }

  lemma FreshEvents(db: Db, id: DeploymentId, request: CreateRequest, now: Time)
    ensures EventsOf(db, id) + FreshDraft(request, GenerationOf(db, request.modelName), now).events
         == EventsOf(db, id) + [Created] + (if request.paused then [AutomationPaused] else [])
            + [StatusChanged(Pending, Deploying), StatusChanged(Deploying, CanaryRunning)]
  {
  }

  // ---------------------------------------------------------------------------------------------
  // What the plans amount to

  function Winner(row: Deployment, action: Action): Version {
    if action == Promote then row.canaryVersion else row.stableVersion
  }

  /** Promote and rollback go through exactly from a live or frozen rollout, whatever else was read;
      the row then ends terminal with all the traffic on one version. */
  lemma ConcludeMeaning(action: Action, row: Deployment, allocation: Option<Allocation>,
                        generation: Option<nat>, now: Time)
    requires action == Promote || action == Rollback
    ensures var plan := PlanFor(action, row, allocation, generation, now);
            && (plan.Write? <==> row.status.InFlight())
            && (plan.Write? ==>
                  && plan.draft.row == row.(status := if action == Promote then Promoted else RolledBack,
                                            completedAt := Some(now))
                  && plan.draft.allocation ==
                     Some(Allocation([Target(Winner(row, action), 1.0)], NextGeneration(generation))))
  {
  }

  /** The log of a promote or rollback: through Evaluating if the rollout was live, then in two steps. */
  lemma ConcludeLog(action: Action, row: Deployment, allocation: Option<Allocation>, generation: Option<nat>, now: Time)
    requires action == Promote || action == Rollback
    ensures var plan := PlanFor(action, row, allocation, generation, now);
            var (via, final) := if action == Promote then (Promoting, Promoted) else (RollingBack, RolledBack);
            plan.Write? ==>
              plan.draft.events ==
              if row.status == Inconclusive then [StatusChanged(Inconclusive, via), StatusChanged(via, final)]
              else (if row.status == CanaryRunning then [StatusChanged(CanaryRunning, Evaluating)] else [])
                   + [StatusChanged(Evaluating, via), StatusChanged(via, final)]
  {
  }

  /** An advance goes through exactly on an active row below full traffic. It leaves the row alone and
      writes the least stage above the canary's weight, the rest to stable, and logs the two weights. */
  lemma AdvanceMeaning(row: Deployment, allocation: Option<Allocation>, generation: Option<nat>, now: Time)
    ensures var plan := PlanFor(Advance, row, allocation, generation, now);
            var weight := CanaryWeight(allocation, row.canaryVersion);
            && (plan.Write? <==> row.status.IsActive() && weight + 0.000000001 < 1.0)
            && (plan.Write? ==>
                  exists stage :: LeastStageAbove(stage, weight)
                    && plan.draft == Draft(row,
                                           Some(Allocation([Target(row.stableVersion, 1.0 - stage),
                                                            Target(row.canaryVersion, stage)],
                                                           NextGeneration(generation))),
                                           [TrafficAdvanced(weight, stage)]))
  {
    var weight := CanaryWeight(allocation, row.canaryVersion);
    NextStageMeaning(weight);
    if NextStage(weight).Some? {
      StageSplit(row.stableVersion, row.canaryVersion, weight);
    }
  }

  /** An inconclusive record counts once, leaves the split alone, and freezes the rollout exactly
      when the retry budget is exceeded. */
  lemma InconclusiveMeaning(row: Deployment, now: Time)
    ensures var plan := PlanInconclusive(row, now);
            var frozen := row.retryCount + 1 > row.policy.maxInconclusiveRetries;
            && (plan.Write? <==> row.status.IsActive())
            && (plan.Write? ==>
                  && plan.draft.allocation.None?
                  && plan.draft.row ==
                     row.(retryCount := row.retryCount + 1,
                          status := if frozen then Inconclusive else row.status,
                          completedAt := if frozen then Some(now) else row.completedAt))
  {
  }

  /** The log of an inconclusive record: the cycle and the budget, and the freeze if there is one. */
  lemma InconclusiveLog(row: Deployment, now: Time)
    ensures var plan := PlanInconclusive(row, now);
            var cycle := InconclusiveCycle(row.retryCount + 1, row.policy.maxInconclusiveRetries);
            plan.Write? ==>
              plan.draft.events ==
              if row.retryCount + 1 <= row.policy.maxInconclusiveRetries then [cycle]
              else [cycle] + (if row.status == CanaryRunning then [StatusChanged(CanaryRunning, Evaluating)] else [])
                   + [StatusChanged(Evaluating, Inconclusive)]
  {
  }

  /** Pause and resume: written exactly if the flag changes, the flag and one event and nothing else. */
  lemma HoldMeaning(row: Deployment, allocation: Option<Allocation>, generation: Option<nat>, now: Time, paused: bool)
    ensures var plan := PlanFor(if paused then Pause else Resume, row, allocation, generation, now);
            && (plan.Write? <==> !row.status.IsTerminal() && row.paused != paused)
            && (plan.NoChange? <==> !row.status.IsTerminal() && row.paused == paused)
            && (plan.Write? ==> plan.draft == Draft(row.(paused := paused), None,
                                                    [if paused then AutomationPaused else AutomationResumed]))
  {
  }

  /** Which error a refused action raises. */
  lemma RefusalMeaning(action: Action, row: Deployment, allocation: Option<Allocation>, generation: Option<nat>,
                       now: Time)
    ensures var plan := PlanFor(action, row, allocation, generation, now);
            plan.Refused? ==>
              plan.error ==
              match action
              case Promote => InvalidTransition(row.status, Promoting)
              case Rollback => InvalidTransition(row.status, RollingBack)
              case Advance => if row.status.IsActive() then AlreadyAtFinalStage else NotActive(row.status)
              case RecordInconclusive => NotActive(row.status)
              case Pause | Resume => AlreadyTerminal(row.status)
  {
    InconclusiveMeaning(row, now);
  }

  /** No action touches what makes a row the row it is: its model, versions, key, policy, creation time
      and the version it was read at. */
  lemma PlanKeepsIdentity(action: Action, row: Deployment, allocation: Option<Allocation>,
                          generation: Option<nat>, now: Time)
    ensures var plan := PlanFor(action, row, allocation, generation, now);
            plan.Write? ==>
              plan.draft.row == row.(status := plan.draft.row.status, retryCount := plan.draft.row.retryCount,
                                     paused := plan.draft.row.paused, completedAt := plan.draft.row.completedAt)
  {
    if action == Promote || action == Rollback {
      ConcludeMeaning(action, row, allocation, generation, now);
    } else if action == RecordInconclusive {
      InconclusiveMeaning(row, now);
    }
  }

  /** The draft's log replays from the row `start` to the draft's own row. */
  predicate Logged(start: AuditState, draft: Draft) {
    ReplayFrom(start, draft.events) == Some(AuditOf(draft.row))
  }

  lemma TransitionLogged(start: AuditState, draft: Draft, target: Status)
    requires Logged(start, draft) && Transition(draft, target).Success?
    ensures Logged(start, Transition(draft, target).value)
  {
    ReplayLog(start, draft.events, StatusChanged(draft.row.status, target));
  }

  lemma LeaveRunningLogged(start: AuditState, draft: Draft)
    requires Logged(start, draft)
    ensures LeaveRunning(draft).Success? && Logged(start, LeaveRunning(draft).value)
  {
    if draft.row.status == CanaryRunning {
      TransitionLogged(start, draft, Evaluating);
    }
  }

  lemma ConcludeLogged(row: Deployment, generation: Option<nat>, now: Time,
                       via: Status, final: Status, winner: Version)
    requires Conclude(row, generation, now, via, final, winner).Success?
    ensures Logged(AuditOf(row), Conclude(row, generation, now, via, final, winner).value)
  {
    var start := AuditOf(row);
    LeaveRunningLogged(start, Draft(row, None, []));
    var judged := LeaveRunning(Draft(row, None, [])).value;
    TransitionLogged(start, judged, via);
    var written := Transition(judged, via).value
      .(allocation := Some(Allocation([Target(winner, 1.0)], NextGeneration(generation))));
    TransitionLogged(start, written, final);
  }

  lemma FreezeLogged(start: AuditState, draft: Draft, now: Time)
    requires Logged(start, draft) && Freeze(draft, now).Success?
    ensures Logged(start, Freeze(draft, now).value)
  {
    LeaveRunningLogged(start, draft);
    TransitionLogged(start, LeaveRunning(draft).value, Inconclusive);
  }

  /** Whatever is written, the logged events replay from the row that was read to the row that
      is written: no operation changes a row behind the log's back. */
  lemma PlanReplays(action: Action, row: Deployment, allocation: Option<Allocation>,
                    generation: Option<nat>, now: Time)
    requires PlanFor(action, row, allocation, generation, now).Write?
    ensures Logged(AuditOf(row), PlanFor(action, row, allocation, generation, now).draft)
  {
    match action
    case Promote => ConcludeLogged(row, generation, now, Promoting, Promoted, row.canaryVersion);
    case Rollback => ConcludeLogged(row, generation, now, RollingBack, RolledBack, row.stableVersion);
    case Advance =>
    case RecordInconclusive =>
      var max := row.policy.maxInconclusiveRetries;
      var counted := Draft(row.(retryCount := row.retryCount + 1), None, [InconclusiveCycle(row.retryCount + 1, max)]);
      if row.retryCount + 1 > max {
        FreezeLogged(AuditOf(row), counted, now);
      }
    case Pause =>
    case Resume =>
  }

  /** A new deployment's log replays from nothing to its row. */
  lemma FreshReplays(request: CreateRequest, generation: Option<nat>, now: Time)
    ensures Logged(START, FreshDraft(request, generation, now))
  {
    var opening := if request.paused then [Created, AutomationPaused] else [Created];
    assert ReplayFrom(START, opening) == Some(AuditState(true, Pending, 0, request.paused)) by {
      ReplayLog(START, [], Created);
      ReplayLog(START, [Created], AutomationPaused);
      assert [] + [Created] == [Created] && [Created] + [AutomationPaused] == [Created, AutomationPaused];
    }
    ReplayLog(START, opening, StatusChanged(Pending, Deploying));
    ReplayLog(START, opening + [StatusChanged(Pending, Deploying)], StatusChanged(Deploying, CanaryRunning));
    assert FreshDraft(request, generation, now).events
        == opening + [StatusChanged(Pending, Deploying)] + [StatusChanged(Deploying, CanaryRunning)];
  }
}
