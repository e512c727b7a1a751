/** backend/app/control_plane/service.py in its own form: a session that assigns to a loaded
    deployment, collects events and an allocation, and commits or loses. Each operation is proved
    against the plans of Rollout. */
module Service {
  import opened Prelude
  import opened Models
  import opened StateMachine
  import opened Weights
  import opened Rollout
  import opened Routing
  import opened Reachability
  import opened RouterService
  import opened Protocol

  /** The committed tables, shared by all sessions. */
  class Database {
    var deployments: map<DeploymentId, Deployment>
    var allocations: map<DeploymentId, Allocation>
    var generations: map<ModelName, nat>
    var events: map<DeploymentId, seq<Event>>

    constructor ()
      ensures Contents() == EMPTY_DB
    {
      deployments, allocations, generations, events := map[], map[], map[], map[];
    }

    function Contents(): Db
      reads this
    {
      Db(deployments, allocations, generations, events)
    }

    /** Other requests commit. They insert and update rows but delete none, rename none, and only add
        to the logs; and they do not come up with an id that was minted for somebody else. */
    method Elapse(minted: set<DeploymentId>)
      modifies this
      ensures OthersActed(old(Contents()), Contents(), minted)
    {
    }

    /** `get_authoritative_allocation`: two queries, in order. */
    method GetAuthoritativeAllocation(m: ModelName) returns (found: Option<DeploymentId>)
      ensures found.Some? <==> HasRouting(Contents(), m)
      ensures found.Some? ==> IsAuthoritative(Contents(), m, found.value)
    {
      var db := Contents();
      LookupAnswers(db, m);
      if id :| id in deployments && FirstInFlight(db, m, id) {
        found := Some(id);
      } else if id :| id in deployments && !AnyInFlight(db, m) && FirstConcluded(db, m, id) {
        found := Some(id);
      } else {
        found := None;
      }
    }

    method RecordRouterReachabilityChange(id: DeploymentId, reachable: bool)
      modifies this`events
      ensures Contents() == RecordReachability(old(Contents()), id, reachable)
    {
      var log := EventsOf(Contents(), id);
      if reachable != WasUnreachable(log) {
        return;
      }
      events := events[id := log + [if reachable then RouterRecovered else RouterUnreachable]];
    }
  }

  /** What other requests may have done to the tables. Every UPDATE of a deployment moves its version. */
  ghost predicate OthersActed(before: Db, after: Db, minted: set<DeploymentId>) {
    && (forall id | id in before.deployments ::
          id in after.deployments && Updated(before.deployments[id], after.deployments[id]))
    && (forall id | id in minted && id !in before.deployments :: id !in after.deployments)
    && (forall id | id in before.allocations :: id in after.allocations)
    && (forall id :: EventsOf(before, id) <= EventsOf(after, id))
  }

  ghost predicate Updated(row: Deployment, row': Deployment) {
    && row'.modelName == row.modelName && row'.policy == row.policy
    && row.versionId <= row'.versionId && (row'.versionId == row.versionId ==> row' == row)
  }

  lemma OthersTwice(a: Db, b: Db, c: Db)
    requires OthersActed(a, b, {}) && OthersActed(b, c, {})
    ensures OthersActed(a, c, {})
  {
    forall id ensures EventsOf(a, id) <= EventsOf(c, id) {
      assert EventsOf(a, id) <= EventsOf(b, id) <= EventsOf(c, id);
    }
  }

  lemma RecordingOnlyLogs(db: Db, id: DeploymentId, reachable: bool)
    ensures OthersActed(db, RecordReachability(db, id, reachable), {})
  {
  }

  /** A deployment as a session has loaded it: attributes are assigned, `versionId` is what was read. */
  class DeploymentObject {
    const id: DeploymentId
    const loaded: Deployment
    var status: Status
    var retryCount: nat
    var paused: bool
    var completedAt: Option<Time>

    constructor (id: DeploymentId, row: Deployment)
      ensures this.id == id && Row() == row
    {
      this.id, loaded := id, row;
      status, retryCount, paused, completedAt := row.status, row.retryCount, row.paused, row.completedAt;
    }

    function Row(): Deployment
      reads this
    {
      loaded.(status := status, retryCount := retryCount, paused := paused, completedAt := completedAt)
    }
  }

  /** What a request saw: its commit went through or there was nothing to do, or an exception. */
  datatype Outcome = Accepted | Raised(error: ServiceError)

  /** The effect of an action on a loaded row, given the tables the session reads and commits to. */
  function Answered(db: Db, id: DeploymentId, row: Deployment, action: Action, now: Time): (Outcome, Db) {
    match PlanFor(action, row, AllocationOf(db, id), GenerationOf(db, row.modelName), now)
    case Refused(error) => (Raised(error), db)
    case NoChange => (Accepted, db)
    case Write(draft) =>
      if StillCurrent(db, id, row) then (Accepted, Persist(db, id, draft))
      else (Raised(ConcurrentUpdate), db)
  }

  class Session {
    const database: Database
    var events: seq<Event>
    var allocation: Option<Allocation>

    constructor (database: Database)
      ensures this.database == database && events == [] && allocation == None
    {
      this.database := database;
      events, allocation := [], None;
    }

    function Pending(d: DeploymentObject): Draft
      reads this, d
    {
      Draft(d.Row(), allocation, events)
    }

    method GetDeployment(id: DeploymentId) returns (found: Option<DeploymentObject>)
      ensures found.None? <==> id !in database.deployments
      ensures found.Some? ==>
                fresh(found.value) && found.value.id == id && found.value.Row() == database.deployments[id]
    {
      if id in database.deployments {
        var d := new DeploymentObject(id, database.deployments[id]);
        found := Some(d);
      } else {
        found := None;
      }
    }

    method LogEvent(event: Event)
      modifies this`events
      ensures events == old(events) + [event]
    {
      events := events + [event];
    }

    method TransitionTo(d: DeploymentObject, target: Status) returns (r: Outcome)
      modifies this`events, d`status
      ensures r.Accepted? == Transition(old(Pending(d)), target).Success?
      ensures r.Accepted? ==> Pending(d) == Transition(old(Pending(d)), target).value
      ensures r.Raised? ==>
                r.error == Transition(old(Pending(d)), target).error && Pending(d) == old(Pending(d))
    {
      if !Allowed(d.status, target) {
        return Raised(InvalidTransition(d.status, target));
      }
      var previous := d.status;
      d.status := target;
      LogEvent(StatusChanged(previous, target));
      r := Accepted;
    }

    method NextRoutingGeneration(m: ModelName) returns (generation: nat)
      ensures generation == NextGeneration(GenerationOf(database.Contents(), m))
    {
      generation := if m in database.generations then database.generations[m] + 1 else 1;
    }

    method SetTrafficAllocation(d: DeploymentObject, targets: seq<Target>) returns (revision: nat)
      modifies this`allocation
      ensures revision == NextGeneration(GenerationOf(database.Contents(), d.loaded.modelName))
      ensures allocation == Some(Allocation(targets, revision))
    {
      revision := NextRoutingGeneration(d.loaded.modelName);
      allocation := Some(Allocation(targets, revision));
    }

    /** The flush of everything pending on `d`, in one transaction. */
    method WriteOut(d: DeploymentObject)
      modifies this, database
      ensures database.Contents() == Persist(old(database.Contents()), d.id, old(Pending(d)))
    {
      var row := d.Row();
      var log := EventsOf(database.Contents(), d.id);
      database.deployments := database.deployments[d.id := row.(versionId := row.versionId + 1)];
      database.events := database.events[d.id := log + events];
      if allocation.Some? {
        database.allocations := database.allocations[d.id := allocation.value];
        database.generations := database.generations[row.modelName := allocation.value.revision];
      }
      events, allocation := [], None;
    }

    /** UPDATE ... WHERE version_id = <loaded>: everything, or nothing and ConcurrentUpdate. */
    method Commit(d: DeploymentObject) returns (r: Outcome)
      modifies this, database
      ensures StillCurrent(old(database.Contents()), d.id, d.loaded) ==>
                r == Accepted && database.Contents() == Persist(old(database.Contents()), d.id, old(Pending(d)))
      ensures !StillCurrent(old(database.Contents()), d.id, d.loaded) ==>
                r == Raised(ConcurrentUpdate) && database.Contents() == old(database.Contents())
    {
      if d.id !in database.deployments || database.deployments[d.id].versionId != d.loaded.versionId {
        events, allocation := [], None;
        return Raised(ConcurrentUpdate);
      }
      WriteOut(d);
      r := Accepted;
    }

    method AutoAdvance(d: DeploymentObject) returns (r: Outcome)
      modifies this`events, d`status
      ensures r.Accepted? == LeaveRunning(old(Pending(d))).Success?
      ensures r.Accepted? ==> Pending(d) == LeaveRunning(old(Pending(d))).value
      ensures r.Raised? ==> r.error == LeaveRunning(old(Pending(d))).error
    {
      if d.status == CanaryRunning {
        r := TransitionTo(d, Evaluating);
      } else {
        r := Accepted;
      }
    }

    /** The two transitions of a conclusion, with the split written between them. */
    method SettleOn(d: DeploymentObject, via: Status, final: Status, winner: Version) returns (r: Outcome)
      modifies this, d`status
      ensures var settled := Settle(old(Pending(d)), GenerationOf(database.Contents(), d.loaded.modelName), via,
                                    final, winner);
              && (settled.Success? ==> r == Accepted && Pending(d) == settled.value)
              && (settled.Failure? ==> r == Raised(settled.error))
    {
      r := TransitionTo(d, via);
      if r.Raised? {
        return;
      }
      var _ := SetTrafficAllocation(d, [Target(winner, 1.0)]);
      r := TransitionTo(d, final);
    }

    /** The body shared by promote_deployment and rollback_deployment, up to the commit. */
    method StageConclusion(d: DeploymentObject, now: Time, via: Status, final: Status, winner: Version)
      returns (r: Outcome)
      requires Pending(d) == Draft(d.Row(), None, [])
      modifies this, d
      ensures var planned := Conclude(old(d.Row()), GenerationOf(database.Contents(), d.loaded.modelName),
                                      now, via, final, winner);
              && (planned.Success? ==> r == Accepted && Pending(d) == planned.value)
              && (planned.Failure? ==> r == Raised(planned.error))
    {
      r := AutoAdvance(d);
      if r.Raised? {
        return;
      }
      r := SettleOn(d, via, final, winner);
      if r.Raised? {
        return;
      }
      d.completedAt := Some(now);
    }

    method StageAdvance(d: DeploymentObject) returns (r: Outcome)
      requires Pending(d) == Draft(d.Row(), None, [])
      modifies this, d
      ensures var db := database.Contents();
              var plan := PlanAdvance(old(d.Row()), AllocationOf(db, d.id), GenerationOf(db, d.loaded.modelName));
              && (plan.Write? ==> r == Accepted && Pending(d) == plan.draft)
              && (plan.Refused? ==> r == Raised(plan.error))
    {
      if !d.status.IsActive() {
        return Raised(NotActive(d.status));
      }
      var current := CanaryWeight(AllocationOf(database.Contents(), d.id), d.loaded.canaryVersion);
      var next := NextStage(current);
      if next.None? {
        return Raised(AlreadyAtFinalStage);
      }
      var _ := SetTrafficAllocation(d, Split(d.loaded.stableVersion, d.loaded.canaryVersion, next.value));
      LogEvent(TrafficAdvanced(current, next.value));
      r := Accepted;
    }

    method StageInconclusive(d: DeploymentObject, now: Time) returns (r: Outcome)
      requires Pending(d) == Draft(d.Row(), None, [])
      modifies this, d
      ensures var plan := PlanInconclusive(old(d.Row()), now);
              && (plan.Write? ==> r == Accepted && Pending(d) == plan.draft)
              && (plan.Refused? ==> r == Raised(plan.error))
    {
      if !d.status.IsActive() {
        return Raised(NotActive(d.status));
      }
      var max := d.loaded.policy.maxInconclusiveRetries;
      d.retryCount := d.retryCount + 1;
      LogEvent(InconclusiveCycle(d.retryCount, max));
      if d.retryCount > max {
        r := AutoAdvance(d);
        if r.Raised? {
          return;
        }
        r := TransitionTo(d, Inconclusive);
        if r.Raised? {
          return;
        }
        d.completedAt := Some(now);
      }
      r := Accepted;
    }

    /** pause_automation and resume_automation; idempotent, so `changed` says whether there is
        anything to commit. */
    method StageHold(d: DeploymentObject, paused: bool) returns (r: Outcome, changed: bool)
      requires Pending(d) == Draft(d.Row(), None, [])
      modifies this, d
      ensures var plan := PlanHold(old(d.Row()), paused);
              && (plan.Write? ==> r == Accepted && changed && Pending(d) == plan.draft)
              && (plan.NoChange? ==> r == Accepted && !changed)
              && (plan.Refused? ==> r == Raised(plan.error))
    {
      changed := false;
      if d.status.IsTerminal() {
        return Raised(AlreadyTerminal(d.status)), false;
      }
      r := Accepted;
      if d.paused == paused {
        return;
      }
      changed := true;
      d.paused := paused;
      LogEvent(if paused then AutomationPaused else AutomationResumed);
    }

    /** One action on a loaded, possibly stale, deployment: stage, then commit or lose. */
    method Perform(d: DeploymentObject, action: Action, now: Time) returns (r: Outcome)
      requires Pending(d) == Draft(d.Row(), None, [])
      modifies this, d, database
      ensures var (answer, after) := Answered(old(database.Contents()), d.id, old(d.Row()), action, now);
              r == answer && database.Contents() == after
    {
      var changed := true;
      match action {
        case Promote => r := StageConclusion(d, now, Promoting, Promoted, d.loaded.canaryVersion);
        case Rollback => r := StageConclusion(d, now, RollingBack, RolledBack, d.loaded.stableVersion);
        case Advance => r := StageAdvance(d);
        case RecordInconclusive => r := StageInconclusive(d, now);
        case Pause => r, changed := StageHold(d, true);
        case Resume => r, changed := StageHold(d, false);
      }
      if r.Accepted? && changed {
        r := Commit(d);
      }
    }

    /** `_push_best_effort`: called after the commit, never raises. */
    method PushBestEffort(gateway: RouterGateway, id: DeploymentId, push: Config)
      modifies database`events, gateway.router.store
      ensures (database.Contents(), gateway.router.store.config) ==
              AfterPush(old(database.Contents()), id, gateway.router.settings, old(gateway.router.store.config),
                        gateway.link, push)
      ensures Noted(old(database.Contents()), id,
                       gateway.link == Up
                       && Answer(gateway.router.settings, old(gateway.router.store.config), push) != Rejected,
                       database.Contents())
    {
      PushMeaning(database.Contents(), id, gateway.router.settings, gateway.router.store.config, gateway.link, push);
      var outcome := gateway.PushTrafficAllocation(push);
      database.RecordRouterReachabilityChange(id, outcome != UpdateFailed);
    }

    /** The push that follows a commit, on tables and router as others have left them by then. */
    method Announce(gateway: RouterGateway, id: DeploymentId, push: Config) returns (ghost met: PushMoment)
      modifies database, gateway`link, gateway.router.store
      ensures Announced(old(database.Contents()), id, gateway.router.settings, met, push, database.Contents(),
                        gateway.router.store.config)
    {
      database.Elapse({});
      gateway.Elapse();
      met := PushMoment(database.Contents(), gateway.router.store.config, gateway.link);
      PushBestEffort(gateway, id, push);
    }

    /** promote_deployment, rollback_deployment and advance_traffic: desired state is committed
        first, and the router is told only about what was committed. `met` is what the push met. */
    method PerformAndPush(gateway: RouterGateway, d: DeploymentObject, action: Action, now: Time)
      returns (r: Outcome, ghost met: PushMoment)
      requires Pending(d) == Draft(d.Row(), None, [])
      requires action == Promote || action == Rollback || action == Advance
      modifies this, d, database, gateway`link, gateway.router.store
      ensures var (answer, committed) := Answered(old(database.Contents()), d.id, old(d.Row()), action, now);
              && r == answer
              && (r.Raised? ==>
                    database.Contents() == committed == old(database.Contents())
                    && gateway.router.store.config == old(gateway.router.store.config))
              && (r.Accepted? ==>
                    && d.id in committed.allocations
                    && Announced(committed, d.id, gateway.router.settings, met,
                                 PushOf(d.id, d.loaded.modelName, committed.allocations[d.id]),
                                 database.Contents(), gateway.router.store.config))
    {
      met := PushMoment(database.Contents(), gateway.router.store.config, gateway.link);
      r := Perform(d, action, now);
      if r.Accepted? {
        met := Announce(gateway, d.id, PushOf(d.id, d.loaded.modelName, database.allocations[d.id]));
      }
    }

    /** create_deployment: idempotent answer, friendly pre-check, then, on the tables as other requests
        have left them by then, INSERT under the two unique constraints, commit, push. `id` is the fresh
        uuid, `atInsert` the tables the INSERT met, `met` what the push met. */
    method CreateDeployment(gateway: RouterGateway, id: DeploymentId, request: CreateRequest, now: Time)
      returns (r: Result<DeploymentId, ServiceError>, created: bool, ghost atInsert: Db, ghost met: PushMoment)
      requires id !in database.deployments && request.Valid()
      requires events == [] && allocation == None
      modifies this, database, gateway`link, gateway.router.store
      ensures OthersActed(old(database.Contents()), atInsert, {id})
      ensures created <==>
              CreateProceeds(old(database.Contents()), request) && Insert(atInsert, id, request, now).Success?
      ensures created ==>
                && r == Success(id)
                && var committed := Insert(atInsert, id, request, now).value;
                && CreatedFrom(atInsert, id, request, now, committed)
                && Announced(committed, id, gateway.router.settings, met,
                             PushOf(id, request.modelName, committed.allocations[id]),
                             database.Contents(), gateway.router.store.config)
      ensures !created ==>
                database.Contents() == atInsert && gateway.router.store.config == old(gateway.router.store.config)
      ensures KnownKey(old(database.Contents()), request) <==> r.Success? && !created
      ensures !KnownKey(old(database.Contents()), request) && ActiveOf(old(database.Contents()), request.modelName) ==>
                r == Failure(ActiveDeploymentExists) && !created
      ensures !created && r.Success? ==>
                r.value in old(database.deployments)
                && request.idempotencyKey.Some?
                && old(database.deployments)[r.value].idempotencyKey == request.idempotencyKey
      ensures r.Failure? ==>
                || (r.error == ActiveDeploymentExists
                    && (Occupied(old(database.Contents()), request.modelName) || Occupied(atInsert, request.modelName)))
                || (r.error == IdempotencyKeyTaken && KeyTaken(atInsert, request.idempotencyKey))
    {
      created := false;
      atInsert := database.Contents();
      met := PushMoment(atInsert, gateway.router.store.config, gateway.link);
      if request.idempotencyKey.Some? && request.idempotencyKey.value != "" {
        if existing :| existing in database.deployments
                       && database.deployments[existing].idempotencyKey == request.idempotencyKey {
          r := Success(existing);
          return;
        }
      }
      if exists o | o in database.deployments ::
           database.deployments[o].modelName == request.modelName && database.deployments[o].status.IsActive() {
        r := Failure(ActiveDeploymentExists);
        return;
      }
      ProceedsMeaning(old(database.Contents()), request);
      database.Elapse({id});
      atInsert := database.Contents();
      if KeyTaken(database.Contents(), request.idempotencyKey) {
        r := Failure(IdempotencyKeyTaken);
        return;
      }
      if Occupied(database.Contents(), request.modelName) {
        r := Failure(ActiveDeploymentExists);
        return;
      }
      InsertMeaning(atInsert, id, request, now);
      met := InsertAndPush(gateway, id, request, now);
      created := true;
      r := Success(id);
    }

    /** The INSERT that both constraints admit, its commit and its push. */
    method InsertAndPush(gateway: RouterGateway, id: DeploymentId, request: CreateRequest, now: Time)
      returns (ghost met: PushMoment)
      requires Insert(database.Contents(), id, request, now).Success?
      requires events == [] && allocation == None
      modifies this, database, gateway`link, gateway.router.store
      ensures var committed := Insert(old(database.Contents()), id, request, now).value;
              && id in committed.allocations
              && Announced(committed, id, gateway.router.settings, met,
                           PushOf(id, request.modelName, committed.allocations[id]),
                           database.Contents(), gateway.router.store.config)
    {
      var d := new DeploymentObject(id, PendingRow(request, now));
      StageCreation(d, request, now);
      WriteOut(d);
      met := Announce(gateway, id, PushOf(id, request.modelName, database.allocations[id]));
    }

    /** The new row's way from Pending to CanaryRunning. */
    method StageCreation(d: DeploymentObject, request: CreateRequest, now: Time)
      requires Pending(d) == Draft(d.Row(), None, [])
      requires d.Row() == PendingRow(request, now)
      modifies this, d
      ensures Pending(d) == FreshDraft(request, GenerationOf(database.Contents(), request.modelName), now)
    {
      LogEvent(Created);
      if d.paused {
        LogEvent(AutomationPaused);
      }
      var s := TransitionTo(d, Deploying);
      var _ := SetTrafficAllocation(d, Split(d.loaded.stableVersion, d.loaded.canaryVersion, request.canaryWeight));
      s := TransitionTo(d, CanaryRunning);
    }
  }

  /** The request repeats one that has created its row already. */
  predicate KnownKey(db: Db, request: CreateRequest) {
    && request.idempotencyKey.Some? && request.idempotencyKey.value != ""
    && exists o | o in db.deployments :: db.deployments[o].idempotencyKey == request.idempotencyKey
  }

  predicate ActiveOf(db: Db, m: ModelName) {
    exists o | o in db.deployments ::
      db.deployments[o].modelName == m && db.deployments[o].status in {CanaryRunning, Evaluating}
  }

  /** A creation gets as far as its INSERT exactly if its key is new or empty and nothing of its model is active:
      a frozen deployment does not stop it here, but at the unique index. */
  lemma ProceedsMeaning(db: Db, request: CreateRequest)
    ensures CreateProceeds(db, request) <==>
            request.Valid() && !KnownKey(db, request) && !ActiveOf(db, request.modelName)
  {
  }

  /** What a push came upon: tables, router and link. */
  datatype PushMoment = PushMoment(db: Db, router: Config, link: Link)

  /** Others acted after the commit; then `push` was sent, and its outcome put on record. */
  ghost predicate Announced(committed: Db, id: DeploymentId, settings: Settings, met: PushMoment, push: Config,
                            after: Db, final: Config) {
    OthersActed(committed, met.db, {}) && (after, final) == AfterPush(met.db, id, settings, met.router, met.link, push)
  }

  /** The row as it is flushed by the INSERT. */
  function PendingRow(request: CreateRequest, now: Time): Deployment {
    Deployment(request.modelName, request.stableVersion, request.canaryVersion, Status.Pending,
               request.idempotencyKey, request.policy, 0, request.paused, now, None, 1)
  }

  function AfterPush(db: Db, id: DeploymentId, settings: Settings, current: Config, link: Link, push: Config)
    : (Db, Config)
  {
    var outcome := OutcomeOf(link, Answer(settings, current, push));
    (RecordReachability(db, id, outcome != UpdateFailed),
     Received(link, settings, current, push))
  }

  /** What a push leaves behind. An answer over a working link, 409 included, is an observation that the
      router is there; a push that was lost, unanswered or rejected is one that it is not. The router holds
      the push exactly if it got it and applied it. */
  lemma PushMeaning(db: Db, id: DeploymentId, settings: Settings, current: Config, link: Link, push: Config)
    ensures var (db', held) := AfterPush(db, id, settings, current, link, push);
            var answer := Answer(settings, current, push);
            && Noted(db, id, link == Up && (answer == Applied || answer == Stale), db')
            && held == if link != RequestLost && answer == Applied then push else current
  {
    ObservationMeaning(db, id, OutcomeOf(link, Answer(settings, current, push)) != UpdateFailed);
  }
}
