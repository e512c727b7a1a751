/** Revisions order the router's configurations only between restarts. This is the run that shows it:
    a rolled back canary gets its traffic back from a delayed push, until the next reconcile. */
module RestartWindow {
  import opened Prelude
  import opened Models
  import opened Rollout
  import opened Routing
  import opened Weights
  import opened Protocol
  import opened Links
  import opened RoutingTheorems

  /** A restart whose startup sync goes unanswered: back to the bootstrap split, at revision 0. */
  lemma RestartedUnsynced(s: State)
    ensures var s' := Next(Next(s, Restart), BootFinish);
            s'.router == Serving(Bootstrap(s.settings)) && s'.network == s.network && s'.settings == s.settings
  {
  }

  lemma BootstrapTakes(s: State, push: Config)
    requires s.router == Serving(Bootstrap(s.settings)) && push in s.network && push.revision >= 1
    requires RouterAccepts(push.targets) && Resolvable(s.settings, push.targets)
    ensures Next(s, Deliver(push)).router == Serving(push)
  {
  }

  /** Such a restart reopens the router to every push of its model, whatever it served before. */
  lemma RestartForgets(s: State, push: Config)
    requires push in s.network && push.modelName == s.settings.modelName && push.revision >= 1
    requires RouterAccepts(push.targets) && Resolvable(s.settings, push.targets)
    ensures Exec(s, [Restart] + [BootFinish] + [Deliver(push)]).router == Serving(push)
  {
    Exec3(s, Restart, BootFinish, Deliver(push));
    RestartedUnsynced(s);
    BootstrapTakes(Next(Next(s, Restart), BootFinish), push);
  }

  function CanaryPush(request: CreateRequest, id: DeploymentId): Config {
    PushOf(id, request.modelName,
           Allocation(Split(request.stableVersion, request.canaryVersion, request.canaryWeight), 1))
  }

  function StablePush(request: CreateRequest, id: DeploymentId): Config {
    PushOf(id, request.modelName, Allocation([Target(request.stableVersion, 1.0)], 2))
  }

  ghost predicate Started(s: State, settings: Settings, request: CreateRequest, id: DeploymentId) {
    && s.settings == settings && s.router == Serving(Bootstrap(settings)) && s.sessions.Keys == {}
    && id in s.db.deployments && s.db.deployments[id].status == CanaryRunning
    && s.db.deployments[id].modelName == request.modelName
    && s.db.deployments[id].stableVersion == request.stableVersion
    && GenerationOf(s.db, request.modelName) == Some(1)
    && CanaryPush(request, id) in s.network
    && s.db.deployments.Keys == {id} && s.db.generations.Keys == {request.modelName}
    && s.db.deployments[id].idempotencyKey == request.idempotencyKey
  }

  lemma Creation(settings: Settings, request: CreateRequest, id: DeploymentId)
    requires request.Valid()
    ensures Started(Exec(Init(settings), [OpenCreate(0, request)] + [CommitCreate(0, id)]), settings, request, id)
  {
    var s := Init(settings);
    ExecSnoc(s, [], OpenCreate(0, request));
    ExecSnoc(s, [OpenCreate(0, request)], CommitCreate(0, id));
    assert [] + [OpenCreate(0, request)] == [OpenCreate(0, request)];
    assert !KeyTaken(s.db, request.idempotencyKey) && !Occupied(s.db, request.modelName);
  }

  /** A rollback, from its first read to its commit. */
  function RollbackRun(id: DeploymentId): seq<Step> {
    [OpenAction(1, Rollback, id)] + ([ReadAllocation(1)] + [ReadGeneration(1)] + [ReadClock(1)]) + [CommitAction(1)]
  }

  lemma ReadyToRollBack(s: State, settings: Settings, request: CreateRequest, id: DeploymentId)
    requires Started(s, settings, request, id)
    ensures var reading := Next(Next(Next(Next(s, OpenAction(1, Rollback, id)), ReadAllocation(1)),
                                     ReadGeneration(1)), ReadClock(1));
            && reading.settings == settings && reading.router == s.router && reading.network == s.network
            && reading.db == s.db && ReadyToCommit(reading, 1) && reading.sessions.Keys == {1}
            && var x := reading.sessions[1];
            && x.action == Rollback && x.id == id && x.row == s.db.deployments[id]
            && x.generation.value == Some(1)
  {
    ReadAtOnce(Next(s, OpenAction(1, Rollback, id)), 1);
  }

  /** The same deployments, for the same models and keys. */
  ghost predicate SameSubjects(db: Db, after: Db) {
    && after.deployments.Keys == db.deployments.Keys && after.generations.Keys == db.generations.Keys
    && forall o | o in db.deployments ::
         && after.deployments[o].modelName == db.deployments[o].modelName
         && after.deployments[o].idempotencyKey == db.deployments[o].idempotencyKey
  }

  /** Its commit announces revision 2. */
  lemma RollbackAnnounced(s: State, request: CreateRequest, id: DeploymentId)
    requires ReadyToCommit(s, 1) && request.modelName in s.db.generations
    requires var x := s.sessions[1];
             && x.action == Rollback && x.id == id && id in s.db.deployments && x.row == s.db.deployments[id]
             && x.row.status == CanaryRunning && x.row.modelName == request.modelName
             && x.row.stableVersion == request.stableVersion && x.generation.value == Some(1)
    ensures var s' := Next(s, CommitAction(1));
            && s'.settings == s.settings && s'.router == s.router
            && s'.network == s.network + {StablePush(request, id)}
            && SameSubjects(s.db, s'.db) && s'.sessions == s.sessions - {1}
  {
    var x := s.sessions[1];
    PlanKeepsIdentity(Rollback, x.row, x.allocation.value, x.generation.value, x.now.value);
    ConcludeMeaning(Rollback, x.row, x.allocation.value, x.generation.value, x.now.value);
    assert Commits(s, 1);
  }

  lemma RolledBack(s: State, settings: Settings, request: CreateRequest, id: DeploymentId)
    requires Started(s, settings, request, id)
    ensures var s' := Exec(s, RollbackRun(id));
            && s'.settings == settings && s'.router == s.router
            && CanaryPush(request, id) in s'.network && StablePush(request, id) in s'.network
            && SameSubjects(s.db, s'.db) && s'.sessions.Keys == {}
  {
    var opening, reading := [OpenAction(1, Rollback, id)], [ReadAllocation(1)] + [ReadGeneration(1)] + [ReadClock(1)];
    ExecSnoc(s, [], OpenAction(1, Rollback, id));
    assert [] + opening == opening;
    ExecAppend(s, opening, reading);
    Exec3(Exec(s, opening), ReadAllocation(1), ReadGeneration(1), ReadClock(1));
    ExecSnoc(s, opening + reading, CommitAction(1));
    ReadyToRollBack(s, settings, request, id);
    RollbackAnnounced(Exec(s, opening + reading), request, id);
  }

  /** Create a canary, roll it back, and let the router hear of the rollback. */
  function RolledBackRun(request: CreateRequest, id: DeploymentId): seq<Step> {
    [OpenCreate(0, request)] + [CommitCreate(0, id)] + RollbackRun(id) + [Deliver(StablePush(request, id))]
  }

  ghost predicate ServesRollback(s: State, settings: Settings, request: CreateRequest, id: DeploymentId) {
    && s.settings == settings && s.router == Serving(StablePush(request, id)) && s.sessions.Keys == {}
    && CanaryPush(request, id) in s.network
    && s.db.deployments.Keys == {id} && s.db.generations.Keys == {request.modelName}
    && s.db.deployments[id].modelName == request.modelName
    && s.db.deployments[id].idempotencyKey == request.idempotencyKey
  }

  lemma RollbackServed(settings: Settings, request: CreateRequest, id: DeploymentId)
    requires request.Valid() && request.modelName == settings.modelName && request.stableVersion in settings.hosts
    ensures ServesRollback(Exec(Init(settings), RolledBackRun(request, id)), settings, request, id)
  {
    var creation := [OpenCreate(0, request)] + [CommitCreate(0, id)];
    var s0 := Init(settings);
    Creation(settings, request, id);
    RolledBack(Exec(s0, creation), settings, request, id);
    ExecAppend(s0, creation, RollbackRun(id));
    ExecSnoc(s0, creation + RollbackRun(id), Deliver(StablePush(request, id)));
    SingleTarget(request.stableVersion);
    BootstrapTakes(Exec(s0, creation + RollbackRun(id)), StablePush(request, id));
  }

  lemma CanaryPushIsAcceptable(settings: Settings, request: CreateRequest, id: DeploymentId)
    requires request.Valid() && request.stableVersion in settings.hosts && request.canaryVersion in settings.hosts
    ensures var push := CanaryPush(request, id);
            RouterAccepts(push.targets) && Resolvable(settings, push.targets) && push.revision == 1
  {
    SplitIsRoutable(request.stableVersion, request.canaryVersion, request.canaryWeight);
  }

  /** For every model and every two versions the router can resolve there is a run in which the router
      serves the decided rollback at revision 2 and, three steps later, the canary split of revision 1
      again: monotonicity of revisions cannot be had across restarts. */
  lemma CanaryComesBack(settings: Settings, request: CreateRequest, id: DeploymentId)
    returns (past: seq<Step>, after: seq<Step>)
    requires request.Valid() && request.modelName == settings.modelName
    requires request.stableVersion in settings.hosts && request.canaryVersion in settings.hosts
    ensures Exec(Init(settings), past).router == Serving(StablePush(request, id))
    ensures Exec(Init(settings), past + after).router == Serving(CanaryPush(request, id))
    ensures |after| == 3 && after[0] == Restart
  {
    past := RolledBackRun(request, id);
    after := [Restart] + [BootFinish] + [Deliver(CanaryPush(request, id))];
    RollbackServed(settings, request, id);
    CanaryPushIsAcceptable(settings, request, id);
    RestartForgets(Exec(Init(settings), past), CanaryPush(request, id));
    ExecAppend(Init(settings), past, after);
  }
}
