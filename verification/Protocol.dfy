/** The whole system as a state machine: the database, every open session with what it has read so
    far, the pushes in the network, the router, and the reconcile ticks under way.

    A step that is not enabled leaves the state as it is, so every sequence of steps is a run.
    A push stays in the network after delivery: it may be lost (never delivered), delayed, reordered
    or delivered twice. */
module Protocol {
  import opened Prelude
  import opened Models
  import opened Rollout
  import opened Routing
  import opened Weights
  import opened Audit

  type SessionId = nat
  type TickId = nat

  /** A request between its first read and its commit. Deployment row, allocation and generation
      are read at separate moments; `now` is the clock when it computed completed_at. */
  datatype Session =
    | Acting(action: Action, id: DeploymentId, row: Deployment,
             allocation: Option<Option<Allocation>>, generation: Option<Option<nat>>, now: Option<Time>)
    | Creating(request: CreateRequest)

  datatype RouterState =
    | Booting
    | BootFound(id: DeploymentId)
    | BootFetched(config: Config)
    | Serving(config: Config)

  datatype TickOutcome = NothingToDo | InSync | Corrected | InSyncRace | Unreachable

  /** `reconcile_router_state` between its GET, its two database reads and its PUT. */
  datatype Tick =
    | Observed(config: Config)
    | Found(config: Config, id: DeploymentId)
    | Pushing(push: Config)
    | Done(outcome: TickOutcome)

  /** What a committed allocation write decided, kept for stating properties only. */
  datatype Commitment = Commitment(id: DeploymentId, targets: seq<Target>)

  datatype State = State(
    settings: Settings,
    clock: Time,
    db: Db,
    sessions: map<SessionId, Session>,
    network: set<Config>,
    router: RouterState,
    ticks: map<TickId, Tick>,
    history: map<ModelName, seq<Commitment>>)

  datatype Step =
    | OpenAction(sid: SessionId, action: Action, id: DeploymentId)
    | ReadAllocation(sid: SessionId)
    | ReadGeneration(sid: SessionId)
    | ReadClock(sid: SessionId)
    | CommitAction(sid: SessionId)
    | OpenCreate(sid: SessionId, request: CreateRequest)
    | CommitCreate(sid: SessionId, id: DeploymentId)
    | LogObservation(id: DeploymentId, event: Event)
    | Deliver(push: Config)
    | Restart
    | BootLookup
    | BootRead
    | BootFinish
    | TickGet(t: TickId)
    | TickLookup(t: TickId)
    | TickCompare(t: TickId)
    | TickPut(t: TickId)
    | TickLost(t: TickId)

  function Init(settings: Settings): State {
    State(settings, 0, EMPTY_DB, map[], {}, Serving(Bootstrap(settings)), map[], map[])
  }

  function HistoryOf(s: State, m: ModelName): seq<Commitment> {
    if m in s.history then s.history[m] else []
  }

  // ---------------------------------------------------------------------------------------------
  // Sessions

  function DoOpenAction(s: State, sid: SessionId, action: Action, id: DeploymentId): State {
    if sid in s.sessions || id !in s.db.deployments then s
    else s.(sessions := s.sessions[sid := Acting(action, id, s.db.deployments[id], None, None, None)])
  }

  predicate IsActing(s: State, sid: SessionId) {
    sid in s.sessions && s.sessions[sid].Acting?
  }

  function DoReadAllocation(s: State, sid: SessionId): State {
    if !IsActing(s, sid) || s.sessions[sid].allocation.Some? then s
    else
      var x := s.sessions[sid];
      s.(sessions := s.sessions[sid := x.(allocation := Some(AllocationOf(s.db, x.id)))])
  }

  function DoReadGeneration(s: State, sid: SessionId): State {
    if !IsActing(s, sid) || s.sessions[sid].generation.Some? then s
    else
      var x := s.sessions[sid];
      s.(sessions := s.sessions[sid := x.(generation := Some(GenerationOf(s.db, x.row.modelName)))])
  }

  function DoReadClock(s: State, sid: SessionId): State {
    if !IsActing(s, sid) || s.sessions[sid].now.Some? then s
    else s.(sessions := s.sessions[sid := s.sessions[sid].(now := Some(s.clock))])
  }

  predicate ReadyToCommit(s: State, sid: SessionId) {
    IsActing(s, sid)
    && var x := s.sessions[sid];
    x.allocation.Some? && x.generation.Some? && x.now.Some?
  }

  function PlanOf(x: Session): Plan
    requires x.Acting? && x.allocation.Some? && x.generation.Some? && x.now.Some?
  {
    PlanFor(x.action, x.row, x.allocation.value, x.generation.value, x.now.value)
  }

  /** The session's commit goes through: it has something to write and its row is still current. */
  predicate Commits(s: State, sid: SessionId) {
    && ReadyToCommit(s, sid)
    && PlanOf(s.sessions[sid]).Write?
    && StillCurrent(s.db, s.sessions[sid].id, s.sessions[sid].row)
  }

  /** The effect of a committed draft: the database, the history, and the push that follows it. */
  function Committed(s: State, id: DeploymentId, draft: Draft): State {
    var m := draft.row.modelName;
    var db := Persist(s.db, id, draft);
    if draft.allocation.None? then s.(db := db)
    else
      s.(db := db,
         history := s.history[m := HistoryOf(s, m) + [Commitment(id, draft.allocation.value.targets)]],
         network := s.network + {PushOf(id, m, draft.allocation.value)})
  }

  function CloseSession(s: State, sid: SessionId): State {
    s.(sessions := s.sessions - {sid})
  }

  function DoCommitAction(s: State, sid: SessionId): State {
    if !ReadyToCommit(s, sid) then s
    else if Commits(s, sid) then
      CloseSession(Committed(s, s.sessions[sid].id, PlanOf(s.sessions[sid]).draft), sid)
    else CloseSession(s, sid)
  }

  /** `create_deployment` up to its INSERT: the idempotent answer and the friendly pre-check. An
      empty key is not looked up. */
  predicate CreateProceeds(db: Db, request: CreateRequest) {
    && request.Valid()
    && !(request.idempotencyKey.Some? && request.idempotencyKey.value != "" && KeyTaken(db, request.idempotencyKey))
    && !(exists id | id in db.deployments ::
           db.deployments[id].modelName == request.modelName && db.deployments[id].status.IsActive())
  }

  function DoOpenCreate(s: State, sid: SessionId, request: CreateRequest): State {
    if sid in s.sessions || !CreateProceeds(s.db, request) then s
    else s.(sessions := s.sessions[sid := Creating(request)])
  }

  function DoCommitCreate(s: State, sid: SessionId, id: DeploymentId): State {
    if sid !in s.sessions || !s.sessions[sid].Creating? || id in s.db.deployments then s
    else
      var request := s.sessions[sid].request;
      if Insert(s.db, id, request, s.clock).Failure? then CloseSession(s, sid)
      else
        CloseSession(Committed(s, id, FreshDraft(request, GenerationOf(s.db, request.modelName), s.clock)), sid)
  }

  function DoLogObservation(s: State, id: DeploymentId, event: Event): State {
    if id !in s.db.deployments || !IsObservation(event) then s
    else s.(db := s.db.(events := s.db.events[id := EventsOf(s.db, id) + [event]]))
  }

  // ---------------------------------------------------------------------------------------------
  // Router and reconciler

  function Put(s: State, push: Config): State {
    if !s.router.Serving? then s
    else s.(router := Serving(AfterPut(s.settings, s.router.config, push)))
  }

  ghost function DoBootLookup(s: State): State {
    var found := Authoritative(s.db, s.settings.modelName);
    if !s.router.Booting? || found.None? then s else s.(router := BootFound(found.value))
  }

  /** GET /api/router-config: targets and deployment, but no revision. */
  function DoBootRead(s: State): State {
    if !s.router.BootFound? || s.router.id !in s.db.allocations then s
    else
      var targets := s.db.allocations[s.router.id].targets;
      if !RouterAccepts(targets) then s
      else s.(router := BootFetched(Config(s.settings.modelName, targets, Some(s.router.id), 0)))
  }

  function DoBootFinish(s: State): State {
    match s.router
    case Serving(_) => s
    case BootFetched(config) => s.(router := Serving(config))
    case _ => s.(router := Serving(Bootstrap(s.settings)))
  }

  function DoTickGet(s: State, t: TickId): State {
    if t in s.ticks || !s.router.Serving? then s
    else s.(ticks := s.ticks[t := Observed(s.router.config)])
  }

  ghost function DoTickLookup(s: State, t: TickId): State {
    if t !in s.ticks || !s.ticks[t].Observed? then s
    else
      var observed := s.ticks[t].config;
      var found := Authoritative(s.db, observed.modelName);
      var next := if observed.modelName == "" || found.None? then Done(NothingToDo) else Found(observed, found.value);
      s.(ticks := s.ticks[t := next])
  }

  /** The comparison looks at the deployment and the revision, never at the targets. */
  function DoTickCompare(s: State, t: TickId): State {
    if t !in s.ticks || !s.ticks[t].Found? then s
    else
      var Found(observed, id) := s.ticks[t];
      if id !in s.db.allocations then s.(ticks := s.ticks[t := Done(NothingToDo)])
      else
        var desired := s.db.allocations[id];
        if observed.deploymentId == Some(id) && observed.revision == desired.revision then
          s.(ticks := s.ticks[t := Done(InSync)])
        else
          var push := PushOf(id, observed.modelName, desired);
          s.(ticks := s.ticks[t := Pushing(push)], network := s.network + {push})
  }

  function DoTickPut(s: State, t: TickId): State {
    if t !in s.ticks || !s.ticks[t].Pushing? || !s.router.Serving? then s
    else
      var push := s.ticks[t].push;
      var outcome := match Answer(s.settings, s.router.config, push)
        case Applied => Corrected
        case Stale => InSyncRace
        case Rejected => Unreachable;
      Put(s, push).(ticks := s.ticks[t := Done(outcome)])
  }

  function DoTickLost(s: State, t: TickId): State {
    if t !in s.ticks || !s.ticks[t].Pushing? then s
    else s.(ticks := s.ticks[t := Done(Unreachable)])
  }

  ghost function Effect(s: State, step: Step): State {
    match step
    case OpenAction(sid, action, id) => DoOpenAction(s, sid, action, id)
    case ReadAllocation(sid) => DoReadAllocation(s, sid)
    case ReadGeneration(sid) => DoReadGeneration(s, sid)
    case ReadClock(sid) => DoReadClock(s, sid)
    case CommitAction(sid) => DoCommitAction(s, sid)
    case OpenCreate(sid, request) => DoOpenCreate(s, sid, request)
    case CommitCreate(sid, id) => DoCommitCreate(s, sid, id)
    case LogObservation(id, event) => DoLogObservation(s, id, event)
    case Deliver(push) => if push in s.network then Put(s, push) else s
    case Restart => s.(router := Booting)
    case BootLookup => DoBootLookup(s)
    case BootRead => DoBootRead(s)
    case BootFinish => DoBootFinish(s)
    case TickGet(t) => DoTickGet(s, t)
    case TickLookup(t) => DoTickLookup(s, t)
    case TickCompare(t) => DoTickCompare(s, t)
    case TickPut(t) => DoTickPut(s, t)
    case TickLost(t) => DoTickLost(s, t)
  }

  /** One step; the clock strictly advances. */
  ghost function Next(s: State, step: Step): State {
    Effect(s, step).(clock := s.clock + 1)
  }

  /** The state after a run. */
  ghost function Exec(s: State, steps: seq<Step>): State {
    if steps == [] then s else Next(Exec(s, steps[..|steps| - 1]), steps[|steps| - 1])
  }
}
