/** The inductive invariant of the protocol, one predicate per table or participant. */
module Invariant {
  import opened Prelude
  import opened Models
  import opened Routing
  import opened Audit
  import opened Protocol

  // ---------------------------------------------------------------------------------------------
  // One deployment

  /** The split that a status allows: all traffic on one version once decided, and before that
      stable and canary sharing exactly all of it. */
  ghost predicate AllocationFits(d: Deployment, targets: seq<Target>) {
    if d.status == Promoted then targets == [Target(d.canaryVersion, 1.0)]
    else if d.status == RolledBack then targets == [Target(d.stableVersion, 1.0)]
    else
      && |targets| == 2
      && targets[0].version == d.stableVersion
      && targets[1].version == d.canaryVersion
      && targets[0].weight >= 0.0
      && targets[1].weight >= 0.0
      && targets[0].weight + targets[1].weight == 1.0
  }

  /** Only four statuses are ever committed; retries stay within budget until the freeze. */
  ghost predicate DeploymentOk(d: Deployment, targets: seq<Target>) {
    && (d.status == CanaryRunning || d.status == Inconclusive || d.status == Promoted || d.status == RolledBack)
    && d.stableVersion != d.canaryVersion
    && AllocationFits(d, targets)
    && (d.status == CanaryRunning ==> d.retryCount <= d.policy.maxInconclusiveRetries)
    && (d.status == Inconclusive ==> d.retryCount == d.policy.maxInconclusiveRetries + 1)
    && d.retryCount <= d.policy.maxInconclusiveRetries + 1
    && (d.status.IsTerminal() ==> d.completedAt.Some?)
  }

  /** The log alone reproduces the row. */
  ghost predicate LogOk(d: Deployment, log: seq<Event>) {
    ReplayFrom(START, log) == Some(AuditOf(d))
  }

  ghost predicate InThePast(d: Deployment, clock: Time) {
    && d.createdAt < clock
    && (d.completedAt.Some? ==> d.completedAt.value < clock)
  }

  /** `a` was decided before `b`: in time, and in revision. */
  ghost predicate InOrder(d: Deployment, revD: nat, e: Deployment, revE: nat) {
    && (d.status.IsTerminal() || e.status.IsTerminal())
    && revD != revE
    && (d.status.IsTerminal() && !e.status.IsTerminal() && d.completedAt.Some? ==>
          d.completedAt.value < e.createdAt && revD < revE)
    && (d.status.IsTerminal() && e.status.IsTerminal() && d.completedAt.Some? && e.completedAt.Some? ==>
          d.completedAt.value != e.completedAt.value
          && (d.completedAt.value < e.completedAt.value <==> revD < revE))
  }

  // ---------------------------------------------------------------------------------------------
  // The database

  ghost predicate RowOk(db: Db, clock: Time, id: DeploymentId)
    requires id in db.deployments
  {
    && id in db.allocations
    && DeploymentOk(db.deployments[id], db.allocations[id].targets)
    && InThePast(db.deployments[id], clock)
  }

  ghost predicate RowsOk(db: Db, clock: Time) {
    && db.allocations.Keys == db.deployments.Keys
    && forall id {:trigger RowOk(db, clock, id)} | id in db.deployments :: RowOk(db, clock, id)
  }

  ghost predicate LogsOk(db: Db) {
    && db.events.Keys == db.deployments.Keys
    && forall id {:trigger LogOk(db.deployments[id], db.events[id])} | id in db.deployments ::
        LogOk(db.deployments[id], db.events[id])
  }

  /** The partial unique index and the unique idempotency key. */
  ghost predicate UniquePair(d: Deployment, e: Deployment) {
    && (d.modelName == e.modelName ==> d.status.IsTerminal() || e.status.IsTerminal())
    && (d.idempotencyKey.Some? ==> d.idempotencyKey != e.idempotencyKey)
  }

  ghost predicate UniqueOk(db: Db) {
    forall a, b {:trigger UniquePair(db.deployments[a], db.deployments[b])}
      | a in db.deployments && b in db.deployments && a != b ::
      UniquePair(db.deployments[a], db.deployments[b])
  }

  ghost predicate OrderOk(db: Db)
    requires db.allocations.Keys == db.deployments.Keys
  {
    forall a, b {:trigger InOrder(db.deployments[a], db.allocations[a].revision, db.deployments[b],
                                  db.allocations[b].revision)}
      | a in db.deployments && b in db.deployments && a != b ::
      db.deployments[a].modelName == db.deployments[b].modelName ==>
        InOrder(db.deployments[a], db.allocations[a].revision, db.deployments[b], db.allocations[b].revision)
  }

  /** Revision r of a model is what its r-th committed allocation write decided. */
  ghost predicate IsCommitted(history: map<ModelName, seq<Commitment>>, m: ModelName,
                        id: DeploymentId, revision: nat, targets: seq<Target>) {
    && m in history
    && 1 <= revision <= |history[m]|
    && history[m][revision - 1] == Commitment(id, targets)
  }

  ghost predicate EntryOk(db: Db, history: map<ModelName, seq<Commitment>>, id: DeploymentId)
    requires id in db.deployments && id in db.allocations
  {
    IsCommitted(history, db.deployments[id].modelName, id, db.allocations[id].revision, db.allocations[id].targets)
  }

  ghost predicate EntriesOk(db: Db, history: map<ModelName, seq<Commitment>>)
    requires db.allocations.Keys == db.deployments.Keys
  {
    forall id {:trigger EntryOk(db, history, id)} | id in db.deployments :: EntryOk(db, history, id)
  }

  /** A model's generation counts its committed allocation writes, and the last of them is still
      the content of its deployment's row. */
  ghost predicate LatestOk(db: Db, entries: seq<Commitment>, m: ModelName, generation: nat) {
    && |entries| == generation >= 1
    && var last := entries[|entries| - 1].id;
    && last in db.deployments
    && last in db.allocations
    && db.deployments[last].modelName == m
    && db.allocations[last].revision == generation
  }

  ghost predicate GenerationsOk(db: Db, history: map<ModelName, seq<Commitment>>) {
    && history.Keys == db.generations.Keys
    && forall m {:trigger LatestOk(db, history[m], m, db.generations[m])} | m in history ::
        LatestOk(db, history[m], m, db.generations[m])
  }

  ghost predicate HistoryOk(db: Db, history: map<ModelName, seq<Commitment>>)
    requires db.allocations.Keys == db.deployments.Keys
  {
    EntriesOk(db, history) && GenerationsOk(db, history)
  }

  ghost predicate DbOk(db: Db, history: map<ModelName, seq<Commitment>>, clock: Time) {
    RowsOk(db, clock) && LogsOk(db) && UniqueOk(db) && OrderOk(db) && HistoryOk(db, history)
  }

  // ---------------------------------------------------------------------------------------------
  // Sessions, network, router, ticks

  /** What an open session knows. Its row may be stale; but if it is not, then neither is anything
      else it has read. */
  ghost predicate SessionOk(db: Db, clock: Time, x: Session) {
    match x
    case Creating(request) => request.Valid()
    case Acting(_, id, row, allocation, generation, now) =>
      && id in db.deployments
      && var current := db.deployments[id];
      && row.createdAt < clock
      && (now.Some? ==> row.createdAt < now.value < clock)
      && row.versionId <= current.versionId
      && (row.versionId == current.versionId ==>
            && row == current
            && (allocation.Some? ==> allocation.value == AllocationOf(db, id))
            && (generation.Some? && !row.status.IsTerminal() ==>
                  generation.value == GenerationOf(db, row.modelName)))
  }

  /** A configuration somebody may hold: a committed revision exactly, or, at revision 0, the
      bootstrap split or the targets of some committed revision. */
  ghost predicate ConfigOk(settings: Settings, history: map<ModelName, seq<Commitment>>, c: Config) {
    if c.revision >= 1 then
      c.deploymentId.Some? && IsCommitted(history, c.modelName, c.deploymentId.value, c.revision, c.targets)
    else
      || c == Bootstrap(settings)
      || (c.deploymentId.Some?
          && exists r: nat :: IsCommitted(history, c.modelName, c.deploymentId.value, r, c.targets))
  }

  ghost predicate PushOk(history: map<ModelName, seq<Commitment>>, c: Config) {
    && c.revision >= 1
    && c.deploymentId.Some?
    && IsCommitted(history, c.modelName, c.deploymentId.value, c.revision, c.targets)
  }

  ghost predicate RouterOk(s: State) {
    match s.router
    case Booting => true
    case BootFound(id) => id in s.db.deployments && s.db.deployments[id].modelName == s.settings.modelName
    case BootFetched(config) => ConfigOk(s.settings, s.history, config) && config.modelName == s.settings.modelName
    case Serving(config) => ConfigOk(s.settings, s.history, config)
  }

  ghost predicate TickOk(s: State, tick: Tick) {
    match tick
    case Observed(config) => ConfigOk(s.settings, s.history, config)
    case Found(config, id) =>
      && ConfigOk(s.settings, s.history, config)
      && id in s.db.deployments
      && s.db.deployments[id].modelName == config.modelName
    case Pushing(push) => PushOk(s.history, push)
    case Done(_) => true
  }

  ghost predicate SessionsOk(s: State) {
    forall sid {:trigger SessionOk(s.db, s.clock, s.sessions[sid])} | sid in s.sessions ::
        SessionOk(s.db, s.clock, s.sessions[sid])
  }

  ghost predicate NetworkOk(s: State) {
    forall push {:trigger PushOk(s.history, push)} | push in s.network :: PushOk(s.history, push)
  }

  ghost predicate TicksOk(s: State) {
    forall t {:trigger TickOk(s, s.ticks[t])} | t in s.ticks :: TickOk(s, s.ticks[t])
  }

  ghost predicate Inv(s: State) {
    && DbOk(s.db, s.history, s.clock)
    && SessionsOk(s)
    && NetworkOk(s)
    && RouterOk(s)
    && TicksOk(s)
  }
}
