/** The router's side of the protocol (backend/app/router/main.py, backend/app/router/config.py)
    and the control plane's answer to "what should it be serving". */
module Routing {
  import opened Prelude
  import opened Models
  import opened Weights

  /** RouterConfig; also the body of a push. Revision 0 is a configuration without a push behind it. */
  datatype Config = Config(
    modelName: ModelName,
    targets: seq<Target>,
    deploymentId: Option<DeploymentId>,
    revision: nat)

  /** The push that announces an allocation. */
  function PushOf(id: DeploymentId, m: ModelName, a: Allocation): Config {
    Config(m, a.targets, Some(id), a.revision)
  }

  /** RouterSettings: which versions it can resolve, and what it boots with. */
  datatype Settings = Settings(modelName: ModelName, hosts: set<Version>, initialTargets: seq<Target>)

  /** `to_router_config`. */
  function Bootstrap(settings: Settings): Config {
    Config(settings.modelName, settings.initialTargets, None, 0)
  }

  /** 200, 409, and 400/422. */
  datatype Response = Applied | Stale | Rejected

  predicate Resolvable(settings: Settings, targets: seq<Target>) {
    forall i | 0 <= i < |targets| :: targets[i].version in settings.hosts
  }

  /** `put_config` answers before anything is stored. */
  function Answer(settings: Settings, current: Config, incoming: Config): Response {
    if !RouterAccepts(incoming.targets) || !Resolvable(settings, incoming.targets) then Rejected
    else if incoming.modelName == current.modelName && incoming.revision <= current.revision then Stale
    else Applied
  }

  function AfterPut(settings: Settings, current: Config, incoming: Config): Config {
    if Answer(settings, current, incoming) == Applied then incoming else current
  }

  /** The router's answer to a push: rejected unless its split is valid and every version can be resolved;
      then stale if the same model is served at this or a higher revision; otherwise applied. */
  lemma AnswerMeaning(settings: Settings, current: Config, incoming: Config)
    ensures var (answer, targets) := (Answer(settings, current, incoming), incoming.targets);
            var valid := && (forall i, j | 0 <= i < |targets| && 0 <= j < |targets| && i != j ::
                               targets[i].version != targets[j].version)
                         && (forall i | 0 <= i < |targets| :: targets[i].weight >= 0.0)
                         && (exists i | 0 <= i < |targets| :: targets[i].weight > 0.0)
                         && (forall i | 0 <= i < |targets| :: targets[i].version in settings.hosts);
            && (answer == Rejected <==> !valid)
            && (answer == Stale <==>
                  valid && incoming.modelName == current.modelName && incoming.revision <= current.revision)
            && AfterPut(settings, current, incoming) == if answer == Applied then incoming else current
  {
    ValidatorMeaning(incoming.targets);
  }

  // ---------------------------------------------------------------------------------------------
  // The authoritative allocation

  predicate Concluded(d: Deployment) {
    d.status == Promoted || d.status == RolledBack
  }

  /** ORDER BY completed_at DESC, created_at DESC; NULL sorts last. */
  predicate ConcludedNoEarlier(d: Deployment, e: Deployment) {
    match (d.completedAt, e.completedAt)
    case (_, None) => d.completedAt.Some? || d.createdAt >= e.createdAt
    case (None, Some(_)) => false
    case (Some(t), Some(u)) => t > u || (t == u && d.createdAt >= e.createdAt)
  }

  predicate FirstInFlight(db: Db, m: ModelName, id: DeploymentId) {
    && id in db.deployments
    && db.deployments[id].modelName == m
    && db.deployments[id].status.InFlight()
    && forall o | o in db.deployments ::
         db.deployments[o].modelName == m && db.deployments[o].status.InFlight()
         ==> db.deployments[o].createdAt <= db.deployments[id].createdAt
  }

  predicate FirstConcluded(db: Db, m: ModelName, id: DeploymentId) {
    && id in db.deployments
    && db.deployments[id].modelName == m
    && Concluded(db.deployments[id])
    && forall o | o in db.deployments ::
         db.deployments[o].modelName == m && Concluded(db.deployments[o])
         ==> ConcludedNoEarlier(db.deployments[id], db.deployments[o])
  }

  predicate AnyInFlight(db: Db, m: ModelName) {
    exists id | id in db.deployments :: db.deployments[id].modelName == m && db.deployments[id].status.InFlight()
  }

  /** A row that `get_authoritative_allocation` may return: the two queries, in their order. */
  predicate IsAuthoritative(db: Db, m: ModelName, id: DeploymentId) {
    if AnyInFlight(db, m) then FirstInFlight(db, m, id) else FirstConcluded(db, m, id)
  }

  /** Rows the lookup considers at all. */
  predicate HasRouting(db: Db, m: ModelName) {
    exists id | id in db.deployments ::
      db.deployments[id].modelName == m && (db.deployments[id].status.InFlight() || Concluded(db.deployments[id]))
  }

  /** The two queries, by status and time: the newest row in flight or frozen, and without one the row that
      was promoted or rolled back last. */
  lemma LookupOrder(db: Db, m: ModelName, id: DeploymentId)
    requires forall o | o in db.deployments && db.deployments[o].status in {Promoted, RolledBack} ::
               db.deployments[o].completedAt.Some?
    ensures IsAuthoritative(db, m, id) <==>
            && id in db.deployments && db.deployments[id].modelName == m
            && var d := db.deployments[id];
            if d.status in {CanaryRunning, Evaluating, Inconclusive} then
              forall o | o in db.deployments && db.deployments[o].modelName == m
                         && db.deployments[o].status in {CanaryRunning, Evaluating, Inconclusive} ::
                db.deployments[o].createdAt <= d.createdAt
            else
              && d.status in {Promoted, RolledBack}
              && forall o | o in db.deployments && db.deployments[o].modelName == m ::
                   var e := db.deployments[o];
                   && e.status !in {CanaryRunning, Evaluating, Inconclusive}
                   && (e.status in {Promoted, RolledBack} ==>
                         d.completedAt.value > e.completedAt.value
                         || (d.completedAt == e.completedAt && d.createdAt >= e.createdAt))
  {
  }

  /** A first row of any finite selection, newest created first. */
  lemma {:induction false} NewestOf(db: Db, ids: set<DeploymentId>) returns (id: DeploymentId)
    requires ids != {} && ids <= db.deployments.Keys
    ensures id in ids && forall o | o in ids :: db.deployments[o].createdAt <= db.deployments[id].createdAt
    decreases |ids|
  {
    id :| id in ids;
    if ids != {id} {
      var best := NewestOf(db, ids - {id});
      if db.deployments[id].createdAt < db.deployments[best].createdAt {
        id := best;
      }
    }
  }

  lemma ConcludedOrder(d: Deployment, e: Deployment, f: Deployment)
    ensures ConcludedNoEarlier(d, e) || ConcludedNoEarlier(e, d)
    ensures ConcludedNoEarlier(d, e) && ConcludedNoEarlier(e, f) ==> ConcludedNoEarlier(d, f)
  {
  }

  /** A first row of any finite selection, last concluded first. */
  lemma {:induction false} LastConcludedOf(db: Db, ids: set<DeploymentId>) returns (id: DeploymentId)
    requires ids != {} && ids <= db.deployments.Keys
    ensures id in ids && forall o | o in ids :: ConcludedNoEarlier(db.deployments[id], db.deployments[o])
    decreases |ids|
  {
    id :| id in ids;
    ConcludedOrder(db.deployments[id], db.deployments[id], db.deployments[id]);
    if ids != {id} {
      var best := LastConcludedOf(db, ids - {id});
      var first := id;
      if !ConcludedNoEarlier(db.deployments[id], db.deployments[best]) {
        id := best;
      }
      forall o | o in ids ensures ConcludedNoEarlier(db.deployments[id], db.deployments[o]) {
        ConcludedOrder(db.deployments[first], db.deployments[best], db.deployments[o]);
        ConcludedOrder(db.deployments[best], db.deployments[first], db.deployments[o]);
      }
    }
  }

  /** The two queries leave no model out: there is an answer exactly if some row of the model is in
      flight, frozen, promoted or rolled back. */
  lemma LookupAnswers(db: Db, m: ModelName)
    ensures (exists id :: IsAuthoritative(db, m, id)) <==> HasRouting(db, m)
  {
    if AnyInFlight(db, m) {
      var ids := set id | id in db.deployments && db.deployments[id].modelName == m
          && db.deployments[id].status.InFlight();
      var live :| live in db.deployments && db.deployments[live].modelName == m
          && db.deployments[live].status.InFlight();
      assert live in ids;
      var id := NewestOf(db, ids);
      assert IsAuthoritative(db, m, id);
    } else if HasRouting(db, m) {
      var ids := set id | id in db.deployments && db.deployments[id].modelName == m && Concluded(db.deployments[id]);
      var some :| some in db.deployments && db.deployments[some].modelName == m && Concluded(db.deployments[some]);
      assert some in ids;
      var id := LastConcludedOf(db, ids);
      assert IsAuthoritative(db, m, id);
    }
  }

  ghost function Authoritative(db: Db, m: ModelName): Option<DeploymentId> {
    if exists id :: IsAuthoritative(db, m, id) then
      var id :| IsAuthoritative(db, m, id);
      Some(id)
    else None
  }
}
