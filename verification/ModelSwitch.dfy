/** The router has one slot. This is the run in which serving another model for a moment costs a model
    the order of its revisions, although the router never restarts. */
module ModelSwitch {
  import opened Models
  import opened Rollout
  import opened Routing
  import opened Weights
  import opened Protocol
  import opened Links
  import opened RoutingTheorems
  import opened RestartWindow

  /** Nothing in the tables speaks against a deployment of this request. */
  ghost predicate Absent(db: Db, request: CreateRequest) {
    && request.modelName !in db.generations
    && forall o | o in db.deployments ::
         && db.deployments[o].modelName != request.modelName
         && (request.idempotencyKey.Some? ==> db.deployments[o].idempotencyKey != request.idempotencyKey)
  }

  /** A first deployment of a model, in any state, announces revision 1. */
  lemma FirstOfItsModel(s: State, sid: SessionId, request: CreateRequest, id: DeploymentId)
    requires request.Valid() && Absent(s.db, request) && sid !in s.sessions && id !in s.db.deployments
    ensures var s' := Exec(s, [OpenCreate(sid, request)] + [CommitCreate(sid, id)]);
            && s'.settings == s.settings && s'.router == s.router
            && s'.network == s.network + {CanaryPush(request, id)}
  {
    var opening := [OpenCreate(sid, request)];
    ExecSnoc(s, [], OpenCreate(sid, request));
    assert [] + opening == opening;
    ExecSnoc(s, opening, CommitCreate(sid, id));
    assert CreateProceeds(s.db, request) && !KeyTaken(s.db, request.idempotencyKey)
        && !Occupied(s.db, request.modelName);
    CommitAnnounces(Exec(s, opening), sid, request, id);
  }

  lemma CommitAnnounces(s: State, sid: SessionId, request: CreateRequest, id: DeploymentId)
    requires sid in s.sessions && s.sessions[sid] == Creating(request) && id !in s.db.deployments
    requires !KeyTaken(s.db, request.idempotencyKey) && !Occupied(s.db, request.modelName)
    requires request.modelName !in s.db.generations
    ensures var s' := Next(s, CommitCreate(sid, id));
            && s'.settings == s.settings && s'.router == s.router
            && s'.network == s.network + {CanaryPush(request, id)}
  {
  }

  /** The first deployment of another model, and the router hears of it. */
  function SwitchRun(request: CreateRequest, id: DeploymentId): seq<Step> {
    [OpenCreate(2, request)] + [CommitCreate(2, id)] + [Deliver(CanaryPush(request, id))]
  }

  lemma NoRestarts(first: CreateRequest, id: DeploymentId, second: CreateRequest, other: DeploymentId)
    ensures Restart !in RolledBackRun(first, id)
    ensures Restart !in SwitchRun(second, other) && Restart !in [Deliver(CanaryPush(first, id))]
  {
  }

  /** For every two models the router can resolve there is a run without any restart in which it serves
      the first model's rollback at revision 2, then the second model, and then the first model's canary
      split at revision 1. */
  lemma OrderLostBySwitching(settings: Settings, first: CreateRequest, id: DeploymentId,
                             second: CreateRequest, other: DeploymentId)
    returns (past: seq<Step>, switching: seq<Step>, back: seq<Step>)
    requires first.Valid() && first.modelName == settings.modelName
    requires first.stableVersion in settings.hosts && first.canaryVersion in settings.hosts
    requires second.Valid() && second.modelName != first.modelName && other != id
    requires second.stableVersion in settings.hosts && second.canaryVersion in settings.hosts
    requires second.idempotencyKey.Some? ==> second.idempotencyKey != first.idempotencyKey
    ensures Restart !in past && Restart !in switching && Restart !in back
    ensures Exec(Init(settings), past).router == Serving(StablePush(first, id))
    ensures Exec(Init(settings), past + switching).router == Serving(CanaryPush(second, other))
    ensures Exec(Init(settings), past + switching + back).router == Serving(CanaryPush(first, id))
  {
    past := RolledBackRun(first, id);
    switching := SwitchRun(second, other);
    back := [Deliver(CanaryPush(first, id))];
    NoRestarts(first, id, second, other);
    RollbackServed(settings, first, id);
    SwitchedAway(Exec(Init(settings), past), settings, first, id, second, other);
    ExecAppend(Init(settings), past, switching);
    ExecAppend(Init(settings), past + switching, back);
  }

  lemma SwitchedAway(s: State, settings: Settings, first: CreateRequest, id: DeploymentId,
                     second: CreateRequest, other: DeploymentId)
    requires ServesRollback(s, settings, first, id) && first.Valid() && second.Valid()
    requires first.stableVersion in settings.hosts && first.canaryVersion in settings.hosts
    requires second.stableVersion in settings.hosts && second.canaryVersion in settings.hosts
    requires second.modelName != first.modelName && other != id
    requires second.idempotencyKey.Some? ==> second.idempotencyKey != first.idempotencyKey
    ensures Exec(s, SwitchRun(second, other)).router == Serving(CanaryPush(second, other))
    ensures Exec(Exec(s, SwitchRun(second, other)), [Deliver(CanaryPush(first, id))]).router ==
        Serving(CanaryPush(first, id))
  {
    CanaryPushIsAcceptable(settings, first, id);
    CanaryPushIsAcceptable(settings, second, other);
    FirstOfItsModel(s, 2, second, other);
    SwitchedAndBack(s, [OpenCreate(2, second)] + [CommitCreate(2, other)], CanaryPush(second, other),
                    CanaryPush(first, id));
  }

  lemma SwitchedAndBack(s: State, creation: seq<Step>, there: Config, back: Config)
    requires var s' := Exec(s, creation);
             && s'.router.Serving? && s'.router.config.modelName == back.modelName != there.modelName
             && there in s'.network && back in s'.network
             && RouterAccepts(there.targets) && Resolvable(s'.settings, there.targets)
             && RouterAccepts(back.targets) && Resolvable(s'.settings, back.targets)
    ensures Exec(s, creation + [Deliver(there)]).router == Serving(there)
    ensures Exec(Exec(s, creation + [Deliver(there)]), [Deliver(back)]).router == Serving(back)
  {
    var s1 := Exec(s, creation);
    ExecSnoc(s, creation, Deliver(there));
    var s2 := Next(s1, Deliver(there));
    ExecSnoc(s2, [], Deliver(back));
    assert [] + [Deliver(back)] == [Deliver(back)];
    SwitchReopens(s1, there);
    SwitchReopens(s2, back);
  }
}
