/** The reconciler's promise: one full tick closes any drift, and the drift stays closed, whatever
    stale pushes arrive before, between and after its reads and its PUT. */
module Convergence {
  import opened Prelude
  import opened Models
  import opened Rollout
  import opened Routing
  import opened Weights
  import opened Protocol
  import opened Invariant
  import opened Steps
  import opened RoutingTheorems

  /** The step commits no split and does not restart the router. It may be a commit that loses, or one
      that only pauses, resumes, counts an inconclusive verdict or freezes. */
  ghost predicate Calm(s: State, step: Step) {
    step != Restart && forall m {:trigger WritesAllocation(s, step, m)} :: !WritesAllocation(s, step, m)
  }

  /** A stretch of a run in which every step is calm and the PUT of tick `t` is not lost. Sessions open,
      read and commit, pushes are delivered in any order, other ticks run. */
  ghost predicate Undisturbed(s: State, window: seq<Step>, t: TickId) {
    window == [] ||
    var n := |window| - 1;
    && Undisturbed(s, window[..n], t)
    && Calm(Exec(s, window[..n]), window[n]) && window[n] != TickLost(t)
  }

  // ---------------------------------------------------------------------------------------------
  // Traffic of one model

  ghost predicate TickOfModel(tick: Tick, m: ModelName) {
    match tick
    case Observed(c) => c.modelName == m
    case Found(c, _) => c.modelName == m
    case Pushing(p) => p.modelName == m
    case Done(_) => true
  }

  ghost predicate RouterOfModel(router: RouterState, m: ModelName) {
    match router
    case Serving(config) => config.modelName == m
    case BootFetched(config) => config.modelName == m
    case _ => true
  }

  /** The router and everything on its way to the router is about model `m`. */
  ghost predicate TrafficOfModel(s: State, m: ModelName) {
    && RouterOfModel(s.router, m)
    && (forall push | push in s.network :: push.modelName == m)
    && (forall t | t in s.ticks :: TickOfModel(s.ticks[t], m))
  }

  ghost predicate OneModel(s: State, m: ModelName) {
    m != "" && s.router.Serving? && TrafficOfModel(s, m)
  }

  lemma QuietNetwork(s: State, step: Step)
    requires !step.CommitAction? && !step.CommitCreate? && !step.TickCompare?
    ensures Next(s, step).network == s.network
  {
  }

  lemma ComparePushesModel(s: State, t: TickId, m: ModelName)
    requires TrafficOfModel(s, m)
    ensures forall push | push in DoTickCompare(s, t).network :: push.modelName == m
  {
  }

  predicate StepOfTick(step: Step, t: TickId) {
    step == TickGet(t) || step == TickLookup(t) || step == TickCompare(t) || step == TickPut(t)
  }

  lemma OthersLeaveTickAlone(s: State, step: Step, t: TickId)
    requires !StepOfTick(step, t) && step != TickLost(t)
    ensures var s' := Next(s, step);
            (t in s'.ticks <==> t in s.ticks) && (t in s.ticks ==> s'.ticks[t] == s.ticks[t])
  {
  }

  lemma GetOfModel(s: State, m: ModelName, t: TickId)
    requires TrafficOfModel(s, m) && t in DoTickGet(s, t).ticks
    ensures TickOfModel(DoTickGet(s, t).ticks[t], m)
  {
    assert t in s.ticks ==> TickOfModel(s.ticks[t], m);
  }

  lemma LookupOfModel(s: State, m: ModelName, t: TickId)
    requires TrafficOfModel(s, m) && t in s.ticks
    ensures TickOfModel(DoTickLookup(s, t).ticks[t], m)
  {
    assert TickOfModel(s.ticks[t], m);
  }

  lemma CompareOfModel(s: State, m: ModelName, t: TickId)
    requires TrafficOfModel(s, m) && t in s.ticks
    ensures TickOfModel(DoTickCompare(s, t).ticks[t], m)
  {
    assert TickOfModel(s.ticks[t], m);
  }

  lemma EndOfModel(s: State, m: ModelName, t: TickId)
    requires TrafficOfModel(s, m) && t in s.ticks
    ensures TickOfModel(DoTickPut(s, t).ticks[t], m) && TickOfModel(DoTickLost(s, t).ticks[t], m)
  {
    assert TickOfModel(s.ticks[t], m);
  }

  lemma OwnStepOfModel(s: State, step: Step, m: ModelName, t: TickId)
    requires TrafficOfModel(s, m) && t in Next(s, step).ticks
    requires StepOfTick(step, t) || step == TickLost(t)
    ensures TickOfModel(Next(s, step).ticks[t], m)
  {
    if step == TickGet(t) {
      GetOfModel(s, m, t);
    } else {
      match step {
        case TickLookup(_) => LookupOfModel(s, m, t);
        case TickCompare(_) => CompareOfModel(s, m, t);
        case _ => EndOfModel(s, m, t);
      }
    }
  }

  lemma TicksOfModelStay(s: State, step: Step, m: ModelName, t: TickId)
    requires TrafficOfModel(s, m) && t in Next(s, step).ticks
    ensures TickOfModel(Next(s, step).ticks[t], m)
  {
    if StepOfTick(step, t) || step == TickLost(t) {
      OwnStepOfModel(s, step, m, t);
    } else {
      OthersLeaveTickAlone(s, step, t);
      assert TickOfModel(s.ticks[t], m);
    }
  }

  // ---------------------------------------------------------------------------------------------
  // The window

  /** `p` is what the router should hold: the allocation with the model's latest revision. */
  ghost predicate IsDesired(s: State, m: ModelName, p: Config) {
    && m in s.db.generations
    && p.modelName == m
    && p.deploymentId.Some?
    && p.deploymentId.value in s.db.deployments
    && p.deploymentId.value in s.db.allocations
    && s.db.deployments[p.deploymentId.value].modelName == m
    && p == PushOf(p.deploymentId.value, m, s.db.allocations[p.deploymentId.value])
    && p.revision == s.db.generations[m]
  }

  ghost predicate Window(s: State, m: ModelName, p: Config) {
    && Inv(s)
    && OneModel(s, m)
    && IsDesired(s, m, p)
    && Resolvable(s.settings, p.targets)
  }

  ghost predicate Synced(s: State, p: Config) {
    s.router == Serving(p)
  }

  /** Nothing committed for `m` is newer than `p`, and at p's revision there is only `p`. */
  lemma NothingNewer(s: State, m: ModelName, p: Config, c: Config)
    requires Inv(s) && IsDesired(s, m, p) && ConfigOk(s.settings, s.history, c) && c.modelName == m
    ensures c.revision <= p.revision
    ensures c.revision == p.revision ==> c == p
  {
    assert LatestOk(s.db, s.history[m], m, s.db.generations[m]);
    assert EntryOk(s.db, s.history, p.deploymentId.value);
  }

  lemma DesiredIsAcceptable(s: State, m: ModelName, p: Config)
    requires Inv(s) && IsDesired(s, m, p)
    ensures RouterAccepts(p.targets)
  {
    var id := p.deploymentId.value;
    assert RowOk(s.db, s.clock, id);
    FittingSplitIsRoutable(s.db.deployments[id], p.targets);
  }

  // ---------------------------------------------------------------------------------------------
  // The window is stable

  /** What routing reads from the tables: splits, generations, and which model each deployment is of. */
  ghost predicate SameSplits(db: Db, db': Db) {
    && db'.allocations == db.allocations && db'.generations == db.generations
    && forall id | id in db.deployments ::
         id in db'.deployments && db'.deployments[id].modelName == db.deployments[id].modelName
  }

  lemma CalmCommit(s: State, sid: SessionId)
    requires Inv(s) && Calm(s, CommitAction(sid))
    ensures var s' := DoCommitAction(s, sid);
            SameSplits(s.db, s'.db) && s'.network == s.network && s'.router == s.router && s'.ticks == s.ticks
  {
    if Commits(s, sid) {
      var x := s.sessions[sid];
      assert !WritesAllocation(s, CommitAction(sid), x.row.modelName);
      CommitReadsAreCurrent(s, sid);
      DraftKeepsModel(s, sid);
    }
  }

  lemma CalmCreation(s: State, sid: SessionId, id: DeploymentId)
    requires Calm(s, CommitCreate(sid, id))
    ensures var s' := DoCommitCreate(s, sid, id);
            s'.db == s.db && s'.network == s.network && s'.router == s.router && s'.ticks == s.ticks
  {
    if sid in s.sessions && s.sessions[sid].Creating? {
      assert !WritesAllocation(s, CommitCreate(sid, id), s.sessions[sid].request.modelName);
    }
  }

  lemma SplitsStay(s: State, step: Step)
    requires Inv(s) && Calm(s, step)
    ensures SameSplits(s.db, Next(s, step).db) && Next(s, step).settings == s.settings
  {
    SettingsStep(s, step);
    if step.CommitAction? {
      CalmCommit(s, step.sid);
    } else if step.CommitCreate? {
      CalmCreation(s, step.sid, step.id);
    } else {
      QuietRows(s, step);
    }
  }

  /** In the window commits push nothing; only a tick's comparison does. */
  lemma NetworkModelStays(s: State, step: Step, m: ModelName)
    requires Inv(s) && Calm(s, step) && OneModel(s, m)
    ensures forall push | push in Next(s, step).network :: push.modelName == m
  {
    if step.CommitAction? {
      CalmCommit(s, step.sid);
    } else if step.CommitCreate? {
      CalmCreation(s, step.sid, step.id);
    } else if step.TickCompare? {
      ComparePushesModel(s, step.t, m);
    } else {
      QuietNetwork(s, step);
    }
  }

  /** Only a delivery or a tick's PUT touches the router in the window. */
  lemma RouterTouched(s: State, step: Step)
    requires step != Restart && s.router.Serving?
    ensures Next(s, step).router ==
            if step.Deliver? && step.push in s.network then
              Serving(AfterPut(s.settings, s.router.config, step.push))
            else if step.TickPut? && step.t in s.ticks && s.ticks[step.t].Pushing? then
              Serving(AfterPut(s.settings, s.router.config, s.ticks[step.t].push))
            else s.router
  {
  }

  lemma RouterModelStays(s: State, step: Step, m: ModelName)
    requires step != Restart && OneModel(s, m)
    ensures Next(s, step).router.Serving? && RouterOfModel(Next(s, step).router, m)
  {
    RouterTouched(s, step);
    if step.TickPut? && step.t in s.ticks {
      assert TickOfModel(s.ticks[step.t], m);
    }
  }

  lemma OneModelStays(s: State, step: Step, m: ModelName)
    requires Inv(s) && Calm(s, step) && OneModel(s, m)
    ensures OneModel(Next(s, step), m)
  {
    NetworkModelStays(s, step, m);
    RouterModelStays(s, step, m);
    forall t | t in Next(s, step).ticks ensures TickOfModel(Next(s, step).ticks[t], m) {
      TicksOfModelStay(s, step, m, t);
    }
  }

  lemma WindowStays(s: State, step: Step, m: ModelName, p: Config)
    requires Calm(s, step) && Window(s, m, p)
    ensures Window(Next(s, step), m, p)
  {
    StepKeepsInv(s, step);
    SplitsStay(s, step);
    OneModelStays(s, step, m);
  }

  /** No delivery takes a synced router out of sync. */
  lemma SyncStays(s: State, step: Step, m: ModelName, p: Config)
    requires Calm(s, step) && Window(s, m, p) && Synced(s, p)
    ensures Synced(Next(s, step), p)
  {
    RouterTouched(s, step);
    if step.Deliver? && step.push in s.network {
      assert PushOk(s.history, step.push);
      NothingNewer(s, m, p, step.push);
    } else if step.TickPut? && step.t in s.ticks && s.ticks[step.t].Pushing? {
      assert TickOk(s, s.ticks[step.t]);
      NothingNewer(s, m, p, s.ticks[step.t].push);
    }
  }

  // ---------------------------------------------------------------------------------------------
  // One tick

  function Phase(s: State, t: TickId): nat {
    if t !in s.ticks then 0
    else match s.ticks[t]
      case Observed(_) => 1
      case Found(_, _) => 2
      case Pushing(_) => 3
      case Done(_) => 4
  }

  ghost predicate LooksSynced(c: Config, p: Config) {
    c.deploymentId == p.deploymentId && c.revision == p.revision
  }

  /** What a tick under way has learned is still worth acting on. */
  ghost predicate TickGood(s: State, t: TickId, p: Config) {
    t in s.ticks ==>
      match s.ticks[t]
      case Observed(c) => LooksSynced(c, p) ==> Synced(s, p)
      case Found(c, id) => Some(id) == p.deploymentId && (LooksSynced(c, p) ==> Synced(s, p))
      case Pushing(push) => push == p
      case Done(_) => Synced(s, p)
  }

  lemma GetIsGood(s: State, t: TickId, m: ModelName, p: Config)
    requires Window(s, m, p) && t !in s.ticks
    ensures var s' := Next(s, TickGet(t)); Phase(s', t) == 1 && TickGood(s', t, p)
  {
    NothingNewer(s, m, p, s.router.config);
  }

  lemma LookupIsGood(s: State, t: TickId, m: ModelName, p: Config)
    requires Window(s, m, p) && Phase(s, t) == 1 && TickGood(s, t, p)
    ensures var s' := Next(s, TickLookup(t)); Phase(s', t) == 2 && TickGood(s', t, p)
  {
    assert TickOfModel(s.ticks[t], m);
    LookupIsLatest(s, m);
    AuthoritativeMeansLatest(s.db, s.history, s.clock, m, p.deploymentId.value);
  }

  lemma CompareIsGood(s: State, t: TickId, m: ModelName, p: Config)
    requires Window(s, m, p) && Phase(s, t) == 2 && TickGood(s, t, p)
    ensures var s' := Next(s, TickCompare(t)); Phase(s', t) >= 3 && TickGood(s', t, p)
  {
  }

  /** The PUT leaves the router synced: taken, or refused as stale because it was synced already. */
  lemma PutIsGood(s: State, t: TickId, m: ModelName, p: Config)
    requires Window(s, m, p) && Phase(s, t) == 3 && TickGood(s, t, p)
    ensures var s' := Next(s, TickPut(t)); Phase(s', t) == 4 && TickGood(s', t, p)
  {
    DesiredIsAcceptable(s, m, p);
    NothingNewer(s, m, p, s.router.config);
  }

  /** A step of the tick out of turn does nothing. */
  lemma OutOfTurn(s: State, step: Step, t: TickId)
    requires step == TickGet(t) ==> Phase(s, t) != 0
    requires step == TickLookup(t) ==> Phase(s, t) != 1
    requires step == TickCompare(t) ==> Phase(s, t) != 2
    requires step == TickPut(t) ==> Phase(s, t) != 3
    requires StepOfTick(step, t)
    ensures Next(s, step) == s.(clock := s.clock + 1)
  {
  }

  predicate InTurn(s: State, step: Step, t: TickId) {
    || (step == TickGet(t) && Phase(s, t) == 0)
    || (step == TickLookup(t) && Phase(s, t) == 1)
    || (step == TickCompare(t) && Phase(s, t) == 2)
    || (step == TickPut(t) && Phase(s, t) == 3)
  }

  lemma InTurnAdvances(s: State, step: Step, t: TickId, m: ModelName, p: Config)
    requires Window(s, m, p) && TickGood(s, t, p) && InTurn(s, step, t)
    ensures TickGood(Next(s, step), t, p) && Phase(Next(s, step), t) >= Phase(s, t) + 1
  {
    match step
    case TickGet(_) => GetIsGood(s, t, m, p);
    case TickLookup(_) => LookupIsGood(s, t, m, p);
    case TickCompare(_) => CompareIsGood(s, t, m, p);
    case TickPut(_) => PutIsGood(s, t, m, p);
  }

  lemma OthersKeepTickGood(s: State, step: Step, t: TickId, m: ModelName, p: Config)
    requires Window(s, m, p) && TickGood(s, t, p)
    requires Calm(s, step) && step != TickLost(t) && !StepOfTick(step, t)
    ensures TickGood(Next(s, step), t, p) && Phase(Next(s, step), t) == Phase(s, t)
  {
    OthersLeaveTickAlone(s, step, t);
    if Synced(s, p) {
      SyncStays(s, step, m, p);
    }
  }

  /** Through the window the tick only moves forward, and what it learned stays good. */
  lemma TickAdvances(s: State, step: Step, t: TickId, m: ModelName, p: Config)
    requires Window(s, m, p) && TickGood(s, t, p)
    requires Calm(s, step) && step != TickLost(t)
    ensures TickGood(Next(s, step), t, p)
    ensures Phase(Next(s, step), t) >= Phase(s, t) + if InTurn(s, step, t) then 1 else 0
  {
    if InTurn(s, step, t) {
      InTurnAdvances(s, step, t, m, p);
    } else if StepOfTick(step, t) {
      OutOfTurn(s, step, t);
    } else {
      OthersKeepTickGood(s, step, t, m, p);
    }
  }

  /** The four calls of tick `t`, in order, at four moments of the window. */
  predicate RunsTick(window: seq<Step>, t: TickId, get: nat, lookup: nat, compare: nat, put: nat) {
    && get < lookup < compare < put < |window|
    && window[get] == TickGet(t)
    && window[lookup] == TickLookup(t)
    && window[compare] == TickCompare(t)
    && window[put] == TickPut(t)
  }

  /** How far the tick must have come after the first n steps. */
  function Progress(n: nat, get: nat, lookup: nat, compare: nat, put: nat): nat {
    if n > put then 4 else if n > compare then 3 else if n > lookup then 2 else if n > get then 1 else 0
  }

  /** Each of the four calls comes when it is its turn. */
  lemma ProgressStep(s: State, window: seq<Step>, n: nat, t: TickId,
                     get: nat, lookup: nat, compare: nat, put: nat)
    requires RunsTick(window, t, get, lookup, compare, put) && 0 < n <= |window|
    requires Phase(s, t) >= Progress(n - 1, get, lookup, compare, put)
    ensures Phase(s, t) + (if InTurn(s, window[n - 1], t) then 1 else 0) >= Progress(n, get, lookup, compare, put)
  {
  }

  /** The window holds, and the tick has come at least this far with good information. */
  ghost predicate OnTrack(s: State, t: TickId, m: ModelName, p: Config, progress: nat) {
    Window(s, m, p) && TickGood(s, t, p) && Phase(s, t) >= progress
  }

  lemma WindowStep(s: State, window: seq<Step>, n: nat, t: TickId, m: ModelName, p: Config,
                   get: nat, lookup: nat, compare: nat, put: nat)
    requires RunsTick(window, t, get, lookup, compare, put) && 0 < n <= |window|
    requires Calm(s, window[n - 1]) && window[n - 1] != TickLost(t)
    requires OnTrack(s, t, m, p, Progress(n - 1, get, lookup, compare, put))
    ensures OnTrack(Next(s, window[n - 1]), t, m, p, Progress(n, get, lookup, compare, put))
  {
    WindowStays(s, window[n - 1], m, p);
    TickAdvances(s, window[n - 1], t, m, p);
    ProgressStep(s, window, n, t, get, lookup, compare, put);
  }

  lemma OneMoreStep(s: State, window: seq<Step>, n: nat, t: TickId)
    requires 0 < n <= |window| && Undisturbed(s, window[..n], t)
    ensures Undisturbed(s, window[..n - 1], t)
    ensures Exec(s, window[..n]) == Next(Exec(s, window[..n - 1]), window[n - 1])
    ensures Calm(Exec(s, window[..n - 1]), window[n - 1]) && window[n - 1] != TickLost(t)
  {
    assert window[..n][..n - 1] == window[..n - 1];
  }

  lemma {:induction false} WindowInvariant(s: State, window: seq<Step>, n: nat, t: TickId, m: ModelName, p: Config,
                                           get: nat, lookup: nat, compare: nat, put: nat)
    requires OnTrack(s, t, m, p, 0) && n <= |window| && Undisturbed(s, window[..n], t)
    requires RunsTick(window, t, get, lookup, compare, put)
    ensures OnTrack(Exec(s, window[..n]), t, m, p, Progress(n, get, lookup, compare, put))
  {
    if n > 0 {
      OneMoreStep(s, window, n, t);
      WindowInvariant(s, window, n - 1, t, m, p, get, lookup, compare, put);
      WindowStep(Exec(s, window[..n - 1]), window, n, t, m, p, get, lookup, compare, put);
    }
  }

  /** A tick that gets all its calls through leaves the router synced. */
  lemma TickSyncs(s: State, window: seq<Step>, t: TickId, m: ModelName, p: Config,
                  get: nat, lookup: nat, compare: nat, put: nat)
    requires Window(s, m, p) && t !in s.ticks && Undisturbed(s, window, t)
    requires RunsTick(window, t, get, lookup, compare, put)
    ensures Synced(Exec(s, window), p) && Window(Exec(s, window), m, p)
  {
    assert window[..|window|] == window;
    WindowInvariant(s, window, |window|, t, m, p, get, lookup, compare, put);
    DoneMeansSynced(Exec(s, window), t, p);
  }

  lemma DoneMeansSynced(s: State, t: TickId, p: Config)
    requires Phase(s, t) >= 4 && TickGood(s, t, p)
    ensures Synced(s, p)
  {
  }

  lemma AuthoritativeIsDesired(s: State, m: ModelName)
    requires Inv(s) && Authoritative(s.db, m).Some?
    ensures var id := Authoritative(s.db, m).value;
            id in s.db.allocations && IsDesired(s, m, PushOf(id, m, s.db.allocations[id]))
  {
    LookupIsLatest(s, m);
  }

  /** Only the desired deployment is authoritative. */
  lemma DesiredIsAuthoritative(s: State, m: ModelName, p: Config)
    requires Inv(s) && IsDesired(s, m, p)
    ensures Authoritative(s.db, m) == p.deploymentId
  {
    LookupIsLatest(s, m);
    AuthoritativeMeansLatest(s.db, s.history, s.clock, m, p.deploymentId.value);
  }

  /** One reconcile tick converges and stays converged. From any state with the invariant, reached
      by a restart or not: if no split is committed and the router is not restarted, and one tick
      gets its GET, its reads and its PUT through, the router ends on the authoritative deployment,
      revision and targets. The window may go on after the tick for any number of steps; the same
      deployment stays authoritative, though it may be paused or frozen meanwhile. */
  lemma ReconcileConverges(s: State, m: ModelName, window: seq<Step>, t: TickId,
                           get: nat, lookup: nat, compare: nat, put: nat)
    requires Inv(s) && OneModel(s, m) && t !in s.ticks
    requires var found := Authoritative(s.db, m);
             found.Some? && found.value in s.db.allocations
             && Resolvable(s.settings, s.db.allocations[found.value].targets)
    requires Undisturbed(s, window, t) && RunsTick(window, t, get, lookup, compare, put)
    ensures var s' := Exec(s, window);
            var id := Authoritative(s.db, m).value;
            && Authoritative(s'.db, m) == Some(id)
            && id in s'.db.allocations && s'.db.allocations[id] == s.db.allocations[id]
            && s'.router == Serving(PushOf(id, m, s'.db.allocations[id]))
  {
    var id := Authoritative(s.db, m).value;
    var p := PushOf(id, m, s.db.allocations[id]);
    AuthoritativeIsDesired(s, m);
    TickSyncs(s, window, t, m, p, get, lookup, compare, put);
    DesiredIsAuthoritative(Exec(s, window), m, p);
  }

  // ---------------------------------------------------------------------------------------------
  // A control plane used for one model

  /** The only deployments ever requested are of model m. */
  predicate RequestsOnly(steps: seq<Step>, m: ModelName) {
    forall i | 0 <= i < |steps| && steps[i].OpenCreate? :: steps[i].request.modelName == m
  }

  ghost predicate SessionOfModel(x: Session, m: ModelName) {
    match x
    case Acting(_, _, row, _, _, _) => row.modelName == m
    case Creating(request) => request.modelName == m
  }

  ghost predicate OnlyModel(s: State, m: ModelName) {
    && s.settings.modelName == m
    && (forall id | id in s.db.deployments :: s.db.deployments[id].modelName == m)
    && (forall sid | sid in s.sessions :: SessionOfModel(s.sessions[sid], m))
    && TrafficOfModel(s, m)
  }

  lemma CommitOfModel(s: State, sid: SessionId, m: ModelName)
    requires OnlyModel(s, m)
    ensures forall id | id in DoCommitAction(s, sid).db.deployments ::
        DoCommitAction(s, sid).db.deployments[id].modelName == m
  {
    if sid in s.sessions {
      assert SessionOfModel(s.sessions[sid], m);
      if Commits(s, sid) {
        var x := s.sessions[sid];
        PlanKeepsIdentity(x.action, x.row, x.allocation.value, x.generation.value, x.now.value);
      }
    }
  }

  lemma CreationOfModel(s: State, sid: SessionId, id: DeploymentId, m: ModelName)
    requires OnlyModel(s, m)
    ensures forall o | o in DoCommitCreate(s, sid, id).db.deployments ::
        DoCommitCreate(s, sid, id).db.deployments[o].modelName == m
  {
  }

  lemma RowsOfModelStay(s: State, step: Step, m: ModelName)
    requires OnlyModel(s, m)
    ensures var s' := Next(s, step);
            && s'.settings.modelName == m
            && (forall id | id in s'.db.deployments :: s'.db.deployments[id].modelName == m)
  {
    SettingsStep(s, step);
    if step.CommitAction? {
      CommitOfModel(s, step.sid, m);
    } else if step.CommitCreate? {
      CreationOfModel(s, step.sid, step.id, m);
    } else {
      QuietRows(s, step);
    }
  }

  /** A session that was there before keeps its request or its row. */
  lemma SessionKeepsSubject(s: State, step: Step, sid: SessionId)
    requires sid in s.sessions && sid in Next(s, step).sessions
    ensures var (x, y) := (s.sessions[sid], Next(s, step).sessions[sid]);
            && (x.Acting? <==> y.Acting?)
            && (x.Acting? ==> y.row == x.row)
            && (x.Creating? ==> y == x)
  {
    match step {
      case CommitAction(c) => assert Next(s, step).sessions[sid] == s.sessions[sid];
      case CommitCreate(c, id) => assert Next(s, step).sessions[sid] == s.sessions[sid];
      case ReadAllocation(_) =>
      case ReadGeneration(_) =>
      case ReadClock(_) =>
      case _ => assert Next(s, step).sessions[sid] == s.sessions[sid];
    }
  }

  predicate Opens(step: Step, sid: SessionId) {
    (step.OpenAction? || step.OpenCreate?) && step.sid == sid
  }

  lemma OnlyOpeningAdds(s: State, step: Step, sid: SessionId)
    requires !Opens(step, sid) && sid in Next(s, step).sessions
    ensures sid in s.sessions
  {
  }

  lemma OpenedOfModel(s: State, step: Step, m: ModelName, sid: SessionId)
    requires OnlyModel(s, m) && (step.OpenCreate? ==> step.request.modelName == m)
    requires Opens(step, sid) && sid !in s.sessions && sid in Next(s, step).sessions
    ensures SessionOfModel(Next(s, step).sessions[sid], m)
  {
    match step {
      case OpenAction(_, action, id) =>
        assert DoOpenAction(s, sid, action, id).sessions[sid] ==
            Acting(action, id, s.db.deployments[id], None, None, None);
      case OpenCreate(_, request) => assert DoOpenCreate(s, sid, request).sessions[sid] == Creating(request);
    }
  }

  lemma SessionsOfModelStay(s: State, step: Step, m: ModelName, sid: SessionId)
    requires OnlyModel(s, m) && (step.OpenCreate? ==> step.request.modelName == m)
    requires sid in Next(s, step).sessions
    ensures SessionOfModel(Next(s, step).sessions[sid], m)
  {
    if sid in s.sessions {
      assert SessionOfModel(s.sessions[sid], m);
      SessionKeepsSubject(s, step, sid);
    } else if !Opens(step, sid) {
      OnlyOpeningAdds(s, step, sid);
    } else {
      OpenedOfModel(s, step, m, sid);
    }
  }

  lemma CommitPushesModel(s: State, sid: SessionId, m: ModelName)
    requires OnlyModel(s, m)
    ensures forall push | push in DoCommitAction(s, sid).network :: push.modelName == m
  {
    if sid in s.sessions {
      assert SessionOfModel(s.sessions[sid], m);
      if Commits(s, sid) {
        var x := s.sessions[sid];
        PlanKeepsIdentity(x.action, x.row, x.allocation.value, x.generation.value, x.now.value);
      }
    }
  }

  lemma CreationPushesModel(s: State, sid: SessionId, id: DeploymentId, m: ModelName)
    requires OnlyModel(s, m)
    ensures forall push | push in DoCommitCreate(s, sid, id).network :: push.modelName == m
  {
  }

  lemma NetworkOfModelStays(s: State, step: Step, m: ModelName)
    requires OnlyModel(s, m)
    ensures forall push | push in Next(s, step).network :: push.modelName == m
  {
    if step.CommitAction? {
      CommitPushesModel(s, step.sid, m);
    } else if step.CommitCreate? {
      CreationPushesModel(s, step.sid, step.id, m);
    } else if step.TickCompare? {
      ComparePushesModel(s, step.t, m);
    } else {
      QuietNetwork(s, step);
    }
  }

  lemma BootOfModel(s: State, m: ModelName)
    requires OnlyModel(s, m)
    ensures RouterOfModel(DoBootLookup(s).router, m) && RouterOfModel(DoBootRead(s).router, m)
    ensures RouterOfModel(DoBootFinish(s).router, m)
  {
  }

  lemma PutOfModel(s: State, push: Config, m: ModelName)
    requires RouterOfModel(s.router, m) && push.modelName == m
    ensures RouterOfModel(Put(s, push).router, m)
  {
  }

  lemma QuietRouter(s: State, step: Step)
    requires !step.Deliver? && !step.Restart? && !step.BootLookup? && !step.BootRead? && !step.BootFinish?
    requires !step.TickPut?
    ensures Next(s, step).router == s.router
  {
  }

  lemma RouterOfModelStays(s: State, step: Step, m: ModelName)
    requires OnlyModel(s, m)
    ensures RouterOfModel(Next(s, step).router, m)
  {
    match step {
      case BootLookup => BootOfModel(s, m);
      case BootRead => BootOfModel(s, m);
      case BootFinish => BootOfModel(s, m);
      case Restart =>
      case Deliver(push) => if push in s.network { PutOfModel(s, push, m); }
      case TickPut(t) =>
        if t in s.ticks && s.ticks[t].Pushing? {
          assert TickOfModel(s.ticks[t], m);
          PutOfModel(s, s.ticks[t].push, m);
        }
      case _ => QuietRouter(s, step);
    }
  }

  lemma {:induction false} OneModelRuns(settings: Settings, steps: seq<Step>)
    requires RequestsOnly(steps, settings.modelName)
    ensures OnlyModel(Exec(Init(settings), steps), settings.modelName)
  {
    if steps != [] {
      var m := settings.modelName;
      var front, step := steps[..|steps| - 1], steps[|steps| - 1];
      OneModelRuns(settings, front);
      var s := Exec(Init(settings), front);
      RowsOfModelStay(s, step, m);
      NetworkOfModelStays(s, step, m);
      RouterOfModelStays(s, step, m);
      forall sid | sid in Next(s, step).sessions ensures SessionOfModel(Next(s, step).sessions[sid], m) {
        SessionsOfModelStay(s, step, m, sid);
      }
      forall t | t in Next(s, step).ticks ensures TickOfModel(Next(s, step).ticks[t], m) {
        TicksOfModelStay(s, step, m, t);
      }
    }
  }

  /** The same over whole runs: any history of requests for the router's model, commits, lost pushes
      and restarts that leaves the router up, then the window. */
  lemma EveryRunConverges(settings: Settings, past: seq<Step>, window: seq<Step>, t: TickId,
                          get: nat, lookup: nat, compare: nat, put: nat)
    requires settings.modelName != "" && RequestsOnly(past, settings.modelName)
    requires var s := Exec(Init(settings), past);
             && s.router.Serving? && t !in s.ticks
             && var found := Authoritative(s.db, settings.modelName);
             && found.Some? && found.value in s.db.allocations
             && Resolvable(settings, s.db.allocations[found.value].targets)
             && Undisturbed(s, window, t)
    requires RunsTick(window, t, get, lookup, compare, put)
    ensures var s := Exec(Init(settings), past + window);
            var id := Authoritative(Exec(Init(settings), past).db, settings.modelName);
            && Authoritative(s.db, settings.modelName) == id && id.value in s.db.allocations
            && s.router == Serving(PushOf(id.value, settings.modelName, s.db.allocations[id.value]))
  {
    var m := settings.modelName;
    RunsKeepInv(settings, past);
    OneModelRuns(settings, past);
    SettingsNeverChange(Init(settings), past);
    ExecAppend(Init(settings), past, window);
    ReconcileConverges(Exec(Init(settings), past), m, window, t, get, lookup, compare, put);
  }

  /** Between restarts the router only moves forward: over any stretch of any run of a control plane
      used for one model, it still holds what it held before, or a strictly higher revision. */
  lemma RevisionsOnlyRise(settings: Settings, past: seq<Step>, more: seq<Step>)
    requires RequestsOnly(past + more, settings.modelName)
    requires Exec(Init(settings), past).router.Serving? && Restart !in more
    ensures var before := Exec(Init(settings), past).router.config;
            var after := Exec(Init(settings), past + more).router;
            after.Serving? && (after.config == before || after.config.revision > before.revision)
  {
    var s := Exec(Init(settings), past);
    ExecAppend(Init(settings), past, more);
    forall k | 0 <= k <= |more|
      ensures Exec(s, more[..k]).router.Serving? && Exec(s, more[..k]).router.config.modelName == settings.modelName
    {
      ServesItsModel(settings, past, more, k);
    }
    assert more[..0] == [];
    OneModelRises(s, more);
  }

  lemma FewerRequests(past: seq<Step>, more: seq<Step>, k: nat, m: ModelName)
    requires RequestsOnly(past + more, m) && k <= |more|
    ensures RequestsOnly(past + more[..k], m)
  {
    assert past + more[..k] == (past + more)[..|past| + k];
  }

  lemma ServesItsModel(settings: Settings, past: seq<Step>, more: seq<Step>, k: nat)
    requires RequestsOnly(past + more, settings.modelName) && k <= |more|
    requires Exec(Init(settings), past).router.Serving? && Restart !in more
    ensures var s := Exec(Exec(Init(settings), past), more[..k]);
            s.router.Serving? && s.router.config.modelName == settings.modelName
  {
    var front := more[..k];
    NotInPrefix(more, k, Restart);
    OneModelRises(Exec(Init(settings), past), front);
    ExecAppend(Init(settings), past, front);
    FewerRequests(past, more, k, settings.modelName);
    OneModelRuns(settings, past + front);
  }
}
