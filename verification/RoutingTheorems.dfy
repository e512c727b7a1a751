/** What the invariant gives, stated over every run from the empty database. */
module RoutingTheorems {
  import opened Prelude
  import opened Models
  import opened StateMachine
  import opened Rollout
  import opened Routing
  import opened Weights
  import opened Audit
  import opened Protocol
  import opened Invariant
  import opened Preservation
  import opened Steps

  // ---------------------------------------------------------------------------------------------
  // Optimistic locking

  /** The step commits an allocation for model `m`. */
  ghost predicate WritesAllocation(s: State, step: Step, m: ModelName) {
    match step
    case CommitAction(sid) =>
      && Commits(s, sid)
      && s.sessions[sid].row.modelName == m
      && PlanOf(s.sessions[sid]).draft.allocation.Some?
    case CommitCreate(sid, id) =>
      && sid in s.sessions && s.sessions[sid].Creating? && id !in s.db.deployments
      && s.sessions[sid].request.modelName == m
      && Insert(s.db, id, s.sessions[sid].request, s.clock).Success?
    case _ => false
  }

  /** Nothing the session read has changed since. */
  ghost predicate ReadsAreCurrent(db: Db, x: Session) {
    && x.Acting? && x.allocation.Some? && x.generation.Some?
    && x.id in db.deployments && x.id in db.allocations
    && x.row == db.deployments[x.id]
    && x.allocation.value == AllocationOf(db, x.id)
    && x.generation.value == GenerationOf(db, x.row.modelName)
    && x.generation.value.Some?
  }

  /** The session's commit moved its own row, and its model's counter by one iff it wrote an
      allocation. */
  ghost predicate OnlyItsOwnRow(db: Db, db': Db, x: Session, wrote: bool) {
    && x.Acting? && x.generation.Some? && x.generation.value.Some?
    && db'.generations == (if wrote then db.generations[x.row.modelName := x.generation.value.value + 1]
                           else db.generations)
    && db'.deployments - {x.id} == db.deployments - {x.id}
    && db'.allocations - {x.id} == db.allocations - {x.id}
  }

  /** Although only the deployment row carries a version, a session that commits overwrites exactly
      the row, the allocation and the generation it read, in every interleaving; an allocation it
      writes takes the next generation, and no other deployment or model is touched. */
  lemma LockProtectsUnversionedRows(settings: Settings, steps: seq<Step>, sid: SessionId)
    requires Commits(Exec(Init(settings), steps), sid)
    ensures var s := Exec(Init(settings), steps);
            var s' := Next(s, CommitAction(sid));
            var x := s.sessions[sid];
            && ReadsAreCurrent(s.db, x)
            && OnlyItsOwnRow(s.db, s'.db, x, WritesAllocation(s, CommitAction(sid), x.row.modelName))
  {
    var s := Exec(Init(settings), steps);
    RunsKeepInv(settings, steps);
    CommitReadsAreCurrent(s, sid);
    CommitTouchesOneRow(s, sid);
  }

  lemma CommitReadsAreCurrent(s: State, sid: SessionId)
    requires Inv(s) && Commits(s, sid)
    ensures ReadsAreCurrent(s.db, s.sessions[sid])
  {
    CommitSeesTheDatabase(s, sid);
    assert RowOk(s.db, s.clock, s.sessions[sid].id);
    RevisionBounded(s.db, s.history, s.sessions[sid].id);
  }

  /** Persisting a stamped draft touches one row. */
  lemma PersistTouchesOneRow(db: Db, x: Session, draft: Draft)
    requires ReadsAreCurrent(db, x) && draft.row.modelName == x.row.modelName
    requires draft.allocation.Some? ==> draft.allocation.value.revision == x.generation.value.value + 1
    ensures OnlyItsOwnRow(db, Persist(db, x.id, draft), x, draft.allocation.Some?)
  {
  }

  lemma CommitTouchesOneRow(s: State, sid: SessionId)
    requires Inv(s) && Commits(s, sid)
    ensures var s' := DoCommitAction(s, sid);
            var x := s.sessions[sid];
            && OnlyItsOwnRow(s.db, s'.db, x, WritesAllocation(s, CommitAction(sid), x.row.modelName))
  {
    var x := s.sessions[sid];
    CommitSeesTheDatabase(s, sid);
    CommitReadsAreCurrent(s, sid);
    DraftIsStamped(s, x.id, x.action, x.now.value);
    PersistTouchesOneRow(s.db, x, PlanOf(x).draft);
  }

  /** How many allocations a run committed for `m`. */
  ghost function WriteCount(s: State, steps: seq<Step>, m: ModelName): nat {
    if steps == [] then 0
    else
      var before := steps[..|steps| - 1];
      WriteCount(s, before, m) + if WritesAllocation(Exec(s, before), steps[|steps| - 1], m) then 1 else 0
  }

  lemma DraftKeepsModel(s: State, sid: SessionId)
    requires Inv(s) && Commits(s, sid)
    ensures PlanOf(s.sessions[sid]).draft.row.modelName == s.sessions[sid].row.modelName
  {
  }

  /** Only the two commits write history. */
  lemma QuietHistory(s: State, step: Step)
    requires !step.CommitAction? && !step.CommitCreate?
    ensures Next(s, step).history == s.history
  {
  }

  /** One step appends at most one entry to one history, exactly when it writes an allocation. */
  lemma HistoryStep(s: State, step: Step, m: ModelName)
    requires Inv(s)
    ensures var before, after := HistoryOf(s, m), HistoryOf(Next(s, step), m);
            && before <= after
            && |after| == |before| + if WritesAllocation(s, step, m) then 1 else 0
  {
    if step.CommitAction? {
      CommitActionHistory(s, step.sid, m);
    } else if step.CommitCreate? {
      CommitCreateHistory(s, step.sid, step.id, m);
    } else {
      QuietHistory(s, step);
    }
  }

  lemma CommitActionHistory(s: State, sid: SessionId, m: ModelName)
    requires Inv(s)
    ensures var before, after := HistoryOf(s, m), HistoryOf(DoCommitAction(s, sid), m);
            && before <= after
            && |after| == |before| + if WritesAllocation(s, CommitAction(sid), m) then 1 else 0
  {
    if Commits(s, sid) {
      DraftKeepsModel(s, sid);
    }
  }

  lemma CommitCreateHistory(s: State, sid: SessionId, id: DeploymentId, m: ModelName)
    ensures var before, after := HistoryOf(s, m), HistoryOf(DoCommitCreate(s, sid, id), m);
            && before <= after
            && |after| == |before| + if WritesAllocation(s, CommitCreate(sid, id), m) then 1 else 0
  {
  }

  lemma {:induction false} HistoryCounts(s: State, steps: seq<Step>, m: ModelName)
    requires Inv(s)
    ensures HistoryOf(s, m) <= HistoryOf(Exec(s, steps), m)
    ensures |HistoryOf(Exec(s, steps), m)| == |HistoryOf(s, m)| + WriteCount(s, steps, m)
  {
    if steps != [] {
      var before := steps[..|steps| - 1];
      HistoryCounts(s, before, m);
      ExecKeepsInv(s, before);
      HistoryStep(Exec(s, before), steps[|steps| - 1], m);
    }
  }

  /** No generation is lost or issued twice: after every run a model's counter is the number of
      allocation writes committed for it. */
  lemma GenerationCountsWrites(settings: Settings, steps: seq<Step>, m: ModelName)
    ensures GenerationOf(Exec(Init(settings), steps).db, m).GetOr(0) == WriteCount(Init(settings), steps, m)
  {
    var s := Exec(Init(settings), steps);
    InitInv(settings);
    RunsKeepInv(settings, steps);
    HistoryCounts(Init(settings), steps, m);
    if m in s.history {
      assert LatestOk(s.db, s.history[m], m, s.db.generations[m]);
    }
  }

  lemma {:induction false} ExecAppend(s: State, xs: seq<Step>, ys: seq<Step>)
    ensures Exec(s, xs + ys) == Exec(Exec(s, xs), ys)
  {
    if ys == [] {
      assert xs + ys == xs;
    } else {
      var y := ys[..|ys| - 1];
      assert (xs + ys)[..|xs + ys| - 1] == xs + y;
      ExecAppend(s, xs, y);
    }
  }

  // ---------------------------------------------------------------------------------------------
  // The authoritative allocation

  lemma ConcludedBefore(db: Db, clock: Time, a: DeploymentId, b: DeploymentId)
    requires RowsOk(db, clock) && OrderOk(db) && a in db.deployments && b in db.deployments
    requires db.deployments[a].modelName == db.deployments[b].modelName
    requires Concluded(db.deployments[a]) && Concluded(db.deployments[b])
    ensures ConcludedNoEarlier(db.deployments[a], db.deployments[b]) <==>
            db.allocations[a].revision >= db.allocations[b].revision
  {
    if a != b {
      PairOf(db, clock, a, b);
    } else {
      assert RowOk(db, clock, a);
    }
  }

  /** A live row is the only row the lookup may return. */
  lemma LiveRowIsAuthoritative(db: Db, history: map<ModelName, seq<Commitment>>, clock: Time,
                               live: DeploymentId, id: DeploymentId)
    requires DbOk(db, history, clock)
    requires live in db.deployments && db.deployments[live].status.InFlight()
    ensures IsAuthoritative(db, db.deployments[live].modelName, id) <==> id == live
    ensures db.deployments[live].modelName in db.generations
    ensures db.allocations[live].revision == db.generations[db.deployments[live].modelName]
  {
    LiveRowIsLatest(db, history, clock, live);
    LiveRowIsExclusive(db, live);
  }

  /** A row may be returned by the lookup exactly if it holds its model's latest revision. */
  lemma AuthoritativeMeansLatest(db: Db, history: map<ModelName, seq<Commitment>>, clock: Time,
                                 m: ModelName, id: DeploymentId)
    requires DbOk(db, history, clock)
    ensures IsAuthoritative(db, m, id) <==>
            && id in db.deployments && db.deployments[id].modelName == m
            && m in db.generations && db.allocations[id].revision == db.generations[m]
  {
    if id in db.deployments && db.deployments[id].modelName == m {
      if AnyInFlight(db, m) {
        var live :| live in db.deployments && db.deployments[live].modelName == m
            && db.deployments[live].status.InFlight();
        LiveRowIsAuthoritative(db, history, clock, live, id);
        if live != id {
          PairOf(db, clock, live, id);
        }
      } else {
        ConcludedLatest(db, history, clock, m, id);
      }
    }
  }

  lemma ConcludedLatest(db: Db, history: map<ModelName, seq<Commitment>>, clock: Time, m: ModelName, id: DeploymentId)
    requires DbOk(db, history, clock) && !AnyInFlight(db, m)
    requires id in db.deployments && db.deployments[id].modelName == m
    ensures m in db.generations
    ensures FirstConcluded(db, m, id) <==> db.allocations[id].revision == db.generations[m]
  {
    RevisionBounded(db, history, id);
    assert LatestOk(db, history[m], m, db.generations[m]);
    var last := history[m][|history[m]| - 1].id;
    forall o | o in db.deployments && db.deployments[o].modelName == m
      ensures Concluded(db.deployments[o]) && db.allocations[o].revision <= db.generations[m]
      ensures ConcludedNoEarlier(db.deployments[id], db.deployments[o]) <==>
              db.allocations[id].revision >= db.allocations[o].revision
    {
      assert RowOk(db, clock, o) && RowOk(db, clock, id);
      RevisionBounded(db, history, o);
      ConcludedBefore(db, clock, id, o);
    }
    assert Concluded(db.deployments[last]);
  }

  /** The lookup by status and completion time picks the highest revision: it answers exactly for
      models that have ever written an allocation; the answer carries the model's generation and
      every other deployment of the model a smaller revision, all distinct. */
  lemma AuthoritativeIsLatest(settings: Settings, steps: seq<Step>, m: ModelName)
    ensures var s := Exec(Init(settings), steps);
            var found := Authoritative(s.db, m);
            && (found.Some? <==> WriteCount(Init(settings), steps, m) > 0)
            && (found.Some? ==>
                  && found.value in s.db.deployments && found.value in s.db.allocations
                  && s.db.deployments[found.value].modelName == m
                  && s.db.allocations[found.value].revision == WriteCount(Init(settings), steps, m)
                  && (forall id :: IsAuthoritative(s.db, m, id) ==> id == found.value)
                  && (forall id | id in s.db.deployments && s.db.deployments[id].modelName == m && id != found.value ::
                        id in s.db.allocations
                        && s.db.allocations[id].revision < s.db.allocations[found.value].revision))
            && (forall a, b | a in s.db.deployments && b in s.db.deployments && a != b
                              && s.db.deployments[a].modelName == s.db.deployments[b].modelName ::
                  a in s.db.allocations && b in s.db.allocations
                  && s.db.allocations[a].revision != s.db.allocations[b].revision)
  {
    var s := Exec(Init(settings), steps);
    RunsKeepInv(settings, steps);
    GenerationCountsWrites(settings, steps, m);
    LookupIsLatest(s, m);
    forall a, b | a in s.db.deployments && b in s.db.deployments && a != b
                  && s.db.deployments[a].modelName == s.db.deployments[b].modelName
      ensures s.db.allocations[a].revision != s.db.allocations[b].revision
    {
      PairOf(s.db, s.clock, a, b);
    }
  }

  /** The same for any state with the invariant. */
  lemma LookupIsLatest(s: State, m: ModelName)
    requires Inv(s)
    ensures var found := Authoritative(s.db, m);
            && (found.Some? <==> m in s.db.generations)
            && (m in s.db.generations ==> s.db.generations[m] >= 1)
            && (found.Some? ==>
                  && found.value in s.db.deployments && found.value in s.db.allocations
                  && s.db.deployments[found.value].modelName == m
                  && s.db.allocations[found.value].revision == s.db.generations[m]
                  && (forall id :: IsAuthoritative(s.db, m, id) ==> id == found.value)
                  && (forall id | id in s.db.deployments && s.db.deployments[id].modelName == m && id != found.value ::
                        id in s.db.allocations
                        && s.db.allocations[id].revision < s.db.allocations[found.value].revision))
  {
    if m in s.db.generations {
      assert LatestOk(s.db, s.history[m], m, s.db.generations[m]);
      var last := s.history[m][|s.history[m]| - 1].id;
      AuthoritativeMeansLatest(s.db, s.history, s.clock, m, last);
    }
    var found := Authoritative(s.db, m);
    if found.Some? {
      AuthoritativeExists(s.db, m);
      AuthoritativeMeansLatest(s.db, s.history, s.clock, m, found.value);
      forall id | id in s.db.deployments && s.db.deployments[id].modelName == m && id != found.value
        ensures s.db.allocations[id].revision < s.db.allocations[found.value].revision
      {
        PairOf(s.db, s.clock, id, found.value);
        RevisionBounded(s.db, s.history, id);
      }
      forall id | IsAuthoritative(s.db, m, id) ensures id == found.value {
        AuthoritativeMeansLatest(s.db, s.history, s.clock, m, id);
      }
    }
  }

  // ---------------------------------------------------------------------------------------------
  // The router

  /** The router never serves a split the database did not agree to. In every run, with pushes
      delayed, lost, duplicated or reordered, reconciles and restarts: a configuration at revision
      r >= 1 is what the r-th allocation write committed for its model decided, deployment and
      targets, and one at revision 0 is the bootstrap split or some committed allocation. */
  lemma RouterServesCommittedSplits(settings: Settings, steps: seq<Step>)
    requires Exec(Init(settings), steps).router.Serving?
    ensures var s := Exec(Init(settings), steps);
            var c := s.router.config;
            && (c.revision >= 1 ==>
                  && c.revision <= |HistoryOf(s, c.modelName)|
                  && c.deploymentId == Some(HistoryOf(s, c.modelName)[c.revision - 1].id)
                  && c.targets == HistoryOf(s, c.modelName)[c.revision - 1].targets)
            && (c.revision == 0 && c != Bootstrap(settings) ==>
                  exists e | e in HistoryOf(s, c.modelName) ::
                    c.deploymentId == Some(e.id) && c.targets == e.targets)
  {
    var s := Exec(Init(settings), steps);
    RunsKeepInv(settings, steps);
    SettingsNeverChange(Init(settings), steps);
    ServedIsCommitted(s, s.router.config);
  }

  lemma ServedIsCommitted(s: State, c: Config)
    requires ConfigOk(s.settings, s.history, c)
    ensures c.revision >= 1 ==>
              && c.revision <= |HistoryOf(s, c.modelName)|
              && c.deploymentId == Some(HistoryOf(s, c.modelName)[c.revision - 1].id)
              && c.targets == HistoryOf(s, c.modelName)[c.revision - 1].targets
    ensures c.revision == 0 && c != Bootstrap(s.settings) ==>
              exists e | e in HistoryOf(s, c.modelName) :: c.deploymentId == Some(e.id) && c.targets == e.targets
  {
  }

  lemma SettingsStep(s: State, step: Step)
    ensures Next(s, step).settings == s.settings
  {
  }

  lemma {:induction false} SettingsNeverChange(s: State, steps: seq<Step>)
    ensures Exec(s, steps).settings == s.settings
  {
    if steps != [] {
      SettingsNeverChange(s, steps[..|steps| - 1]);
      SettingsStep(Exec(s, steps[..|steps| - 1]), steps[|steps| - 1]);
    }
  }

  /** Equal deployment and revision means equal targets, although targets are never compared: a
      revision the reconciler finds on both sides stands for one content only. */
  lemma EqualRevisionEqualTargets(settings: Settings, steps: seq<Step>, id: DeploymentId, c: Config)
    requires var s := Exec(Init(settings), steps);
             && id in s.db.deployments && id in s.db.allocations
             && (s.router == Serving(c) || Observed(c) in s.ticks.Values || Found(c, id) in s.ticks.Values
                 || c in s.network)
             && c.modelName == s.db.deployments[id].modelName
             && c.deploymentId == Some(id) && c.revision == s.db.allocations[id].revision
    ensures c == PushOf(id, c.modelName, Exec(Init(settings), steps).db.allocations[id])
  {
    var s := Exec(Init(settings), steps);
    RunsKeepInv(settings, steps);
    assert EntryOk(s.db, s.history, id);
    if Observed(c) in s.ticks.Values {
      var t :| t in s.ticks && s.ticks[t] == Observed(c);
      assert TickOk(s, s.ticks[t]);
    } else if Found(c, id) in s.ticks.Values {
      var t :| t in s.ticks && s.ticks[t] == Found(c, id);
      assert TickOk(s, s.ticks[t]);
    } else if c in s.network {
      assert PushOk(s.history, c);
    }
  }

  /** The reconciler's skip is sound: in every run, a tick that answers "already in sync" was looking at
      exactly the authoritative deployment's allocation, targets included. */
  lemma SkipIsSound(settings: Settings, steps: seq<Step>, t: TickId)
    requires var s := Exec(Init(settings), steps);
             && t in s.ticks && s.ticks[t].Found?
             && t in DoTickCompare(s, t).ticks && DoTickCompare(s, t).ticks[t] == Done(InSync)
    ensures var s := Exec(Init(settings), steps);
            var Found(c, id) := s.ticks[t];
            id in s.db.allocations && c == PushOf(id, c.modelName, s.db.allocations[id])
  {
    var s := Exec(Init(settings), steps);
    var Found(c, id) := s.ticks[t];
    RunsKeepInv(settings, steps);
    assert TickOk(s, s.ticks[t]);
    EqualRevisionEqualTargets(settings, steps, id, c);
  }

  /** What a 409 tells the reconciler: the router already holds, for the same model, the content
      committed at the pushed revision or at a later one; the tick changes nothing and says so. */
  lemma StaleMeansCaughtUp(settings: Settings, steps: seq<Step>, t: TickId)
    requires var s := Exec(Init(settings), steps);
             && t in s.ticks && s.ticks[t].Pushing? && s.router.Serving?
             && Answer(s.settings, s.router.config, s.ticks[t].push) == Stale
    ensures var s := Exec(Init(settings), steps);
            var s' := DoTickPut(s, t);
            && s' == s.(ticks := s.ticks[t := Done(InSyncRace)])
            && CaughtUp(s, s.router.config, s.ticks[t].push)
  {
    var s := Exec(Init(settings), steps);
    RunsKeepInv(settings, steps);
    assert TickOk(s, s.ticks[t]);
    StaleIsCaughtUp(s, s.ticks[t].push);
  }

  ghost predicate CaughtUp(s: State, c: Config, push: Config) {
    && c.modelName == push.modelName
    && 1 <= push.revision <= c.revision <= |HistoryOf(s, c.modelName)|
    && c.deploymentId.Some?
    && Commitment(c.deploymentId.value, c.targets) == HistoryOf(s, c.modelName)[c.revision - 1]
    && (c.revision == push.revision ==> c == push)
  }

  lemma StaleIsCaughtUp(s: State, push: Config)
    requires RouterOk(s) && PushOk(s.history, push) && s.router.Serving?
    requires Answer(s.settings, s.router.config, push) == Stale
    ensures CaughtUp(s, s.router.config, push)
  {
  }

  /** Between restarts the revision the router serves for a model never goes down, whatever is
      delivered; it can only be replaced outright by another model's push. */
  lemma RouterRevisionNeverDrops(s: State, step: Step)
    requires s.router.Serving? && step != Restart
    ensures var after := Next(s, step).router;
            && after.Serving?
            && (after.config.modelName == s.router.config.modelName ==>
                  after.config.revision > s.router.config.revision || after == s.router)
  {
  }

  /** After every step of the run the router serves model `m`. */
  ghost predicate ServesThroughout(s: State, steps: seq<Step>, m: ModelName) {
    forall k | 0 <= k <= |steps| ::
      Exec(s, steps[..k]).router.Serving? && Exec(s, steps[..k]).router.config.modelName == m
  }

  lemma NotInPrefix(steps: seq<Step>, k: nat, step: Step)
    requires k <= |steps| && step !in steps
    ensures step !in steps[..k]
  {
    forall i | 0 <= i < k ensures steps[..k][i] != step {
      assert steps[..k][i] == steps[i];
    }
  }

  /** Over any stretch of any run without a restart: as long as the router stays with its model it keeps
      its configuration or moves to a strictly higher revision. */
  lemma {:induction false} OneModelRises(s: State, steps: seq<Step>)
    requires s.router.Serving? && Restart !in steps
    ensures Exec(s, steps).router.Serving?
    ensures var before, after := s.router.config, Exec(s, steps).router.config;
            ServesThroughout(s, steps, before.modelName) ==> after == before || after.revision > before.revision
  {
    if steps != [] {
      var n := |steps| - 1;
      NotInPrefix(steps, n, Restart);
      OneModelRises(s, steps[..n]);
      RouterRevisionNeverDrops(Exec(s, steps[..n]), steps[n]);
      if ServesThroughout(s, steps, s.router.config.modelName) {
        ServesThroughoutPrefix(s, steps, s.router.config.modelName);
      }
    }
  }

  lemma ServesThroughoutPrefix(s: State, steps: seq<Step>, m: ModelName)
    requires steps != [] && ServesThroughout(s, steps, m)
    ensures ServesThroughout(s, steps[..|steps| - 1], m)
    ensures Exec(s, steps).router.Serving? && Exec(s, steps).router.config.modelName == m
  {
    var n := |steps| - 1;
    assert steps[..|steps|] == steps;
    forall k | 0 <= k <= n
      ensures Exec(s, steps[..n][..k]).router.Serving? && Exec(s, steps[..n][..k]).router.config.modelName == m
    {
      assert steps[..n][..k] == steps[..k];
    }
  }

  /** Hence only a switch lowers a revision: if the router comes back to a model at another configuration
      that is not newer, then in between it accepted a push of another model. */
  lemma OnlyASwitchLowers(s: State, steps: seq<Step>)
    requires s.router.Serving? && Restart !in steps
    requires var before, after := s.router.config, Exec(s, steps).router;
             after.Serving? && after.config != before && after.config.revision <= before.revision
    ensures exists k | 0 < k <= |steps| ::
              Exec(s, steps[..k]).router.Serving?
                  && Exec(s, steps[..k]).router.config.modelName != s.router.config.modelName
  {
    OneModelRises(s, steps);
    var k :| 0 <= k <= |steps| && !(Exec(s, steps[..k]).router.Serving?
                                    && Exec(s, steps[..k]).router.config.modelName == s.router.config.modelName);
    assert steps[..0] == [];
    NotInPrefix(steps, k, Restart);
    OneModelRises(s, steps[..k]);
  }

  /** And every switch can: while another model is served, any acceptable push of a model is taken, be
      its revision as low as it may. */
  lemma SwitchReopens(s: State, push: Config)
    requires s.router.Serving? && s.router.config.modelName != push.modelName && push in s.network
    ensures Next(s, Deliver(push)).router ==
            if RouterAccepts(push.targets) && Resolvable(s.settings, push.targets) then Serving(push) else s.router
  {
  }

  /** Across a restart it can go down. A router freshly booted from the authoritative allocation
      carries revision 0, so any acceptable push of its model is taken; the split it then serves is
      out of date exactly when the push is older than the model's generation. */
  lemma StalePushAfterRestart(s: State, push: Config)
    requires Inv(s) && s.router.Serving? && s.router.config.revision == 0
    requires push in s.network && push.modelName == s.router.config.modelName
    requires RouterAccepts(push.targets) && Resolvable(s.settings, push.targets)
    ensures var after := Next(s, Deliver(push));
            var m := push.modelName;
            && after.router == Serving(push)
            && m in s.db.generations
            && Authoritative(s.db, m).Some?
            && Authoritative(s.db, m).value in s.db.allocations
            && (push != PushOf(Authoritative(s.db, m).value, m, s.db.allocations[Authoritative(s.db, m).value])
                <==> push.revision < s.db.generations[m])
  {
    var m := push.modelName;
    assert PushOk(s.history, push);
    LookupIsLatest(s, m);
    assert LatestOk(s.db, s.history[m], m, s.db.generations[m]);
    var id := Authoritative(s.db, m).value;
    assert EntryOk(s.db, s.history, id);
  }

  // ---------------------------------------------------------------------------------------------
  // Committed states

  /** Of the ten statuses only four are ever committed, each with its split and its retry count;
      every committed split carries all the traffic and passes the router's validator. */
  lemma CommittedStates(settings: Settings, steps: seq<Step>, id: DeploymentId)
    requires id in Exec(Init(settings), steps).db.deployments
    ensures var s := Exec(Init(settings), steps);
            id in s.db.allocations
            && var d, targets := s.db.deployments[id], s.db.allocations[id].targets;
            && (d.status == Promoted ==> targets == [Target(d.canaryVersion, 1.0)])
            && (d.status == RolledBack ==> targets == [Target(d.stableVersion, 1.0)])
            && (d.status == CanaryRunning ==> d.retryCount <= d.policy.maxInconclusiveRetries)
            && (d.status == Inconclusive ==> d.retryCount == d.policy.maxInconclusiveRetries + 1)
            && (Concluded(d) || d.status == CanaryRunning || d.status == Inconclusive)
            && TotalWeight(targets) == 1.0
            && RouterAccepts(targets)
  {
    var s := Exec(Init(settings), steps);
    RunsKeepInv(settings, steps);
    assert RowOk(s.db, s.clock, id);
    FittingSplitIsRoutable(s.db.deployments[id], s.db.allocations[id].targets);
  }

  lemma FittingSplitIsRoutable(d: Deployment, targets: seq<Target>)
    requires DeploymentOk(d, targets)
    ensures TotalWeight(targets) == 1.0 && RouterAccepts(targets)
  {
    SingleTarget(d.canaryVersion);
    SingleTarget(d.stableVersion);
    if !Concluded(d) {
      assert targets[1..] == [targets[1]] && targets[1..][1..] == [];
      assert TotalWeight(targets[1..]) == targets[1].weight + TotalWeight(targets[1..][1..]);
    }
  }

  /** In every run a model has at most one undecided deployment, and an idempotency key one row. */
  lemma OneRolloutPerModel(settings: Settings, steps: seq<Step>, a: DeploymentId, b: DeploymentId)
    requires var db := Exec(Init(settings), steps).db; a in db.deployments && b in db.deployments && a != b
    ensures var db := Exec(Init(settings), steps).db;
            && (db.deployments[a].modelName == db.deployments[b].modelName ==>
                  Concluded(db.deployments[a]) || Concluded(db.deployments[b]))
            && (db.deployments[a].idempotencyKey.Some? ==>
                  db.deployments[a].idempotencyKey != db.deployments[b].idempotencyKey)
  {
    var s := Exec(Init(settings), steps);
    RunsKeepInv(settings, steps);
    assert UniquePair(s.db.deployments[a], s.db.deployments[b]);
    assert RowOk(s.db, s.clock, a) && RowOk(s.db, s.clock, b);
  }

  lemma DecidedRowStays(s: State, step: Step, id: DeploymentId)
    requires Inv(s) && id in s.db.deployments && s.db.deployments[id].status.IsTerminal()
    ensures var db' := Next(s, step).db;
            && id in db'.deployments && db'.deployments[id] == s.db.deployments[id]
            && AllocationOf(db', id) == AllocationOf(s.db, id)
  {
    RowChangesByWinning(s, step, id);
    if Wins(s, step, id) {
      CommitSeesTheDatabase(s, step.sid);
    }
  }

  lemma QuietRows(s: State, step: Step)
    requires !step.CommitAction? && !step.CommitCreate?
    ensures Next(s, step).db == s.db.(events := Next(s, step).db.events)
  {
  }

  /** A decision is final: once promoted or rolled back, a deployment's row and allocation are the
      same in every later state. */
  lemma {:induction false} DecisionsAreFinal(s: State, steps: seq<Step>, id: DeploymentId)
    requires Inv(s) && id in s.db.deployments && s.db.deployments[id].status.IsTerminal()
    ensures var db' := Exec(s, steps).db;
            && id in db'.deployments && db'.deployments[id] == s.db.deployments[id]
            && AllocationOf(db', id) == AllocationOf(s.db, id)
  {
    if steps != [] {
      var before := steps[..|steps| - 1];
      DecisionsAreFinal(s, before, id);
      ExecKeepsInv(s, before);
      DecidedRowStays(Exec(s, before), steps[|steps| - 1], id);
    }
  }

  /** The audit log replays to the state, in every run: a deployment's status events chain from
      Pending to its status along allowed edges, as many inconclusive cycles are logged as retries
      are counted, and holds alternate up to the current flag. */
  lemma AuditLogReplays(settings: Settings, steps: seq<Step>, id: DeploymentId)
    requires id in Exec(Init(settings), steps).db.deployments
    ensures var db := Exec(Init(settings), steps).db;
            var d, log := db.deployments[id], EventsOf(db, id);
            var path := StatusPath(Pending, log);
            && ReplayFrom(START, log) == Some(AuditOf(d))
            && IsPath(path) && path[|path| - 1] == d.status
            && Cycles(log) == d.retryCount
            && Alternates(false, Holds(log)) && Last(false, Holds(log)) == d.paused
            && forall i | 0 <= i < |log| :: InPlace(log, i)
  {
    var s := Exec(Init(settings), steps);
    RunsKeepInv(settings, steps);
    assert LogOk(s.db.deployments[id], s.db.events[id]);
    ReplayMeaning(START, s.db.events[id]);
    forall i | 0 <= i < |s.db.events[id]| ensures InPlace(s.db.events[id], i) {
      EventsInPlace(s.db.events[id], i);
    }
  }

  // ---------------------------------------------------------------------------------------------
  // Winners and losers

  /** The step is a commit whose row is current, or an INSERT that both unique constraints admit. */
  ghost predicate Wins(s: State, step: Step, id: DeploymentId) {
    match step
    case CommitAction(sid) => Commits(s, sid) && s.sessions[sid].id == id
    case CommitCreate(sid, o) =>
      && o == id && sid in s.sessions && s.sessions[sid].Creating? && id !in s.db.deployments
      && Insert(s.db, id, s.sessions[sid].request, s.clock).Success?
    case _ => false
  }

  /** A deployment's row changes exactly when a step wins on it; its version then goes up by one, or
      starts at 2 (inserted at 1, updated by the commit). */
  lemma RowChangesByWinning(s: State, step: Step, id: DeploymentId)
    ensures var (db, db') := (s.db, Next(s, step).db);
            && (Wins(s, step, id) ==>
                  && id in db'.deployments
                  && db'.deployments[id].versionId ==
                     if id in db.deployments then db.deployments[id].versionId + 1 else 2)
            && (!Wins(s, step, id) ==>
                  && (id in db'.deployments <==> id in db.deployments)
                  && (id in db.deployments ==> db'.deployments[id] == db.deployments[id])
                  && AllocationOf(db', id) == AllocationOf(db, id)
                  && (!step.LogObservation? ==> EventsOf(db', id) == EventsOf(db, id)))
  {
    match step {
      case CommitAction(sid) => CommitChangesByWinning(s, sid, id);
      case CommitCreate(sid, o) => CreateChangesByWinning(s, sid, o, id);
      case LogObservation(o, event) =>
      case _ => QuietTables(s, step);
    }
  }

  lemma CommitChangesByWinning(s: State, sid: SessionId, id: DeploymentId)
    ensures var (db, db') := (s.db, DoCommitAction(s, sid).db);
            if Wins(s, CommitAction(sid), id) then
              && id in db'.deployments && id in db.deployments
              && db'.deployments[id].versionId == db.deployments[id].versionId + 1
            else
              && (id in db'.deployments <==> id in db.deployments)
              && (id in db.deployments ==> db'.deployments[id] == db.deployments[id])
              && AllocationOf(db', id) == AllocationOf(db, id) && EventsOf(db', id) == EventsOf(db, id)
  {
    if Commits(s, sid) {
      var x := s.sessions[sid];
      PlanKeepsIdentity(x.action, x.row, x.allocation.value, x.generation.value, x.now.value);
    }
  }

  lemma CreateChangesByWinning(s: State, sid: SessionId, o: DeploymentId, id: DeploymentId)
    ensures var (db, db') := (s.db, DoCommitCreate(s, sid, o).db);
            if Wins(s, CommitCreate(sid, o), id) then
              id !in db.deployments && id in db'.deployments && db'.deployments[id].versionId == 2
            else
              && (id in db'.deployments <==> id in db.deployments)
              && (id in db.deployments ==> db'.deployments[id] == db.deployments[id])
              && AllocationOf(db', id) == AllocationOf(db, id) && EventsOf(db', id) == EventsOf(db, id)
  {
  }

  lemma QuietTables(s: State, step: Step)
    requires !step.CommitAction? && !step.CommitCreate? && !step.LogObservation?
    ensures Next(s, step).db == s.db
  {
  }

  /** How many steps of a run won on `id`. */
  ghost function WinCount(s: State, steps: seq<Step>, id: DeploymentId): nat {
    if steps == [] then 0
    else
      var before := steps[..|steps| - 1];
      WinCount(s, before, id) + if Wins(Exec(s, before), steps[|steps| - 1], id) then 1 else 0
  }

  /** The version column counts: in every run a deployment exists exactly if its creation won, and its
      version is one more than the number of its winning writes. Losing, refused and idle requests leave
      no trace in it. */
  lemma {:induction false} VersionCountsWins(settings: Settings, steps: seq<Step>, id: DeploymentId)
    ensures var db := Exec(Init(settings), steps).db;
            var wins := WinCount(Init(settings), steps, id);
            && (id in db.deployments <==> wins > 0)
            && (id in db.deployments ==> db.deployments[id].versionId == wins + 1)
  {
    if steps != [] {
      var before := steps[..|steps| - 1];
      VersionCountsWins(settings, before, id);
      RowChangesByWinning(Exec(Init(settings), before), steps[|steps| - 1], id);
    }
  }
}
