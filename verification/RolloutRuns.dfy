/** The rollout under interference: worker cycles, operators and lost races, interleaved at will as runs
    of the protocol. */
module RolloutRuns {
  import opened Prelude
  import opened Models
  import opened Weights
  import opened Rollout
  import opened Routing
  import opened Protocol
  import opened Invariant
  import opened Steps
  import opened RoutingTheorems
  import opened WorkerRuns

  /** How many more moves a rollout can make. */
  function Budget(r: Ramp): nat {
    match r
    case Running(stages, retries) => stages + retries + 1
    case Ended(_) => 0
  }

  /** Stages and retries are only ever used up, and nothing ended starts again. */
  predicate GoesDown(r: Ramp, r': Ramp) {
    && Budget(r') <= Budget(r)
    && (r'.Running? ==> r.Running? && r'.stages <= r.stages)
    && (r.Running? && r'.Running? ==> r'.retries <= r.retries)
  }

  lemma ActKeepsIdentity(db: Db, id: DeploymentId, action: Action, now: Time)
    requires id in db.deployments
    ensures var (row, db') := (db.deployments[id], Act(db, id, action, now));
            id in db'.deployments && db'.deployments[id].policy == row.policy
            && db'.deployments[id].canaryVersion == row.canaryVersion
  {
    var row := db.deployments[id];
    PlanKeepsIdentity(action, row, AllocationOf(db, id), GenerationOf(db, row.modelName), now);
  }

  lemma RunningMoves(db: Db, id: DeploymentId, action: Action, now: Time)
    requires Tracked(db, id) && db.deployments[id].status == CanaryRunning && !IsHold(action)
    ensures var db' := Act(db, id, action, now);
            && Tracked(db', id) && GoesDown(RampOf(db, id), RampOf(db', id))
            && (Goes(db, id, action, now) ==> Budget(RampOf(db', id)) < Budget(RampOf(db, id)))
  {
    var row := db.deployments[id];
    var weight := CanaryWeight(AllocationOf(db, id), row.canaryVersion);
    match action {
      case Advance =>
        if NextStage(weight).Some? {
          NextStageMeaning(weight);
          AdvanceStep(db, id, now);
        }
      case RecordInconclusive => InconclusiveStep(db, id, now);
      case _ => ConcludeStep(db, id, action, now);
    }
  }

  lemma EndedStaysEnded(db: Db, id: DeploymentId, action: Action, now: Time)
    requires Tracked(db, id) && db.deployments[id].status != CanaryRunning && !IsHold(action)
    ensures var db' := Act(db, id, action, now);
            Tracked(db', id) && RampOf(db', id).Ended?
  {
    var row := db.deployments[id];
    ConcludeMeaning(Promote, row, AllocationOf(db, id), GenerationOf(db, row.modelName), now);
    ConcludeMeaning(Rollback, row, AllocationOf(db, id), GenerationOf(db, row.modelName), now);
    if row.status == Inconclusive && (action == Promote || action == Rollback) {
      ConcludeStep(db, id, action, now);
    }
  }

  /** One request that meets no competitor moves the rollout down, or not at all. */
  lemma ActGoesDown(db: Db, id: DeploymentId, action: Action, now: Time)
    requires Tracked(db, id)
    ensures var db' := Act(db, id, action, now);
            && Tracked(db', id) && GoesDown(RampOf(db, id), RampOf(db', id))
            && (db.deployments[id].status == CanaryRunning && !IsHold(action) && Goes(db, id, action, now) ==>
                  Budget(RampOf(db', id)) < Budget(RampOf(db, id)))
  {
    if IsHold(action) {
      HoldIsNeutral(db, id, action == Pause, now);
    } else if db.deployments[id].status == CanaryRunning {
      RunningMoves(db, id, action, now);
    } else {
      EndedStaysEnded(db, id, action, now);
    }
  }

  // ---------------------------------------------------------------------------------------------
  // Commits in an interleaving

  /** A commit that goes through has, on the database, the effect of the request made at that moment. */
  lemma CommitIsAct(s: State, sid: SessionId)
    requires Inv(s) && Commits(s, sid)
    ensures var x := s.sessions[sid];
            && x.id in s.db.deployments && Goes(s.db, x.id, x.action, x.now.value)
            && DoCommitAction(s, sid).db == Act(s.db, x.id, x.action, x.now.value)
  {
    CommitReadsAreCurrent(s, sid);
  }

  /** The step commits a promote, rollback, advance or inconclusive record on the running rollout `id`. */
  ghost predicate Moves(s: State, step: Step, id: DeploymentId) {
    && step.CommitAction? && Commits(s, step.sid)
    && s.sessions[step.sid].id == id && !IsHold(s.sessions[step.sid].action)
    && id in s.db.deployments && s.db.deployments[id].status == CanaryRunning
  }

  lemma TrackedInInv(s: State, id: DeploymentId)
    requires Inv(s) && id in s.db.deployments
    ensures Tracked(s.db, id)
  {
    assert RowOk(s.db, s.clock, id);
  }

  /** Every advance and every inconclusive record that goes through is such a move. */
  lemma AdvancesAreMoves(s: State, sid: SessionId)
    requires Inv(s) && Commits(s, sid)
    requires s.sessions[sid].action == Advance || s.sessions[sid].action == RecordInconclusive
    ensures Moves(s, CommitAction(sid), s.sessions[sid].id)
  {
    CommitReadsAreCurrent(s, sid);
    TrackedInInv(s, s.sessions[sid].id);
  }

  lemma CommitGoesDown(s: State, sid: SessionId)
    requires Inv(s) && Commits(s, sid)
    ensures var (id, db') := (s.sessions[sid].id, DoCommitAction(s, sid).db);
            && id in s.db.deployments && id in db'.deployments
            && db'.deployments[id].policy == s.db.deployments[id].policy
            && db'.deployments[id].canaryVersion == s.db.deployments[id].canaryVersion
            && Tracked(s.db, id) && Tracked(db', id) && GoesDown(RampOf(s.db, id), RampOf(db', id))
            && (Moves(s, CommitAction(sid), id) ==> Budget(RampOf(db', id)) < Budget(RampOf(s.db, id)))
  {
    var x := s.sessions[sid];
    CommitIsAct(s, sid);
    TrackedInInv(s, x.id);
    ActGoesDown(s.db, x.id, x.action, x.now.value);
    ActKeepsIdentity(s.db, x.id, x.action, x.now.value);
  }

  /** One step of the protocol, seen from one rollout. */
  lemma StepGoesDown(s: State, step: Step, id: DeploymentId)
    requires Inv(s) && id in s.db.deployments
    ensures var s' := Next(s, step);
            && id in s'.db.deployments && Tracked(s.db, id) && Tracked(s'.db, id)
            && s'.db.deployments[id].policy == s.db.deployments[id].policy
            && s'.db.deployments[id].canaryVersion == s.db.deployments[id].canaryVersion
            && GoesDown(RampOf(s.db, id), RampOf(s'.db, id))
            && (Moves(s, step, id) ==> Budget(RampOf(s'.db, id)) < Budget(RampOf(s.db, id)))
  {
    TrackedInInv(s, id);
    RowChangesByWinning(s, step, id);
    if Wins(s, step, id) {
      CommitGoesDown(s, step.sid);
    }
  }

  ghost function MoveCount(s: State, steps: seq<Step>, id: DeploymentId): nat {
    if steps == [] then 0
    else
      var before := steps[..|steps| - 1];
      MoveCount(s, before, id) + if Moves(Exec(s, before), steps[|steps| - 1], id) then 1 else 0
  }

  lemma BudgetBound(db: Db, id: DeploymentId)
    requires Tracked(db, id)
    ensures Budget(RampOf(db, id)) <= db.deployments[id].policy.maxInconclusiveRetries + 5
  {
  }

  lemma {:induction false} MovesUseUpBudget(settings: Settings, steps: seq<Step>, id: DeploymentId)
    ensures var db := Exec(Init(settings), steps).db;
            && (id in db.deployments ==>
                  Tracked(db, id)
                  && MoveCount(Init(settings), steps, id) + Budget(RampOf(db, id))
                     <= db.deployments[id].policy.maxInconclusiveRetries + 5)
            && (id !in db.deployments ==> MoveCount(Init(settings), steps, id) == 0)
  {
    if steps != [] {
      var before, step := steps[..|steps| - 1], steps[|steps| - 1];
      var s := Exec(Init(settings), before);
      MovesUseUpBudget(settings, before, id);
      RunsKeepInv(settings, before);
      RunsKeepInv(settings, steps);
      if id in s.db.deployments {
        StepGoesDown(s, step, id);
      } else if id in Next(s, step).db.deployments {
        TrackedInInv(Next(s, step), id);
        BudgetBound(Next(s, step).db, id);
      }
    }
  }

  // ---------------------------------------------------------------------------------------------
  // How often each action goes through

  ghost predicate Carries(s: State, step: Step, id: DeploymentId, action: Action) {
    step.CommitAction? && Commits(s, step.sid) && s.sessions[step.sid].id == id && s.sessions[step.sid].action == action
  }

  ghost function CommitCount(s: State, steps: seq<Step>, id: DeploymentId, action: Action): nat {
    if steps == [] then 0
    else
      var before := steps[..|steps| - 1];
      CommitCount(s, before, id, action) + if Carries(Exec(s, before), steps[|steps| - 1], id, action) then 1 else 0
  }

  lemma {:induction false} RampingMoves(settings: Settings, steps: seq<Step>, id: DeploymentId)
    ensures CommitCount(Init(settings), steps, id, Advance) + CommitCount(Init(settings), steps, id, RecordInconclusive)
            <= MoveCount(Init(settings), steps, id)
  {
    if steps != [] {
      var before, step := steps[..|steps| - 1], steps[|steps| - 1];
      RampingMoves(settings, before, id);
      RunsKeepInv(settings, before);
      var s := Exec(Init(settings), before);
      if Carries(s, step, id, Advance) || Carries(s, step, id, RecordInconclusive) {
        AdvancesAreMoves(s, step.sid);
      }
    }
  }

  /** Stages the rollout may still climb. */
  function StagesLeft(r: Ramp): nat {
    match r
    case Running(stages, _) => stages
    case Ended(_) => 0
  }

  lemma AdvanceClimbs(s: State, step: Step, id: DeploymentId)
    requires Inv(s) && id in s.db.deployments && Carries(s, step, id, Advance)
    ensures var db' := Next(s, step).db;
            Tracked(s.db, id) && Tracked(db', id) && StagesLeft(RampOf(db', id)) + 1 == StagesLeft(RampOf(s.db, id))
  {
    CommitIsAct(s, step.sid);
    TrackedInInv(s, id);
    NextStageMeaning(CanaryWeight(AllocationOf(s.db, id), s.db.deployments[id].canaryVersion));
    AdvanceStep(s.db, id, s.sessions[step.sid].now.value);
  }

  lemma {:induction false} AdvancesClimb(settings: Settings, steps: seq<Step>, id: DeploymentId)
    ensures var db := Exec(Init(settings), steps).db;
            var advances := CommitCount(Init(settings), steps, id, Advance);
            && (id in db.deployments ==> Tracked(db, id) && advances + StagesLeft(RampOf(db, id)) <= 4)
            && (id !in db.deployments ==> advances == 0)
  {
    if steps != [] {
      var before, step := steps[..|steps| - 1], steps[|steps| - 1];
      var s := Exec(Init(settings), before);
      AdvancesClimb(settings, before, id);
      RunsKeepInv(settings, before);
      RunsKeepInv(settings, steps);
      if Carries(s, step, id, Advance) {
        CommitIsAct(s, step.sid);
        AdvanceClimbs(s, step, id);
      } else if id in s.db.deployments {
        StepGoesDown(s, step, id);
      } else if id in Next(s, step).db.deployments {
        TrackedInInv(Next(s, step), id);
      }
    }
  }

  /** Only an inconclusive record counts a retry. */
  lemma RetryStep(s: State, step: Step, id: DeploymentId)
    requires Inv(s)
    ensures var (db, db') := (s.db, Next(s, step).db);
            var before := if id in db.deployments then db.deployments[id].retryCount else 0;
            var counted := if Carries(s, step, id, RecordInconclusive) then 1 else 0;
            id in db'.deployments ==> db'.deployments[id].retryCount == before + counted
  {
    RowChangesByWinning(s, step, id);
    if Wins(s, step, id) && step.CommitAction? {
      var x := s.sessions[step.sid];
      CommitIsAct(s, step.sid);
      RetriesOfPlan(x.action, s.db.deployments[id], AllocationOf(s.db, id),
                    GenerationOf(s.db, s.db.deployments[id].modelName), x.now.value);
    }
  }

  lemma RetriesOfPlan(action: Action, row: Deployment, allocation: Option<Allocation>, generation: Option<nat>,
                      now: Time)
    ensures var plan := PlanFor(action, row, allocation, generation, now);
            plan.Write? ==>
              plan.draft.row.retryCount == row.retryCount + if action == RecordInconclusive then 1 else 0
  {
    ConcludeMeaning(Promote, row, allocation, generation, now);
    ConcludeMeaning(Rollback, row, allocation, generation, now);
    InconclusiveMeaning(row, now);
  }

  lemma {:induction false} RetriesAreRecords(settings: Settings, steps: seq<Step>, id: DeploymentId)
    ensures var db := Exec(Init(settings), steps).db;
            var records := CommitCount(Init(settings), steps, id, RecordInconclusive);
            && (id in db.deployments ==> db.deployments[id].retryCount == records)
            && (id !in db.deployments ==> records == 0)
  {
    if steps != [] {
      var before, step := steps[..|steps| - 1], steps[|steps| - 1];
      var s := Exec(Init(settings), before);
      RetriesAreRecords(settings, before, id);
      RunsKeepInv(settings, before);
      RetryStep(s, step, id);
      RowChangesByWinning(s, step, id);
      if Carries(s, step, id, RecordInconclusive) {
        CommitIsAct(s, step.sid);
      }
    }
  }

  /** Every rollout ends, however requests interleave and whoever makes them. In every run at most four
      advances go through on a deployment, and as many inconclusive records as its retry count says, which
      exceeds the budget by one at most. They and the promotes and rollbacks of a running deployment are at
      most max_inconclusive_retries + 5, and with that many it is decided or frozen. */
  lemma EveryRolloutEnds(settings: Settings, steps: seq<Step>, id: DeploymentId)
    requires id in Exec(Init(settings), steps).db.deployments
    ensures var d := Exec(Init(settings), steps).db.deployments[id];
            var bound := d.policy.maxInconclusiveRetries + 5;
            var advances := CommitCount(Init(settings), steps, id, Advance);
            var records := CommitCount(Init(settings), steps, id, RecordInconclusive);
            && advances <= 4
            && records == d.retryCount <= d.policy.maxInconclusiveRetries + 1
            && advances + records <= MoveCount(Init(settings), steps, id) <= bound
            && (MoveCount(Init(settings), steps, id) == bound ==>
                  d.status == Promoted || d.status == RolledBack || d.status == Inconclusive)
  {
    MovesUseUpBudget(settings, steps, id);
    RampingMoves(settings, steps, id);
    AdvancesClimb(settings, steps, id);
    RetriesAreRecords(settings, steps, id);
  }

  // ---------------------------------------------------------------------------------------------
  // What is written

  /** One step up the ramp, in the tables: the least stage above the weight the canary had, the rest to
      stable, both weights in the log, and of the row only the version. */
  ghost predicate Advanced(db: Db, id: DeploymentId, db': Db) {
    && id in db.deployments && id in db'.deployments && id in db.allocations && id in db'.allocations
    && |db.allocations[id].targets| == 2
    && var (d, was) := (db.deployments[id], db.allocations[id].targets[1]);
    && was.version == d.canaryVersion
    && db'.deployments[id] == d.(versionId := d.versionId + 1)
    && exists stage :: LeastStageAbove(stage, was.weight)
         && db'.allocations[id].targets == [Target(d.stableVersion, 1.0 - stage), Target(d.canaryVersion, stage)]
         && EventsOf(db', id) == EventsOf(db, id) + [TrafficAdvanced(was.weight, stage)]
  }

  lemma AdvanceInTables(db: Db, id: DeploymentId, now: Time)
    requires Tracked(db, id) && Goes(db, id, Advance, now)
    ensures Advanced(db, id, Act(db, id, Advance, now))
  {
    var d := db.deployments[id];
    AdvanceMeaning(d, AllocationOf(db, id), GenerationOf(db, d.modelName), now);
    GoesIfAdmitted(db, id, Advance, now);
    TrackedWeight(db, id);
  }

  lemma TrackedWeight(db: Db, id: DeploymentId)
    requires Tracked(db, id) && db.deployments[id].status == CanaryRunning
    ensures var targets := db.allocations[id].targets;
            && |targets| == 2 && targets[1].version == db.deployments[id].canaryVersion
            && CanaryWeight(AllocationOf(db, id), db.deployments[id].canaryVersion) == targets[1].weight
  {
    CanaryWeightMeaning(AllocationOf(db, id), db.deployments[id].canaryVersion);
  }

  /** Every advance that goes through, in every run, writes the next stage of the ramp: 10, 25, 50 or 100
      percent, the first of them above what the canary had. */
  lemma CommittedAdvance(settings: Settings, steps: seq<Step>, sid: SessionId)
    requires var s := Exec(Init(settings), steps); Commits(s, sid) && s.sessions[sid].action == Advance
    ensures var s := Exec(Init(settings), steps);
            Advanced(s.db, s.sessions[sid].id, Next(s, CommitAction(sid)).db)
  {
    var s := Exec(Init(settings), steps);
    var x := s.sessions[sid];
    RunsKeepInv(settings, steps);
    CommitIsAct(s, sid);
    TrackedInInv(s, x.id);
    AdvanceInTables(s.db, x.id, x.now.value);
  }

  /** Every creation that goes through, in every run, creates what its request asks for. */
  lemma CommittedCreation(settings: Settings, steps: seq<Step>, sid: SessionId, id: DeploymentId)
    requires var s := Exec(Init(settings), steps);
             id !in s.db.deployments && id in Next(s, CommitCreate(sid, id)).db.deployments
    ensures var s := Exec(Init(settings), steps);
            && sid in s.sessions && s.sessions[sid].Creating?
            && CreatedFrom(s.db, id, s.sessions[sid].request, s.clock, Next(s, CommitCreate(sid, id)).db)
  {
    var s := Exec(Init(settings), steps);
    RowChangesByWinning(s, CommitCreate(sid, id), id);
    InsertMeaning(s.db, id, s.sessions[sid].request, s.clock);
  }

  // ---------------------------------------------------------------------------------------------
  // Requests that were decided on an old read

  /** What the row must say, at the moment of the commit, for the action to go through. */
  predicate Admits(row: Deployment, allocation: Option<Allocation>, action: Action) {
    match action
    case Promote | Rollback => row.status == CanaryRunning || row.status == Inconclusive
    case Advance => row.status == CanaryRunning && !AtFullTraffic(allocation, row.canaryVersion)
    case RecordInconclusive => row.status == CanaryRunning
    case Pause => (row.status == CanaryRunning || row.status == Inconclusive) && !row.paused
    case Resume => (row.status == CanaryRunning || row.status == Inconclusive) && row.paused
  }

  lemma GoesIfAdmitted(db: Db, id: DeploymentId, action: Action, now: Time)
    requires Tracked(db, id)
    ensures Goes(db, id, action, now) <==> Admits(db.deployments[id], AllocationOf(db, id), action)
  {
    var row := db.deployments[id];
    ConcludeMeaning(Promote, row, AllocationOf(db, id), GenerationOf(db, row.modelName), now);
    ConcludeMeaning(Rollback, row, AllocationOf(db, id), GenerationOf(db, row.modelName), now);
    InconclusiveMeaning(row, now);
    WorkerAgreesWithService(AllocationOf(db, id), row.canaryVersion);
  }

  /** A session whose row is current plans what a request made at this moment would. */
  lemma CurrentSessionPlans(s: State, sid: SessionId)
    requires Inv(s) && ReadyToCommit(s, sid) && StillCurrent(s.db, s.sessions[sid].id, s.sessions[sid].row)
    ensures var x := s.sessions[sid];
            && x.row == s.db.deployments[x.id]
            && (x.row.status.IsTerminal() ==> !PlanOf(x).Write? && !Goes(s.db, x.id, x.action, x.now.value))
            && (!x.row.status.IsTerminal() ==> (PlanOf(x).Write? <==> Goes(s.db, x.id, x.action, x.now.value)))
  {
    var x := s.sessions[sid];
    assert SessionOk(s.db, s.clock, x);
    TrackedInInv(s, x.id);
    if x.row.status.IsTerminal() {
      GoesIfAdmitted(s.db, x.id, x.action, x.now.value);
      ConcludeMeaning(Promote, x.row, x.allocation.value, x.generation.value, x.now.value);
      ConcludeMeaning(Rollback, x.row, x.allocation.value, x.generation.value, x.now.value);
    }
  }

  /** Which requests go through, however long ago they were decided on: in every run a session's commit goes
      through exactly if no other write came between its load of the row and its commit, and the row admits
      the action. Promote and rollback are admitted on a frozen deployment too. */
  lemma LateActionGoesThrough(settings: Settings, steps: seq<Step>, sid: SessionId)
    requires ReadyToCommit(Exec(Init(settings), steps), sid)
    ensures var s := Exec(Init(settings), steps);
            var x := s.sessions[sid];
            Commits(s, sid) <==>
            && x.id in s.db.deployments && s.db.deployments[x.id].versionId == x.row.versionId
            && Admits(s.db.deployments[x.id], AllocationOf(s.db, x.id), x.action)
  {
    var s := Exec(Init(settings), steps);
    var x := s.sessions[sid];
    RunsKeepInv(settings, steps);
    if StillCurrent(s.db, x.id, x.row) {
      TrackedInInv(s, x.id);
      CurrentSessionPlans(s, sid);
      GoesIfAdmitted(s.db, x.id, x.action, x.now.value);
    }
  }

  /** Decided, or at full traffic. */
  ghost predicate FullOrDecided(db: Db, id: DeploymentId) {
    && id in db.deployments
    && (db.deployments[id].status.IsTerminal() || AtFullTraffic(AllocationOf(db, id), db.deployments[id].canaryVersion))
  }

  lemma ActKeepsFull(db: Db, id: DeploymentId, action: Action, now: Time)
    requires Tracked(db, id) && FullOrDecided(db, id)
    ensures FullOrDecided(Act(db, id, action, now), id)
  {
    var row := db.deployments[id];
    GoesIfAdmitted(db, id, action, now);
    ConcludeMeaning(Promote, row, AllocationOf(db, id), GenerationOf(db, row.modelName), now);
    ConcludeMeaning(Rollback, row, AllocationOf(db, id), GenerationOf(db, row.modelName), now);
    InconclusiveMeaning(row, now);
  }

  lemma {:induction false} FullStays(s: State, steps: seq<Step>, id: DeploymentId)
    requires Inv(s) && FullOrDecided(s.db, id)
    ensures FullOrDecided(Exec(s, steps).db, id)
  {
    if steps != [] {
      var before, step := steps[..|steps| - 1], steps[|steps| - 1];
      FullStays(s, before, id);
      ExecKeepsInv(s, before);
      FullStep(Exec(s, before), step, id);
    }
  }

  lemma FullStep(s: State, step: Step, id: DeploymentId)
    requires Inv(s) && FullOrDecided(s.db, id)
    ensures FullOrDecided(Next(s, step).db, id)
  {
    RowChangesByWinning(s, step, id);
    if Wins(s, step, id) {
      var x := s.sessions[step.sid];
      CommitIsAct(s, step.sid);
      TrackedInInv(s, id);
      ActKeepsFull(s.db, id, x.action, x.now.value);
    }
  }

  /** No promotion is premature, however old the read behind it: a deployment that was at full traffic
      once still is, in every later state in which it is undecided, running or frozen. A promote decided
      on the old read therefore finds the canary at full traffic when it goes through. */
  lemma FullTrafficStays(settings: Settings, past: seq<Step>, more: seq<Step>, id: DeploymentId)
    requires var db := Exec(Init(settings), past).db;
             && id in db.deployments && db.deployments[id].status == CanaryRunning
             && AtFullTraffic(AllocationOf(db, id), db.deployments[id].canaryVersion)
    ensures var s := Exec(Init(settings), past + more);
            && id in s.db.deployments
            && (s.db.deployments[id].status.InFlight() ==>
                  AtFullTraffic(AllocationOf(s.db, id), s.db.deployments[id].canaryVersion))
            && forall sid | Commits(s, sid) && s.sessions[sid].id == id && s.sessions[sid].action == Promote ::
                 AtFullTraffic(AllocationOf(s.db, id), s.db.deployments[id].canaryVersion)
  {
    var s := Exec(Init(settings), past + more);
    RunsKeepInv(settings, past);
    RunsKeepInv(settings, past + more);
    ExecAppend(Init(settings), past, more);
    FullStays(Exec(Init(settings), past), more, id);
    forall sid | Commits(s, sid) && s.sessions[sid].id == id ensures !s.db.deployments[id].status.IsTerminal() {
      CommitSeesTheDatabase(s, sid);
    }
  }
}
