/** The automated rollout: backend/app/worker/decide.py and what a run of worker cycles does to one
    deployment (backend/app/worker/loop.py, backend/app/control_plane/service.py). */
module WorkerRuns {
  import opened Models
  import opened Weights
  import opened Rollout
  import opened Routing
  import opened Invariant
  import Protocol
  import Steps

  /** `decide_action`. */
  function DecideAction(verdict: Verdict, canaryAtFullTraffic: bool): Action {
    match verdict
    case Fail => Rollback
    case NoVerdict => RecordInconclusive
    case Pass => if canaryAtFullTraffic then Promote else Advance
  }

  /** One request that meets no competitor. */
  function Act(db: Db, id: DeploymentId, action: Action, now: Time): Db {
    if id !in db.deployments then db
    else
      var row := db.deployments[id];
      var plan := PlanFor(action, row, AllocationOf(db, id), GenerationOf(db, row.modelName), now);
      if plan.Write? then Persist(db, id, plan.draft) else db
  }

  predicate IsHold(action: Action) {
    action == Pause || action == Resume
  }

  /** The request would go through. */
  predicate Goes(db: Db, id: DeploymentId, action: Action, now: Time)
    requires id in db.deployments
  {
    var row := db.deployments[id];
    PlanFor(action, row, AllocationOf(db, id), GenerationOf(db, row.modelName), now).Write?
  }

  /** What the worker does with a verdict on an active deployment. */
  function WorkerAct(db: Db, id: DeploymentId, verdict: Verdict, now: Time): Db {
    if id !in db.deployments || !db.deployments[id].status.IsActive() then db
    else
      var full := AtFullTraffic(AllocationOf(db, id), db.deployments[id].canaryVersion);
      Act(db, id, DecideAction(verdict, full), now)
  }

  /** A turn in the life of a rollout: a sweep of the worker that would see this verdict, or an
      operator setting the automation hold. */
  datatype Turn = Sweep(verdict: Verdict, now: Time) | Hold(paused: bool, now: Time)

  function TakeTurn(db: Db, id: DeploymentId, turn: Turn): Db {
    match turn
    case Hold(paused, now) => Act(db, id, if paused then Pause else Resume, now)
    case Sweep(verdict, now) =>
      if id in db.deployments && db.deployments[id].paused then db else WorkerAct(db, id, verdict, now)
  }

  function TakeTurns(db: Db, id: DeploymentId, turns: seq<Turn>): Db
    decreases |turns|
  {
    if turns == [] then db else TakeTurns(TakeTurn(db, id, turns[0]), id, turns[1..])
  }

  // ---------------------------------------------------------------------------------------------
  // The rollout without its rows: two counters and an ending

  datatype Ramp = Running(stages: nat, retries: nat) | Ended(status: Status)

  function RampStep(r: Ramp, verdict: Verdict): Ramp {
    match r
    case Ended(_) => r
    case Running(stages, retries) =>
      match verdict
      case Fail => Ended(RolledBack)
      case Pass => if stages == 0 then Ended(Promoted) else Running(stages - 1, retries)
      case NoVerdict => if retries == 0 then Ended(Inconclusive) else Running(stages, retries - 1)
  }

  function RampRun(r: Ramp, verdicts: seq<Verdict>): Ramp
    decreases |verdicts|
  {
    if verdicts == [] then r else RampRun(RampStep(r, verdicts[0]), verdicts[1..])
  }

  /** A deployment's position on the ramp: the stages above its canary weight, the inconclusive
      verdicts it can still afford. */
  ghost function RampOf(db: Db, id: DeploymentId): Ramp
    requires Tracked(db, id)
  {
    var d := db.deployments[id];
    if d.status == CanaryRunning then
      Running(StagesAbove(CanaryWeight(AllocationOf(db, id), d.canaryVersion)),
              d.policy.maxInconclusiveRetries - d.retryCount)
    else Ended(d.status)
  }

  /** The rows of `id` are as every reachable state has them. */
  ghost predicate Tracked(db: Db, id: DeploymentId) {
    && id in db.deployments && id in db.allocations
    && DeploymentOk(db.deployments[id], db.allocations[id].targets)
  }

  /** Whatever sessions, restarts and pushes came before, every deployment is tracked. */
  lemma ReachableIsTracked(settings: Settings, steps: seq<Protocol.Step>, id: DeploymentId)
    requires id in Protocol.Exec(Protocol.Init(settings), steps).db.deployments
    ensures Tracked(Protocol.Exec(Protocol.Init(settings), steps).db, id)
  {
    var s := Protocol.Exec(Protocol.Init(settings), steps);
    Steps.RunsKeepInv(settings, steps);
    assert RowOk(s.db, s.clock, id);
  }

  lemma AdvanceStep(db: Db, id: DeploymentId, now: Time)
    requires Tracked(db, id) && db.deployments[id].status == CanaryRunning
    requires NextStage(CanaryWeight(AllocationOf(db, id), db.deployments[id].canaryVersion)).Some?
    ensures var db' := Act(db, id, Advance, now);
            && Tracked(db', id)
            && RampOf(db', id) == RampStep(RampOf(db, id), Pass)
            && db'.deployments[id].paused == db.deployments[id].paused
  {
    var d := db.deployments[id];
    var weight := CanaryWeight(AllocationOf(db, id), d.canaryVersion);
    var next := NextStage(weight).value;
    NextStageMeaning(weight);
    SplitIsRoutable(d.stableVersion, d.canaryVersion, next);
    SplitIsConserved(next);
  }

  lemma ConcludeStep(db: Db, id: DeploymentId, action: Action, now: Time)
    requires Tracked(db, id) && db.deployments[id].status.InFlight()
    requires action == Promote || action == Rollback
    ensures var db' := Act(db, id, action, now);
            && Tracked(db', id)
            && RampOf(db', id) == Ended(if action == Promote then Promoted else RolledBack)
            && db'.deployments[id].paused == db.deployments[id].paused
  {
    var d := db.deployments[id];
    ConcludeMeaning(action, d, AllocationOf(db, id), GenerationOf(db, d.modelName), now);
  }

  lemma InconclusiveStep(db: Db, id: DeploymentId, now: Time)
    requires Tracked(db, id) && db.deployments[id].status == CanaryRunning
    ensures var db' := Act(db, id, RecordInconclusive, now);
            && Tracked(db', id)
            && RampOf(db', id) == RampStep(RampOf(db, id), NoVerdict)
            && db'.deployments[id].paused == db.deployments[id].paused
            && db'.allocations[id] == db.allocations[id]
  {
  }

  /** The worker's cycle, rows, plans, weights and all, is one step of the two counters. In
      particular the worker never asks for an advance that is refused, nor promotes early. */
  lemma WorkerActRefinesRamp(db: Db, id: DeploymentId, verdict: Verdict, now: Time)
    requires Tracked(db, id)
    ensures var db' := WorkerAct(db, id, verdict, now);
            && Tracked(db', id)
            && RampOf(db', id) == RampStep(RampOf(db, id), verdict)
            && db'.deployments[id].paused == db.deployments[id].paused
  {
    var d := db.deployments[id];
    if d.status == CanaryRunning {
      WorkerAgreesWithService(AllocationOf(db, id), d.canaryVersion);
      NextStageMeaning(CanaryWeight(AllocationOf(db, id), d.canaryVersion));
      match DecideAction(verdict, AtFullTraffic(AllocationOf(db, id), d.canaryVersion))
      case Promote => ConcludeStep(db, id, Promote, now);
      case Rollback => ConcludeStep(db, id, Rollback, now);
      case Advance => AdvanceStep(db, id, now);
      case RecordInconclusive => InconclusiveStep(db, id, now);
    }
  }

  lemma HoldIsNeutral(db: Db, id: DeploymentId, paused: bool, now: Time)
    requires Tracked(db, id)
    ensures var db' := Act(db, id, if paused then Pause else Resume, now);
            && Tracked(db', id)
            && RampOf(db', id) == RampOf(db, id)
            && (!db.deployments[id].status.IsTerminal() ==> db'.deployments[id].paused == paused)
            && (db.deployments[id].status.IsTerminal() ==> db' == db)
  {
  }

  /** The verdicts the worker acts on: those that do not fall into a hold. */
  function Heard(paused: bool, turns: seq<Turn>): seq<Verdict>
    decreases |turns|
  {
    if turns == [] then []
    else match turns[0]
      case Hold(p, _) => Heard(p, turns[1..])
      case Sweep(verdict, _) => (if paused then [] else [verdict]) + Heard(paused, turns[1..])
  }

  lemma {:induction false} EndedStays(r: Ramp, verdicts: seq<Verdict>)
    requires r.Ended?
    ensures RampRun(r, verdicts) == r
    decreases |verdicts|
  {
    if verdicts != [] {
      EndedStays(r, verdicts[1..]);
    }
  }

  /** Whole rollouts, with operators pausing and resuming at will: the deployment ends up where the
      two counters end up on the verdicts that were heard. */
  lemma {:induction false} RolloutRefinesRamp(db: Db, id: DeploymentId, turns: seq<Turn>)
    requires Tracked(db, id)
    ensures var db' := TakeTurns(db, id, turns);
            && Tracked(db', id)
            && RampOf(db', id) == RampRun(RampOf(db, id), Heard(db.deployments[id].paused, turns))
    decreases |turns|
  {
    if turns != [] {
      var d := db.deployments[id];
      var db' := TakeTurn(db, id, turns[0]);
      match turns[0] {
        case Hold(paused, now) => HoldIsNeutral(db, id, paused, now);
        case Sweep(verdict, now) =>
          if !d.paused {
            WorkerActRefinesRamp(db, id, verdict, now);
          }
      }
      RolloutRefinesRamp(db', id, turns[1..]);
      HeardTail(db, id, turns);
    }
  }

  /** What is heard from the second turn on, from where the first turn leaves the rows. */
  lemma HeardTail(db: Db, id: DeploymentId, turns: seq<Turn>)
    requires Tracked(db, id) && turns != []
    requires id in TakeTurn(db, id, turns[0]).deployments
    requires turns[0].Hold? && !db.deployments[id].status.IsTerminal() ==>
               TakeTurn(db, id, turns[0]).deployments[id].paused == turns[0].paused
    requires turns[0].Sweep? ==> TakeTurn(db, id, turns[0]).deployments[id].paused == db.deployments[id].paused
    ensures var d := db.deployments[id];
            var rest := Heard(TakeTurn(db, id, turns[0]).deployments[id].paused, turns[1..]);
            RampRun(RampOf(db, id), Heard(d.paused, turns)) ==
              if turns[0].Sweep? && !d.paused then RampRun(RampStep(RampOf(db, id), turns[0].verdict), rest)
              else RampRun(RampOf(db, id), rest)
  {
    var d := db.deployments[id];
    var rest := Heard(TakeTurn(db, id, turns[0]).deployments[id].paused, turns[1..]);
    if d.status.IsTerminal() {
      EndedStays(RampOf(db, id), rest);
      EndedStays(RampOf(db, id), Heard(d.paused, turns));
    } else if turns[0].Sweep? {
      assert !d.paused ==> Heard(d.paused, turns)[1..] == rest;
      assert [] + rest == rest;
    }
  }

  // ---------------------------------------------------------------------------------------------
  // The exact outcome, by counting

  function CountOf(v: Verdict, verdicts: seq<Verdict>): nat {
    if verdicts == [] then 0 else (if verdicts[0] == v then 1 else 0) + CountOf(v, verdicts[1..])
  }

  /** None of the verdicts ends a rollout with so many stages and retries left. */
  predicate Survives(stages: nat, retries: nat, verdicts: seq<Verdict>) {
    && Fail !in verdicts
    && CountOf(Pass, verdicts) <= stages
    && CountOf(NoVerdict, verdicts) <= retries
  }

  /** The k-th verdict ends the rollout: everything before it was survived, and it was one too many. */
  predicate EndsAt(stages: nat, retries: nat, verdicts: seq<Verdict>, k: nat, status: Status) {
    && k < |verdicts|
    && Survives(stages, retries, verdicts[..k])
    && match status
       case RolledBack => verdicts[k] == Fail
       case Promoted => verdicts[k] == Pass && CountOf(Pass, verdicts[..k]) == stages
       case Inconclusive => verdicts[k] == NoVerdict && CountOf(NoVerdict, verdicts[..k]) == retries
       case _ => false
  }

  /** After a step that ends nothing, the rest of the run is judged with the counters that remain. */
  lemma SurvivesCons(stages: nat, retries: nat, v: Verdict, verdicts: seq<Verdict>)
    requires RampStep(Running(stages, retries), v).Running?
    ensures var r := RampStep(Running(stages, retries), v);
            Survives(stages, retries, [v] + verdicts) <==> Survives(r.stages, r.retries, verdicts)
  {
  }

  lemma EndsAtCons(stages: nat, retries: nat, verdicts: seq<Verdict>, k: nat, status: Status)
    requires verdicts != [] && RampStep(Running(stages, retries), verdicts[0]).Running?
    ensures var r := RampStep(Running(stages, retries), verdicts[0]);
            EndsAt(stages, retries, verdicts, k + 1, status) <==> EndsAt(r.stages, r.retries, verdicts[1..], k, status)
    ensures !EndsAt(stages, retries, verdicts, 0, status)
  {
    if k + 1 < |verdicts| {
      var front := verdicts[1..][..k];
      assert verdicts[..k + 1] == [verdicts[0]] + front;
      assert ([verdicts[0]] + front)[1..] == front;
      SurvivesCons(stages, retries, verdicts[0], front);
    }
    assert verdicts[..0] == [];
  }

  /** The exact outcome of a run of verdicts: still running iff all of them are survived, with the
      counts used up; ended in `status` iff some verdict ends it there. */
  lemma {:induction false} ExactOutcome(stages: nat, retries: nat, verdicts: seq<Verdict>, status: Status)
    ensures var r := RampRun(Running(stages, retries), verdicts);
            && (r.Running? <==> Survives(stages, retries, verdicts))
            && (r.Running? ==> r == Running(stages - CountOf(Pass, verdicts), retries - CountOf(NoVerdict, verdicts)))
            && (r == Ended(status) <==> exists k :: EndsAt(stages, retries, verdicts, k, status))
    decreases |verdicts|
  {
    if verdicts != [] {
      var first := RampStep(Running(stages, retries), verdicts[0]);
      if first.Running? {
        ExactOutcome(first.stages, first.retries, verdicts[1..], status);
        assert verdicts == [verdicts[0]] + verdicts[1..];
        SurvivesCons(stages, retries, verdicts[0], verdicts[1..]);
        OutcomeLifts(stages, retries, verdicts, status);
      } else {
        EndedStays(first, verdicts[1..]);
        EndsAtOnce(stages, retries, verdicts, status);
      }
    }
  }

  lemma OutcomeLifts(stages: nat, retries: nat, verdicts: seq<Verdict>, status: Status)
    requires verdicts != [] && RampStep(Running(stages, retries), verdicts[0]).Running?
    ensures var r := RampStep(Running(stages, retries), verdicts[0]);
            (exists k :: EndsAt(stages, retries, verdicts, k, status))
            <==> (exists k :: EndsAt(r.stages, r.retries, verdicts[1..], k, status))
  {
    var r := RampStep(Running(stages, retries), verdicts[0]);
    if k: nat :| EndsAt(stages, retries, verdicts, k, status) {
      EndsAtCons(stages, retries, verdicts, 0, status);
      EndsAtCons(stages, retries, verdicts, k - 1, status);
      assert EndsAt(r.stages, r.retries, verdicts[1..], k - 1, status);
    }
    if k: nat :| EndsAt(r.stages, r.retries, verdicts[1..], k, status) {
      EndsAtCons(stages, retries, verdicts, k, status);
      assert EndsAt(stages, retries, verdicts, k + 1, status);
    }
  }

  lemma EndsAtOnce(stages: nat, retries: nat, verdicts: seq<Verdict>, status: Status)
    requires verdicts != [] && RampStep(Running(stages, retries), verdicts[0]).Ended?
    ensures !Survives(stages, retries, verdicts)
    ensures RampStep(Running(stages, retries), verdicts[0]) == Ended(status)
            <==> exists k :: EndsAt(stages, retries, verdicts, k, status)
  {
    assert verdicts[..0] == [];
    if RampStep(Running(stages, retries), verdicts[0]) == Ended(status) {
      assert EndsAt(stages, retries, verdicts, 0, status);
    }
    assert verdicts == [verdicts[0]] + verdicts[1..];
    forall k | 0 < k <= |verdicts| ensures !Survives(stages, retries, verdicts[..k]) {
      assert verdicts[..k] == [verdicts[0]] + verdicts[1..k];
      assert verdicts[..k][0] == verdicts[0];
    }
    assert verdicts[..|verdicts|] == verdicts;
  }

  lemma {:induction false} CountsAddUp(verdicts: seq<Verdict>)
    ensures Fail !in verdicts ==> |verdicts| == CountOf(Pass, verdicts) + CountOf(NoVerdict, verdicts)
  {
    if verdicts != [] {
      CountsAddUp(verdicts[1..]);
      assert verdicts == [verdicts[0]] + verdicts[1..];
    }
  }

  /** Every rollout ends: whatever the verdicts and the holds, after maxInconclusiveRetries + 5
      heard verdicts the deployment is promoted, rolled back or frozen. */
  lemma RolloutTerminates(db: Db, id: DeploymentId, turns: seq<Turn>)
    requires Tracked(db, id)
    requires |Heard(db.deployments[id].paused, turns)| >= db.deployments[id].policy.maxInconclusiveRetries + 5
    ensures id in TakeTurns(db, id, turns).deployments
    ensures var status := TakeTurns(db, id, turns).deployments[id].status;
            status == Promoted || status == RolledBack || status == Inconclusive
  {
    var heard := Heard(db.deployments[id].paused, turns);
    RolloutRefinesRamp(db, id, turns);
    match RampOf(db, id) {
      case Ended(_) => EndedStays(RampOf(db, id), heard);
      case Running(stages, retries) =>
        ExactOutcome(stages, retries, heard, Promoted);
        CountsAddUp(heard);
    }
  }

  /** Exactly when a rollout gets promoted, told from its rows and the verdicts alone: before some
      heard PASS nothing failed, the PASS verdicts before it used up exactly the stages above the
      starting weight, and the inconclusive ones stayed within the remaining budget. */
  lemma PromotedExactly(db: Db, id: DeploymentId, turns: seq<Turn>)
    requires Tracked(db, id) && db.deployments[id].status == CanaryRunning
    ensures id in TakeTurns(db, id, turns).deployments
    ensures var d := db.deployments[id];
            var heard := Heard(d.paused, turns);
            TakeTurns(db, id, turns).deployments[id].status == Promoted <==>
            exists k | 0 <= k < |heard| ::
              && heard[k] == Pass
              && Fail !in heard[..k]
              && CountOf(Pass, heard[..k]) == StagesAbove(CanaryWeight(AllocationOf(db, id), d.canaryVersion))
              && CountOf(NoVerdict, heard[..k]) + d.retryCount <= d.policy.maxInconclusiveRetries
  {
    var d := db.deployments[id];
    var heard := Heard(d.paused, turns);
    var ramp := RampOf(db, id);
    RolloutRefinesRamp(db, id, turns);
    ExactOutcome(ramp.stages, ramp.retries, heard, Promoted);
    PromotionSpelledOut(ramp.stages, ramp.retries, heard);
  }

  lemma PromotionSpelledOut(stages: nat, retries: nat, heard: seq<Verdict>)
    ensures (exists k :: EndsAt(stages, retries, heard, k, Promoted)) <==>
            (exists k | 0 <= k < |heard| ::
               && heard[k] == Pass
               && Fail !in heard[..k]
               && CountOf(Pass, heard[..k]) == stages
               && CountOf(NoVerdict, heard[..k]) <= retries)
  {
    if k: nat :| EndsAt(stages, retries, heard, k, Promoted) {
      assert heard[k] == Pass;
    }
    if k: nat :| k < |heard| && heard[k] == Pass && Fail !in heard[..k]
                 && CountOf(Pass, heard[..k]) == stages && CountOf(NoVerdict, heard[..k]) <= retries {
      assert EndsAt(stages, retries, heard, k, Promoted);
    }
  }
}
