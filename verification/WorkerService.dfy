/** backend/app/worker/loop.py in its own form: a sweep that reconciles the router, lists the active
    deployments without a hold, and gives each its evaluation and its action when one is due. Before every
    call it makes time passes and others act, and every call may be lost, or its answer. */
module WorkerService {
  import opened Prelude
  import opened Models
  import opened Weights
  import opened Rollout
  import opened Routing
  import opened Service
  import opened Reconcile
  import opened RouterService
  import opened WorkerRuns
  import opened Sweeps
  import opened Verdicts
  import LabelService
  import Spacing

  class Worker {
    const database: Database
    const gateway: RouterGateway
    const evidence: LabelService.EvidenceStore
    var evaluations: Evaluations
    var now: Time
    var calls: Link

    constructor (database: Database, gateway: RouterGateway, evidence: LabelService.EvidenceStore, now: Time)
      ensures this.database == database && this.gateway == gateway && this.evidence == evidence
      ensures evaluations == map[] && this.now == now
    {
      this.database, this.gateway, this.evidence := database, gateway, evidence;
      evaluations, this.now, calls := map[], now, Up;
    }

    ghost function World(): Moment
      reads this, database, evidence
    {
      Moment(now, calls, database.Contents(), evaluations, evidence.metrics, evidence.labels)
    }

    /** Time passes; other requests commit, operators evaluate by hand, evidence arrives, the link to the
        control plane comes or goes. */
    method Elapse()
      requires evidence.Valid()
      modifies this, database, evidence
      ensures evidence.Valid() && Passes(old(World()), World())
    {
      database.Elapse({});
      evidence.Elapse();
    }

    method TakeTime()
      modifies this`now
      ensures now >= old(now)
    {
    }

    /** POST /evaluate: refused unless the deployment is active; its rows are the due-ness memory. */
    method Evaluate(id: DeploymentId) returns (verdict: Result<Option<Verdict>, CallError>, ghost recorded: bool)
      requires id in database.deployments
      modifies this`evaluations, this`now
      ensures recorded <==> calls != RequestLost && database.deployments[id].status.IsActive()
      ensures now >= old(now)
      ensures World() == if recorded then EvaluatedAt(old(World()), id, now) else old(World())
      ensures calls != Up ==> verdict == Failure(CallFailed)
      ensures calls == Up ==>
                verdict == Success(if recorded
                                   then Some(VerdictAt(evidence.metrics, evidence.labels, id, database.deployments[id],
                                                       old(now)))
                                   else None)
    {
      recorded := false;
      if calls == RequestLost {
        return Failure(CallFailed), false;
      }
      var answer: Option<Verdict> := None;
      if database.deployments[id].status.IsActive() {
        var start := now;
        answer := Some(VerdictAt(evidence.metrics, evidence.labels, id, database.deployments[id], start));
        TakeTime();
        evaluations := Evaluated(evaluations, id, start, now);
        recorded := true;
      }
      verdict := if calls == Up then Success(answer) else Failure(CallFailed);
    }

    /** The action endpoint: load, stage, commit, and announce what was committed. `met` is the moment of
        its commit, `committed` and `pushed` are those after it and at its push. */
    method Request(id: DeploymentId, action: Action)
      returns (done: Result<bool, CallError>, ghost went: bool, ghost met: Moment, ghost committed: Moment,
               ghost pushed: Moment, ghost sent: PushMoment)
      requires id in database.deployments && !IsHold(action) && evidence.Valid()
      modifies this, database, evidence, gateway`link, gateway.router.store
      ensures evidence.Valid()
      ensures ActionAt(old(World()), met, committed, pushed, sent, World(), gateway.router.settings, id, action, went)
      ensures done == if World().link == Up then Success(went) else Failure(CallFailed)
    {
      var session := new Session(database);
      var d := session.GetDeployment(id);
      Elapse();
      met := World();
      var accepted;
      accepted, committed, pushed, sent := PerformOn(session, d.value, action, old(World()));
      went := accepted;
      done := if calls == Up then Success(accepted) else Failure(CallFailed);
    }

    /** Stage and commit on a row that was loaded a while ago, and announce what was committed. */
    method PerformOn(session: Session, d: DeploymentObject, action: Action, ghost loaded: Moment)
      returns (went: bool, ghost committed: Moment, ghost pushed: Moment, ghost sent: PushMoment)
      requires session.database == database && session.Pending(d) == Draft(d.Row(), None, []) && !IsHold(action)
      requires d.id in loaded.db.deployments && loaded.db.deployments[d.id] == d.Row() && Passes(loaded, World())
      modifies session, d, database, gateway`link, gateway.router.store
      ensures ActionAt(loaded, old(World()), committed, pushed, sent, World(), gateway.router.settings, d.id, action,
                       went)
    {
      var outcome;
      ghost var met := World();
      sent := PushMoment(met.db, gateway.router.store.config, gateway.link);
      LoadedBefore(loaded, met, d.id, action);
      if action == RecordInconclusive {
        outcome := session.Perform(d, action, now);
      } else {
        outcome, sent := session.PerformAndPush(gateway, d, action, now);
      }
      went := outcome.Accepted?;
      committed := if went then ActedAt(met, d.id, action) else met;
      if went && action != RecordInconclusive {
        pushed := committed.(db := sent.db);
        PushedAt(loaded, met, pushed, d.id, action, gateway.router.settings, sent, database.Contents(),
                 gateway.router.store.config);
      } else {
        pushed := committed;
      }
    }

    /** `process_deployment`. `c` is what its calls met; a refused action is no action, and a failed call
        raises. */
    method ProcessDeployment(id: DeploymentId) returns (acted: Result<Option<Action>, CallError>, ghost c: Cycle)
      requires id in database.deployments && evidence.Valid()
      modifies this, database, evidence, gateway`link, gateway.router.store
      ensures evidence.Valid() && c.id == id && CycleOk(c) && c.settings == gateway.router.settings
      ensures Passes(old(World()), c.read) && c.after == World() && acted == AnswerOf(c)
    {
      Elapse();
      c := StandingStill(id, World(), PushMoment(database.Contents(), gateway.router.store.config, gateway.link),
                         gateway.router.settings);
      if calls != Up {
        StopsRead(c);
        c := c.(end := Broken(false));
        return Failure(CallFailed), c;
      }
      var row := database.deployments[id];
      var full := AtFullTraffic(AllocationOf(database.Contents(), id), row.canaryVersion);
      if !row.status.IsActive() {
        StopsRead(c);
        return Success(None), c;
      }
      Elapse();
      c := c.(checked := World(), after := World());
      if calls != Up {
        StopsChecked(c);
        c := c.(end := Broken(false));
        return Failure(CallFailed), c;
      }
      Spacing.DueMeaning(EvaluationsOf(evaluations, id), row.policy.evaluationWindowSeconds, now);
      if !Spacing.IsDue(EvaluationsOf(evaluations, id), row.policy.evaluationWindowSeconds, now) {
        StopsChecked(c);
        return Success(None), c;
      }
      acted, c := EvaluateAndAct(id, full, c);
    }

    /** The rest of a cycle that is due. */
    method EvaluateAndAct(id: DeploymentId, full: bool, ghost due: Cycle)
      returns (acted: Result<Option<Action>, CallError>, ghost c: Cycle)
      requires id in database.deployments && evidence.Valid()
      requires due.id == id && due.checked == World() && GoesOn(due) && due.settings == gateway.router.settings
      requires full == AtFullTraffic(AllocationOf(due.read.db, id), due.read.db.deployments[id].canaryVersion)
      modifies this, database, evidence, gateway`link, gateway.router.store
      ensures evidence.Valid() && c.id == id && c.read == due.read && c.settings == due.settings
      ensures CycleOk(c) && c.after == World() && acted == AnswerOf(c)
    {
      var verdict;
      verdict, c := EvaluateLater(id, due);
      if verdict.Failure? {
        return Failure(CallFailed), c;
      }
      if verdict.value.None? {
        return Success(None), c;
      }
      acted, c := ActAndClose(id, verdict.value.value, DecideAction(verdict.value.value, full), c);
    }

    /** The evaluation, on what others have left by then. Without a verdict the cycle is over. */
    method EvaluateLater(id: DeploymentId, ghost due: Cycle)
      returns (verdict: Result<Option<Verdict>, CallError>, ghost c: Cycle)
      requires id in database.deployments && evidence.Valid()
      requires due.id == id && due.checked == World() && GoesOn(due) && due.settings == gateway.router.settings
      modifies this, database, evidence
      ensures evidence.Valid() && c.id == id && c.read == due.read && c.settings == due.settings
      ensures id in database.deployments
      ensures verdict.Success? && verdict.value.Some? ==>
                && Judged(c) && c.asked.link == Up && c.evaluated == World()
                && verdict.value.value == VerdictAt(c.asked.metrics, c.asked.labels, id, c.asked.db.deployments[id],
                                                    c.asked.time)
      ensures verdict == Success(None) ==> CycleOk(c) && c.after == World() && c.end == EvaluateRefused
      ensures verdict.Failure? ==> CycleOk(c) && c.after == World() && c.end.Broken?
    {
      Elapse();
      c := due.(asked := World(), after := World(), end := EvaluateRefused);
      ghost var recorded;
      verdict, recorded := Evaluate(id);
      if !recorded {
        StopsAsked(c);
        c := if verdict.Failure? then c.(end := Broken(false)) else c;
      } else {
        c := c.(evaluated := World());
        if verdict.Failure? {
          StopsJudged(c);
          c := c.(after := World(), end := Broken(true));
        }
      }
    }

    /** The rest of a cycle that has its verdict. */
    method ActAndClose(id: DeploymentId, verdict: Verdict, action: Action, ghost judged: Cycle)
      returns (acted: Result<Option<Action>, CallError>, ghost c: Cycle)
      requires id in database.deployments && evidence.Valid() && !IsHold(action)
      requires judged.id == id && Judged(judged) && judged.asked.link == Up && judged.evaluated == World()
      requires Decides(judged, verdict, action) && judged.settings == gateway.router.settings
      modifies this, database, evidence, gateway`link, gateway.router.store
      ensures evidence.Valid() && c.id == id && c.read == judged.read && c.settings == judged.settings
      ensures CycleOk(c) && c.after == World() && acted == AnswerOf(c)
    {
      Elapse();
      ghost var loaded := World();
      if calls == RequestLost {
        StopsLoaded(judged, loaded);
        c := judged.(loaded := loaded, after := loaded, end := Broken(true));
        return Failure(CallFailed), c;
      }
      var done;
      ghost var went, met, committed, pushed, sent;
      done, went, met, committed, pushed, sent := Request(id, action);
      acted := if done.Failure? then Failure(CallFailed) else Success(if done.value then Some(action) else None);
      c := judged.(loaded := loaded, met := met, committed := committed, pushed := pushed, sent := sent,
                   after := World());
      StopsActed(c, verdict, action, went);
      c := c.(end := Acted(verdict, action, went));
    }

    /** The list a sweep works on: active, and not on hold at this moment. */
    method ActiveIds() returns (ids: set<DeploymentId>)
      ensures ids == SelectedIn(database.Contents())
    {
      ids := set id | id in database.deployments && Selected(database.deployments[id]);
    }

    /** The tick that opens a sweep, if its request gets through; whether the answer is heard is not the
        worker's concern. */
    method ReconcileFirst() returns (ghost tick: Option<TickRecord>)
      modifies database, gateway`link, gateway.router.store
      ensures Passes(old(World()), World())
      ensures tick.Some? <==> calls != RequestLost
      ensures tick.Some? ==>
                TickMade(old(database.Contents()), old(gateway.link), old(gateway.router.store.config),
                         gateway.router.settings, tick.value, database.Contents(), gateway.router.store.config)
    {
      PassesStill(World());
      tick := None;
      if calls != RequestLost {
        var _, made := ReconcileRouterState(database, gateway);
        tick := Some(made);
      }
    }

    /** `run_once`: reconcile, list, process one by one; a cycle that raises does not stop the sweep. `tick` is
        what the tick did, `after` the tables and the router then; `sweep` has the moment the list was made,
        and one cycle for each deployment on it. */
    method RunOnce()
      returns (done: Result<(), CallError>, ghost tick: Option<TickRecord>, ghost after: PushMoment, ghost sweep: Round)
      requires evidence.Valid()
      modifies this, database, evidence, gateway`link, gateway.router.store
      ensures tick.Some? <==> old(calls) != RequestLost
      ensures tick.Some? ==>
                TickMade(old(database.Contents()), old(gateway.link), old(gateway.router.store.config),
                         gateway.router.settings, tick.value, after.db, after.router)
      ensures Passes(old(World()).(db := after.db), sweep.listed)
      ensures evidence.Valid() && Passes(old(World()), sweep.listed) && SweepOk(sweep)
      ensures World() == LastMoment(sweep.listed, sweep.cycles)
      ensures done.Success? <==> sweep.listed.link == Up
    {
      tick := ReconcileFirst();
      after := PushMoment(database.Contents(), gateway.router.store.config, gateway.link);
      ghost var reconciled := World();
      Elapse();
      PassesTwice(old(World()), reconciled, World());
      ghost var listed: Moment, cycles: seq<Cycle> := World(), [];
      SweepBegins({}, listed);
      if calls != Up {
        done, sweep := Failure(CallFailed), Round(listed, cycles);
        return;
      }
      var ids := ActiveIds();
      var left := ids;
      SweepBegins(ids, listed);
      while left != {}
        invariant ids == SelectedIn(listed.db) && left <= ids && evidence.Valid()
        invariant SweepOf(ids - left, listed, cycles) && World() == LastMoment(listed, cycles)
        decreases left
      {
        var id :| id in left;
        RowsOfSweepRemain(ids - left, listed, cycles, id);
        var _, c := ProcessDeployment(id);
        SweepGoesOn(ids, left, listed, cycles, c);
        cycles := cycles + [c];
        left := left - {id};
      }
      assert ids - left == ids;
      done, sweep := Success(()), Round(listed, cycles);
    }

    /** `run_forever`, up to any number of sweeps, some of which may raise. Whatever calls fail and whatever
        others do, the worker's evaluations on record stay a window apart for every deployment. */
    method RunForever(count: nat) returns (ghost sweeps: seq<Round>)
      requires evidence.Valid()
      modifies this, database, evidence, gateway`link, gateway.router.store
      ensures evidence.Valid() && |sweeps| == count && LifeOf(old(World()), sweeps)
      ensures World() == EndOf(old(World()), sweeps)
      ensures Punctual(old(World())) ==>
                forall id | id in database.deployments ::
                  Paced(EvaluationsOf(evaluations, id), database.deployments[id].policy.evaluationWindowSeconds)
    {
      sweeps := [];
      for i := 0 to count
        invariant evidence.Valid() && |sweeps| == i && LifeOf(old(World()), sweeps)
        invariant World() == EndOf(old(World()), sweeps)
      {
        ghost var ended := World();
        PassesStill(ended);
        if i > 0 {
          Elapse();
        }
        ghost var awake := World();
        var _, _, _, sweep := RunOnce();
        PassesTwice(ended, awake, sweep.listed);
        LifeGoesOn(old(World()), sweeps, sweep);
        sweeps := sweeps + [sweep];
      }
      if Punctual(old(World())) {
        forall id | id in database.deployments
          ensures Paced(EvaluationsOf(evaluations, id), database.deployments[id].policy.evaluationWindowSeconds)
        {
          LifeIsPaced(old(World()), sweeps, id);
        }
      }
    }
  }

  /** A cycle in which nothing has happened yet. */
  function StandingStill(id: DeploymentId, m: Moment, sent: PushMoment, settings: Settings): (c: Cycle)
    requires id in m.db.deployments
    ensures c.id == id && c.read == c.checked == c.after == m && c.end == Skipped && Passes(c.read, c.checked)
    ensures c.settings == settings
  {
    PassesStill(m);
    Cycle(id, m, m, m, m, m, m, m, m, sent, m, settings, Skipped)
  }

  /** An action that went through and was announced. */
  lemma PushedAt(loaded: Moment, met: Moment, pushed: Moment, id: DeploymentId, action: Action, settings: Settings,
                 sent: PushMoment, after: Db, final: Config)
    requires id in loaded.db.deployments && Passes(loaded, met) && id in met.db.deployments
    requires action != RecordInconclusive && StillCurrent(met.db, id, loaded.db.deployments[id])
    requires Goes(met.db, id, action, met.time) && pushed == ActedAt(met, id, action).(db := sent.db)
    requires id in ActedAt(met, id, action).db.allocations
    requires var committed := ActedAt(met, id, action).db;
             Announced(committed, id, settings, sent,
                       PushOf(id, met.db.deployments[id].modelName, committed.allocations[id]), after, final)
    ensures ActionAt(loaded, met, ActedAt(met, id, action), pushed, sent, met.(db := after), settings, id, action, true)
  {
    assert ManuallyEvaluated(met.evaluations, met.evaluations, met.time, met.time);
  }

  /** A row loaded earlier is either as it was, and then the plan is what a request made now would have, or
      its version has moved, and then nothing is written. */
  lemma LoadedBefore(loaded: Moment, met: Moment, id: DeploymentId, action: Action)
    requires id in loaded.db.deployments && Passes(loaded, met) && !IsHold(action)
    ensures id in met.db.deployments
    ensures var row := loaded.db.deployments[id];
            var goes := Goes(met.db, id, action, met.time) && StillCurrent(met.db, id, row);
            var (outcome, after) := Answered(met.db, id, row, action, met.time);
            && (outcome.Accepted? <==> goes) && after == (if goes then Act(met.db, id, action, met.time) else met.db)
            && (goes ==> row.modelName == met.db.deployments[id].modelName)
  {
    assert Updated(loaded.db.deployments[id], met.db.deployments[id]);
  }
}
