/** What the worker's cycles and sweeps (backend/app/worker/loop.py) do: alone, and with time passing,
    evidence arriving and other requests acting between any two of their calls. */
module Sweeps {
  import opened Prelude
  import opened Models
  import opened Weights
  import opened Rollout
  import opened Reachability
  import opened Routing
  import opened RouterService
  import opened Service
  import opened Metrics
  import opened WorkerRuns
  import opened Verdicts
  import Spacing

  type Evaluations = map<DeploymentId, seq<Spacing.Evaluation>>

  function EvaluationsOf(evaluations: Evaluations, id: DeploymentId): seq<Spacing.Evaluation> {
    if id in evaluations then evaluations[id] else []
  }

  function Evaluated(evaluations: Evaluations, id: DeploymentId, start: Time, finish: Time): Evaluations {
    evaluations[id := EvaluationsOf(evaluations, id) + [Spacing.Evaluation(start, finish, true)]]
  }

  // ---------------------------------------------------------------------------------------------
  // Moments

  /** What the worker's calls meet: the clock, the link to the control plane, the tables, the evaluations on
      record and the evidence. */
  datatype Moment = Moment(
    time: Time,
    link: Link,
    db: Db,
    evaluations: Evaluations,
    metrics: seq<MetricRow>,
    labels: seq<LabelRow>)

  /** Evaluations were added, by hand, in the time given. */
  ghost predicate Added(before: seq<Spacing.Evaluation>, after: seq<Spacing.Evaluation>, since: Time, until: Time) {
    && before <= after
    && forall i | |before| <= i < |after| ::
         !after[i].byWorker && since <= after[i].start <= after[i].finish <= until
  }

  ghost predicate ManuallyEvaluated(before: Evaluations, after: Evaluations, since: Time, until: Time) {
    forall id {:trigger EvaluationsOf(after, id)} ::
        Added(EvaluationsOf(before, id), EvaluationsOf(after, id), since, until)
  }

  /** Nothing happens, or time passes: requests commit, operators evaluate by hand, evidence arrives, and
      the link comes or goes. */
  ghost predicate Passes(a: Moment, b: Moment) {
    a == b || Elapsed(a, b)
  }

  ghost predicate Elapsed(a: Moment, b: Moment) {
    && a.time <= b.time && a.metrics <= b.metrics && a.labels <= b.labels
    && OthersActed(a.db, b.db, {})
    && ManuallyEvaluated(a.evaluations, b.evaluations, a.time, b.time)
  }

  lemma PassesStill(m: Moment)
    ensures Passes(m, m)
  {
  }

  lemma PassesTwice(a: Moment, b: Moment, c: Moment)
    requires Passes(a, b) && Passes(b, c)
    ensures Passes(a, c)
  {
    OthersTwice(a.db, b.db, c.db);
    forall id ensures Added(EvaluationsOf(a.evaluations, id), EvaluationsOf(c.evaluations, id), a.time, c.time) {
      var (x, y) := (EvaluationsOf(b.evaluations, id), EvaluationsOf(c.evaluations, id));
      assert Added(EvaluationsOf(a.evaluations, id), x, a.time, b.time) && Added(x, y, b.time, c.time);
    }
  }

  // ---------------------------------------------------------------------------------------------
  // Spacing of what is on record

  /** A deployment's evaluations lie in the past and those by the worker are a window apart. */
  ghost predicate PunctualFor(m: Moment, id: DeploymentId) {
    var record := EvaluationsOf(m.evaluations, id);
    && Spacing.Timely(record, m.time)
    && (id in m.db.deployments ==> Spacing.Spaced(record, m.db.deployments[id].policy.evaluationWindowSeconds))
    && (id !in m.db.deployments ==> forall i | 0 <= i < |record| :: !record[i].byWorker)
  }

  ghost predicate Punctual(m: Moment) {
    forall id {:trigger PunctualFor(m, id)} :: PunctualFor(m, id)
  }

  /** Evaluations by hand do not disturb the spacing of those by the worker. */
  lemma AddedStaysSpaced(before: seq<Spacing.Evaluation>, after: seq<Spacing.Evaluation>, since: Time, until: Time,
                         window: nat)
    requires Added(before, after, since, until) && Spacing.Timely(before, since) && since <= until
    ensures Spacing.Timely(after, until)
    ensures Spacing.Spaced(before, window) ==> Spacing.Spaced(after, window)
    ensures (forall i | 0 <= i < |before| :: !before[i].byWorker) ==> forall i | 0 <= i < |after| :: !after[i].byWorker
  {
    assert forall i | 0 <= i < |before| :: after[i] == before[i];
  }

  lemma PassingKeepsPunctual(a: Moment, b: Moment)
    requires Punctual(a) && Passes(a, b)
    ensures Punctual(b)
  {
    forall id ensures PunctualFor(b, id) {
      assert PunctualFor(a, id);
      AddedStaysSpaced(EvaluationsOf(a.evaluations, id), EvaluationsOf(b.evaluations, id), a.time, b.time,
                       if id in b.db.deployments then b.db.deployments[id].policy.evaluationWindowSeconds else 0);
    }
  }

  // ---------------------------------------------------------------------------------------------
  // A cycle

  /** An exception other than the refusal of an action. */
  datatype CallError = CallFailed

  /** How a cycle ends: not due; the evaluate call refused; an exception in one of its calls, before or
      after the evaluation was recorded; or the action carried out or refused. (If only the answer to the
      action was lost, the cycle has acted all the same.) */
  datatype CycleEnd =
    | Skipped
    | EvaluateRefused
    | Broken(evaluated: bool)
    | Acted(verdict: Verdict, action: Action, done: bool)

  /** One cycle of the worker, with the moments its calls met: GET deployment, GET evaluations, POST
      evaluate (asked, and evaluated when its rows are written), the action (its row loaded, then what its
      commit met, and committed), the push that follows (and the router and link it met), and the end. */
  datatype Cycle = Cycle(
    id: DeploymentId,
    read: Moment,
    checked: Moment,
    asked: Moment,
    evaluated: Moment,
    loaded: Moment,
    met: Moment,
    committed: Moment,
    pushed: Moment,
    sent: PushMoment,
    after: Moment,
    settings: Settings,
    end: CycleEnd)

  /** Due, by the row as it was at `rows` and the evaluations and the clock at `checked`: active, and every
      evaluation on record at least a window old. */
  ghost predicate DueAt(rows: Moment, checked: Moment, id: DeploymentId) {
    && id in rows.db.deployments
    && rows.db.deployments[id].status.IsActive()
    && Spacing.AllOld(EvaluationsOf(checked.evaluations, id), rows.db.deployments[id].policy.evaluationWindowSeconds,
                      checked.time)
  }

  ghost predicate WasDue(c: Cycle) {
    DueAt(c.read, c.checked, c.id)
  }

  predicate Evaluates(c: Cycle) {
    c.end == Broken(true) || c.end.Acted?
  }

  /** What the worker's own calls do to the moment they meet. */
  function EvaluatedAt(m: Moment, id: DeploymentId, finish: Time): Moment {
    m.(time := finish, evaluations := Evaluated(m.evaluations, id, m.time, finish))
  }

  function ActedAt(m: Moment, id: DeploymentId, action: Action): Moment {
    m.(db := Act(m.db, id, action, m.time))
  }

  function LoggedAt(m: Moment, id: DeploymentId, reachable: bool): Moment {
    m.(db := RecordReachability(m.db, id, reachable))
  }

  /** A cycle that has read and checked. */
  ghost predicate Checked(c: Cycle) {
    c.id in c.read.db.deployments && Passes(c.read, c.checked)
  }

  /** Both reads were answered, and the deployment is due. */
  ghost predicate GoesOn(c: Cycle) {
    Checked(c) && c.read.link == Up && c.checked.link == Up && WasDue(c)
  }

  ghost predicate Asks(c: Cycle) {
    Passes(c.checked, c.asked) && c.id in c.asked.db.deployments
  }

  ghost predicate EvaluationMade(c: Cycle) {
    && Asks(c) && c.asked.link != RequestLost && c.asked.db.deployments[c.id].status.IsActive()
    && c.asked.time <= c.evaluated.time && c.evaluated == EvaluatedAt(c.asked, c.id, c.evaluated.time)
  }

  /** The decision combines the verdict with the traffic as it was read. */
  predicate Decides(c: Cycle, verdict: Verdict, action: Action)
    requires c.id in c.read.db.deployments && c.id in c.asked.db.deployments
  {
    && verdict == VerdictAt(c.asked.metrics, c.asked.labels, c.id, c.asked.db.deployments[c.id], c.asked.time)
    && action == DecideAction(verdict, AtFullTraffic(AllocationOf(c.read.db, c.id),
                                                     c.read.db.deployments[c.id].canaryVersion))
  }

  /** The action is carried out on the tables its commit meets, unless they refuse it or another write has
      come between the load of the row and the commit. */
  ghost predicate ActionAt(loaded: Moment, met: Moment, committed: Moment, pushed: Moment, sent: PushMoment,
                           after: Moment, settings: Settings, id: DeploymentId, action: Action, done: bool) {
    && id in loaded.db.deployments && Passes(loaded, met) && id in met.db.deployments
    && (done <==> Goes(met.db, id, action, met.time) && StillCurrent(met.db, id, loaded.db.deployments[id]))
    && committed == (if done then ActedAt(met, id, action) else met)
    && (if done && action != RecordInconclusive
        then PushMade(committed, pushed, sent, after, settings, id, met.db.deployments[id].modelName)
        else after == pushed == committed)
  }

  ghost predicate ActionMade(c: Cycle, action: Action, done: bool) {
    && Passes(c.evaluated, c.loaded) && c.loaded.link != RequestLost
    && ActionAt(c.loaded, c.met, c.committed, c.pushed, c.sent, c.after, c.settings, c.id, action, done)
  }

  /** Others act between the commit and the push; the push of what was committed meets a router over a link,
      and whether it was answered, 409 included, is what goes on record. */
  ghost predicate PushMade(committed: Moment, pushed: Moment, sent: PushMoment, after: Moment, settings: Settings,
                           id: DeploymentId, m: ModelName) {
    && Passes(committed, pushed) && sent.db == pushed.db && id in committed.db.allocations
    && var push := PushOf(id, m, committed.db.allocations[id]);
    after == LoggedAt(pushed, id, sent.link == Up && Answer(settings, sent.router, push) != Rejected)
  }

  /** A due cycle that has its evaluation on record. */
  ghost predicate Judged(c: Cycle) {
    GoesOn(c) && EvaluationMade(c)
  }

  predicate WasActive(c: Cycle) {
    c.id in c.read.db.deployments && c.read.db.deployments[c.id].status.IsActive()
  }

  /** Not due: by the row alone, or by the evaluations as well. */
  ghost predicate NotDue(c: Cycle) {
    && Checked(c) && c.read.link == Up && !WasDue(c) && c.after == c.checked
    && (if WasActive(c) then c.checked.link == Up else c.checked == c.read)
  }

  /** The first, second or third call failed, and nothing was recorded. */
  ghost predicate BrokenEarly(c: Cycle) {
    && Checked(c)
    && (|| (c.read.link != Up && c.after == c.checked == c.read)
        || (c.read.link == Up && WasActive(c) && c.checked.link != Up && c.after == c.checked)
        || (GoesOn(c) && Asks(c) && c.after == c.asked
            && if c.asked.db.deployments[c.id].status.IsActive() then c.asked.link == RequestLost
               else c.asked.link != Up))
  }

  /** The answer to the evaluation, or the request for the action, was lost. */
  ghost predicate BrokenLate(c: Cycle) {
    && Judged(c)
    && (|| (c.asked.link == ResponseLost && c.after == c.evaluated)
        || (c.asked.link == Up && Passes(c.evaluated, c.loaded) && c.loaded.link == RequestLost
            && c.after == c.loaded))
  }

  /** Each call did what it does on what it met; the cycle went on only if it was due, and stopped only for
      a call that failed. */
  ghost predicate CycleOk(c: Cycle) {
    match c.end
    case Skipped => NotDue(c)
    case EvaluateRefused =>
      && GoesOn(c) && Asks(c) && c.asked.link == Up
      && !c.asked.db.deployments[c.id].status.IsActive() && c.after == c.asked
    case Broken(evaluated) => if evaluated then BrokenLate(c) else BrokenEarly(c)
    case Acted(verdict, action, done) =>
      Judged(c) && c.asked.link == Up && Decides(c, verdict, action) && ActionMade(c, action, done)
  }

  /** What a cycle returns or raises. */
  function AnswerOf(c: Cycle): Result<Option<Action>, CallError> {
    match c.end
    case Skipped => Success(None)
    case EvaluateRefused => Success(None)
    case Broken(_) => Failure(CallFailed)
    case Acted(_, action, done) =>
      if c.after.link == Up then Success(if done then Some(action) else None) else Failure(CallFailed)
  }

  /** What a cycle reports is true: it names an action exactly if its request wrote the row, once; it reports no
      action only if nothing was written; and it raises only if some call was not answered. */
  lemma ReportMeaning(c: Cycle)
    requires CycleOk(c)
    ensures match AnswerOf(c)
            case Success(Some(action)) =>
              && c.end.Acted? && c.end.action == action && c.id in c.met.db.deployments
              && c.id in c.committed.db.deployments
              && c.committed.db.deployments[c.id].versionId == c.met.db.deployments[c.id].versionId + 1
            case Success(None) => c.end.Acted? ==> c.committed.db == c.met.db && c.after == c.met
            case Failure(_) =>
              || c.read.link != Up || c.checked.link != Up || c.asked.link != Up || c.loaded.link != Up
              || c.after.link != Up
  {
    if c.end.Acted? && c.end.done {
      ActWritesOnce(c.met.db, c.id, c.end.action, c.met.time);
    }
  }

  lemma ActWritesOnce(db: Db, id: DeploymentId, action: Action, now: Time)
    requires id in db.deployments && Goes(db, id, action, now)
    ensures id in Act(db, id, action, now).deployments
    ensures Act(db, id, action, now).deployments[id].versionId == db.deployments[id].versionId + 1
  {
    var row := db.deployments[id];
    PlanKeepsIdentity(action, row, AllocationOf(db, id), GenerationOf(db, row.modelName), now);
  }

  lemma StopsRead(c: Cycle)
    requires Checked(c) && c.checked == c.read && (c.read.link == Up ==> !WasActive(c))
    ensures CycleOk(c.(after := c.read, end := if c.read.link == Up then Skipped else Broken(false)))
  {
  }

  lemma StopsChecked(c: Cycle)
    requires Checked(c) && c.read.link == Up && WasActive(c) && (c.checked.link == Up ==> !WasDue(c))
    ensures CycleOk(c.(after := c.checked, end := if c.checked.link == Up then Skipped else Broken(false)))
  {
  }

  lemma StopsAsked(c: Cycle)
    requires GoesOn(c) && Asks(c) && (c.asked.link == RequestLost || !c.asked.db.deployments[c.id].status.IsActive())
    ensures CycleOk(c.(after := c.asked, end := if c.asked.link == Up then EvaluateRefused else Broken(false)))
  {
  }

  lemma StopsJudged(c: Cycle)
    requires Judged(c) && c.asked.link == ResponseLost
    ensures CycleOk(c.(after := c.evaluated, end := Broken(true)))
  {
  }

  lemma StopsLoaded(c: Cycle, loaded: Moment)
    requires Judged(c) && c.asked.link == Up && Passes(c.evaluated, loaded) && loaded.link == RequestLost
    ensures CycleOk(c.(loaded := loaded, after := loaded, end := Broken(true)))
  {
  }

  lemma StopsActed(c: Cycle, verdict: Verdict, action: Action, done: bool)
    requires Judged(c) && c.asked.link == Up && Decides(c, verdict, action) && ActionMade(c, action, done)
    ensures CycleOk(c.(end := Acted(verdict, action, done)))
  {
  }

  // ---------------------------------------------------------------------------------------------
  // A cycle keeps the spacing

  /** The worker's evaluation is spaced although others evaluated between its check and its call. */
  lemma CheckedStaysSpaced(checked: seq<Spacing.Evaluation>, before: seq<Spacing.Evaluation>, window: nat,
                           since: Time, start: Time, finish: Time)
    requires Spacing.Timely(before, start) && Spacing.Spaced(before, window) && since <= start <= finish
    requires Spacing.AllOld(checked, window, since) && Added(checked, before, since, start)
    ensures var after := before + [Spacing.Evaluation(start, finish, true)];
            Spacing.Timely(after, finish) && Spacing.Spaced(after, window)
  {
    assert forall i | 0 <= i < |checked| :: before[i] == checked[i];
  }

  lemma EvaluationKeepsPunctual(c: Cycle)
    requires Judged(c) && Punctual(c.asked)
    ensures Punctual(c.evaluated)
  {
    forall o ensures PunctualFor(c.evaluated, o) {
      assert PunctualFor(c.asked, o);
      if o == c.id {
        assert Added(EvaluationsOf(c.checked.evaluations, o), EvaluationsOf(c.asked.evaluations, o), c.checked.time,
                     c.asked.time);
        CheckedStaysSpaced(EvaluationsOf(c.checked.evaluations, o), EvaluationsOf(c.asked.evaluations, o),
                           c.asked.db.deployments[o].policy.evaluationWindowSeconds,
                           c.checked.time, c.asked.time, c.evaluated.time);
      }
    }
  }

  /** An action keeps every deployment's identity, its policy included. */
  lemma ActKeepsPunctual(m: Moment, id: DeploymentId, action: Action)
    requires id in m.db.deployments && Punctual(m)
    ensures Punctual(ActedAt(m, id, action))
  {
    var row := m.db.deployments[id];
    PlanKeepsIdentity(action, row, AllocationOf(m.db, id), GenerationOf(m.db, row.modelName), m.time);
    forall o ensures PunctualFor(ActedAt(m, id, action), o) {
      assert PunctualFor(m, o);
    }
  }

  lemma LogKeepsPunctual(m: Moment, id: DeploymentId, reachable: bool)
    requires Punctual(m)
    ensures Punctual(LoggedAt(m, id, reachable))
  {
    forall o ensures PunctualFor(LoggedAt(m, id, reachable), o) {
      assert PunctualFor(m, o);
    }
  }

  lemma ActionKeepsPunctual(c: Cycle, action: Action, done: bool)
    requires Punctual(c.evaluated) && ActionMade(c, action, done)
    ensures Punctual(c.after)
  {
    PassingKeepsPunctual(c.evaluated, c.loaded);
    PassingKeepsPunctual(c.loaded, c.met);
    ActKeepsPunctual(c.met, c.id, action);
    if done && action != RecordInconclusive {
      PassingKeepsPunctual(c.committed, c.pushed);
      LogKeepsPunctual(c.pushed, c.id, true);
      LogKeepsPunctual(c.pushed, c.id, false);
    }
  }

  lemma CycleKeepsPunctual(c: Cycle)
    requires CycleOk(c) && Punctual(c.read)
    ensures Punctual(c.after)
  {
    PassingKeepsPunctual(c.read, c.checked);
    if c.end.EvaluateRefused? || Evaluates(c) || c.after == c.asked {
      if Asks(c) {
        PassingKeepsPunctual(c.checked, c.asked);
      }
    }
    if Evaluates(c) {
      EvaluationKeepsPunctual(c);
      if c.end.Acted? {
        ActionKeepsPunctual(c, c.end.action, c.end.done);
      } else if c.after == c.loaded && Passes(c.evaluated, c.loaded) {
        PassingKeepsPunctual(c.evaluated, c.loaded);
      }
    }
  }

  // ---------------------------------------------------------------------------------------------
  // What a cycle leaves alone

  ghost predicate SameRows(a: Db, b: Db, o: DeploymentId) {
    && (o in a.deployments <==> o in b.deployments)
    && (o in a.deployments ==> b.deployments[o] == a.deployments[o])
    && AllocationOf(b, o) == AllocationOf(a, o) && EventsOf(b, o) == EventsOf(a, o)
  }

  /** None of the cycle's own writes (evaluation, action, entry about the push) is about `o`. */
  ghost predicate LeavesAlone(c: Cycle, o: DeploymentId) {
    && (Evaluates(c) ==> EvaluationsOf(c.evaluated.evaluations, o) == EvaluationsOf(c.asked.evaluations, o))
    && (c.end.Acted? ==> SameRows(c.met.db, c.committed.db, o) && SameRows(c.pushed.db, c.after.db, o))
  }

  lemma ActTouchesOnlyItsOwn(m: Moment, id: DeploymentId, action: Action, o: DeploymentId)
    requires o != id
    ensures SameRows(m.db, ActedAt(m, id, action).db, o)
  {
  }

  lemma LogTouchesOnlyItsOwn(m: Moment, id: DeploymentId, reachable: bool, o: DeploymentId)
    requires o != id
    ensures SameRows(m.db, LoggedAt(m, id, reachable).db, o)
  {
  }

  lemma EvaluationTouchesOnlyItsOwn(c: Cycle, o: DeploymentId)
    requires EvaluationMade(c) && o != c.id
    ensures EvaluationsOf(c.evaluated.evaluations, o) == EvaluationsOf(c.asked.evaluations, o)
  {
  }

  lemma ActionTouchesOnlyItsOwn(c: Cycle, action: Action, done: bool, o: DeploymentId)
    requires ActionMade(c, action, done) && o != c.id
    ensures SameRows(c.met.db, c.committed.db, o) && SameRows(c.pushed.db, c.after.db, o)
  {
    ActTouchesOnlyItsOwn(c.met, c.id, action, o);
    LogTouchesOnlyItsOwn(c.pushed, c.id, true, o);
    LogTouchesOnlyItsOwn(c.pushed, c.id, false, o);
  }

  /** A cycle writes to its own deployment's row, split, log and evaluations, and to no other's. */
  lemma CycleTouchesOnlyItsOwn(c: Cycle, o: DeploymentId)
    requires CycleOk(c) && o != c.id
    ensures LeavesAlone(c, o)
  {
    if Evaluates(c) {
      EvaluationTouchesOnlyItsOwn(c, o);
    }
    if c.end.Acted? {
      ActionTouchesOnlyItsOwn(c, c.end.action, c.end.done, o);
    }
  }

  /** No deployment disappears during a cycle. */
  lemma CycleKeepsRows(c: Cycle)
    requires CycleOk(c)
    ensures c.read.db.deployments.Keys <= c.after.db.deployments.Keys
    ensures c.end.Acted? ==> c.read.db.deployments.Keys <= c.met.db.deployments.Keys
  {
    RowsPass(c.read, c.checked);
    if Asks(c) {
      RowsPass(c.checked, c.asked);
    }
    if c.end.Acted? {
      ActionKeepsRows(c, c.end.action, c.end.done);
    } else if Passes(c.evaluated, c.loaded) {
      RowsPass(c.evaluated, c.loaded);
    }
  }

  lemma RowsPass(a: Moment, b: Moment)
    requires Passes(a, b)
    ensures a.db.deployments.Keys <= b.db.deployments.Keys
  {
  }

  lemma ActionKeepsRows(c: Cycle, action: Action, done: bool)
    requires ActionMade(c, action, done)
    ensures c.evaluated.db.deployments.Keys <= c.met.db.deployments.Keys <= c.after.db.deployments.Keys
  {
    RowsPass(c.evaluated, c.loaded);
    RowsPass(c.loaded, c.met);
    if done && action != RecordInconclusive {
      RowsPass(c.committed, c.pushed);
    }
  }

  // ---------------------------------------------------------------------------------------------
  // A sweep

  predicate Selected(row: Deployment) {
    row.status.IsActive() && !row.paused
  }

  function SelectedIn(db: Db): set<DeploymentId> {
    set id | id in db.deployments && Selected(db.deployments[id])
  }

  ghost function LastMoment(listed: Moment, cycles: seq<Cycle>): Moment {
    if cycles == [] then listed else cycles[|cycles| - 1].after
  }

  /** Cycle i takes over where the one before it stopped, others having acted in between. */
  ghost predicate Follows(listed: Moment, cycles: seq<Cycle>, i: nat)
    requires i < |cycles|
  {
    Passes(LastMoment(listed, cycles[..i]), cycles[i].read)
  }

  ghost function IdsOf(cycles: seq<Cycle>): set<DeploymentId> {
    set i | 0 <= i < |cycles| :: cycles[i].id
  }

  ghost predicate DifferentIds(cycles: seq<Cycle>) {
    forall i, j | 0 <= i < j < |cycles| :: cycles[i].id != cycles[j].id
  }

  /** A sweep is one cycle for each deployment in `ids`, one after the other. */
  ghost predicate SweepOf(ids: set<DeploymentId>, listed: Moment, cycles: seq<Cycle>) {
    && IdsOf(cycles) == ids && DifferentIds(cycles)
    && (forall i {:trigger Follows(listed, cycles, i)} | 0 <= i < |cycles| :: Follows(listed, cycles, i))
    && (forall i {:trigger CycleOk(cycles[i])} | 0 <= i < |cycles| :: CycleOk(cycles[i]))
  }

  lemma SweepExtends(ids: set<DeploymentId>, listed: Moment, cycles: seq<Cycle>, c: Cycle)
    requires SweepOf(ids, listed, cycles) && c.id !in ids && CycleOk(c) && Passes(LastMoment(listed, cycles), c.read)
    ensures SweepOf(ids + {c.id}, listed, cycles + [c])
    ensures LastMoment(listed, cycles + [c]) == c.after
  {
    var more := cycles + [c];
    forall i | 0 <= i < |more| ensures Follows(listed, more, i) && CycleOk(more[i]) {
      if i < |cycles| {
        assert Follows(listed, cycles, i) && CycleOk(cycles[i]);
        FollowsStill(listed, cycles, i, c);
      } else {
        assert more[..|cycles|] == cycles;
      }
    }
    IdsSnoc(cycles, c);
    IdsDiffer(cycles, c);
  }

  lemma FollowsStill(listed: Moment, cycles: seq<Cycle>, i: nat, c: Cycle)
    requires i < |cycles| && Follows(listed, cycles, i)
    ensures Follows(listed, cycles + [c], i)
  {
    assert (cycles + [c])[..i] == cycles[..i] && (cycles + [c])[i] == cycles[i];
  }

  lemma IdsDiffer(cycles: seq<Cycle>, c: Cycle)
    requires DifferentIds(cycles) && c.id !in IdsOf(cycles)
    ensures DifferentIds(cycles + [c])
  {
    forall i | 0 <= i < |cycles| ensures cycles[i].id != c.id {
      assert cycles[i].id in IdsOf(cycles);
    }
  }

  lemma IdsSnoc(cycles: seq<Cycle>, c: Cycle)
    ensures IdsOf(cycles + [c]) == IdsOf(cycles) + {c.id}
  {
    var more := cycles + [c];
    assert more[|cycles|] == c;
    forall id | id in IdsOf(cycles) ensures id in IdsOf(more) {
      var i :| 0 <= i < |cycles| && cycles[i].id == id;
      assert more[i].id == id;
    }
  }

  lemma OneLess(ids: set<DeploymentId>, left: set<DeploymentId>, id: DeploymentId)
    requires left <= ids && id in left
    ensures ids - (left - {id}) == ids - left + {id}
  {
  }

  /** Cycle i of a sweep, and the moment it takes over. */
  lemma CycleOfSweep(ids: set<DeploymentId>, listed: Moment, cycles: seq<Cycle>, i: nat)
    requires SweepOf(ids, listed, cycles) && i < |cycles|
    ensures CycleOk(cycles[i]) && Passes(LastMoment(listed, cycles[..i]), cycles[i].read) && cycles[i].id in ids
    ensures LastMoment(listed, cycles[..i + 1]) == cycles[i].after
  {
    assert Follows(listed, cycles, i) && cycles[i].id in IdsOf(cycles);
  }

  lemma CyclesKeepRows(ids: set<DeploymentId>, listed: Moment, cycles: seq<Cycle>, i: nat)
    requires SweepOf(ids, listed, cycles) && i < |cycles|
    ensures LastMoment(listed, cycles[..i]).db.deployments.Keys
         <= LastMoment(listed, cycles[..i + 1]).db.deployments.Keys
  {
    CycleOfSweep(ids, listed, cycles, i);
    RowsPass(LastMoment(listed, cycles[..i]), cycles[i].read);
    CycleKeepsRows(cycles[i]);
  }

  lemma CyclesKeepPunctual(ids: set<DeploymentId>, listed: Moment, cycles: seq<Cycle>, i: nat)
    requires SweepOf(ids, listed, cycles) && i < |cycles| && Punctual(LastMoment(listed, cycles[..i]))
    ensures Punctual(LastMoment(listed, cycles[..i + 1]))
  {
    CycleOfSweep(ids, listed, cycles, i);
    PassingKeepsPunctual(LastMoment(listed, cycles[..i]), cycles[i].read);
    CycleKeepsPunctual(cycles[i]);
  }

  lemma {:induction false} SweepKeepsPunctual(ids: set<DeploymentId>, listed: Moment, cycles: seq<Cycle>, n: nat)
    requires SweepOf(ids, listed, cycles) && Punctual(listed) && n <= |cycles|
    ensures Punctual(LastMoment(listed, cycles[..n]))
  {
    if n > 0 {
      SweepKeepsPunctual(ids, listed, cycles, n - 1);
      CyclesKeepPunctual(ids, listed, cycles, n - 1);
    }
  }

  lemma {:induction false} RowsRemain(ids: set<DeploymentId>, listed: Moment, cycles: seq<Cycle>, n: nat)
    requires SweepOf(ids, listed, cycles) && n <= |cycles|
    ensures listed.db.deployments.Keys <= LastMoment(listed, cycles[..n]).db.deployments.Keys
  {
    if n > 0 {
      RowsRemain(ids, listed, cycles, n - 1);
      CyclesKeepRows(ids, listed, cycles, n - 1);
    }
  }

  /** A deployment that was on hold or inactive when the list was made is touched by no cycle: it is there
      all the time, and none of the sweep's own writes is about it. */
  lemma HeldMeansUntouched(listed: Moment, cycles: seq<Cycle>, o: DeploymentId, i: nat)
    requires SweepOf(SelectedIn(listed.db), listed, cycles) && i < |cycles|
    requires o in listed.db.deployments
    requires var d := listed.db.deployments[o]; d.paused || (d.status != CanaryRunning && d.status != Evaluating)
    ensures LeavesAlone(cycles[i], o)
    ensures o in cycles[i].read.db.deployments && o in cycles[i].after.db.deployments
    ensures cycles[i].end.Acted? ==> o in cycles[i].met.db.deployments
  {
    CycleOfSweep(SelectedIn(listed.db), listed, cycles, i);
    RowsRemain(SelectedIn(listed.db), listed, cycles, i);
    RowsPass(LastMoment(listed, cycles[..i]), cycles[i].read);
    CycleKeepsRows(cycles[i]);
    CycleTouchesOnlyItsOwn(cycles[i], o);
  }

  /** One that was running and not on hold has exactly one cycle. */
  lemma RunningMeansCycle(listed: Moment, cycles: seq<Cycle>, o: DeploymentId) returns (i: nat)
    requires SweepOf(SelectedIn(listed.db), listed, cycles) && o in listed.db.deployments
    requires listed.db.deployments[o].status == CanaryRunning && !listed.db.deployments[o].paused
    ensures i < |cycles| && cycles[i].id == o && forall j | 0 <= j < |cycles| && j != i :: cycles[j].id != o
  {
    assert o in IdsOf(cycles);
    i :| 0 <= i < |cycles| && cycles[i].id == o;
  }

  lemma SweepBegins(ids: set<DeploymentId>, listed: Moment)
    ensures SweepOf(ids - ids, listed, [])
  {
    assert ids - ids == {} == IdsOf([]);
  }

  /** One more of `left` has had its cycle. */
  lemma SweepGoesOn(ids: set<DeploymentId>, left: set<DeploymentId>, listed: Moment, cycles: seq<Cycle>, c: Cycle)
    requires SweepOf(ids - left, listed, cycles) && left <= ids && c.id in left
    requires CycleOk(c) && Passes(LastMoment(listed, cycles), c.read)
    ensures SweepOf(ids - (left - {c.id}), listed, cycles + [c]) && LastMoment(listed, cycles + [c]) == c.after
  {
    OneLess(ids, left, c.id);
    SweepExtends(ids - left, listed, cycles, c);
  }

  lemma RowsOfSweepRemain(ids: set<DeploymentId>, listed: Moment, cycles: seq<Cycle>, id: DeploymentId)
    requires SweepOf(ids, listed, cycles) && id in listed.db.deployments
    ensures id in LastMoment(listed, cycles).db.deployments
  {
    RowsRemain(ids, listed, cycles, |cycles|);
    assert cycles[..|cycles|] == cycles;
  }

  /** A window apart, and so at most one per window and one more. */
  ghost predicate Paced(record: seq<Spacing.Evaluation>, window: nat) {
    Spacing.Spaced(record, window) && (window >= 1 ==> Spacing.Rated(record, window))
  }

  lemma PunctualIsPaced(m: Moment, id: DeploymentId)
    requires Punctual(m) && id in m.db.deployments
    ensures Paced(EvaluationsOf(m.evaluations, id), m.db.deployments[id].policy.evaluationWindowSeconds)
  {
    assert PunctualFor(m, id);
    if m.db.deployments[id].policy.evaluationWindowSeconds >= 1 {
      Spacing.SpacedIsRated(EvaluationsOf(m.evaluations, id), m.db.deployments[id].policy.evaluationWindowSeconds,
                            m.time);
    }
  }

  // ---------------------------------------------------------------------------------------------
  // Sweep after sweep

  /** One `run_once` after its tick: the moment of the list, and the cycles. */
  datatype Round = Round(listed: Moment, cycles: seq<Cycle>)

  /** Without an answer to the list there is nothing to work on. */
  ghost predicate SweepOk(sweep: Round) {
    SweepOf(if sweep.listed.link == Up then SelectedIn(sweep.listed.db) else {}, sweep.listed, sweep.cycles)
  }

  ghost function EndOf(start: Moment, sweeps: seq<Round>): Moment {
    if sweeps == [] then start
    else
      var last := sweeps[|sweeps| - 1];
      LastMoment(last.listed, last.cycles)
  }

  /** A worker's life: its sweeps one after the other, with others acting in between. */
  ghost predicate LifeOf(start: Moment, sweeps: seq<Round>) {
    sweeps == [] ||
    var front, last := sweeps[..|sweeps| - 1], sweeps[|sweeps| - 1];
    LifeOf(start, front) && Passes(EndOf(start, front), last.listed) && SweepOk(last)
  }

  lemma LifeGoesOn(start: Moment, sweeps: seq<Round>, sweep: Round)
    requires LifeOf(start, sweeps) && Passes(EndOf(start, sweeps), sweep.listed) && SweepOk(sweep)
    ensures LifeOf(start, sweeps + [sweep]) && EndOf(start, sweeps + [sweep]) == LastMoment(sweep.listed, sweep.cycles)
  {
    assert (sweeps + [sweep])[..|sweeps|] == sweeps;
  }

  lemma WholeSweepKeepsPunctual(sweep: Round)
    requires SweepOk(sweep) && Punctual(sweep.listed)
    ensures Punctual(LastMoment(sweep.listed, sweep.cycles))
  {
    SweepKeepsPunctual(IdsOf(sweep.cycles), sweep.listed, sweep.cycles, |sweep.cycles|);
    assert sweep.cycles[..|sweep.cycles|] == sweep.cycles;
  }

  lemma {:induction false} LifeKeepsPunctual(start: Moment, sweeps: seq<Round>)
    requires LifeOf(start, sweeps) && Punctual(start)
    ensures Punctual(EndOf(start, sweeps))
  {
    if sweeps != [] {
      var front, last := sweeps[..|sweeps| - 1], sweeps[|sweeps| - 1];
      LifeKeepsPunctual(start, front);
      PassingKeepsPunctual(EndOf(start, front), last.listed);
      WholeSweepKeepsPunctual(last);
    }
  }

  /** Whatever calls fail and whatever others do, the evaluations a worker leaves on record over any number
      of sweeps are a window apart for every deployment, and no interval holds more of them than fit. */
  lemma LifeIsPaced(start: Moment, sweeps: seq<Round>, id: DeploymentId)
    requires LifeOf(start, sweeps) && Punctual(start) && id in EndOf(start, sweeps).db.deployments
    ensures var m := EndOf(start, sweeps);
            Paced(EvaluationsOf(m.evaluations, id), m.db.deployments[id].policy.evaluationWindowSeconds)
  {
    LifeKeepsPunctual(start, sweeps);
    PunctualIsPaced(EndOf(start, sweeps), id);
  }

  // ---------------------------------------------------------------------------------------------
  // Left alone

  ghost predicate SameTables(a: Moment, b: Moment) {
    a.db == b.db && a.evaluations == b.evaluations
  }

  /** Nobody else wrote to the tables during the cycle, and its calls got through. Time passed, and
      evidence arrived. */
  ghost predicate Quiet(c: Cycle) {
    && !c.end.Broken?
    && SameTables(c.checked, c.read)
    && (!c.end.Skipped? ==> SameTables(c.asked, c.checked))
    && (c.end.Acted? ==>
          SameTables(c.loaded, c.evaluated) && SameTables(c.met, c.loaded) && SameTables(c.pushed, c.committed))
  }

  ghost predicate Untouched(before: Moment, after: Moment, id: DeploymentId) {
    && id in before.db.deployments && SameRows(before.db, after.db, id)
    && EvaluationsOf(after.evaluations, id) == EvaluationsOf(before.evaluations, id)
  }

  function TargetsOf(db: Db, id: DeploymentId): Option<seq<Target>> {
    if id in db.allocations then Some(db.allocations[id].targets) else None
  }

  ghost predicate EdgeAtMost(log: seq<Event>, log': seq<Event>) {
    log' == log || log' == log + EdgeEvents(log, true) || log' == log + EdgeEvents(log, false)
  }

  function VerdictOn(before: Moment, c: Cycle): Verdict
    requires c.id in before.db.deployments
  {
    VerdictAt(c.asked.metrics, c.asked.labels, c.id, before.db.deployments[c.id], c.asked.time)
  }

  /** One deployment's share of a sweep: row, split and log as the worker's cycle on `before` leaves them,
      with at most one reachability event more, and one more evaluation. (The revision it gets also
      depends on its model's other writes.) */
  ghost predicate Swept(before: Moment, after: Moment, c: Cycle)
    requires c.id in before.db.deployments
  {
    var done := WorkerAct(before.db, c.id, VerdictOn(before, c), c.met.time);
    && c.id in done.deployments && c.id in after.db.deployments
    && after.db.deployments[c.id] == done.deployments[c.id]
    && TargetsOf(after.db, c.id) == TargetsOf(done, c.id)
    && EdgeAtMost(EventsOf(done, c.id), EventsOf(after.db, c.id))
    && EvaluationsOf(after.evaluations, c.id) ==
       EvaluationsOf(before.evaluations, c.id) + [Spacing.Evaluation(c.asked.time, c.evaluated.time, true)]
  }

  ghost predicate SweptOrNot(before: Moment, after: Moment, c: Cycle) {
    && c.id in before.db.deployments
    && if DueAt(before, before.(time := c.checked.time), c.id) then Swept(before, after, c)
       else Untouched(before, after, c.id)
  }

  /** On a tracked deployment the worker never asks for anything that is refused. */
  lemma AsksWisely(db: Db, id: DeploymentId, verdict: Verdict, now: Time)
    requires id in db.deployments
    ensures Tracked(db, id) && db.deployments[id].status.IsActive() ==>
              PlanFor(DecideAction(verdict, AtFullTraffic(AllocationOf(db, id), db.deployments[id].canaryVersion)),
                      db.deployments[id], AllocationOf(db, id),
                      GenerationOf(db, db.deployments[id].modelName), now).Write?
  {
    var row := db.deployments[id];
    WorkerAgreesWithService(AllocationOf(db, id), row.canaryVersion);
    ConcludeMeaning(Promote, row, AllocationOf(db, id), GenerationOf(db, row.modelName), now);
    ConcludeMeaning(Rollback, row, AllocationOf(db, id), GenerationOf(db, row.modelName), now);
    InconclusiveMeaning(row, now);
  }

  /** Decided and carried out on the rows as they were read. */
  lemma QuietActs(c: Cycle)
    requires CycleOk(c) && Quiet(c) && c.end.Acted?
    ensures c.committed.db == WorkerAct(c.read.db, c.id, VerdictOn(c.read, c), c.met.time)
    ensures c.committed.evaluations == Evaluated(c.read.evaluations, c.id, c.asked.time, c.evaluated.time)
    ensures Tracked(c.read.db, c.id) ==> c.end.done
  {
    AsksWisely(c.read.db, c.id, c.end.verdict, c.met.time);
  }

  lemma QuietPush(c: Cycle, action: Action, done: bool)
    requires ActionMade(c, action, done) && SameTables(c.pushed, c.committed)
    ensures c.after.db == c.committed.db.(events := c.after.db.events)
    ensures EdgeAtMost(EventsOf(c.committed.db, c.id), EventsOf(c.after.db, c.id))
    ensures c.after.evaluations == c.committed.evaluations
  {
  }

  lemma ActKeepsKeys(db: Db, id: DeploymentId, verdict: Verdict, now: Time)
    requires id in db.deployments
    ensures WorkerAct(db, id, verdict, now).deployments.Keys == db.deployments.Keys
  {
  }

  lemma QuietActionSweeps(c: Cycle)
    requires CycleOk(c) && Quiet(c) && c.end.Acted?
    ensures Swept(c.read, c.after, c)
    ensures c.after.db.deployments.Keys == c.read.db.deployments.Keys
  {
    QuietActs(c);
    QuietPush(c, c.end.action, c.end.done);
    ActKeepsKeys(c.read.db, c.id, VerdictOn(c.read, c), c.met.time);
  }

  lemma QuietActionOthers(c: Cycle, action: Action, done: bool, o: DeploymentId)
    requires EvaluationMade(c) && ActionMade(c, action, done) && o in c.asked.db.deployments && o != c.id
    requires SameTables(c.loaded, c.evaluated) && SameTables(c.met, c.loaded) && SameTables(c.pushed, c.committed)
    ensures Untouched(c.asked, c.after, o)
  {
    EvaluationTouchesOnlyItsOwn(c, o);
    ActionTouchesOnlyItsOwn(c, action, done, o);
    QuietPush(c, action, done);
  }

  lemma QuietOthers(c: Cycle, o: DeploymentId)
    requires CycleOk(c) && Quiet(c) && o in c.read.db.deployments && o != c.id
    ensures Untouched(c.read, c.after, o)
  {
    if c.end.Acted? {
      QuietActionOthers(c, c.end.action, c.end.done, o);
    }
  }

  /** A cycle left alone is the worker's cycle on the rows, it touches no other deployment, and nothing
      the worker asks for on reachable rows is refused. */
  lemma QuietCycle(c: Cycle)
    requires CycleOk(c) && Quiet(c)
    ensures SweptOrNot(c.read, c.after, c)
    ensures forall o | o in c.read.db.deployments && o != c.id :: Untouched(c.read, c.after, o)
    ensures c.after.db.deployments.Keys == c.read.db.deployments.Keys
    ensures c.end.Acted? ==> c.committed.db == WorkerAct(c.read.db, c.id, VerdictOn(c.read, c), c.met.time)
    ensures WasDue(c) && Tracked(c.read.db, c.id) ==> c.end.Acted? && c.end.done
  {
    if c.end.Acted? {
      QuietActs(c);
      QuietActionSweeps(c);
    }
    forall o | o in c.read.db.deployments && o != c.id ensures Untouched(c.read, c.after, o) {
      QuietOthers(c, o);
    }
  }

  /** A running deployment left alone, told by its evaluations alone. If each is at least a window old when
      they are checked, it gets exactly one more, by the worker, and the action its verdict and its traffic
      call for; otherwise nothing happens to it. */
  lemma DueCycle(c: Cycle)
    requires CycleOk(c) && Quiet(c) && Tracked(c.read.db, c.id)
    requires c.read.db.deployments[c.id].status == CanaryRunning
    ensures var (d, record) := (c.read.db.deployments[c.id], EvaluationsOf(c.read.evaluations, c.id));
            if forall e | e in record :: c.checked.time - e.finish >= d.policy.evaluationWindowSeconds * 1000000 then
              var full := AtFullTraffic(AllocationOf(c.read.db, c.id), d.canaryVersion);
              && c.end == Acted(VerdictOn(c.read, c), DecideAction(VerdictOn(c.read, c), full), true)
              && c.committed.db == Act(c.read.db, c.id, c.end.action, c.met.time)
              && EvaluationsOf(c.after.evaluations, c.id) ==
                 record + [Spacing.Evaluation(c.asked.time, c.evaluated.time, true)]
            else Untouched(c.read, c.after, c.id)
  {
    var (d, record) := (c.read.db.deployments[c.id], EvaluationsOf(c.read.evaluations, c.id));
    QuietCycle(c);
    assert WasDue(c) <==>
           forall e | e in record :: c.checked.time - e.finish >= d.policy.evaluationWindowSeconds * 1000000;
  }

  ghost predicate SameButRevision(p: Draft, q: Draft) {
    && p.row == q.row && p.events == q.events
    && (p.allocation.Some? <==> q.allocation.Some?)
    && (p.allocation.Some? ==> p.allocation.value.targets == q.allocation.value.targets)
  }

  lemma SettledAlike(judged: Draft, g: Option<nat>, h: Option<nat>, via: Status, final: Status, winner: Version)
    ensures var (p, q) := (Settle(judged, g, via, final, winner), Settle(judged, h, via, final, winner));
            (p.Success? <==> q.Success?) && (p.Success? ==> SameButRevision(p.value, q.value))
  {
  }

  lemma ConcludedAlike(row: Deployment, g: Option<nat>, h: Option<nat>, now: Time, via: Status, final: Status,
                       winner: Version)
    ensures var (p, q) := (Conclude(row, g, now, via, final, winner), Conclude(row, h, now, via, final, winner));
            (p.Success? <==> q.Success?) && (p.Success? ==> SameButRevision(p.value, q.value))
  {
    var judged := LeaveRunning(Draft(row, None, []));
    if judged.Success? {
      SettledAlike(judged.value, g, h, via, final, winner);
    }
  }

  /** The plan's row, split and events do not depend on the generation that was read. */
  lemma GenerationOnlyNumbers(action: Action, row: Deployment, allocation: Option<Allocation>,
                              g: Option<nat>, h: Option<nat>, now: Time)
    ensures var (p, q) := (PlanFor(action, row, allocation, g, now), PlanFor(action, row, allocation, h, now));
            (p.Write? <==> q.Write?) && (p.Write? ==> SameButRevision(p.draft, q.draft))
  {
    match action {
      case Promote => ConcludedAlike(row, g, h, now, Promoting, Promoted, row.canaryVersion);
      case Rollback => ConcludedAlike(row, g, h, now, RollingBack, RolledBack, row.stableVersion);
      case _ =>
    }
  }

  /** Two tables after which deployment `id` looks the same, revisions apart. */
  ghost predicate SameOutcome(a: Db, b: Db, id: DeploymentId) {
    && id in a.deployments && id in b.deployments
    && a.deployments[id] == b.deployments[id] && TargetsOf(a, id) == TargetsOf(b, id)
    && EventsOf(a, id) == EventsOf(b, id)
  }

  lemma PersistIsLocal(db: Db, other: Db, id: DeploymentId, p: Draft, q: Draft)
    requires SameRows(db, other, id) && SameButRevision(p, q)
    ensures SameOutcome(Persist(db, id, p), Persist(other, id, q), id)
  {
  }

  lemma ActIsLocal(db: Db, other: Db, id: DeploymentId, action: Action, now: Time)
    requires id in db.deployments && SameRows(db, other, id)
    ensures SameOutcome(Act(db, id, action, now), Act(other, id, action, now), id)
  {
    var row := db.deployments[id];
    var p := PlanFor(action, row, AllocationOf(db, id), GenerationOf(db, row.modelName), now);
    var q := PlanFor(action, row, AllocationOf(db, id), GenerationOf(other, row.modelName), now);
    GenerationOnlyNumbers(action, row, AllocationOf(db, id), GenerationOf(db, row.modelName),
                          GenerationOf(other, row.modelName), now);
    if p.Write? {
      PersistIsLocal(db, other, id, p.draft, q.draft);
    }
  }

  lemma CycleIsLocal(db: Db, other: Db, id: DeploymentId, verdict: Verdict, now: Time)
    requires id in db.deployments && SameRows(db, other, id)
    ensures SameOutcome(WorkerAct(db, id, verdict, now), WorkerAct(other, id, verdict, now), id)
  {
    var full := AtFullTraffic(AllocationOf(db, id), db.deployments[id].canaryVersion);
    ActIsLocal(db, other, id, DecideAction(verdict, full), now);
  }

  /** A cycle on a deployment that is as it was when the list was made. */
  lemma SweptSince(before: Moment, c: Cycle, after: Moment)
    requires Untouched(before, c.read, c.id) && SweptOrNot(c.read, after, c)
    ensures SweptOrNot(before, after, c)
  {
    CycleIsLocal(before.db, c.read.db, c.id, VerdictOn(before, c), c.met.time);
  }

  /** Later cycles leave it that way. */
  lemma SweptStays(before: Moment, c: Cycle, after: Moment, later: Moment)
    requires SweptOrNot(before, after, c) && Untouched(after, later, c.id)
    ensures SweptOrNot(before, later, c)
  {
  }

  /** Deployments with a cycle are swept or were not due, all others are as they were. */
  ghost predicate SweptSoFar(listed: Moment, cycles: seq<Cycle>, now: Moment) {
    && now.db.deployments.Keys == listed.db.deployments.Keys
    && (forall i {:trigger SweptOrNot(listed, now, cycles[i])} | 0 <= i < |cycles| ::
        SweptOrNot(listed, now, cycles[i]))
    && forall id {:trigger Untouched(listed, now, id)} | id in listed.db.deployments && id !in IdsOf(cycles) ::
         Untouched(listed, now, id)
  }

  /** Nobody else wrote to the tables during the sweep. */
  ghost predicate QuietSweep(listed: Moment, cycles: seq<Cycle>) {
    forall i {:trigger Quiet(cycles[i])} | 0 <= i < |cycles| ::
        Quiet(cycles[i]) && SameTables(LastMoment(listed, cycles[..i]), cycles[i].read)
  }

  lemma OneMoreSwept(listed: Moment, cycles: seq<Cycle>, now: Moment, c: Cycle)
    requires SweptSoFar(listed, cycles, now) && SameTables(now, c.read)
    requires c.id in listed.db.deployments && c.id !in IdsOf(cycles) && CycleOk(c) && Quiet(c)
    ensures SweptSoFar(listed, cycles + [c], c.after)
  {
    var more := cycles + [c];
    QuietCycle(c);
    IdsSnoc(cycles, c);
    assert Untouched(listed, now, c.id);
    SweptSince(listed, c, c.after);
    forall i | 0 <= i < |more| ensures SweptOrNot(listed, c.after, more[i]) {
      if i < |cycles| {
        assert more[i] == cycles[i] && cycles[i].id in IdsOf(cycles) && SweptOrNot(listed, now, cycles[i]);
        assert Untouched(c.read, c.after, cycles[i].id);
        SweptStays(listed, cycles[i], now, c.after);
      }
    }
    forall id | id in listed.db.deployments && id !in IdsOf(more) ensures Untouched(listed, c.after, id) {
      assert Untouched(listed, now, id) && Untouched(c.read, c.after, id);
    }
  }

  lemma QuietOfSweep(listed: Moment, cycles: seq<Cycle>, i: nat)
    requires QuietSweep(listed, cycles) && i < |cycles|
    ensures Quiet(cycles[i]) && SameTables(LastMoment(listed, cycles[..i]), cycles[i].read)
    ensures cycles[..i + 1] == cycles[..i] + [cycles[i]]
  {
    assert Quiet(cycles[i]);
  }

  lemma NothingSwept(listed: Moment)
    ensures SweptSoFar(listed, [], listed)
  {
  }

  lemma QuietStep(listed: Moment, cycles: seq<Cycle>, n: nat)
    requires SweepOf(SelectedIn(listed.db), listed, cycles) && QuietSweep(listed, cycles) && n < |cycles|
    requires SweptSoFar(listed, cycles[..n], LastMoment(listed, cycles[..n]))
    ensures SweptSoFar(listed, cycles[..n + 1], LastMoment(listed, cycles[..n + 1]))
  {
    CycleOfSweep(SelectedIn(listed.db), listed, cycles, n);
    QuietOfSweep(listed, cycles, n);
    NotYet(cycles, n);
    OneMoreSwept(listed, cycles[..n], LastMoment(listed, cycles[..n]), cycles[n]);
  }

  lemma {:induction false} QuietPrefix(listed: Moment, cycles: seq<Cycle>, n: nat)
    requires SweepOf(SelectedIn(listed.db), listed, cycles) && QuietSweep(listed, cycles) && n <= |cycles|
    ensures SweptSoFar(listed, cycles[..n], LastMoment(listed, cycles[..n]))
  {
    if n == 0 {
      NothingSwept(listed);
    } else {
      QuietPrefix(listed, cycles, n - 1);
      QuietStep(listed, cycles, n - 1);
    }
  }

  lemma NotYet(cycles: seq<Cycle>, n: nat)
    requires n < |cycles| && DifferentIds(cycles)
    ensures cycles[n].id !in IdsOf(cycles[..n])
  {
  }

  /** Left alone, a sweep does exactly this: on hold or inactive when the list was made, a deployment is
      as it was; otherwise it has had its one cycle if it was due. */
  lemma QuietSweepIsExact(listed: Moment, cycles: seq<Cycle>)
    requires SweepOf(SelectedIn(listed.db), listed, cycles) && QuietSweep(listed, cycles)
    ensures SweptSoFar(listed, cycles, LastMoment(listed, cycles))
    ensures IdsOf(cycles) == SelectedIn(listed.db)
  {
    QuietPrefix(listed, cycles, |cycles|);
    assert cycles[..|cycles|] == cycles;
  }
}
