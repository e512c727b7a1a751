# Canary rollouts: routing protocol, worker and evidence, proved in Dafny

The system ramps traffic from a stable model version to a canary. A control plane keeps deployments,
their traffic splits and one routing generation per model in a database; a router holds one traffic
split in memory; a stateless worker evaluates the canary and advances, promotes or rolls back; a
reconciler compares what the router reports with what the database says and pushes again. Predictions
and delayed ground-truth labels are written independently and joined when a verdict is needed.

## Layout

- `Models`, `StateMachine`, `Weights`, `Audit`, `Rollout`: the rows as values, the life cycle, splits and
  stages, the audit log, and what each operation writes as a function of what its session read.
- `Routing`, `Protocol`: the router's answer to a push, the authoritative lookup, and the whole system as
  a state machine. Database row, allocation and generation are read at separate moments; a step that is
  not enabled changes nothing; a push that entered the network may be delivered never, late, twice or
  out of order; `history` records what each committed allocation write decided and is read by no step.
- `Invariant`, `Preservation`, `Steps`: the inductive invariant and its preservation.
- `RoutingTheorems`, `Convergence`, `RestartWindow`, `ModelSwitch`: what it gives over all runs, why one
  reconcile tick is enough, and what a restart or another model costs until then.
- `WorkerRuns`, `RolloutRuns`: the automated rollout as a refinement of two counters, alone and among other
  requests. `Sweeps`: the worker's cycles and sweeps, alone and among other requests.
- `Service`, `RouterService`, `Reconcile`, `WorkerService`, `LabelService`: the imperative code in its own
  form, classes whose methods assign, commit and push, proved against the functions above. `Links` ties
  a session's methods to the protocol's steps.
- `Lists`, `Percentile`, `Metrics`, `ArrivalOrder`, `LabeledEvidence`, `Policy`, `Verdicts`, `Reachability`,
  `Spacing`, `LabelProtocol`: the evidence pipeline up to the verdict, edge detection, evaluation spacing, and
  concurrent label ingestion.

## Assumptions

- The database starts empty. Rows migrated from the time before routing generations can repeat a revision.
- The clock strictly advances from step to step, so `created_at` and `completed_at` order decisions.
- In `create_deployment` the flush of the INSERT and the commit are one step: SQLite has one writer.
- The router's PUT handler is one step, although its store locks `get` and `set` separately.
- The router accepts any push for another model than the one it serves, so revisions are ordered, and
  convergence is stated, per model.
- A deployment id is fresh when it is minted. The network, the clock and other writers are parameters or
  steps of the environment; `Elapse` is the point where a method lets the others run: they insert and update
  rows, delete none, rename none, move a deployment's version with every update, and only add to logs.
- One worker sweeps at a time, and an evaluation it asked for is recorded or refused before a restarted
  worker checks again.
- Arithmetic is over the reals; the slack of 1e-9 in the two stage comparisons is kept exactly.

## Where code and comments differ

- `docs/DESIGN_NOTES.md:45-56` says a failed push marks the deployment FAILED and that startup sync looks
  at active deployments only. The code keeps the committed status and uses the authoritative lookup;
  FAILED is never committed (`RoutingTheorems.CommittedStates`).
- `backend/app/control_plane/models.py:96-99` calls the retries consecutive; the counter is cumulative, and
  the theorems of `WorkerRuns` count it that way.
- A comment in `backend/app/policy/engine.py:131-135` expects that recall is available once the sample gates
  have passed. It is, for all evidence that can arrive, exactly when `minimum_positive_labels` is at least 1,
  and the configuration allows 0 (`Policy.RecallBehindGates`).
- A stable p95 of exactly zero counts as missing in the latency check, because the code tests its truth value.

## Model

| member | source | states |
|---|---|---|
| `Steps.StepKeepsInv` | backend/app/control_plane/service.py:206-731 | every step of the protocol (reads, commits, creations, deliveries, restarts, boot, reconcile) keeps the whole inductive invariant over database, sessions, network, router and ticks |
| `Steps.RunsKeepInv` | backend/app/control_plane/service.py:418-731 | the invariant holds after every run from the empty database |
| `Steps.CommitSeesTheDatabase` | backend/app/control_plane/service.py:283-301 | a session whose version check goes through read exactly the row, allocation and generation that are in the database at its commit |
| `RoutingTheorems.LockProtectsUnversionedRows` | backend/app/control_plane/service.py:225-301 | in every interleaving a commit overwrites exactly the allocation and generation it read, though only the deployment row has a version; an allocation written takes the next generation and no other deployment or model is touched |
| `RoutingTheorems.GenerationCountsWrites` | backend/app/control_plane/models.py:191-213 | after every run a model's generation equals the number of allocation writes committed for it: none lost, none issued twice |
| `RoutingTheorems.HistoryCounts` | backend/app/control_plane/service.py:225-264 | the committed history of a model only grows, by one entry exactly for each committed allocation write |
| `RoutingTheorems.RowChangesByWinning` | backend/app/control_plane/service.py:283-301 | a deployment's row, split and log change exactly when a step wins on it (a commit whose row is current, an insert both constraints admit); losing, refused and idle requests leave them as they were |
| `RoutingTheorems.VersionCountsWins` | backend/app/control_plane/models.py:123-129 | in every run a deployment exists exactly if its creation won, and its version is one more than the number of its winning writes |
| `RoutingTheorems.AuthoritativeMeansLatest` | backend/app/control_plane/service.py:142-203 | a row may be returned by the two status-and-time queries if and only if it carries its model's highest revision |
| `RoutingTheorems.AuthoritativeIsLatest` | backend/app/control_plane/service.py:142-203 | in every run the lookup answers exactly for models that ever wrote an allocation, the answer is unique and carries revision = number of writes, every other deployment of the model a smaller one, and all revisions of a model differ |
| `Routing.LookupAnswers` | backend/app/control_plane/service.py:142-203 | the two queries leave no model out: there is an answer exactly if some row of the model is in flight, frozen, promoted or rolled back |
| `Routing.LookupOrder` | backend/app/control_plane/service.py:142-203 | which row the two queries pick, told by status and time alone: the newest-created row that is running, evaluating or frozen; without one, the promoted or rolled back row that was completed last |
| `RoutingTheorems.RouterServesCommittedSplits` | backend/app/router/main.py:102-177 | over every run with lost, delayed, duplicated and reordered pushes, reconciles and restarts: a served configuration at revision r >= 1 is exactly the r-th committed write of its model, one at revision 0 is the bootstrap split or some committed allocation |
| `Routing.AnswerMeaning` | backend/app/router/main.py:146-169 | a push is rejected exactly if its versions repeat, a weight is negative, none is positive or a version cannot be resolved; stale exactly if it is valid and the same model is served at its revision or a higher one; otherwise it is what is served from then on |
| `RoutingTheorems.EqualRevisionEqualTargets` | backend/app/control_plane/reconcile.py:105-106 | in every run equal deployment and revision implies equal targets, for the router, every observation a tick still holds and every push under way |
| `RoutingTheorems.SkipIsSound` | backend/app/control_plane/reconcile.py:101-106 | in every run a tick that answers "already in sync" was looking at exactly the authoritative deployment's allocation, although it never compares targets |
| `RoutingTheorems.StaleMeansCaughtUp` | backend/app/control_plane/reconcile.py:113-118 | a 409 at the reconciler's PUT means the router already holds the content committed at that or a later revision, and the tick changes nothing |
| `RoutingTheorems.RouterRevisionNeverDrops` | backend/app/router/main.py:146-169 | without a restart a step never lowers the revision the router serves for a model |
| `RoutingTheorems.OneModelRises` | backend/app/router/main.py:146-169 | over any stretch of any run without a restart in which the router stays with its model, it keeps its configuration or ends at a strictly higher revision |
| `RoutingTheorems.OnlyASwitchLowers` | backend/app/router/main.py:146-169 | so if it ends at another configuration that is not newer, then in between it accepted another model's push |
| `RoutingTheorems.SwitchReopens` | backend/app/router/main.py:146-169 | while another model is served any acceptable push of a model is taken, however low its revision |
| `ModelSwitch.OrderLostBySwitching` | backend/app/router/main.py:146-169 | for every two models the router can resolve there is a run without restarts in which it serves the first one's rollback at revision 2, then the second, then the first one's canary split at revision 1 |
| `Convergence.RevisionsOnlyRise` | backend/app/router/main.py:146-169 | for a control plane used for one model, over any stretch without a restart the router holds what it held or a strictly higher revision |
| `RoutingTheorems.StalePushAfterRestart` | backend/app/router/main.py:102-113 | monotonicity fails across a restart: at revision 0 any acceptable push is taken, and the split is out of date exactly if the push is older than the model's generation |
| `RestartWindow.RestartForgets` | backend/app/router/main.py:59-118 | after a restart whose startup sync went unanswered the router takes any acceptable push of its model, whatever it served before |
| `RestartWindow.CanaryComesBack` | backend/app/control_plane/api.py:294-319 | for every model and two versions the router can resolve there is a run in which it serves a decided rollback at revision 2 and, after a restart and a delayed push, the canary split of revision 1 again |
| `Links.StartupIsBoot` | backend/app/router/main.py:102-113 | a router process that starts comes up, as its constructor says, with the configuration the protocol's router has after a restart and its three boot steps: its own model at revision 0, with the authoritative deployment and its targets if both exist and are valid, otherwise with no deployment and the configured targets |
| `Convergence.ReconcileConverges` | backend/app/control_plane/reconcile.py:63-151 | from any state with the invariant: if no split is committed and the router stays up, one tick that gets its four calls through leaves the router on the authoritative deployment, revision and targets, for good, whatever stale pushes arrive before, between or after its calls, and although commits that lose, pause, resume, count or freeze go on; the same deployment is authoritative at the end |
| `Convergence.OneModelRuns` | backend/app/router/config.py:81-82 | if only the router's own model is ever requested, every row, session, push, tick and held configuration is of that model |
| `Convergence.EveryRunConverges` | backend/app/control_plane/reconcile.py:63-151 | the same convergence after any history of requests, commits, losses and restarts |
| `Links.UninterruptedSession` | backend/app/control_plane/service.py:522-731 | a session of the protocol that nobody interrupts does to the database what the service method does |
| `Service.Database.GetAuthoritativeAllocation` | backend/app/control_plane/service.py:142-203 | an answer exactly if some row of the model is in flight, frozen, promoted or rolled back, and then an authoritative one |
| `Service.Database.RecordRouterReachabilityChange` | backend/app/control_plane/service.py:308-347 | writes an event exactly on a change, reading its memory off the event log |
| `Reachability.ObservationMeaning` | backend/app/control_plane/service.py:308-347 | one observation on the log itself: reachable adds one recovered event exactly if some unreachable event is not followed by a recovered one, unreachable adds one unreachable event exactly if that is not so, and nothing else in the tables changes |
| `Service.Session.TransitionTo` | backend/app/control_plane/service.py:211-222 | status and event change together, or not at all and InvalidTransition |
| `Service.Session.SetTrafficAllocation` | backend/app/control_plane/service.py:244-264 | stages the split under the next generation |
| `Service.Session.Commit` | backend/app/control_plane/service.py:293-301 | all staged writes if the row version is current, otherwise none and ConcurrentUpdate |
| `Service.Session.StageConclusion` | backend/app/control_plane/service.py:522-595 | the shared body of promote and rollback stages exactly the planned draft, or raises the planned error |
| `Service.Session.StageAdvance` | backend/app/control_plane/service.py:607-646 | stages the draft that `Rollout.AdvanceMeaning` describes, or raises NotActive / AlreadyAtFinalStage |
| `Service.Session.StageInconclusive` | backend/app/control_plane/service.py:649-687 | counts, logs and, past the budget, freezes as planned |
| `Service.Session.StageHold` | backend/app/control_plane/service.py:690-731 | pause and resume: refused when terminal, silent when already so, otherwise flag and event |
| `Service.Session.Perform` | backend/app/control_plane/service.py:522-731 | any of the six actions on a possibly stale row: the answer and the new tables are those of the plan and the version check |
| `Service.Session.PushBestEffort` | backend/app/control_plane/service.py:350-390 | after the commit: pushes and never raises; adds a recovered or an unreachable event exactly on a change, where a push answered 200 or 409 over a working link counts as reachable and a rejected, lost or unanswered one does not |
| `Service.PushMeaning` | backend/app/control_plane/service.py:350-390 | what one push leaves in log and router, told from the link and the router's answer: a 409 is an observation that the router is there; the router holds the push exactly if it got it and applied it, so also if only the answer was lost |
| `Service.Session.PerformAndPush` | backend/app/control_plane/service.py:522-646 | the router is told only about what was committed, on the tables, router and link as others have left them between the commit and the push; a raised error leaves tables and router untouched |
| `Service.Session.CreateDeployment` | backend/app/control_plane/service.py:418-519 | a known non-empty key is answered with its row and nothing is written; an active deployment of the model is refused; otherwise the two unique constraints decide on the tables as other requests have left them by the INSERT, the committed row, split, counter and log are those the request asks for (its hold included), and the push follows on what it met; every error is justified by a row that is really there |
| `Rollout.InsertMeaning` | backend/app/control_plane/service.py:448-519 | an INSERT goes through exactly if no row has its key and every row of its model is terminal; then the row has the request's model, versions, key, policy and hold, the split is the weights 1 - w and w rounded to six digits, the log has AutomationPaused exactly if the request asks for a hold, and nothing else in the tables changes |
| `RolloutRuns.CommittedCreation` | backend/app/control_plane/service.py:448-519 | in every run a step that brings a deployment into the database is the commit of a creation, and leaves the row, split, counter and log its request asks for |
| `RouterService.Router.PutConfig` | backend/app/router/main.py:135-177 | response and new configuration for unknown versions, stale revisions and accepted pushes |
| `RouterService.RouterGateway.PushTrafficAllocation` | backend/app/control_plane/router_gateway.py:48-77 | delivered, stale or failed, and what the router holds afterwards, also when the request or only its answer was lost |
| `Reconcile.AllAuthoritativeDeployments` | backend/app/control_plane/reconcile.py:39-60 | the loop collects exactly one authoritative deployment for each model that has routing at all |
| `Reconcile.MarkUnreachable` | backend/app/control_plane/reconcile.py:85-88 | every affected deployment, and no other, gets an unreachable event, once |
| `Reconcile.ReconcileRouterState` | backend/app/control_plane/reconcile.py:63-151 | the tick as one method, with other requests acting on database, router and link between its calls: its early exits, and otherwise the outcome and router state of the protocol's own compare and put steps, on the revision and targets as they are after the reachability record, and exactly the events they leave |
| `Reconcile.CompareAndPush` | backend/app/control_plane/reconcile.py:101-151 | the second half of the tick: in sync exactly if deployment and revision agree, otherwise corrected, raced or unreachable by the router's answer over the link, as in the protocol's steps, with exactly the events each leaves |
| `Reconcile.TickMeaning` | backend/app/control_plane/reconcile.py:63-151 | one tick told from what it met: an unanswered GET puts an unreachable event on every affected log that did not say so already; an answered one a recovered event on the desired deployment's log if that said unreachable; then in sync exactly if deployment and revision are the desired ones, otherwise corrected, raced or unreachable by the router's answer to the push of the desired targets, which the router holds exactly if it got and applied it; and the event of each outcome |
| `Reconcile.TickLog` | backend/app/control_plane/reconcile.py:113-151 | what each outcome of a tick leaves on the logs: a correction one RouterReconciled event, a failed push an unreachable event exactly on the change, the others nothing |
| `StateMachine.PathsAreSimple` | backend/app/control_plane/state_machine.py:8-34 | no status history revisits a status, is longer than seven, or continues after a terminal status |
| `StateMachine.EnteredFrom` | backend/app/control_plane/state_machine.py:8-34 | from which statuses each status can be entered |
| `StateMachine.StatusKinds` | backend/app/control_plane/state_machine.py:8-34 | terminal statuses are exactly those without a successor, active ones those that can still come to be evaluated or frozen, undecided ones those that can still be promoted |
| `Rollout.ConcludeMeaning` | backend/app/control_plane/service.py:522-595 | promote and rollback go through exactly from a live or frozen rollout and end with all traffic on the winner under the next generation |
| `Rollout.ConcludeLog` | backend/app/control_plane/service.py:522-595 | the log of a promote or rollback: through EVALUATING if the rollout was live, then its two transitions |
| `Rollout.AdvanceMeaning` | backend/app/control_plane/service.py:607-646 | an advance goes through exactly on an active row below full traffic; it writes the least of the stages 0.10, 0.25, 0.50, 1.0 above the canary's weight, one minus that to stable, logs the old weight and the one now in the split, and leaves the row alone |
| `RolloutRuns.CommittedAdvance` | backend/app/control_plane/service.py:607-646 | the same on the tables, for every advance that goes through in any run: the canary's committed share becomes the least stage above it, stable gets the rest, the log gets both weights, and of the row only the version moves |
| `Rollout.InconclusiveMeaning` | backend/app/control_plane/service.py:649-687 | one count per record, the split untouched, frozen exactly when the budget is exceeded |
| `Rollout.InconclusiveLog` | backend/app/control_plane/service.py:649-687 | its log: the cycle with its number and the budget, and the transitions of the freeze exactly past the budget |
| `Rollout.HoldMeaning` | backend/app/control_plane/service.py:690-731 | pause and resume are written exactly if they change the flag of a row that is not terminal, and write the flag and one event |
| `Rollout.RefusalMeaning` | backend/app/control_plane/service.py:522-731 | which error each refused action raises |
| `Rollout.PlanReplays` | backend/app/control_plane/service.py:206-222 | the events every operation logs replay from the row read to the row written |
| `Rollout.FreshReplays` | backend/app/control_plane/service.py:470-510 | a new deployment's events replay from nothing to its row |
| `RoutingTheorems.CommittedStates` | backend/app/control_plane/service.py:448-687 | only CANARY_RUNNING, INCONCLUSIVE, PROMOTED and ROLLED_BACK are ever committed, each with its split and retry count; every committed split carries all traffic and passes the router's validator |
| `RoutingTheorems.OneRolloutPerModel` | backend/app/control_plane/models.py:131-146 | at most one undecided deployment per model, at most one row per idempotency key |
| `RoutingTheorems.DecisionsAreFinal` | backend/app/control_plane/models.py:46-52 | a promoted or rolled back deployment keeps its row and its split in every later state |
| `RoutingTheorems.AuditLogReplays` | backend/app/control_plane/service.py:206-222 | in every run a deployment's log replays to its row: an allowed chain from PENDING to its status, one inconclusive_cycle per retry, alternating holds ending on the current flag; and every event stands where it can have happened |
| `Audit.ReplayMeaning` | backend/app/control_plane/service.py:649-731 | what replaying a log to a state says about its status edges, its inconclusive cycles and its holds |
| `Audit.EventsInPlace` | backend/app/control_plane/service.py:470-731 | in a log that replays from nothing, created comes first and once, advances and inconclusive cycles stand on an active status with the cycles numbered from one, holds before a terminal status, and each edge starts at the status the log had come to |
| `Weights.RoundMirror` | backend/app/control_plane/service.py:493-496 | half-even rounding to six digits of w and of 1 - w mirror each other |
| `Weights.RoundMeaning` | backend/app/control_plane/service.py:493-496 | the rounded number is the integer less than half away, or of two at half the even one |
| `Weights.Round6Meaning` | backend/app/control_plane/service.py:493-496 | rounding to six digits is the nearest multiple of a millionth, ties to the even one |
| `Weights.SplitIsConserved` | backend/app/control_plane/service.py:493-496 | for every real w the two rounded weights sum to exactly 1 and each is within half a millionth of its share; for w in [0, 1] neither is negative |
| `Weights.SplitIsRoutable` | backend/app/router/config.py:35-44 | a split of two different versions passes the router's validator and its canary share is read back |
| `Weights.ValidatorMeaning` | backend/app/router/config.py:35-44 | a list of targets passes exactly if its versions differ, no weight is negative and some weight is positive |
| `Weights.NextStageMeaning` | backend/app/control_plane/service.py:607-627 | the generator over the stages finds the least stage above the weight, is empty exactly at full traffic, and each step leaves one stage fewer |
| `Weights.WorkerAgreesWithService` | backend/app/worker/loop.py:14-22 | the worker's full-traffic test agrees with the service's no-stage-left test on every allocation |
| `WorkerRuns.ReachableIsTracked` | backend/app/control_plane/models.py:75-157 | every deployment of every reachable database satisfies what the rollout theorems ask for |
| `WorkerRuns.WorkerActRefinesRamp` | backend/app/worker/loop.py:54-92 | a worker cycle on the rows is one step of two counters, stages left and retries left, so the worker never asks for an advance that is refused |
| `WorkerRuns.RolloutRefinesRamp` | backend/app/worker/loop.py:54-92 | whole rollouts with operators pausing and resuming refine the two counters on the verdicts that were heard |
| `WorkerRuns.HoldIsNeutral` | backend/app/control_plane/service.py:690-731 | pause and resume never move a rollout on its ramp |
| `WorkerRuns.ExactOutcome` | backend/app/worker/decide.py:11-25 | for every verdict sequence: still running, or ended in a status, if and only if the counts say so |
| `WorkerRuns.RolloutTerminates` | backend/app/control_plane/service.py:607-687 | max_inconclusive_retries + 5 heard verdicts end every rollout in PROMOTED, ROLLED_BACK or INCONCLUSIVE |
| `WorkerRuns.PromotedExactly` | backend/app/worker/decide.py:11-25 | promoted if and only if some heard PASS comes after no FAIL, as many PASS verdicts as there were stages above the starting weight, and inconclusive ones within the remaining budget |
| `RolloutRuns.CommitIsAct` | backend/app/control_plane/service.py:283-301 | a commit that goes through has, in every interleaving, the effect of the request made at that moment |
| `RolloutRuns.StepGoesDown` | backend/app/control_plane/service.py:522-731 | no step of the protocol gives a rollout back a stage or a retry or starts an ended one again, and every promote, rollback, advance or inconclusive record that goes through on a running one uses some up |
| `RolloutRuns.EveryRolloutEnds` | backend/app/control_plane/service.py:607-687 | whatever sessions interleave: in every run at most four advances go through on a deployment, exactly retry_count inconclusive records, at most one more than the budget; with the promotes and rollbacks of a running deployment at most max_inconclusive_retries + 5, and with that many it is decided or frozen |
| `RolloutRuns.LateActionGoesThrough` | backend/app/control_plane/service.py:283-301 | however old the read behind it, in every run a request goes through if and only if no other write came between the load of its row and its commit and the row admits the action: promote and rollback on a running or frozen deployment, advance on a running one below full traffic, an inconclusive record on a running one, pause and resume on either if they change the flag |
| `RolloutRuns.FullTrafficStays` | backend/app/worker/loop.py:54-92 | a deployment once at full traffic still is in every later state in which it is running or frozen, so a promote decided on an old read finds the canary at full traffic whenever it goes through |
| `Reachability.EventsAreTheEdges` | backend/app/control_plane/service.py:308-347 | for every sequence of observations the reachability events are precisely its changes, starting from what the log said |
| `Reachability.ChangesAlternate` | backend/app/control_plane/service.py:308-347 | they strictly alternate, beginning with unreachable on a fresh log |
| `LabelProtocol.LabelRace` | backend/app/control_plane/label_service.py:74-132 | in every interleaving, once one call for a prediction is answered: exactly one call stored the label and reports APPLIED or PENDING, the table holds it, every other answered call reports NO_OP if it agrees and a conflict naming it if not |
| `LabelProtocol.Linearizable` | backend/app/control_plane/label_service.py:99-132 | calls take effect one at a time, answers are those of the sequential rule, and a call answered before another is made comes first |
| `LabelProtocol.LabelsNeverChange` | backend/app/control_plane/models.py:374-409 | no prediction ever has two labels and a recorded label is never replaced |
| `LabelProtocol.ConflictsOnRecord` | backend/app/control_plane/label_service.py:74-96 | in every run APPLIED means the metric is there, a conflict names the deployment of the metric that is there, and each conflict event is on record exactly as often as calls were answered with it |
| `LabelProtocol.AnswerMeaning` | backend/app/control_plane/label_service.py:74-132 | what the last step of a call answers: APPLIED or PENDING by whether the metric has landed, NO_OP exactly if the label found agrees, otherwise the conflict with the label found, put on record exactly if some metric has that prediction id |
| `LabelProtocol.RunsKeepInv` | backend/app/control_plane/label_service.py:99-132 | the invariant behind the three; in particular the branch that re-raises the integrity error is never taken |
| `LabelService.EvidenceStore.IngestLabel` | backend/app/control_plane/label_service.py:99-132 | the method itself, with other writers committing between its statements: one label is on record afterwards and the answer is true of it |
| `LabelService.OnRecordMeaning` | backend/app/control_plane/label_service.py:74-96 | a label that agrees with the one on record leaves nothing behind; one that differs leaves one event, with the deployment of a metric of that prediction, exactly if there is one |
| `ArrivalOrder.FirstLabelStays` | backend/app/control_plane/label_service.py:99-132 | after any sequence of writes the label table answers each key with the first label reported for it |
| `ArrivalOrder.CopiesStored` | backend/app/control_plane/metrics_service.py:11-27 | after any sequence of writes a metric without prediction id is stored as often as it arrived, one with an id once, if it arrived first for that id |
| `ArrivalOrder.ArrivalOrderIrrelevant` | backend/app/control_plane/metrics_service.py:66-154 | two arrival sequences that keep each prediction's own order give the same joined rows and the same summary for every query |
| `ArrivalOrder.JoinKeepsEveryMetric` | backend/app/control_plane/metrics_service.py:66-79 | the outer join keeps each metric exactly once, with the first label ever reported for it |
| `ArrivalOrder.SampleCountMeaning` | backend/app/control_plane/metrics_service.py:66-83 | a summary's sample count is the number of metrics in its window, whatever labels there are |
| `Metrics.WindowMeaning` | backend/app/control_plane/metrics_service.py:66-79 | which rows a query reads, told by their age: at least the offset and at most offset and window |
| `Metrics.SummaryBounds` | backend/app/control_plane/metrics_service.py:81-154 | positive <= labeled <= sample count, rates in [0, 1], recall missing exactly when there is no positive label |
| `Metrics.QualityMeaning` | backend/app/control_plane/metrics_service.py:114-137 | recall, precision and false positive rate as ratios of the confusion matrix |
| `Metrics.ConfusionMeaning` | backend/app/control_plane/metrics_service.py:121-124 | each entry of the matrix is the number of rows with that prediction and label |
| `Metrics.CountsMeaning` | backend/app/control_plane/metrics_service.py:81-113 | errors are the rows with a status code from 400 up, labelled samples those for which the join found a label |
| `Metrics.RatesMeaning` | backend/app/control_plane/metrics_service.py:81-113 | version, sample count, labelled count, error rate and label coverage of a summary, from those rows |
| `Metrics.QuantilesMeaning` | backend/app/control_plane/metrics_service.py:93-154 | p50, p95 and p99 are the 50th, 95th and 99th percentile of exactly the latencies of the rows, the two delay fields the 50th and 95th of exactly the seconds from each labelled metric to the ingestion of its label; missing without samples |
| `Metrics.SummaryForgetsOrder` | backend/app/control_plane/metrics_service.py:81-154 | the summary depends on the rows as a multiset only |
| `Percentile.PercentileBounds` | backend/app/control_plane/metrics_service.py:30-41 | for 0 <= p <= q <= 100: minimum <= P(p) <= P(q) <= maximum |
| `Percentile.PercentileMeaning` | backend/app/control_plane/metrics_service.py:30-41 | linear interpolation: where (n - 1) p / 100 = i + u with 0 <= u <= 1, P(p) = s[i] + (s[i + 1] - s[i]) u |
| `Percentile.PercentileEnds` | backend/app/control_plane/metrics_service.py:30-41 | P(0) is the first sample and P(100) the last; a single sample is every percentile |
| `Percentile.PercentileScales` | backend/app/control_plane/metrics_service.py:30-41 | scaling the samples scales the percentile |
| `Percentile.PercentileDominates` | backend/app/control_plane/metrics_service.py:30-41 | pointwise larger sorted samples give a larger percentile |
| `Percentile.PercentileForgetsOrder` | backend/app/control_plane/metrics_service.py:30-41 | the percentile of sorted samples is invariant under permutation |
| `Policy.VerdictMeaning` | backend/app/policy/engine.py:187-225 | PASS if and only if all seven conditions hold of the evidence rows, FAIL if and only if traffic suffices and latency, errors or fully gated recall breaks its threshold; errors, labels and recall are told by the sets of rows with a status code from 400 up, with a label, and with each prediction and label |
| `Policy.QualityVerdict` | backend/app/policy/engine.py:152-184 | the quality half: gates first, then recall |
| `Policy.RecordSpeaksForItself` | backend/app/policy/engine.py:152-213 | every stored result follows from the observed value and threshold stored beside it, and which checks were stored says how far the evaluation got |
| `Policy.StoredValues` | backend/app/policy/engine.py:35-213 | which number is stored with each check as observed, and which limit as threshold |
| `Policy.StoredPercentages` | backend/app/policy/engine.py:35-74 | the stored latency increase is the canary's p95 above stable's in percent of stable's, missing exactly without a baseline; the stored error number is the canary's error rate in percent |
| `Policy.RecallBehindGates` | backend/app/policy/engine.py:127-149 | for every query window: recall is never missing once the gates pass, for all evidence that can arrive, if and only if minimum_positive_labels is at least 1 |
| `Policy.CheckOrderIrrelevant` | backend/app/policy/engine.py:216-225 | any reordering of the checks gives the same verdict |
| `Policy.OverallIsWorst` | backend/app/policy/engine.py:216-225 | the overall result is the worst single result, however the checks are grouped |
| `Policy.UniformlyFastEnoughPasses` | backend/app/policy/engine.py:35-55 | with each sorted canary latency within t percent of stable's, the latency check at t percent never fails: it passes, or has no baseline |
| `Spacing.WorkerEvaluationsAreSpaced` | backend/app/worker/loop.py:32-51 | two evaluations by the worker are at least a window apart, across restarts, refused calls and manual evaluations |
| `Spacing.DueMeaning` | backend/app/worker/loop.py:32-51 | due if and only if every evaluation on record finished at least a window ago |
| `Spacing.EvaluationRate` | backend/app/policy/service.py:97-103 | so any interval of length T holds at most T / window + 1 of them, whatever happens |
| `WorkerService.Worker.ProcessDeployment` | backend/app/worker/loop.py:54-92 | time passes, evidence arrives and others act before each of its calls, and each call or its answer may be lost: nothing unless active with every evaluation on record at least a window old; otherwise one evaluation, the verdict on what it met, and the action carried out on what its commit met, unless refused or overtaken by another write; the events and the push that follow; what it returns or raises |
| `WorkerService.Worker.RunOnce` | backend/app/worker/loop.py:95-136 | first the reconcile tick, with all its effects; then, as others have left things by then, one cycle for each deployment that was active and not on hold when the list was made, one after the other, and no cycle for any other; a cycle that raises does not stop the sweep, a list that is not answered means no cycle |
| `WorkerService.Worker.RunForever` | backend/app/worker/loop.py:139-152 | as many sweeps as it is given, one after the other, some of which may raise, with others acting in between: a worker's life as `Sweeps.LifeIsPaced` has it |
| `Sweeps.LifeIsPaced` | backend/app/worker/loop.py:139-152 | over any number of sweeps, whatever calls fail and whatever others do: for every deployment the evaluations the worker left on record are a window apart, and any interval of length T holds at most T / window + 1 of them |
| `Sweeps.HeldMeansUntouched` | backend/app/worker/loop.py:95-136 | a deployment on hold or inactive when the list is made is there all through the sweep and touched by no cycle of it, not in its row, split, log or evaluations, whatever others do meanwhile |
| `Sweeps.RunningMeansCycle` | backend/app/worker/loop.py:95-136 | a deployment that was running and not on hold when the list was made has exactly one cycle |
| `Sweeps.QuietSweepIsExact` | backend/app/worker/loop.py:95-136 | a sweep during which nobody else writes leaves every deployment either as it was, or, if it was listed and due, with its one cycle's row, split, log, at most one reachability event more, and one more evaluation |
| `Sweeps.QuietCycle` | backend/app/worker/loop.py:54-92 | a cycle during which nobody else writes is the worker's cycle on the rows, touches no other deployment, and on reachable rows nothing it asks for is refused |
| `Sweeps.DueCycle` | backend/app/worker/loop.py:32-92 | told by its evaluations alone, a running deployment left alone: if each is at least a window old when checked, it gets exactly one more evaluation and the action its verdict and traffic call for, which goes through; otherwise nothing happens to it |
| `Sweeps.ReportMeaning` | backend/app/worker/loop.py:54-92 | whatever others do: a cycle reports an action exactly if its request wrote the row, once, no action only if nothing was written, and raises only if some call of it was not answered |
| `Verdicts.VerdictForgetsArrivalOrder` | backend/app/policy/service.py:30-94 | the verdict does not depend on the order in which metrics and labels arrived |
| `Verdicts.VerdictNeedsTraffic` | backend/app/policy/service.py:30-94 | a verdict other than INCONCLUSIVE means that the newest window holds minimum_requests metrics of either version |
| `Verdicts.VerdictByAge` | backend/app/policy/service.py:30-94 | the verdict told from the tables by the age of the metrics: traffic, latency and errors of the newest window, labels and recall of the window that ended label_maturity_seconds ago; PASS if and only if all are known and good, FAIL if and only if there is traffic and one is known and bad |
| `Verdicts.PassNeedsMaturity` | backend/app/policy/service.py:45-51 | for all evidence that can arrive, a PASS needs minimum_labeled_samples labelled metrics of the canary aged between maturity and maturity plus window, at least one of them labelled 1 |
| `Verdicts.OtherLabelsIrrelevant` | backend/app/policy/service.py:45-51 | labels of metrics outside that age range do not change the verdict |

## Left out

- RoutingTheorems.RouterRevisionNeverDrops: does not cross restarts or model switches, where it is false; `RestartWindow.CanaryComesBack` and `ModelSwitch.OrderLostBySwitching` give the runs, `RoutingTheorems.StalePushAfterRestart` and `RoutingTheorems.OnlyASwitchLowers` the conditions.
- Convergence.ReconcileConverges: states convergence for one model whose versions the router can resolve; several models sharing the one slot displace each other by design.
- LabelProtocol.LabelRace: does not order APPLIED and PENDING against metric writes, because that flag is read after the label is stored and is advisory; everything else about an answer is linearized.
- Spacing.WorkerEvaluationsAreSpaced: bounds the worker's evaluations only; manual evaluations may come at any time.
- WorkerService.Worker.RunForever: models the endless loop as any finite number of sweeps.
- WorkerService.Worker.ProcessDeployment: takes the deployment's own policy (a policy passed in the body of a manual evaluation is not modelled), and an evaluation reads its three summaries at one moment.
- HTTP, serialization, sessions, logging and background tasks: only their effect is kept (committed or stale, delivered, lost, refused or unreachable).
- IEEE rounding of weights, percentiles and rates, and the length limit of identifier columns.
- Message texts: an event carries its facts, not its wording; explanations and the timeline merge are not part of this model.
- Metric deltas for the comparison view, and the sample counts and weights stored beside each policy evaluation row.
- Model training, registry, serving, random target choice, fault injection, benchmarks and the user interface.
- The migrations, and rows that existed before them.
