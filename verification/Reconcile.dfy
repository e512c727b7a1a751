/** backend/app/control_plane/reconcile.py: one tick, as the sequential method it is. Between its GET
    and its PUT anything may happen to the router. */
module Reconcile {
  import opened Prelude
  import opened Models
  import opened Routing
  import opened Reachability
  import opened RouterService
  import opened Service
  import opened Protocol

  datatype ReconcileResult = ReconcileResult(
    outcome: TickOutcome,
    deploymentId: Option<DeploymentId>,
    fromRevision: nat,
    toRevision: nat)
  {
    predicate Reconciled() {
      outcome == Corrected
    }
  }

  const NOTHING := ReconcileResult(NothingToDo, None, 0, 0)

  /** The protocol state in which tick 0 stands where a reconciler stands that has observed and found,
      while the router now holds `current`. */
  ghost function TickState(allocations: map<DeploymentId, Allocation>, settings: Settings, tick: Tick,
                           current: Config): State {
    State(settings, 0, EMPTY_DB.(allocations := allocations), map[], {}, Serving(current), map[0 := tick], map[])
  }

  method ModelNames(database: Database) returns (names: set<ModelName>)
    ensures names == set id | id in database.deployments :: database.deployments[id].modelName
  {
    names := set id | id in database.deployments :: database.deployments[id].modelName;
  }

  ghost predicate Represented(db: Db, found: seq<DeploymentId>, m: ModelName) {
    exists o | o in found :: o in db.deployments && db.deployments[o].modelName == m
  }

  /** Authoritative deployments of pairwise different models. */
  ghost predicate OnePerModel(db: Db, found: seq<DeploymentId>) {
    && (forall id | id in found :: id in db.deployments && IsAuthoritative(db, db.deployments[id].modelName, id))
    && (forall i, j | 0 <= i < j < |found| ::
          found[i] in db.deployments && found[j] in db.deployments
          && db.deployments[found[i]].modelName != db.deployments[found[j]].modelName)
  }

  lemma OneMoreModel(db: Db, found: seq<DeploymentId>, id: DeploymentId)
    requires OnePerModel(db, found)
    requires id in db.deployments && IsAuthoritative(db, db.deployments[id].modelName, id)
    requires !Represented(db, found, db.deployments[id].modelName)
    ensures OnePerModel(db, found + [id])
    ensures Represented(db, found + [id], db.deployments[id].modelName)
    ensures forall m :: Represented(db, found, m) ==> Represented(db, found + [id], m)
    ensures forall m :: m != db.deployments[id].modelName && Represented(db, found + [id], m) ==>
        Represented(db, found, m)
  {
  }

  /** `_all_authoritative_deployments`: exactly one deployment for each model that has an
      authoritative one. */
  method AllAuthoritativeDeployments(database: Database) returns (found: seq<DeploymentId>)
    ensures OnePerModel(database.Contents(), found)
    ensures forall m | HasRouting(database.Contents(), m) :: Represented(database.Contents(), found, m)
  {
    var names := ModelNames(database);
    ghost var db := database.Contents();
    var left := names;
    found := [];
    while left != {}
      invariant left <= names && db == database.Contents()
      invariant OnePerModel(db, found)
      invariant forall m | m in left :: !Represented(db, found, m)
      invariant forall m | m in names && m !in left && HasRouting(db, m) :: Represented(db, found, m)
      decreases left
    {
      var m :| m in left;
      left := left - {m};
      var one := database.GetAuthoritativeAllocation(m);
      assert db == database.Contents();
      if one.Some? {
        OneMoreModel(db, found, one.value);
        found := found + [one.value];
        assert Represented(db, found, m);
      }
    }
    assert forall m | m !in names :: !HasRouting(db, m);
  }

  /** Every one of `ids`, and nobody else, has been told that the router went away. */
  ghost predicate Marked(before: Db, after: Db, ids: seq<DeploymentId>) {
    forall id :: EventsOf(after, id) ==
      var log := EventsOf(before, id);
      if id in ids then log + EdgeEvents(log, false) else log
  }

  /** The router is unreachable: say so once on every deployment whose routing it affects. */
  method MarkUnreachable(database: Database, ids: seq<DeploymentId>)
    requires forall i, j | 0 <= i < j < |ids| :: ids[i] != ids[j]
    modifies database`events
    ensures database.Contents() == old(database.Contents()).(events := database.events)
    ensures Marked(old(database.Contents()), database.Contents(), ids)
  {
    for i := 0 to |ids|
      invariant database.Contents() == old(database.Contents()).(events := database.events)
      invariant forall id :: EventsOf(database.Contents(), id) ==
                  var log := EventsOf(old(database.Contents()), id);
                  if id in ids[..i] then log + EdgeEvents(log, false) else log
    {
      assert ids[..i + 1] == ids[..i] + [ids[i]];
      assert ids[i] !in ids[..i];
      database.RecordRouterReachabilityChange(ids[i], false);
    }
    assert ids[..|ids|] == ids;
  }

  /** What a tick that found `id` leaves in the logs: reachable at the GET, then its outcome. */
  function TickEvents(db: Db, id: DeploymentId, outcome: TickOutcome, drift: Event): Db {
    match outcome
    case Unreachable => RecordReachability(db, id, false)
    case Corrected => db.(events := db.events[id := EventsOf(db, id) + [drift]])
    case _ => db
  }

  /** The log a tick leaves: its correction, or the edge to unreachable, or nothing. */
  lemma TickLog(db: Db, id: DeploymentId, outcome: TickOutcome, drift: Event)
    ensures var db' := TickEvents(db, id, outcome, drift);
            && (outcome == Unreachable ==> Noted(db, id, false, db'))
            && (outcome == Corrected ==>
                  && db' == db.(events := db'.events) && EventsOf(db', id) == EventsOf(db, id) + [drift]
                  && forall o | o != id :: EventsOf(db', o) == EventsOf(db, o))
            && (outcome != Unreachable && outcome != Corrected ==> db' == db)
  {
    ObservationMeaning(db, id, false);
  }

  /** What a tick came upon: the tables when it looked the desired deployment up, when it read revision
      and targets, and tables, router and link when it was about to push. Other requests act in between. */
  datatype Sights = Sights(atRead: Db, atCompare: Db, atPut: Db, router: Config, link: Link)

  /** One tick, as its caller can tell afterwards. */
  datatype TickRecord = TickRecord(
    result: ReconcileResult,
    affected: seq<DeploymentId>,
    found: Option<DeploymentId>,
    sights: Sights)

  /** Without an answer to its GET a tick marks every affected deployment. With one it does, from what it read
      and on the router as it finds it at the PUT, what the protocol's compare and put steps do, and leaves
      exactly their events. */
  ghost predicate TickMade(before: Db, link: Link, held: Config, settings: Settings, tick: TickRecord, after: Db,
                           final: Config) {
    && OthersActed(before, after, {})
    && (link != Up ==>
          && tick.result.outcome == Unreachable && final == held
          && OnePerModel(before, tick.affected)
          && (forall m | HasRouting(before, m) :: Represented(before, tick.affected, m))
          && Marked(before, after, tick.affected)
          && after == before.(events := after.events))
    && (link == Up && tick.found.None? ==>
          && tick.result == NOTHING && after == tick.sights.atRead && final == held
          && (|| held.modelName == ""
              || !HasRouting(tick.sights.atRead, held.modelName)
              || exists id :: IsAuthoritative(tick.sights.atRead, held.modelName, id)
                              && id !in tick.sights.atRead.allocations))
    && (link == Up && tick.found.Some? ==>
          Ticked(held, settings, tick.found.value, tick.sights, tick.result, after, final))
  }

  /** One tick. */
  method ReconcileRouterState(database: Database, gateway: RouterGateway)
    returns (result: ReconcileResult, ghost tick: TickRecord)
    modifies database, gateway`link, gateway.router.store
    ensures result == tick.result
    ensures TickMade(old(database.Contents()), old(gateway.link), old(gateway.router.store.config),
                     gateway.router.settings, tick, database.Contents(), gateway.router.store.config)
  {
    result := NOTHING;
    tick := TickRecord(result, [], None,
                       Sights(database.Contents(), database.Contents(), database.Contents(),
                              gateway.router.store.config, gateway.link));
    var seen := gateway.GetObservedConfig();
    if seen.None? {
      ghost var affected := NobodyAnswers(database);
      result := NOTHING.(outcome := Unreachable);
      tick := tick.(result := result, affected := affected);
      return;
    }
    var observed := seen.value;
    if observed.modelName == "" {
      return;
    }
    database.Elapse({});
    tick := tick.(sights := tick.sights.(atRead := database.Contents()));
    var desired := database.GetAuthoritativeAllocation(observed.modelName);
    if desired.None? || desired.value !in database.allocations {
      return;
    }
    ghost var atRead := database.Contents();
    ghost var sights;
    result, sights := FinishTick(database, gateway, observed, desired.value);
    tick := TickRecord(result, [], desired, sights);
    OthersTwice(old(database.Contents()), atRead, database.Contents());
  }

  /** The GET failed. */
  method NobodyAnswers(database: Database) returns (ghost affected: seq<DeploymentId>)
    modifies database`events
    ensures OnePerModel(old(database.Contents()), affected)
    ensures forall m | HasRouting(old(database.Contents()), m) :: Represented(old(database.Contents()), affected, m)
    ensures Marked(old(database.Contents()), database.Contents(), affected)
    ensures database.Contents() == old(database.Contents()).(events := database.events)
    ensures OthersActed(old(database.Contents()), database.Contents(), {})
  {
    var ids := AllAuthoritativeDeployments(database);
    affected := ids;
    MarkUnreachable(database, ids);
  }

  /** The GET succeeded and `id` is what the router should be serving. */
  method FinishTick(database: Database, gateway: RouterGateway, observed: Config, id: DeploymentId)
    returns (result: ReconcileResult, ghost sights: Sights)
    requires observed.modelName != "" && IsAuthoritative(database.Contents(), observed.modelName, id)
    requires id in database.allocations
    modifies database, gateway`link, gateway.router.store
    ensures sights.atRead == old(database.Contents())
    ensures Ticked(observed, gateway.router.settings, id, sights, result, database.Contents(),
                   gateway.router.store.config)
    ensures OthersActed(old(database.Contents()), database.Contents(), {})
  {
    ghost var atRead := database.Contents();
    var allocation := ReadDesired(database, id);
    ghost var atCompare := database.Contents();
    database.Elapse({});
    gateway.Elapse();
    sights := Sights(atRead, atCompare, database.Contents(), gateway.router.store.config, gateway.link);
    result := CompareAndPush(database, gateway, observed, id, allocation, atCompare.allocations);
    OnlyOthersAndLogs(atRead, atCompare, sights.atPut, id, result.outcome,
                      RouterReconciled(observed.deploymentId, observed.revision, id, allocation.revision));
  }

  /** The router has answered: say so if it had not, and read what it should be serving. A recovery is
      committed, which expires what the lookup had loaded; otherwise that is still at hand. */
  method ReadDesired(database: Database, id: DeploymentId) returns (allocation: Allocation)
    requires id in database.allocations
    modifies database
    ensures id in database.allocations && allocation == database.allocations[id]
    ensures Recorded(old(database.Contents()), id, database.Contents())
  {
    allocation := database.allocations[id];
    var recovers := WasUnreachable(EventsOf(database.Contents(), id));
    database.RecordRouterReachabilityChange(id, true);
    if recovers {
      database.Elapse({});
      allocation := database.allocations[id];
    }
  }

  /** The recovery of `id` is on record if there was one; then, and only then, others may have acted. */
  ghost predicate Recorded(before: Db, id: DeploymentId, after: Db) {
    && OthersActed(RecordReachability(before, id, true), after, {})
    && (!WasUnreachable(EventsOf(before, id)) ==> after == before)
  }

  lemma OnlyOthersAndLogs(atRead: Db, atCompare: Db, atPut: Db, id: DeploymentId, outcome: TickOutcome, drift: Event)
    requires Recorded(atRead, id, atCompare) && OthersActed(atCompare, atPut, {})
    ensures OthersActed(atRead, TickEvents(atPut, id, outcome, drift), {})
  {
    TickOnlyLogs(atPut, id, outcome, drift);
    RecordingOnlyLogs(atRead, id, true);
    OthersTwice(atRead, RecordReachability(atRead, id, true), atCompare);
    OthersTwice(atRead, atCompare, atPut);
    OthersTwice(atRead, atPut, TickEvents(atPut, id, outcome, drift));
  }

  lemma TickOnlyLogs(db: Db, id: DeploymentId, outcome: TickOutcome, drift: Event)
    ensures OthersActed(db, TickEvents(db, id, outcome, drift), {})
  {
  }

  /** A tick that found `id` to be desired. */
  ghost predicate Ticked(observed: Config, settings: Settings, id: DeploymentId, sights: Sights,
                         result: ReconcileResult, after: Db, final: Config) {
    && observed.modelName != ""
    && IsAuthoritative(sights.atRead, observed.modelName, id) && id in sights.atRead.allocations
    && Recorded(sights.atRead, id, sights.atCompare) && id in sights.atCompare.allocations
    && OthersActed(sights.atCompare, sights.atPut, {})
    && AsTheProtocol(sights.atCompare.allocations, settings, observed, id, sights.router, sights.link,
                     result.outcome, final)
    && after == TickEvents(sights.atPut, id, result.outcome,
                           RouterReconciled(observed.deploymentId, observed.revision, id,
                                            sights.atCompare.allocations[id].revision))
  }

  /** The second half of the tick: compare deployment and revision, push if they differ. */
  method CompareAndPush(database: Database, gateway: RouterGateway, observed: Config, id: DeploymentId,
                        allocation: Allocation, ghost allocations: map<DeploymentId, Allocation>)
    returns (result: ReconcileResult)
    requires id in allocations && allocation == allocations[id]
    modifies database`events, gateway.router.store
    ensures AsTheProtocol(allocations, gateway.router.settings, observed, id, old(gateway.router.store.config),
                          gateway.link, result.outcome, gateway.router.store.config)
    ensures result == if result.Reconciled()
                      then ReconcileResult(Corrected, Some(id), observed.revision, allocation.revision)
                      else NOTHING.(outcome := result.outcome)
    ensures database.Contents() ==
            TickEvents(old(database.Contents()), id, result.outcome,
                       RouterReconciled(observed.deploymentId, observed.revision, id, allocation.revision))
    ensures result.outcome ==
            if observed.deploymentId == Some(id) && observed.revision == allocation.revision then InSync
            else if gateway.link != Up then Unreachable
            else match Answer(gateway.router.settings, old(gateway.router.store.config),
                              PushOf(id, observed.modelName, allocation))
              case Applied => Corrected
              case Stale => InSyncRace
              case Rejected => Unreachable
  {
    if observed.deploymentId == Some(id) && observed.revision == allocation.revision {
      SkipIsProtocol(allocations, gateway.router.settings, observed, id, gateway.router.store.config, gateway.link);
      return NOTHING.(outcome := InSync);
    }
    PushIsProtocol(allocations, gateway.router.settings, observed, id, gateway.router.store.config, gateway.link);
    var pushed := gateway.PushTrafficAllocation(PushOf(id, observed.modelName, allocation));
    match pushed {
      case StaleRevision =>
        result := NOTHING.(outcome := InSyncRace);
      case UpdateFailed =>
        database.RecordRouterReachabilityChange(id, false);
        result := NOTHING.(outcome := Unreachable);
      case Delivered =>
        database.events := database.events[id := EventsOf(database.Contents(), id)
          + [RouterReconciled(observed.deploymentId, observed.revision, id, allocation.revision)]];
        result := ReconcileResult(Corrected, Some(id), observed.revision, allocation.revision);
    }
  }

  /** How a PUT ends in the protocol: put, lost, or delivered with its answer lost. */
  ghost function PutEnds(compared: State, push: Config, link: Link): State {
    match link
    case Up => DoTickPut(compared, 0)
    case RequestLost => DoTickLost(compared, 0)
    case ResponseLost => DoTickLost(Effect(compared, Deliver(push)), 0)
  }

  /** The tick's outcome and the router it leaves are those of the protocol's own steps. */
  ghost predicate AsTheProtocol(allocations: map<DeploymentId, Allocation>, settings: Settings, observed: Config,
                                id: DeploymentId, atPut: Config, link: Link, outcome: TickOutcome, final: Config) {
    var compared := DoTickCompare(TickState(allocations, settings, Found(observed, id), atPut), 0);
    && compared.ticks.Keys == {0}
    && match compared.ticks[0]
       case Done(o) => outcome == o && final == atPut
       case Pushing(push) =>
         var put := PutEnds(compared, push, link);
         put.ticks.Keys == {0} && put.ticks[0] == Done(outcome) && put.router == Serving(final)
       case _ => false
  }

  lemma SkipIsProtocol(allocations: map<DeploymentId, Allocation>, settings: Settings, observed: Config,
                       id: DeploymentId,
                       atPut: Config, link: Link)
    requires id in allocations && observed.deploymentId == Some(id) && observed.revision == allocations[id].revision
    ensures AsTheProtocol(allocations, settings, observed, id, atPut, link, InSync, atPut)
  {
  }

  lemma PushIsProtocol(allocations: map<DeploymentId, Allocation>, settings: Settings, observed: Config,
                       id: DeploymentId,
                       atPut: Config, link: Link)
    requires id in allocations && !(observed.deploymentId == Some(id) && observed.revision == allocations[id].revision)
    ensures var push := PushOf(id, observed.modelName, allocations[id]);
            var outcome := match OutcomeOf(link, Answer(settings, atPut, push))
              case Delivered => Corrected
              case StaleRevision => InSyncRace
              case UpdateFailed => Unreachable;
            AsTheProtocol(allocations, settings, observed, id, atPut, link, outcome,
                          Received(link, settings, atPut, push))
  {
  }

  // ---------------------------------------------------------------------------------------------
  // A tick, told from what it met

  /** Once it knows what the router should serve, a tick does nothing if the router reported this deployment at
      this revision; otherwise it pushes, and the router's answer over the link is its outcome. */
  ghost predicate AsAnswered(desired: Allocation, settings: Settings, observed: Config, id: DeploymentId,
                             atPut: Config, link: Link, outcome: TickOutcome, final: Config) {
    var push := Config(observed.modelName, desired.targets, Some(id), desired.revision);
    if observed.deploymentId == Some(id) && observed.revision == desired.revision then
      outcome == InSync && final == atPut
    else
      && (outcome == Corrected <==> link == Up && Answer(settings, atPut, push) == Applied)
      && (outcome == InSyncRace <==> link == Up && Answer(settings, atPut, push) == Stale)
      && (outcome == Unreachable <==> link != Up || Answer(settings, atPut, push) == Rejected)
      && final == if link != RequestLost && Answer(settings, atPut, push) == Applied then push else atPut
  }

  lemma OutcomeMeaning(allocations: map<DeploymentId, Allocation>, settings: Settings, observed: Config,
                       id: DeploymentId, atPut: Config, link: Link, outcome: TickOutcome, final: Config)
    requires id in allocations && AsTheProtocol(allocations, settings, observed, id, atPut, link, outcome, final)
    ensures AsAnswered(allocations[id], settings, observed, id, atPut, link, outcome, final)
  {
    if observed.deploymentId == Some(id) && observed.revision == allocations[id].revision {
      SkipIsProtocol(allocations, settings, observed, id, atPut, link);
    } else {
      PushIsProtocol(allocations, settings, observed, id, atPut, link);
    }
  }

  /** What the tick writes on the way, on the logs themselves: a GET that failed, and one that was answered. */
  lemma MarkedMeaning(before: Db, after: Db, ids: seq<DeploymentId>)
    requires Marked(before, after, ids)
    ensures forall id :: EventsOf(after, id) == EventsOf(before, id) +
                if id in ids && !LastSaysUnreachable(EventsOf(before, id)) then [RouterUnreachable] else []
  {
    forall id ensures EventsOf(after, id) == EventsOf(before, id) +
                        if id in ids && !LastSaysUnreachable(EventsOf(before, id)) then [RouterUnreachable] else []
    {
      MemoryMeaning(EventsOf(before, id));
    }
  }

  lemma RecordedMeaning(before: Db, id: DeploymentId, after: Db)
    requires Recorded(before, id, after)
    ensures if LastSaysUnreachable(EventsOf(before, id))
            then EventsOf(before, id) + [RouterRecovered] <= EventsOf(after, id)
            else after == before
  {
    ObservationMeaning(before, id, true);
    MemoryMeaning(EventsOf(before, id));
  }

  /** One tick. A GET that is not answered puts an unreachable event on every affected log that did not say so
      already; an answered one puts a recovered event on the log of the desired deployment if that said
      unreachable. Then the tick compares and pushes, on the revision and targets as they are by then, and
      puts a correction on record, or an unreachable event if the log did not say so. */
  lemma TickMeaning(before: Db, link: Link, held: Config, settings: Settings, tick: TickRecord, after: Db,
                    final: Config)
    requires TickMade(before, link, held, settings, tick, after, final)
    ensures link != Up ==>
              forall id :: EventsOf(after, id) == EventsOf(before, id) +
                if id in tick.affected && !LastSaysUnreachable(EventsOf(before, id)) then [RouterUnreachable] else []
    ensures link == Up && tick.found.Some? ==>
              var (id, sights) := (tick.found.value, tick.sights);
              && id in sights.atCompare.allocations
              && (if LastSaysUnreachable(EventsOf(sights.atRead, id))
                  then EventsOf(sights.atRead, id) + [RouterRecovered] <= EventsOf(sights.atCompare, id)
                  else sights.atCompare == sights.atRead)
              && var desired := sights.atCompare.allocations[id];
              && AsAnswered(desired, settings, held, id, sights.router, sights.link, tick.result.outcome, final)
              && match tick.result.outcome
                 case Corrected =>
                   EventsOf(after, id) == EventsOf(sights.atPut, id)
                     + [RouterReconciled(held.deploymentId, held.revision, id, desired.revision)]
                 case Unreachable => Noted(sights.atPut, id, false, after)
                 case _ => after == sights.atPut
  {
    if link != Up {
      MarkedMeaning(before, after, tick.affected);
    } else if tick.found.Some? {
      var (id, sights) := (tick.found.value, tick.sights);
      RecordedMeaning(sights.atRead, id, sights.atCompare);
      TickLog(sights.atPut, id, tick.result.outcome,
              RouterReconciled(held.deploymentId, held.revision, id, sights.atCompare.allocations[id].revision));
      OutcomeMeaning(sights.atCompare.allocations, settings, held, id, sights.router, sights.link,
                     tick.result.outcome, final);
    }
  }
}
