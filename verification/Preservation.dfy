/** A committed write keeps the database part of the invariant. */
module Preservation {
  import opened Prelude
  import opened Models
  import opened Rollout
  import opened Weights
  import opened Audit
  import opened Protocol
  import opened Invariant

  // ---------------------------------------------------------------------------------------------
  // A committed write

  /** The targets a draft leaves behind. */
  ghost function TargetsAfter(draft: Draft, before: Allocation): seq<Target> {
    if draft.allocation.Some? then draft.allocation.value.targets else before.targets
  }

  /** A draft that may be committed over row `d`: what the six operations have in common. */
  ghost predicate GoodDraft(d: Deployment, a: Allocation, generation: nat, clock: Time, draft: Draft) {
    && !d.status.IsTerminal()
    && draft.row == d.(status := draft.row.status, retryCount := draft.row.retryCount,
                       paused := draft.row.paused, completedAt := draft.row.completedAt)
    && DeploymentOk(draft.row, TargetsAfter(draft, a))
    && InThePast(draft.row, clock)
    && (draft.allocation.Some? ==> draft.allocation.value.revision == generation + 1)
    && (draft.row.status.IsTerminal() ==> draft.row.completedAt.Some? && draft.row.completedAt.value > d.createdAt)
  }

  lemma AdvanceIsGood(d: Deployment, a: Allocation, generation: nat, now: Time, clock: Time)
    requires DeploymentOk(d, a.targets) && InThePast(d, clock)
    requires PlanAdvance(d, Some(a), Some(generation)).Write?
    ensures GoodDraft(d, a, generation, clock, PlanAdvance(d, Some(a), Some(generation)).draft)
  {
    var weight := CanaryWeight(Some(a), d.canaryVersion);
    NextStageMeaning(weight);
    SplitIsConserved(NextStage(weight).value);
  }

  lemma PlansAreGood(action: Action, d: Deployment, a: Allocation, generation: nat, now: Time, clock: Time)
    requires DeploymentOk(d, a.targets) && InThePast(d, clock)
    requires d.createdAt < now < clock
    requires PlanFor(action, d, Some(a), Some(generation), now).Write?
    ensures GoodDraft(d, a, generation, clock, PlanFor(action, d, Some(a), Some(generation), now).draft)
  {
    var draft := PlanFor(action, d, Some(a), Some(generation), now).draft;
    match action
    case Promote => ConcludeMeaning(action, d, Some(a), Some(generation), now);
    case Rollback => ConcludeMeaning(action, d, Some(a), Some(generation), now);
    case Advance => AdvanceIsGood(d, a, generation, now, clock);
    case RecordInconclusive => InconclusiveMeaning(d, now);
    case Pause =>
    case Resume =>
  }

  lemma CommitKeepsRows(db: Db, clock: Time, id: DeploymentId, generation: nat, draft: Draft)
    requires RowsOk(db, clock) && id in db.deployments
    requires GoodDraft(db.deployments[id], db.allocations[id], generation, clock, draft)
    ensures RowsOk(Persist(db, id, draft), clock)
  {
    var db' := Persist(db, id, draft);
    forall o | o in db'.deployments ensures RowOk(db', clock, o) {
      assert o in db.deployments && RowOk(db, clock, o);
    }
  }

  /** What the invariant says of one pair of rows of a model. */
  lemma PairOf(db: Db, clock: Time, a: DeploymentId, b: DeploymentId)
    requires RowsOk(db, clock) && OrderOk(db) && a in db.deployments && b in db.deployments && a != b
    requires db.deployments[a].modelName == db.deployments[b].modelName
    ensures InOrder(db.deployments[a], db.allocations[a].revision, db.deployments[b], db.allocations[b].revision)
    ensures InOrder(db.deployments[b], db.allocations[b].revision, db.deployments[a], db.allocations[a].revision)
    ensures db.deployments[a].status.IsTerminal() ==> db.deployments[a].completedAt.Some?
    ensures db.deployments[b].status.IsTerminal() ==> db.deployments[b].completedAt.Some?
  {
    assert RowOk(db, clock, a) && RowOk(db, clock, b);
  }

  /** A non-terminal row holds its model's latest revision. */
  lemma LiveRowIsLatest(db: Db, history: map<ModelName, seq<Commitment>>, clock: Time, id: DeploymentId)
    requires DbOk(db, history, clock)
    requires id in db.deployments && !db.deployments[id].status.IsTerminal()
    ensures var m := db.deployments[id].modelName;
            m in db.generations && db.allocations[id].revision == db.generations[m]
  {
    var m := db.deployments[id].modelName;
    assert EntryOk(db, history, id) && LatestOk(db, history[m], m, db.generations[m]);
    var last := history[m][|history[m]| - 1].id;
    if last != id {
      PairOf(db, clock, last, id);
    }
  }

  lemma CommitKeepsUnique(db: Db, id: DeploymentId, draft: Draft)
    requires UniqueOk(db) && id in db.deployments && !db.deployments[id].status.IsTerminal()
    requires draft.row == db.deployments[id].(status := draft.row.status, retryCount := draft.row.retryCount,
                                              paused := draft.row.paused, completedAt := draft.row.completedAt)
    ensures UniqueOk(Persist(db, id, draft))
  {
    var db' := Persist(db, id, draft);
    forall a, b | a in db'.deployments && b in db'.deployments && a != b
      ensures UniquePair(db'.deployments[a], db'.deployments[b])
    {
      assert UniquePair(db.deployments[a], db.deployments[b]);
    }
  }

  /** Rewriting the live row of a pair keeps the pair in order: its new decision is later than the
      decided row in time and in revision. */
  lemma RewriteKeepsOrder(d: Deployment, revD: nat, d': Deployment, revD': nat, e: Deployment, revE: nat)
    requires !d.status.IsTerminal() && e.completedAt.Some?
    requires InOrder(e, revE, d, revD)
    requires d'.createdAt == d.createdAt && revD' >= revD
    requires d'.status.IsTerminal() ==> d'.completedAt.Some? && d'.completedAt.value > d'.createdAt
    ensures InOrder(d', revD', e, revE) && InOrder(e, revE, d', revD')
  {
  }

  /** The revision a draft leaves behind. */
  ghost function RevisionAfter(draft: Draft, before: Allocation): nat {
    if draft.allocation.Some? then draft.allocation.value.revision else before.revision
  }

  lemma CommitKeepsOrder(db: Db, clock: Time, id: DeploymentId, draft: Draft)
    requires RowsOk(db, clock) && OrderOk(db) && id in db.deployments && !db.deployments[id].status.IsTerminal()
    requires draft.row.createdAt == db.deployments[id].createdAt
    requires draft.row.modelName == db.deployments[id].modelName
    requires draft.row.status.IsTerminal() ==>
               draft.row.completedAt.Some? && draft.row.completedAt.value > draft.row.createdAt
    requires RevisionAfter(draft, db.allocations[id]) >= db.allocations[id].revision
    ensures var db' := Persist(db, id, draft);
            db'.allocations.Keys == db'.deployments.Keys && OrderOk(db')
  {
    var db' := Persist(db, id, draft);
    var d, d' := db.deployments[id], db'.deployments[id];
    var rev, rev' := db.allocations[id].revision, db'.allocations[id].revision;
    forall b | b in db.deployments && b != id && db.deployments[b].modelName == d.modelName
      ensures InOrder(d', rev', db.deployments[b], db.allocations[b].revision)
      ensures InOrder(db.deployments[b], db.allocations[b].revision, d', rev')
    {
      PairOf(db, clock, id, b);
      RewriteKeepsOrder(d, rev, d', rev', db.deployments[b], db.allocations[b].revision);
    }
  }

  lemma CommitKeepsLogs(db: Db, id: DeploymentId, draft: Draft)
    requires LogsOk(db) && id in db.deployments
    requires ReplayFrom(AuditOf(db.deployments[id]), draft.events) == Some(AuditOf(draft.row))
    ensures LogsOk(Persist(db, id, draft))
  {
    var db' := Persist(db, id, draft);
    forall o | o in db'.deployments ensures LogOk(db'.deployments[o], db'.events[o]) {
      assert LogOk(db.deployments[o], db.events[o]);
      if o == id {
        ReplayAppend(START, db.events[id], draft.events);
      }
    }
  }

  /** History only grows: what was committed stays committed. */
  lemma HistoryGrows(s: State, id: DeploymentId, draft: Draft, m: ModelName, i: DeploymentId, r: nat, t: seq<Target>)
    requires IsCommitted(s.history, m, i, r, t)
    ensures IsCommitted(Committed(s, id, draft).history, m, i, r, t)
  {
  }

  /** The write is stamped with the next revision of its model, and a row never changes model. */
  ghost predicate Stamped(s: State, id: DeploymentId, draft: Draft) {
    && (id in s.db.deployments ==> draft.row.modelName == s.db.deployments[id].modelName)
    && (id !in s.db.deployments ==> draft.allocation.Some?)
    && (draft.allocation.Some? ==>
          draft.allocation.value.revision == NextGeneration(GenerationOf(s.db, draft.row.modelName)))
  }

  lemma NewEntry(s: State, id: DeploymentId, draft: Draft)
    requires GenerationsOk(s.db, s.history) && Stamped(s, id, draft) && draft.allocation.Some?
    ensures IsCommitted(Committed(s, id, draft).history, draft.row.modelName, id,
                        draft.allocation.value.revision, draft.allocation.value.targets)
  {
    var m := draft.row.modelName;
    assert m in s.history ==> LatestOk(s.db, s.history[m], m, s.db.generations[m]);
  }

  lemma CommitKeepsEntries(s: State, id: DeploymentId, draft: Draft)
    requires s.db.allocations.Keys == s.db.deployments.Keys && HistoryOk(s.db, s.history) && Stamped(s, id, draft)
    ensures var s' := Committed(s, id, draft);
            s'.db.allocations.Keys == s'.db.deployments.Keys && EntriesOk(s'.db, s'.history)
  {
    var s' := Committed(s, id, draft);
    forall o | o in s'.db.deployments ensures EntryOk(s'.db, s'.history, o) {
      if o == id && draft.allocation.Some? {
        NewEntry(s, id, draft);
      } else {
        assert EntryOk(s.db, s.history, o);
        HistoryGrows(s, id, draft, s.db.deployments[o].modelName, o, s.db.allocations[o].revision,
                     s.db.allocations[o].targets);
      }
    }
  }

  lemma LatestAfterCommit(s: State, id: DeploymentId, draft: Draft, m: ModelName)
    requires s.db.allocations.Keys == s.db.deployments.Keys && Stamped(s, id, draft)
    requires m in s.history ==> m in s.db.generations && LatestOk(s.db, s.history[m], m, s.db.generations[m])
    requires m !in s.history ==> m !in s.db.generations
    requires m in Committed(s, id, draft).history
    ensures var s' := Committed(s, id, draft);
            m in s'.db.generations && LatestOk(s'.db, s'.history[m], m, s'.db.generations[m])
  {
  }

  lemma CommitKeepsGenerations(s: State, id: DeploymentId, draft: Draft)
    requires s.db.allocations.Keys == s.db.deployments.Keys && HistoryOk(s.db, s.history) && Stamped(s, id, draft)
    ensures GenerationsOk(Committed(s, id, draft).db, Committed(s, id, draft).history)
  {
    var s' := Committed(s, id, draft);
    forall m | m in s'.history
      ensures m in s'.db.generations && LatestOk(s'.db, s'.history[m], m, s'.db.generations[m])
    {
      assert m in s.history ==> LatestOk(s.db, s.history[m], m, s.db.generations[m]);
      LatestAfterCommit(s, id, draft, m);
    }
  }

  /** The six operations keep the database invariant, given that what the session read is what the
      database holds now. */
  lemma ActionKeepsDb(s: State, id: DeploymentId, action: Action, now: Time)
    requires DbOk(s.db, s.history, s.clock) && id in s.db.deployments
    requires s.db.deployments[id].createdAt < now < s.clock
    requires PlanFor(action, s.db.deployments[id], AllocationOf(s.db, id),
                     GenerationOf(s.db, s.db.deployments[id].modelName), now).Write?
    ensures var draft := PlanFor(action, s.db.deployments[id], AllocationOf(s.db, id),
                                 GenerationOf(s.db, s.db.deployments[id].modelName), now).draft;
            var s' := Committed(s, id, draft);
            DbOk(s'.db, s'.history, s.clock)
  {
    assert RowOk(s.db, s.clock, id);
    RevisionBounded(s.db, s.history, id);
    var d, a, g := s.db.deployments[id], s.db.allocations[id], s.db.generations[s.db.deployments[id].modelName];
    PlansAreGood(action, d, a, g, now, s.clock);
    PlanReplays(action, d, Some(a), Some(g), now);
    var draft := PlanFor(action, d, Some(a), Some(g), now).draft;
    LiveRowIsLatest(s.db, s.history, s.clock, id);
    CommitKeepsRows(s.db, s.clock, id, g, draft);
    CommitKeepsLogs(s.db, id, draft);
    CommitKeepsUnique(s.db, id, draft);
    CommitKeepsOrder(s.db, s.clock, id, draft);
    CommitKeepsEntries(s, id, draft);
    CommitKeepsGenerations(s, id, draft);
  }

  // ---------------------------------------------------------------------------------------------
  // A committed INSERT

  lemma OccupiedMeans(db: Db, m: ModelName, id: DeploymentId)
    requires !Occupied(db, m) && id in db.deployments && db.deployments[id].modelName == m
    ensures db.deployments[id].status.IsTerminal()
  {
  }

  lemma InsertKeepsRows(db: Db, clock: Time, id: DeploymentId, request: CreateRequest)
    requires RowsOk(db, clock) && id !in db.deployments && request.Valid()
    ensures RowsOk(Persist(db, id, FreshDraft(request, GenerationOf(db, request.modelName), clock)), clock + 1)
  {
    var db' := Persist(db, id, FreshDraft(request, GenerationOf(db, request.modelName), clock));
    SplitIsConserved(request.canaryWeight);
    forall o | o in db'.deployments ensures RowOk(db', clock + 1, o) {
      assert o != id ==> RowOk(db, clock, o);
    }
  }

  lemma InsertKeepsLogs(db: Db, id: DeploymentId, request: CreateRequest, g: Option<nat>, clock: Time)
    requires LogsOk(db) && id !in db.deployments
    ensures LogsOk(Persist(db, id, FreshDraft(request, g, clock)))
  {
    var draft := FreshDraft(request, g, clock);
    var db' := Persist(db, id, draft);
    FreshReplays(request, g, clock);
    assert [] + draft.events == draft.events;
    forall o | o in db'.deployments ensures LogOk(db'.deployments[o], db'.events[o]) {
      assert o != id ==> LogOk(db.deployments[o], db.events[o]);
    }
  }

  lemma InsertKeepsUnique(db: Db, id: DeploymentId, request: CreateRequest, g: Option<nat>, clock: Time)
    requires UniqueOk(db) && id !in db.deployments
    requires !KeyTaken(db, request.idempotencyKey) && !Occupied(db, request.modelName)
    ensures UniqueOk(Persist(db, id, FreshDraft(request, g, clock)))
  {
  }

  lemma RevisionBounded(db: Db, history: map<ModelName, seq<Commitment>>, id: DeploymentId)
    requires db.allocations.Keys == db.deployments.Keys && HistoryOk(db, history) && id in db.deployments
    ensures var m := db.deployments[id].modelName;
            m in db.generations && 1 <= db.allocations[id].revision <= db.generations[m]
  {
    var m := db.deployments[id].modelName;
    assert EntryOk(db, history, id);
    assert LatestOk(db, history[m], m, db.generations[m]);
  }

  lemma InsertKeepsOrder(db: Db, history: map<ModelName, seq<Commitment>>, clock: Time,
                         id: DeploymentId, draft: Draft)
    requires RowsOk(db, clock) && OrderOk(db) && HistoryOk(db, history)
    requires id !in db.deployments && !Occupied(db, draft.row.modelName)
    requires !draft.row.status.IsTerminal() && draft.row.createdAt == clock && draft.allocation.Some?
    requires draft.allocation.value.revision == NextGeneration(GenerationOf(db, draft.row.modelName))
    ensures var db' := Persist(db, id, draft);
            db'.allocations.Keys == db'.deployments.Keys && OrderOk(db')
  {
    var db' := Persist(db, id, draft);
    forall b | b in db.deployments && db.deployments[b].modelName == draft.row.modelName
      ensures InOrder(db'.deployments[id], db'.allocations[id].revision, db.deployments[b], db.allocations[b].revision)
      ensures InOrder(db.deployments[b], db.allocations[b].revision, db'.deployments[id], db'.allocations[id].revision)
    {
      assert RowOk(db, clock, b);
      OccupiedMeans(db, draft.row.modelName, b);
      RevisionBounded(db, history, b);
    }
  }

  lemma InsertKeepsDb(s: State, id: DeploymentId, request: CreateRequest)
    requires DbOk(s.db, s.history, s.clock) && id !in s.db.deployments && request.Valid()
    requires Insert(s.db, id, request, s.clock).Success?
    ensures var s' := Committed(s, id, FreshDraft(request, GenerationOf(s.db, request.modelName), s.clock));
            DbOk(s'.db, s'.history, s.clock + 1)
  {
    var g := GenerationOf(s.db, request.modelName);
    InsertKeepsRows(s.db, s.clock, id, request);
    InsertKeepsLogs(s.db, id, request, g, s.clock);
    InsertKeepsUnique(s.db, id, request, g, s.clock);
    var draft := FreshDraft(request, g, s.clock);
    InsertKeepsOrder(s.db, s.history, s.clock, id, draft);
    CommitKeepsEntries(s, id, draft);
    CommitKeepsGenerations(s, id, draft);
  }
}
