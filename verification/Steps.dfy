/** Every step of the protocol keeps the invariant, hence so does every run. */
module Steps {
  import opened Prelude
  import opened Models
  import opened Rollout
  import opened Routing
  import opened Audit
  import opened Protocol
  import opened Invariant
  import opened Preservation

  // ---------------------------------------------------------------------------------------------
  // What a committed write leaves true for everybody else

  /** Nobody but `id` is rolling out model `m`. */
  ghost predicate Exclusive(db: Db, id: DeploymentId, m: ModelName) {
    forall o | o in db.deployments && o != id && db.deployments[o].modelName == m ::
      db.deployments[o].status.IsTerminal()
  }

  ghost predicate Writes(s: State, id: DeploymentId, draft: Draft) {
    && Exclusive(s.db, id, draft.row.modelName)
    && (id in s.db.deployments ==> draft.row.versionId == s.db.deployments[id].versionId)
    && (id in s.db.deployments ==> draft.row.createdAt == s.db.deployments[id].createdAt)
  }

  /** Optimistic locking from the other side: a session on the same row becomes stale; a session
      that is still current has lost nothing it read. */
  lemma SessionAfterCommit(s: State, id: DeploymentId, draft: Draft, x: Session)
    requires SessionOk(s.db, s.clock, x) && Writes(s, id, draft)
    ensures SessionOk(Committed(s, id, draft).db, s.clock + 1, x)
  {
  }

  lemma ConfigAfterCommit(s: State, id: DeploymentId, draft: Draft, c: Config)
    requires ConfigOk(s.settings, s.history, c)
    ensures ConfigOk(s.settings, Committed(s, id, draft).history, c)
  {
    if c.revision >= 1 {
      HistoryGrows(s, id, draft, c.modelName, c.deploymentId.value, c.revision, c.targets);
    } else if c != Bootstrap(s.settings) {
      var r: nat :| IsCommitted(s.history, c.modelName, c.deploymentId.value, r, c.targets);
      HistoryGrows(s, id, draft, c.modelName, c.deploymentId.value, r, c.targets);
    }
  }

  lemma PushAfterCommit(s: State, id: DeploymentId, draft: Draft, c: Config)
    requires PushOk(s.history, c)
    ensures PushOk(Committed(s, id, draft).history, c)
  {
  }

  lemma TickAfterCommit(s: State, id: DeploymentId, draft: Draft, tick: Tick)
    requires TickOk(s, tick)
    requires id in s.db.deployments ==> draft.row.modelName == s.db.deployments[id].modelName
    ensures TickOk(Committed(s, id, draft), tick)
  {
    match tick
    case Observed(config) => ConfigAfterCommit(s, id, draft, config);
    case Found(config, _) => ConfigAfterCommit(s, id, draft, config);
    case Pushing(push) => PushAfterCommit(s, id, draft, push);
    case Done(_) =>
  }

  lemma RouterAfterCommit(s: State, id: DeploymentId, draft: Draft)
    requires RouterOk(s)
    requires id in s.db.deployments ==> draft.row.modelName == s.db.deployments[id].modelName
    ensures RouterOk(Committed(s, id, draft))
  {
    match s.router
    case Booting =>
    case BootFound(_) =>
    case BootFetched(config) => ConfigAfterCommit(s, id, draft, config);
    case Serving(config) => ConfigAfterCommit(s, id, draft, config);
  }

  /** A committed write keeps what sessions, network, router and ticks know. */
  lemma CommitKeepsOthers(s: State, id: DeploymentId, draft: Draft, sid: SessionId, s': State)
    requires Inv(s) && Writes(s, id, draft) && Stamped(s, id, draft)
    requires s' == CloseSession(Committed(s, id, draft), sid).(clock := s.clock + 1)
    ensures SessionsOk(s') && NetworkOk(s') && RouterOk(s') && TicksOk(s')
  {
    forall x | x in s'.sessions ensures SessionOk(s'.db, s'.clock, s'.sessions[x]) {
      assert SessionOk(s.db, s.clock, s.sessions[x]);
      SessionAfterCommit(s, id, draft, s.sessions[x]);
    }
    forall push | push in s'.network ensures PushOk(s'.history, push) {
      if push in s.network {
        assert PushOk(s.history, push);
        PushAfterCommit(s, id, draft, push);
      } else {
        NewEntry(s, id, draft);
      }
    }
    RouterAfterCommit(s, id, draft);
    forall t | t in s'.ticks ensures TickOk(s', s'.ticks[t]) {
      assert TickOk(s, s.ticks[t]);
      TickAfterCommit(s, id, draft, s.ticks[t]);
      assert TickOk(Committed(s, id, draft), s.ticks[t]);
    }
  }

  /** What a session about to commit knows: exactly the database. */
  lemma CommitSeesTheDatabase(s: State, sid: SessionId)
    requires Inv(s) && Commits(s, sid)
    ensures var x := s.sessions[sid];
            && x.id in s.db.deployments
            && x.row == s.db.deployments[x.id]
            && !x.row.status.IsTerminal()
            && x.allocation.value == AllocationOf(s.db, x.id)
            && x.generation.value == GenerationOf(s.db, x.row.modelName)
            && x.row.createdAt < x.now.value < s.clock
  {
    var x := s.sessions[sid];
    assert SessionOk(s.db, s.clock, x);
    match x.action
    case Promote => ConcludeMeaning(x.action, x.row, x.allocation.value, x.generation.value, x.now.value);
    case Rollback => ConcludeMeaning(x.action, x.row, x.allocation.value, x.generation.value, x.now.value);
    case Advance =>
    case RecordInconclusive =>
    case Pause =>
    case Resume =>
  }

  lemma LiveRowIsExclusive(db: Db, id: DeploymentId)
    requires UniqueOk(db) && id in db.deployments && !db.deployments[id].status.IsTerminal()
    ensures Exclusive(db, id, db.deployments[id].modelName)
  {
    forall o | o in db.deployments && o != id && db.deployments[o].modelName == db.deployments[id].modelName
      ensures db.deployments[o].status.IsTerminal()
    {
      assert UniquePair(db.deployments[id], db.deployments[o]);
    }
  }

  lemma CommitActionKeepsDb(s: State, sid: SessionId)
    requires Inv(s) && Commits(s, sid)
    ensures var x := s.sessions[sid];
            var draft := PlanOf(x).draft;
            var s' := Committed(s, x.id, draft);
            && Writes(s, x.id, draft) && Stamped(s, x.id, draft)
            && DbOk(s'.db, s'.history, s.clock + 1)
  {
    CommitSeesTheDatabase(s, sid);
    var x := s.sessions[sid];
    ActionKeepsDb(s, x.id, x.action, x.now.value);
    LiveRowIsExclusive(s.db, x.id);
    DraftIsStamped(s, x.id, x.action, x.now.value);
    LaterIsStillPast(Committed(s, x.id, PlanOf(x).draft).db, Committed(s, x.id, PlanOf(x).draft).history, s.clock);
  }

  /** The draft of a committing session, restated over the database it meets. */
  lemma CommitActionKeepsInv(s: State, sid: SessionId)
    requires Inv(s) && Commits(s, sid)
    ensures Inv(Next(s, CommitAction(sid)))
  {
    var x := s.sessions[sid];
    CommitActionKeepsDb(s, sid);
    CommitKeepsOthers(s, x.id, PlanOf(x).draft, sid, Next(s, CommitAction(sid)));
  }

  lemma DraftIsStamped(s: State, id: DeploymentId, action: Action, now: Time)
    requires DbOk(s.db, s.history, s.clock) && id in s.db.deployments
    requires s.db.deployments[id].createdAt < now < s.clock
    requires PlanFor(action, s.db.deployments[id], AllocationOf(s.db, id),
                     GenerationOf(s.db, s.db.deployments[id].modelName), now).Write?
    ensures var draft := PlanFor(action, s.db.deployments[id], AllocationOf(s.db, id),
                                 GenerationOf(s.db, s.db.deployments[id].modelName), now).draft;
            && Stamped(s, id, draft)
            && draft.row.versionId == s.db.deployments[id].versionId
            && draft.row.createdAt == s.db.deployments[id].createdAt
  {
    var row := s.db.deployments[id];
    PlanKeepsIdentity(action, row, AllocationOf(s.db, id), GenerationOf(s.db, row.modelName), now);
    if action == Promote || action == Rollback {
      ConcludeMeaning(action, row, AllocationOf(s.db, id), GenerationOf(s.db, row.modelName), now);
    } else if action == RecordInconclusive {
      InconclusiveMeaning(row, now);
    }
  }

  lemma LaterIsStillPast(db: Db, history: map<ModelName, seq<Commitment>>, clock: Time)
    requires DbOk(db, history, clock)
    ensures DbOk(db, history, clock + 1)
  {
    forall id | id in db.deployments ensures RowOk(db, clock + 1, id) {
      assert RowOk(db, clock, id);
    }
  }

  lemma CommitCreateKeepsInv(s: State, sid: SessionId, id: DeploymentId)
    requires Inv(s) && sid in s.sessions && s.sessions[sid].Creating? && id !in s.db.deployments
    requires Insert(s.db, id, s.sessions[sid].request, s.clock).Success?
    ensures Inv(Next(s, CommitCreate(sid, id)))
  {
    var request := s.sessions[sid].request;
    assert SessionOk(s.db, s.clock, s.sessions[sid]);
    var draft := FreshDraft(request, GenerationOf(s.db, request.modelName), s.clock);
    InsertKeepsDb(s, id, request);
    CommitKeepsOthers(s, id, draft, sid, Next(s, CommitCreate(sid, id)));
  }

  // ---------------------------------------------------------------------------------------------
  // Steps that commit nothing to the routing tables

  /** The tables, the history and the settings untouched, time one tick later. */
  ghost predicate Quiet(s: State, s': State) {
    && s'.db == s.db && s'.history == s.history && s'.settings == s.settings
    && s'.clock == s.clock + 1
  }

  /** Only what a quiet step changed has to be looked at. */
  lemma QuietKeepsInv(s: State, s': State)
    requires Inv(s) && Quiet(s, s')
    requires forall x | x in s'.sessions ::
               (x in s.sessions && s'.sessions[x] == s.sessions[x]) || SessionOk(s'.db, s'.clock, s'.sessions[x])
    requires forall push | push in s'.network :: push in s.network || PushOk(s'.history, push)
    requires s'.router == s.router || RouterOk(s')
    requires forall t | t in s'.ticks :: (t in s.ticks && s'.ticks[t] == s.ticks[t]) || TickOk(s', s'.ticks[t])
    ensures Inv(s')
  {
    LaterIsStillPast(s.db, s.history, s.clock);
    forall x | x in s'.sessions ensures SessionOk(s'.db, s'.clock, s'.sessions[x]) {
      if x in s.sessions && s'.sessions[x] == s.sessions[x] {
        assert SessionOk(s.db, s.clock, s.sessions[x]);
        SessionLater(s.db, s.clock, s.sessions[x]);
      }
    }
    forall push | push in s'.network ensures PushOk(s'.history, push) {
      assert push in s.network ==> PushOk(s.history, push);
    }
    RouterFrame(s, s');
    forall t | t in s'.ticks ensures TickOk(s', s'.ticks[t]) {
      if t in s.ticks && s'.ticks[t] == s.ticks[t] {
        assert TickOk(s, s.ticks[t]);
        TickFrame(s, s', s.ticks[t]);
      }
    }
  }

  lemma SessionLater(db: Db, clock: Time, x: Session)
    requires SessionOk(db, clock, x)
    ensures SessionOk(db, clock + 1, x)
  {
  }

  lemma RouterFrame(s: State, s': State)
    requires Quiet(s, s') && RouterOk(s)
    ensures s'.router == s.router ==> RouterOk(s')
  {
  }

  lemma TickFrame(s: State, s': State, tick: Tick)
    requires Quiet(s, s') && TickOk(s, tick)
    ensures TickOk(s', tick)
  {
  }

  lemma OpenSessionOk(db: Db, clock: Time, action: Action, id: DeploymentId)
    requires RowsOk(db, clock) && id in db.deployments
    ensures SessionOk(db, clock + 1, Acting(action, id, db.deployments[id], None, None, None))
  {
    assert RowOk(db, clock, id);
  }

  /** Each read is of the database as it is now, so it cannot contradict a current row. */
  lemma ReadingKeepsSession(db: Db, clock: Time, x: Session)
    requires x.Acting? && SessionOk(db, clock, x)
    ensures SessionOk(db, clock + 1, x.(allocation := Some(AllocationOf(db, x.id))))
    ensures SessionOk(db, clock + 1, x.(generation := Some(GenerationOf(db, x.row.modelName))))
    ensures SessionOk(db, clock + 1, x.(now := Some(clock)))
  {
  }

  lemma OpenKeepsInv(s: State, sid: SessionId, action: Action, id: DeploymentId)
    requires Inv(s)
    ensures Inv(DoOpenAction(s, sid, action, id).(clock := s.clock + 1))
  {
    if id in s.db.deployments {
      OpenSessionOk(s.db, s.clock, action, id);
    }
    QuietKeepsInv(s, DoOpenAction(s, sid, action, id).(clock := s.clock + 1));
  }

  lemma OpenCreateKeepsInv(s: State, sid: SessionId, request: CreateRequest)
    requires Inv(s)
    ensures Inv(DoOpenCreate(s, sid, request).(clock := s.clock + 1))
  {
    QuietKeepsInv(s, DoOpenCreate(s, sid, request).(clock := s.clock + 1));
  }

  lemma ReplaceSessionKeepsInv(s: State, sid: SessionId, x: Session)
    requires Inv(s) && SessionOk(s.db, s.clock + 1, x)
    ensures Inv(s.(sessions := s.sessions[sid := x], clock := s.clock + 1))
  {
    QuietKeepsInv(s, s.(sessions := s.sessions[sid := x], clock := s.clock + 1));
  }

  lemma ReadKeepsInv(s: State, sid: SessionId)
    requires Inv(s)
    ensures Inv(DoReadAllocation(s, sid).(clock := s.clock + 1))
    ensures Inv(DoReadGeneration(s, sid).(clock := s.clock + 1))
    ensures Inv(DoReadClock(s, sid).(clock := s.clock + 1))
  {
    CloseKeepsInv(s, sid);
    if IsActing(s, sid) {
      var x := s.sessions[sid];
      assert SessionOk(s.db, s.clock, x);
      ReadingKeepsSession(s.db, s.clock, x);
      ReplaceSessionKeepsInv(s, sid, x.(allocation := Some(AllocationOf(s.db, x.id))));
      ReplaceSessionKeepsInv(s, sid, x.(generation := Some(GenerationOf(s.db, x.row.modelName))));
      ReplaceSessionKeepsInv(s, sid, x.(now := Some(s.clock)));
    }
  }

  lemma CloseKeepsInv(s: State, sid: SessionId)
    requires Inv(s)
    ensures Inv(CloseSession(s, sid).(clock := s.clock + 1))
    ensures Inv(s.(clock := s.clock + 1))
  {
    QuietKeepsInv(s, CloseSession(s, sid).(clock := s.clock + 1));
    QuietKeepsInv(s, s.(clock := s.clock + 1));
  }

  /** Router and label events are noise to the log. */
  lemma ObservationKeepsLogs(db: Db, id: DeploymentId, event: Event)
    requires LogsOk(db) && id in db.deployments && IsObservation(event)
    ensures LogsOk(db.(events := db.events[id := EventsOf(db, id) + [event]]))
  {
    var db' := db.(events := db.events[id := EventsOf(db, id) + [event]]);
    forall o | o in db'.deployments ensures LogOk(db'.deployments[o], db'.events[o]) {
      assert LogOk(db.deployments[o], db.events[o]);
      if o == id {
        ReplayLog(START, db.events[id], event);
      }
    }
  }

  /** Apart from LogsOk, nothing reads the events. */
  lemma EventsDoNotMatter(s: State, s': State)
    requires Inv(s)
    requires s' == s.(db := s.db.(events := s'.db.events), clock := s.clock + 1)
    requires LogsOk(s'.db)
    ensures Inv(s')
  {
    EventsDoNotMatterToTables(s.db, s'.db, s.history, s.clock);
    EventsDoNotMatterToOthers(s, s');
  }

  lemma EventsDoNotMatterToTables(db: Db, db': Db, history: map<ModelName, seq<Commitment>>, clock: Time)
    requires DbOk(db, history, clock) && LogsOk(db') && db' == db.(events := db'.events)
    ensures DbOk(db', history, clock + 1)
  {
    forall o | o in db'.deployments ensures RowOk(db', clock + 1, o) {
      assert RowOk(db, clock, o);
    }
    forall o | o in db'.deployments ensures EntryOk(db', history, o) {
      assert EntryOk(db, history, o);
    }
    forall m | m in history ensures LatestOk(db', history[m], m, db'.generations[m]) {
      assert LatestOk(db, history[m], m, db.generations[m]);
    }
  }

  lemma EventsDoNotMatterToOthers(s: State, s': State)
    requires SessionsOk(s) && NetworkOk(s) && RouterOk(s) && TicksOk(s)
    requires s' == s.(db := s.db.(events := s'.db.events), clock := s.clock + 1)
    ensures SessionsOk(s') && NetworkOk(s') && RouterOk(s') && TicksOk(s')
  {
    forall x | x in s'.sessions ensures SessionOk(s'.db, s'.clock, s'.sessions[x]) {
      assert SessionOk(s.db, s.clock, s.sessions[x]);
    }
    forall push | push in s'.network ensures PushOk(s'.history, push) {
      assert PushOk(s.history, push);
    }
    forall t | t in s'.ticks ensures TickOk(s', s'.ticks[t]) {
      assert TickOk(s, s.ticks[t]);
    }
  }

  // ---------------------------------------------------------------------------------------------
  // Router and reconciler

  lemma AuthoritativeExists(db: Db, m: ModelName)
    requires Authoritative(db, m).Some?
    ensures IsAuthoritative(db, m, Authoritative(db, m).value)
  {
  }

  /** Accepting a committed push leaves the router on committed content. */
  lemma PutKeepsRouter(s: State, push: Config)
    requires RouterOk(s) && PushOk(s.history, push)
    ensures RouterOk(Put(s, push))
  {
  }

  lemma DeliverKeepsInv(s: State, push: Config)
    requires Inv(s)
    ensures Inv(Next(s, Deliver(push)))
  {
    var s' := Next(s, Deliver(push));
    if push in s.network {
      assert PushOk(s.history, push);
      PutKeepsRouter(s, push);
      assert s'.router == Put(s, push).router;
    }
    QuietKeepsInv(s, s');
  }

  lemma BootLookupKeepsRouter(s: State)
    requires RouterOk(s)
    ensures RouterOk(DoBootLookup(s))
  {
  }

  lemma BootReadKeepsRouter(s: State)
    requires RouterOk(s) && s.db.allocations.Keys == s.db.deployments.Keys && EntriesOk(s.db, s.history)
    ensures RouterOk(DoBootRead(s))
  {
    if s.router.BootFound? {
      var id := s.router.id;
      assert EntryOk(s.db, s.history, id);
      var a := s.db.allocations[id];
      assert IsCommitted(s.history, s.settings.modelName, id, a.revision, a.targets);
    }
  }

  lemma BootKeepsInv(s: State, router: RouterState)
    requires Inv(s) && RouterOk(s.(router := router))
    ensures Inv(s.(router := router, clock := s.clock + 1))
  {
    RouterFrame(s.(router := router), s.(router := router, clock := s.clock + 1));
    QuietKeepsInv(s, s.(router := router, clock := s.clock + 1));
  }

  lemma TickGetKeepsInv(s: State, t: TickId)
    requires Inv(s)
    ensures Inv(DoTickGet(s, t).(clock := s.clock + 1))
    ensures Inv(DoTickLost(s, t).(clock := s.clock + 1))
  {
    QuietKeepsInv(s, DoTickGet(s, t).(clock := s.clock + 1));
    QuietKeepsInv(s, DoTickLost(s, t).(clock := s.clock + 1));
  }

  lemma TickLookupKeepsInv(s: State, t: TickId)
    requires Inv(s)
    ensures Inv(DoTickLookup(s, t).(clock := s.clock + 1))
  {
    if t in s.ticks && s.ticks[t].Observed? {
      assert TickOk(s, s.ticks[t]);
      if Authoritative(s.db, s.ticks[t].config.modelName).Some? {
        AuthoritativeExists(s.db, s.ticks[t].config.modelName);
      }
    }
    QuietKeepsInv(s, DoTickLookup(s, t).(clock := s.clock + 1));
  }

  lemma TickCompareKeepsInv(s: State, t: TickId)
    requires Inv(s)
    ensures Inv(DoTickCompare(s, t).(clock := s.clock + 1))
  {
    var s' := DoTickCompare(s, t).(clock := s.clock + 1);
    if t in s.ticks && s.ticks[t].Found? {
      assert TickOk(s, s.ticks[t]);
      var id := s.ticks[t].id;
      assert EntryOk(s.db, s.history, id);
      assert PushOk(s'.history, PushOf(id, s.ticks[t].config.modelName, s.db.allocations[id]));
    }
    QuietKeepsInv(s, s');
  }

  lemma TickPutKeepsInv(s: State, t: TickId)
    requires Inv(s)
    ensures Inv(DoTickPut(s, t).(clock := s.clock + 1))
  {
    var s' := DoTickPut(s, t).(clock := s.clock + 1);
    if t in s.ticks && s.ticks[t].Pushing? && s.router.Serving? {
      assert TickOk(s, s.ticks[t]);
      PutKeepsRouter(s, s.ticks[t].push);
      assert s'.router == Put(s, s.ticks[t].push).router;
    }
    QuietKeepsInv(s, s');
  }

  lemma CommitStepKeepsInv(s: State, step: Step)
    requires Inv(s) && (step.CommitAction? || step.CommitCreate?)
    ensures Inv(Next(s, step))
  {
    match step
    case CommitAction(sid) =>
      if Commits(s, sid) {
        CommitActionKeepsInv(s, sid);
      } else {
        CloseKeepsInv(s, sid);
      }
    case CommitCreate(sid, id) =>
      if sid in s.sessions && s.sessions[sid].Creating? && id !in s.db.deployments
         && Insert(s.db, id, s.sessions[sid].request, s.clock).Success? {
        CommitCreateKeepsInv(s, sid, id);
      } else {
        CloseKeepsInv(s, sid);
      }
  }

  lemma LogKeepsInv(s: State, id: DeploymentId, event: Event)
    requires Inv(s)
    ensures Inv(DoLogObservation(s, id, event).(clock := s.clock + 1))
  {
    if id in s.db.deployments && IsObservation(event) {
      ObservationKeepsLogs(s.db, id, event);
      EventsDoNotMatter(s, DoLogObservation(s, id, event).(clock := s.clock + 1));
    } else {
      CloseKeepsInv(s, 0);
    }
  }

  lemma SessionStepKeepsInv(s: State, step: Step)
    requires Inv(s)
    requires step.OpenAction? || step.OpenCreate? || step.ReadAllocation? || step.ReadGeneration? || step.ReadClock?
    ensures Inv(Next(s, step))
  {
    match step
    case OpenAction(sid, action, id) => OpenKeepsInv(s, sid, action, id);
    case OpenCreate(sid, request) => OpenCreateKeepsInv(s, sid, request);
    case ReadAllocation(sid) => ReadKeepsInv(s, sid);
    case ReadGeneration(sid) => ReadKeepsInv(s, sid);
    case ReadClock(sid) => ReadKeepsInv(s, sid);
  }

  lemma RestartKeepsInv(s: State)
    requires Inv(s)
    ensures Inv(Next(s, Restart)) && Inv(Next(s, BootFinish))
  {
    BootKeepsInv(s, Booting);
    BootKeepsInv(s, DoBootFinish(s).router);
  }

  lemma RouterStepKeepsInv(s: State, step: Step)
    requires Inv(s)
    requires step.Restart? || step.BootLookup? || step.BootRead? || step.BootFinish? || step.Deliver?
    ensures Inv(Next(s, step))
  {
    match step
    case Deliver(push) => DeliverKeepsInv(s, push);
    case Restart => RestartKeepsInv(s);
    case BootFinish => RestartKeepsInv(s);
    case BootLookup =>
      BootLookupKeepsRouter(s);
      BootKeepsInv(s, DoBootLookup(s).router);
    case BootRead =>
      BootReadKeepsRouter(s);
      BootKeepsInv(s, DoBootRead(s).router);
  }

  /** Every step keeps the invariant. */
  lemma StepKeepsInv(s: State, step: Step)
    requires Inv(s)
    ensures Inv(Next(s, step))
  {
    match step
    case CommitAction(_) => CommitStepKeepsInv(s, step);
    case CommitCreate(_, _) => CommitStepKeepsInv(s, step);
    case LogObservation(id, event) => LogKeepsInv(s, id, event);
    case TickGet(t) => TickGetKeepsInv(s, t);
    case TickLookup(t) => TickLookupKeepsInv(s, t);
    case TickCompare(t) => TickCompareKeepsInv(s, t);
    case TickPut(t) => TickPutKeepsInv(s, t);
    case TickLost(t) => TickGetKeepsInv(s, t);
    case _ =>
      if step.OpenAction? || step.OpenCreate? || step.ReadAllocation? || step.ReadGeneration? || step.ReadClock? {
        SessionStepKeepsInv(s, step);
      } else {
        RouterStepKeepsInv(s, step);
      }
  }

  lemma InitInv(settings: Settings)
    ensures Inv(Init(settings))
  {
  }

  /** The invariant holds after every run from a state that has it. */
  lemma {:induction false} ExecKeepsInv(s: State, steps: seq<Step>)
    requires Inv(s)
    ensures Inv(Exec(s, steps))
  {
    if steps != [] {
      ExecKeepsInv(s, steps[..|steps| - 1]);
      StepKeepsInv(Exec(s, steps[..|steps| - 1]), steps[|steps| - 1]);
    }
  }

  /** ... in particular from the empty database. */
  lemma RunsKeepInv(settings: Settings, steps: seq<Step>)
    ensures Inv(Exec(Init(settings), steps))
  {
    InitInv(settings);
    ExecKeepsInv(Init(settings), steps);
  }
}
