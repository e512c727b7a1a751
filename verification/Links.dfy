/** The sequential methods are runs of the protocol in which nobody interferes. */
module Links {
  import opened Prelude
  import opened Models
  import opened Protocol
  import opened Routing
  import opened Weights
  import opened RouterService
  import opened Service

  lemma ExecSnoc(s: State, steps: seq<Step>, step: Step)
    ensures Exec(s, steps + [step]) == Next(Exec(s, steps), step)
  {
  }

  lemma Exec3(s: State, a: Step, b: Step, c: Step)
    ensures Exec(s, [a] + [b] + [c]) == Next(Next(Next(s, a), b), c)
  {
    ExecSnoc(s, [], a);
    assert [] + [a] == [a];
    ExecSnoc(s, [a], b);
    ExecSnoc(s, [a] + [b], c);
  }

  /** What a session has read when nothing was committed while it read. */
  lemma ReadAtOnce(s: State, sid: SessionId)
    requires IsActing(s, sid)
    requires s.sessions[sid].allocation.None? && s.sessions[sid].generation.None? && s.sessions[sid].now.None?
    ensures var x := s.sessions[sid];
            var s' := Next(Next(Next(s, ReadAllocation(sid)), ReadGeneration(sid)), ReadClock(sid));
            && s'.db == s.db && sid in s'.sessions
            && s'.sessions[sid] == x.(allocation := Some(AllocationOf(s.db, x.id)),
                                      generation := Some(GenerationOf(s.db, x.row.modelName)),
                                      now := Some(s.clock + 2))
  {
  }

  lemma CommitIsAnswer(s: State, sid: SessionId)
    requires ReadyToCommit(s, sid)
    requires var x := s.sessions[sid];
             x.allocation.value == AllocationOf(s.db, x.id) && x.generation.value == GenerationOf(s.db, x.row.modelName)
    ensures var x := s.sessions[sid];
            Next(s, CommitAction(sid)).db == Answered(s.db, x.id, x.row, x.action, x.now.value).1
  {
  }

  /** A session that loaded its row some time ago and now runs to its end without interruption does
      to the database what the service method does. */
  lemma UninterruptedSession(s: State, sid: SessionId)
    requires IsActing(s, sid)
    requires s.sessions[sid].allocation.None? && s.sessions[sid].generation.None? && s.sessions[sid].now.None?
    ensures var x := s.sessions[sid];
            Exec(s, [ReadAllocation(sid)] + [ReadGeneration(sid)] + [ReadClock(sid)] + [CommitAction(sid)]).db
            == Answered(s.db, x.id, x.row, x.action, s.clock + 2).1
  {
    var reading := [ReadAllocation(sid)] + [ReadGeneration(sid)] + [ReadClock(sid)];
    Exec3(s, ReadAllocation(sid), ReadGeneration(sid), ReadClock(sid));
    ExecSnoc(s, reading, CommitAction(sid));
    ReadAtOnce(s, sid);
    CommitIsAnswer(Exec(s, reading), sid);
  }

  /** What GET /api/router-config answers: the authoritative deployment and its targets, if both exist. */
  ghost function StartupAnswer(db: Db, m: ModelName): Option<(DeploymentId, seq<Target>)> {
    var found := Authoritative(db, m);
    if found.None? || found.value !in db.allocations then None
    else Some((found.value, db.allocations[found.value].targets))
  }

  /** A router process that starts while nothing else happens comes up, as its constructor says, with the
      configuration the protocol's router has after a restart and its three boot steps. */
  lemma StartupIsBoot(s: State)
    ensures var synced := StartupAnswer(s.db, s.settings.modelName);
            var config := StartupConfig(s.settings, synced);
            && Exec(s, [Restart] + [BootLookup] + [BootRead] + [BootFinish]).router == Serving(config)
            && config.modelName == s.settings.modelName && config.revision == 0
            && (if synced.Some? && RouterAccepts(synced.value.1)
                then config.deploymentId == Some(synced.value.0) && config.targets == synced.value.1
                else config.deploymentId == None && config.targets == s.settings.initialTargets)
  {
    Exec3(s, Restart, BootLookup, BootRead);
    ExecSnoc(s, [Restart] + [BootLookup] + [BootRead], BootFinish);
    BootSteps(s);
  }

  lemma BootSteps(s: State)
    ensures Next(Next(Next(Next(s, Restart), BootLookup), BootRead), BootFinish).router
         == Serving(StartupConfig(s.settings, StartupAnswer(s.db, s.settings.modelName)))
  {
    BootFinds(s);
    BootReads(Next(Next(s, Restart), BootLookup));
  }

  lemma BootFinds(s: State)
    ensures var (found, s') := (Authoritative(s.db, s.settings.modelName), Next(Next(s, Restart), BootLookup));
            && s'.db == s.db && s'.settings == s.settings
            && s'.router == if found.None? then Booting else BootFound(found.value)
  {
  }

  lemma BootReads(s: State)
    requires s.router.Booting? || s.router.BootFound?
    ensures var answer := if s.router.BootFound? && s.router.id in s.db.allocations
                          then Some((s.router.id, s.db.allocations[s.router.id].targets)) else None;
            Next(Next(s, BootRead), BootFinish).router == Serving(StartupConfig(s.settings, answer))
  {
  }
}
