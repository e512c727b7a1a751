/** Concurrent label ingestion (backend/app/control_plane/label_service.py) as a state machine: every
    call looks the label up, inserts it under the unique key, and on a lost race looks it up again,
    each as a step of its own. `log` lists the calls in the order in which they took effect. */
module LabelProtocol {
  import opened Prelude
  import opened Models
  import opened Metrics

  type CallId = nat

  /** What ingest_label answers: 201, 200, 202, or LabelConflictError. */
  datatype Answer = AppliedLabel | NoOp | PendingLabel | Conflict(existing: int, deploymentId: Option<DeploymentId>)

  datatype Phase =
    | Started
    | Missing
    | Refused
    | Found(existing: int)
    | Written
    | Done(answer: Answer)
    | Errored

  datatype Call = Call(predictionId: string, actualLabel: int, occurredAt: Time, phase: Phase)

  /** What a call amounts to when calls are made one after the other. */
  datatype Ruling = Stored | Repeat | Clash(existing: int)

  datatype Entry = Entry(call: CallId, predictionId: string, actualLabel: int, ruling: Ruling)

  datatype Labeling = Labeling(
    metrics: seq<MetricRow>,
    labels: seq<LabelRow>,
    conflicts: seq<(DeploymentId, Event)>,
    calls: map<CallId, Call>,
    log: seq<Entry>)

  datatype Step =
    | Invoke(c: CallId, predictionId: string, actualLabel: int, occurredAt: Time)
    | LookUp(c: CallId)
    | Insert(c: CallId, now: Time)
    | LookAgain(c: CallId)
    | Respond(c: CallId)
    | Measure(row: MetricRow)

  const EMPTY := Labeling([], [], [], map[], [])

  // ---------------------------------------------------------------------------------------------
  // The sequential meaning: the first label of a prediction stays

  function FirstEntry(log: seq<Entry>, id: string): Option<int> {
    if log == [] then None
    else
      var earlier := FirstEntry(log[..|log| - 1], id);
      var last := log[|log| - 1];
      if earlier.None? && last.predictionId == id then Some(last.actualLabel) else earlier
  }

  function Rule(log: seq<Entry>, id: string, actual: int): Ruling {
    match FirstEntry(log, id)
    case None => Stored
    case Some(kept) => if kept == actual then Repeat else Clash(kept)
  }

  predicate Legal(log: seq<Entry>) {
    log == [] ||
    var front, last := log[..|log| - 1], log[|log| - 1];
    Legal(front) && last.ruling == Rule(front, last.predictionId, last.actualLabel)
  }

  function RulingOf(answer: Answer): Ruling {
    match answer
    case AppliedLabel | PendingLabel => Stored
    case NoOp => Repeat
    case Conflict(existing, _) => Clash(existing)
  }

  // ---------------------------------------------------------------------------------------------
  // The steps

  function MoveTo(s: Labeling, c: CallId, phase: Phase): Labeling
    requires c in s.calls
  {
    s.(calls := s.calls[c := s.calls[c].(phase := phase)])
  }

  function TakesEffect(s: Labeling, c: CallId): Labeling
    requires c in s.calls
  {
    var x := s.calls[c];
    s.(log := s.log + [Entry(c, x.predictionId, x.actualLabel, Rule(s.log, x.predictionId, x.actualLabel))])
  }

  function DoLookUp(s: Labeling, c: CallId): Labeling
    requires c in s.calls
  {
    match FindLabel(s.labels, s.calls[c].predictionId)
    case None => MoveTo(s, c, Missing)
    case Some(row) => MoveTo(TakesEffect(s, c), c, Found(row.actualLabel))
  }

  function DoInsert(s: Labeling, c: CallId, now: Time): Labeling
    requires c in s.calls
  {
    var x := s.calls[c];
    if Labeled(s.labels, x.predictionId) then MoveTo(s, c, Refused)
    else
      MoveTo(TakesEffect(s, c), c, Written)
      .(labels := s.labels + [LabelRow(x.predictionId, x.actualLabel, x.occurredAt, now)])
  }

  function DoLookAgain(s: Labeling, c: CallId): Labeling
    requires c in s.calls
  {
    match FindLabel(s.labels, s.calls[c].predictionId)
    case None => MoveTo(s, c, Errored)
    case Some(row) => MoveTo(TakesEffect(s, c), c, Found(row.actualLabel))
  }

  /** The metric lookup and the answer; a conflict is put on record when it can be attributed. */
  function DoRespond(s: Labeling, c: CallId): Labeling
    requires c in s.calls
  {
    var x := s.calls[c];
    var metric := FindMetric(s.metrics, x.predictionId);
    match x.phase
    case Written => MoveTo(s, c, Done(if metric.Some? then AppliedLabel else PendingLabel))
    case Found(existing) =>
      if existing == x.actualLabel then MoveTo(s, c, Done(NoOp))
      else
        MoveTo(s, c, Done(Conflict(existing, metric)))
        .(conflicts := s.conflicts +
            if metric.None? then [] else [(metric.value, LabelConflict(x.predictionId, existing, x.actualLabel))])
    case _ => s
  }

  predicate InPhase(s: Labeling, c: CallId, phase: Phase) {
    c in s.calls && s.calls[c].phase == phase
  }

  function Next(s: Labeling, step: Step): Labeling {
    match step
    case Invoke(c, id, actual, occurred) =>
      if c in s.calls then s else s.(calls := s.calls[c := Call(id, actual, occurred, Started)])
    case LookUp(c) => if InPhase(s, c, Started) then DoLookUp(s, c) else s
    case Insert(c, now) => if InPhase(s, c, Missing) then DoInsert(s, c, now) else s
    case LookAgain(c) => if InPhase(s, c, Refused) then DoLookAgain(s, c) else s
    case Respond(c) => if c in s.calls then DoRespond(s, c) else s
    case Measure(row) => s.(metrics := RecordMetric(s.metrics, row))
  }

  function Exec(s: Labeling, steps: seq<Step>): Labeling {
    if steps == [] then s else Next(Exec(s, steps[..|steps| - 1]), steps[|steps| - 1])
  }

  // ---------------------------------------------------------------------------------------------
  // The invariant

  ghost predicate InLog(log: seq<Entry>, c: CallId) {
    exists i | 0 <= i < |log| :: log[i].call == c
  }

  ghost predicate Ruled(log: seq<Entry>, c: CallId, x: Call, ruling: Ruling) {
    Entry(c, x.predictionId, x.actualLabel, ruling) in log
  }

  function ResolutionOf(existing: int, actual: int): Ruling {
    if existing == actual then Repeat else Clash(existing)
  }

  ghost predicate CallOk(log: seq<Entry>, labels: seq<LabelRow>, c: CallId, x: Call) {
    match x.phase
    case Started | Missing => !InLog(log, c)
    case Refused => !InLog(log, c) && FindLabel(labels, x.predictionId).Some?
    case Found(existing) => Ruled(log, c, x, ResolutionOf(existing, x.actualLabel))
    case Written => Ruled(log, c, x, Stored)
    case Done(answer) => Ruled(log, c, x, RulingOf(answer))
    case Errored => false
  }

  ghost predicate EntryOk(calls: map<CallId, Call>, e: Entry) {
    e.call in calls && calls[e.call].predictionId == e.predictionId && calls[e.call].actualLabel == e.actualLabel
  }

  ghost predicate LogOk(log: seq<Entry>, calls: map<CallId, Call>) {
    && Legal(log)
    && (forall i | 0 <= i < |log| :: EntryOk(calls, log[i]))
    && (forall i, j | 0 <= i < j < |log| :: log[i].call != log[j].call)
  }

  function ActualOf(row: Option<LabelRow>): Option<int> {
    if row.None? then None else Some(row.value.actualLabel)
  }

  /** The table and the log tell the same labels. */
  ghost predicate Agrees(log: seq<Entry>, labels: seq<LabelRow>) {
    forall id {:trigger FindLabel(labels, id)} {:trigger FirstEntry(log, id)} ::
        FirstEntry(log, id) == ActualOf(FindLabel(labels, id))
  }

  ghost predicate CallsOk(log: seq<Entry>, labels: seq<LabelRow>, calls: map<CallId, Call>) {
    forall c {:trigger CallOk(log, labels, c, calls[c])} | c in calls :: CallOk(log, labels, c, calls[c])
  }

  ghost predicate LabelsOk(log: seq<Entry>, labels: seq<LabelRow>) {
    Agrees(log, labels) && UniqueKeys(labels)
  }

  ghost predicate Inv(s: Labeling) {
    LogOk(s.log, s.calls) && LabelsOk(s.log, s.labels) && CallsOk(s.log, s.labels, s.calls)
  }

  // ---------------------------------------------------------------------------------------------
  // Preservation

  lemma EntryKeepsLegal(log: seq<Entry>, e: Entry)
    requires Legal(log) && e.ruling == Rule(log, e.predictionId, e.actualLabel)
    ensures Legal(log + [e])
    ensures forall id :: FirstEntry(log + [e], id) ==
                if FirstEntry(log, id).None? && id == e.predictionId then Some(e.actualLabel) else FirstEntry(log, id)
  {
    assert (log + [e])[..|log|] == log;
  }

  /** A call takes effect: the log stays legal and nobody else's record changes. */
  lemma EffectKeepsLog(s: Labeling, c: CallId)
    requires LogOk(s.log, s.calls) && c in s.calls && !InLog(s.log, c)
    ensures var x := s.calls[c];
            var log := TakesEffect(s, c).log;
            && LogOk(log, s.calls)
            && Ruled(log, c, x, Rule(s.log, x.predictionId, x.actualLabel))
            && (forall id :: FirstEntry(log, id) ==
                  if FirstEntry(s.log, id).None? && id == x.predictionId then Some(x.actualLabel)
                  else FirstEntry(s.log, id))
  {
    EntryKeepsLegal(s.log, TakesEffect(s, c).log[|s.log|]);
    assert forall i | 0 <= i < |s.log| :: InLog(s.log, s.log[i].call);
  }

  lemma OthersUnmoved(log: seq<Entry>, e: Entry, labels: seq<LabelRow>, row: seq<LabelRow>, d: CallId, y: Call)
    requires CallOk(log, labels, d, y) && d != e.call && |row| <= 1
    ensures CallOk(log + [e], labels + row, d, y)
    ensures CallOk(log, labels + row, d, y)
  {
    assert forall r | r in log :: r in log + [e];
    if InLog(log + [e], d) {
      var i :| 0 <= i < |log + [e]| && (log + [e])[i].call == d;
      assert log[i].call == d;
    }
    if row != [] {
      assert row == [row[0]];
      FindAfterInsert(labels, row[0], y.predictionId);
    } else {
      assert labels + row == labels;
    }
  }

  /** A step of call c that appends its entry (and possibly the label) keeps everybody else's part. */
  lemma CallsKept(s: Labeling, s': Labeling, c: CallId, row: seq<LabelRow>)
    requires CallsOk(s.log, s.labels, s.calls) && c in s.calls && |row| <= 1
    requires s'.calls.Keys == s.calls.Keys && forall d | d in s.calls && d != c :: s'.calls[d] == s.calls[d]
    requires s'.log == TakesEffect(s, c).log && s'.labels == s.labels + row
    requires CallOk(s'.log, s'.labels, c, s'.calls[c])
    ensures CallsOk(s'.log, s'.labels, s'.calls)
  {
    forall d | d in s'.calls ensures CallOk(s'.log, s'.labels, d, s'.calls[d]) {
      if d != c {
        assert CallOk(s.log, s.labels, d, s.calls[d]);
        OthersUnmoved(s.log, TakesEffect(s, c).log[|s.log|], s.labels, row, d, s.calls[d]);
      }
    }
  }

  /** Finding the label: the existing row decides, whether found at once or after a lost race. */
  lemma FoundKeepsInv(s: Labeling, c: CallId)
    requires Inv(s) && c in s.calls && (s.calls[c].phase == Started || s.calls[c].phase == Refused)
    requires FindLabel(s.labels, s.calls[c].predictionId).Some?
    ensures Inv(MoveTo(TakesEffect(s, c), c, Found(FindLabel(s.labels, s.calls[c].predictionId).value.actualLabel)))
  {
    var x := s.calls[c];
    var row := FindLabel(s.labels, x.predictionId).value;
    var s' := MoveTo(TakesEffect(s, c), c, Found(row.actualLabel));
    assert CallOk(s.log, s.labels, c, x);
    EffectKeepsLog(s, c);
    LogKept(s.log + [s'.log[|s.log|]], s.calls, s'.calls);
    assert s.labels + [] == s.labels;
    CallsKept(s, s', c, []);
  }

  lemma LogKept(log: seq<Entry>, calls: map<CallId, Call>, calls': map<CallId, Call>)
    requires LogOk(log, calls) && calls.Keys <= calls'.Keys
    requires forall d | d in calls ::
        calls'[d].predictionId == calls[d].predictionId && calls'[d].actualLabel == calls[d].actualLabel
    ensures LogOk(log, calls')
  {
  }

  lemma UniqueAfterInsert(labels: seq<LabelRow>, row: LabelRow)
    requires UniqueKeys(labels) && !Labeled(labels, row.predictionId)
    ensures UniqueKeys(labels + [row])
  {
    var more := labels + [row];
    forall i, j | 0 <= i < j < |more| ensures more[i].predictionId != more[j].predictionId {
      assert more[i] == labels[i];
    }
  }

  /** The new label and the new log entry agree. */
  lemma AgreesAfterInsert(s: Labeling, c: CallId, row: LabelRow)
    requires Agrees(s.log, s.labels) && LogOk(s.log, s.calls) && c in s.calls && !InLog(s.log, c)
    requires row.predictionId == s.calls[c].predictionId && row.actualLabel == s.calls[c].actualLabel
    ensures Agrees(TakesEffect(s, c).log, s.labels + [row])
  {
    EffectKeepsLog(s, c);
    forall id ensures FirstEntry(TakesEffect(s, c).log, id) == ActualOf(FindLabel(s.labels + [row], id)) {
      FindAfterInsert(s.labels, row, id);
      assert FirstEntry(s.log, id) == ActualOf(FindLabel(s.labels, id));
    }
  }

  /** An insert under a free key is ruled to have stored the label. */
  lemma FreeKeyIsStored(s: Labeling, c: CallId)
    requires Agrees(s.log, s.labels) && c in s.calls && !Labeled(s.labels, s.calls[c].predictionId)
    ensures Rule(s.log, s.calls[c].predictionId, s.calls[c].actualLabel) == Stored
  {
    var x := s.calls[c];
    FindAfterInsert(s.labels, LabelRow("", 0, 0, 0), x.predictionId);
    assert FirstEntry(s.log, x.predictionId) == ActualOf(FindLabel(s.labels, x.predictionId));
  }

  /** The log after an insert under a free key: legal, and the call's own entry says Stored. */
  lemma InsertedLog(s: Labeling, c: CallId, now: Time)
    requires LogOk(s.log, s.calls) && Agrees(s.log, s.labels) && InPhase(s, c, Missing) && !InLog(s.log, c)
    requires !Labeled(s.labels, s.calls[c].predictionId)
    ensures var s' := DoInsert(s, c, now);
            LogOk(s'.log, s'.calls) && CallOk(s'.log, s'.labels, c, s'.calls[c])
  {
    var s' := DoInsert(s, c, now);
    FreeKeyIsStored(s, c);
    EffectKeepsLog(s, c);
    LogKept(s'.log, s.calls, s'.calls);
  }

  lemma InsertedCalls(s: Labeling, c: CallId, now: Time)
    requires CallsOk(s.log, s.labels, s.calls) && InPhase(s, c, Missing)
    requires !Labeled(s.labels, s.calls[c].predictionId)
    requires var s' := DoInsert(s, c, now); CallOk(s'.log, s'.labels, c, s'.calls[c])
    ensures var s' := DoInsert(s, c, now); CallsOk(s'.log, s'.labels, s'.calls)
  {
    var x := s.calls[c];
    CallsKept(s, DoInsert(s, c, now), c, [LabelRow(x.predictionId, x.actualLabel, x.occurredAt, now)]);
  }

  lemma InsertedLabels(s: Labeling, c: CallId, now: Time)
    requires LogOk(s.log, s.calls) && LabelsOk(s.log, s.labels) && InPhase(s, c, Missing) && !InLog(s.log, c)
    requires !Labeled(s.labels, s.calls[c].predictionId)
    ensures var s' := DoInsert(s, c, now); LabelsOk(s'.log, s'.labels)
  {
    var x := s.calls[c];
    var row := LabelRow(x.predictionId, x.actualLabel, x.occurredAt, now);
    AgreesAfterInsert(s, c, row);
    UniqueAfterInsert(s.labels, row);
  }

  lemma InsertKeepsInv(s: Labeling, c: CallId, now: Time)
    requires Inv(s) && InPhase(s, c, Missing) && !Labeled(s.labels, s.calls[c].predictionId)
    ensures Inv(DoInsert(s, c, now))
  {
    assert CallOk(s.log, s.labels, c, s.calls[c]);
    InsertedLog(s, c, now);
    InsertedCalls(s, c, now);
    InsertedLabels(s, c, now);
  }

  /** A step that moves only call c's phase. */
  lemma PhaseKeepsInv(s: Labeling, s': Labeling, c: CallId)
    requires Inv(s) && c in s.calls
    requires s'.log == s.log && s'.labels == s.labels
    requires s'.calls.Keys == s.calls.Keys && (forall d | d in s.calls && d != c :: s'.calls[d] == s.calls[d])
    requires s'.calls[c] == s.calls[c].(phase := s'.calls[c].phase)
    requires CallOk(s'.log, s'.labels, c, s'.calls[c])
    ensures Inv(s')
  {
  }

  lemma UnknownNotLogged(log: seq<Entry>, calls: map<CallId, Call>, c: CallId)
    requires LogOk(log, calls) && c !in calls
    ensures forall i | 0 <= i < |log| :: log[i].call != c
  {
  }

  lemma InvokeKeepsInv(s: Labeling, c: CallId, x: Call)
    requires Inv(s) && c !in s.calls && x.phase == Started
    ensures Inv(s.(calls := s.calls[c := x]))
  {
  }

  lemma LookUpKeepsInv(s: Labeling, c: CallId)
    requires Inv(s) && InPhase(s, c, Started)
    ensures Inv(DoLookUp(s, c))
  {
    assert CallOk(s.log, s.labels, c, s.calls[c]);
    if FindLabel(s.labels, s.calls[c].predictionId).Some? {
      FoundKeepsInv(s, c);
    } else {
      PhaseKeepsInv(s, DoLookUp(s, c), c);
    }
  }

  lemma TryInsertKeepsInv(s: Labeling, c: CallId, now: Time)
    requires Inv(s) && InPhase(s, c, Missing)
    ensures Inv(DoInsert(s, c, now))
  {
    assert CallOk(s.log, s.labels, c, s.calls[c]);
    if Labeled(s.labels, s.calls[c].predictionId) {
      FindAfterInsert(s.labels, LabelRow("", 0, 0, 0), s.calls[c].predictionId);
      PhaseKeepsInv(s, DoInsert(s, c, now), c);
    } else {
      InsertKeepsInv(s, c, now);
    }
  }

  lemma RespondKeepsInv(s: Labeling, c: CallId)
    requires Inv(s) && c in s.calls
    ensures Inv(DoRespond(s, c))
  {
    assert CallOk(s.log, s.labels, c, s.calls[c]);
    PhaseKeepsInv(s, DoRespond(s, c), c);
  }

  lemma StepKeepsInv(s: Labeling, step: Step)
    requires Inv(s)
    ensures Inv(Next(s, step))
  {
    match step {
      case Invoke(c, id, actual, occurred) =>
        if c !in s.calls {
          InvokeKeepsInv(s, c, Call(id, actual, occurred, Started));
        }
      case LookUp(c) =>
        if InPhase(s, c, Started) {
          LookUpKeepsInv(s, c);
        }
      case Insert(c, now) =>
        if InPhase(s, c, Missing) {
          TryInsertKeepsInv(s, c, now);
        }
      case LookAgain(c) =>
        if InPhase(s, c, Refused) {
          assert CallOk(s.log, s.labels, c, s.calls[c]);
          FoundKeepsInv(s, c);
        }
      case Respond(c) =>
        if c in s.calls {
          RespondKeepsInv(s, c);
        }
      case Measure(row) =>
        MetricKeepsInv(s, RecordMetric(s.metrics, row));
    }
  }

  lemma MetricKeepsInv(s: Labeling, metrics: seq<MetricRow>)
    requires Inv(s)
    ensures Inv(s.(metrics := metrics))
  {
  }

  lemma {:induction false} RunsKeepInv(steps: seq<Step>)
    ensures Inv(Exec(EMPTY, steps))
  {
    if steps != [] {
      RunsKeepInv(steps[..|steps| - 1]);
      StepKeepsInv(Exec(EMPTY, steps[..|steps| - 1]), steps[|steps| - 1]);
    }
  }

  // ---------------------------------------------------------------------------------------------
  // The theorems

  /** In a legal log the first entry of a prediction stored its label, and every other entry was
      ruled against that label. */
  lemma {:induction false} Winner(log: seq<Entry>, id: string)
    requires Legal(log) && (exists i | 0 <= i < |log| :: log[i].predictionId == id)
    ensures exists w | 0 <= w < |log| ::
              && log[w].predictionId == id && log[w].ruling == Stored && FirstEntry(log, id) == Some(log[w].actualLabel)
              && forall j | 0 <= j < |log| && j != w && log[j].predictionId == id ::
                   log[j].ruling == ResolutionOf(log[w].actualLabel, log[j].actualLabel)
  {
    var n := |log| - 1;
    var front := log[..n];
    if exists i | 0 <= i < |front| :: front[i].predictionId == id {
      Winner(front, id);
      var w :| 0 <= w < |front| && front[w].predictionId == id && front[w].ruling == Stored
               && FirstEntry(front, id) == Some(front[w].actualLabel)
               && forall j | 0 <= j < |front| && j != w && front[j].predictionId == id ::
                    front[j].ruling == ResolutionOf(front[w].actualLabel, front[j].actualLabel);
      assert log[w] == front[w];
      forall j | 0 <= j < |log| && j != w && log[j].predictionId == id
        ensures log[j].ruling == ResolutionOf(log[w].actualLabel, log[j].actualLabel)
      {
        assert j < n ==> log[j] == front[j];
      }
    } else {
      NoEntry(front, id);
      assert log[n].predictionId == id;
      assert forall j | 0 <= j < n :: log[j] == front[j];
    }
  }

  lemma {:induction false} NoEntry(log: seq<Entry>, id: string)
    requires forall i | 0 <= i < |log| :: log[i].predictionId != id
    ensures FirstEntry(log, id) == None
  {
    if log != [] {
      NoEntry(log[..|log| - 1], id);
    }
  }

  predicate Won(phase: Phase) {
    phase == Written || phase == Done(AppliedLabel) || phase == Done(PendingLabel)
  }

  /** A call that did not store the label is undecided yet, or has answered NO_OP if it agrees with
      what was kept and a conflict naming it if it does not. */
  predicate LostTo(x: Call, kept: int) {
    && !Won(x.phase)
    && (x.phase.Done? ==>
          if x.actualLabel == kept then x.phase == Done(NoOp)
          else x.phase.answer.Conflict? && x.phase.answer.existing == kept)
  }

  /** In every interleaving of any number of calls: once some call for a prediction has been answered,
      there is exactly one call that stored the label (it reports APPLIED or PENDING), the table holds
      its label, and every other call lost to it. */
  lemma LabelRace(steps: seq<Step>, id: string, some: CallId)
    requires var s := Exec(EMPTY, steps);
             some in s.calls && s.calls[some].predictionId == id && s.calls[some].phase.Done?
    ensures var s := Exec(EMPTY, steps);
            exists w | w in s.calls ::
              && s.calls[w].predictionId == id && Won(s.calls[w].phase)
              && ActualOf(FindLabel(s.labels, id)) == Some(s.calls[w].actualLabel)
              && forall c | c in s.calls && c != w && s.calls[c].predictionId == id ::
                   LostTo(s.calls[c], s.calls[w].actualLabel)
  {
    RunsKeepInv(steps);
    RaceDecided(Exec(EMPTY, steps), id, some);
  }

  lemma RaceDecided(s: Labeling, id: string, some: CallId)
    requires Inv(s)
    requires some in s.calls && s.calls[some].predictionId == id && s.calls[some].phase.Done?
    ensures exists w | w in s.calls ::
              && s.calls[w].predictionId == id && Won(s.calls[w].phase)
              && ActualOf(FindLabel(s.labels, id)) == Some(s.calls[w].actualLabel)
              && forall c | c in s.calls && c != w && s.calls[c].predictionId == id ::
                   LostTo(s.calls[c], s.calls[w].actualLabel)
  {
    var _ := EntryOfCall(s, some);
    Winner(s.log, id);
    var i :| 0 <= i < |s.log| && s.log[i].predictionId == id && s.log[i].ruling == Stored
             && FirstEntry(s.log, id) == Some(s.log[i].actualLabel)
             && forall j | 0 <= j < |s.log| && j != i && s.log[j].predictionId == id ::
                  s.log[j].ruling == ResolutionOf(s.log[i].actualLabel, s.log[j].actualLabel);
    var w := s.log[i].call;
    assert EntryOk(s.calls, s.log[i]);
    RulingIsPhase(s, i);
    forall c | c in s.calls && c != w && s.calls[c].predictionId == id
      ensures LostTo(s.calls[c], s.calls[w].actualLabel)
    {
      LoserLost(s, i, c);
    }
  }

  lemma LoserLost(s: Labeling, w: nat, c: CallId)
    requires Inv(s) && w < |s.log| && c in s.calls && c != s.log[w].call
    requires forall j | 0 <= j < |s.log| && j != w && s.log[j].predictionId == s.calls[c].predictionId ::
               s.log[j].ruling == ResolutionOf(s.log[w].actualLabel, s.log[j].actualLabel)
    ensures LostTo(s.calls[c], s.log[w].actualLabel)
  {
    if s.calls[c].phase.Done? || s.calls[c].phase.Written? {
      var j := EntryOfCall(s, c);
      assert j != w;
    }
  }

  function DecidedBy(phase: Phase): Ruling
    requires phase.Done? || phase.Written?
  {
    if phase.Written? then Stored else RulingOf(phase.answer)
  }

  lemma EntryOfCall(s: Labeling, c: CallId) returns (j: nat)
    requires Inv(s) && c in s.calls && (s.calls[c].phase.Done? || s.calls[c].phase.Written?)
    ensures j < |s.log|
    ensures s.log[j] == Entry(c, s.calls[c].predictionId, s.calls[c].actualLabel, DecidedBy(s.calls[c].phase))
  {
    var x := s.calls[c];
    assert CallOk(s.log, s.labels, c, x);
    j :| 0 <= j < |s.log| && s.log[j] == Entry(c, x.predictionId, x.actualLabel, DecidedBy(x.phase));
  }

  /** The call behind a storing entry is on the winning path. */
  lemma RulingIsPhase(s: Labeling, i: nat)
    requires Inv(s) && i < |s.log| && s.log[i].ruling == Stored
    ensures s.log[i].call in s.calls && Won(s.calls[s.log[i].call].phase)
  {
    var c := s.log[i].call;
    assert EntryOk(s.calls, s.log[i]);
    var x := s.calls[c];
    assert CallOk(s.log, s.labels, c, x);
    assert InLog(s.log, c);
    assert forall j | 0 <= j < |s.log| && s.log[j].call == c :: j == i;
  }

  /** One step appends at most, to the log and to the table. */
  lemma StepAppends(s: Labeling, step: Step)
    ensures s.log <= Next(s, step).log && s.labels <= Next(s, step).labels
  {
  }

  lemma {:induction false} RunAppends(s: Labeling, more: seq<Step>)
    ensures s.log <= Exec(s, more).log && s.labels <= Exec(s, more).labels
  {
    if more != [] {
      RunAppends(s, more[..|more| - 1]);
      StepAppends(Exec(s, more[..|more| - 1]), more[|more| - 1]);
    }
  }

  lemma {:induction false} ExecAppend(s: Labeling, steps: seq<Step>, more: seq<Step>)
    ensures Exec(s, steps + more) == Exec(Exec(s, steps), more)
  {
    if more == [] {
      assert steps + more == steps;
    } else {
      var n := |more| - 1;
      ExecAppend(s, steps, more[..n]);
      assert (steps + more)[..|steps + more| - 1] == steps + more[..n];
    }
  }

  /** A label never changes, and no prediction ever has two. */
  lemma LabelsNeverChange(steps: seq<Step>, more: seq<Step>, id: string)
    requires FindLabel(Exec(EMPTY, steps).labels, id).Some?
    ensures FindLabel(Exec(EMPTY, steps + more).labels, id) == FindLabel(Exec(EMPTY, steps).labels, id)
    ensures UniqueKeys(Exec(EMPTY, steps + more).labels)
  {
    RunsKeepInv(steps + more);
    ExecAppend(EMPTY, steps, more);
    RunAppends(Exec(EMPTY, steps), more);
    StillFound(Exec(EMPTY, steps).labels, Exec(EMPTY, steps + more).labels, id);
  }

  lemma StillFound(before: seq<LabelRow>, after: seq<LabelRow>, id: string)
    requires before <= after && FindLabel(before, id).Some?
    ensures FindLabel(after, id) == FindLabel(before, id)
  {
    assert after == before + after[|before|..];
    FoundStays(before, after[|before|..], id);
  }

  lemma {:induction false} FoundStays(labels: seq<LabelRow>, more: seq<LabelRow>, id: string)
    requires FindLabel(labels, id).Some?
    ensures FindLabel(labels + more, id) == FindLabel(labels, id)
    decreases |more|
  {
    if more == [] {
      assert labels + more == labels;
    } else {
      FindAfterInsert(labels, more[0], id);
      FoundStays(labels + [more[0]], more[1..], id);
      assert labels + more == labels + [more[0]] + more[1..];
    }
  }

  /** Linearizable: the calls took effect one at a time, each as the sequential rule says, every answer
      is the ruling of its call's one entry, and a call answered before another was made precedes it. */
  lemma Linearizable(steps: seq<Step>, more: seq<Step>, a: CallId, b: CallId)
    requires a in Exec(EMPTY, steps).calls && Exec(EMPTY, steps).calls[a].phase.Done?
    requires b !in Exec(EMPTY, steps).calls
    ensures var s := Exec(EMPTY, steps + more);
            && LogOk(s.log, s.calls)
            && (forall c | c in s.calls && s.calls[c].phase.Done? ::
                  Ruled(s.log, c, s.calls[c], RulingOf(s.calls[c].phase.answer)))
            && forall i, j | 0 <= i < |s.log| && 0 <= j < |s.log| && s.log[i].call == a && s.log[j].call == b :: i < j
  {
    var before, s := Exec(EMPTY, steps), Exec(EMPTY, steps + more);
    RunsKeepInv(steps);
    RunsKeepInv(steps + more);
    ExecAppend(EMPTY, steps, more);
    RunAppends(before, more);
    var k := EntryOfCall(before, a);
    assert s.log[k] == before.log[k];
    UnknownNotLogged(before.log, before.calls, b);
    assert forall j | 0 <= j < |before.log| :: s.log[j] == before.log[j];
    forall c | c in s.calls && s.calls[c].phase.Done?
      ensures Ruled(s.log, c, s.calls[c], RulingOf(s.calls[c].phase.answer))
    {
      assert CallOk(s.log, s.labels, c, s.calls[c]);
    }
  }

  /** What the last step of a call answers. A call that stored its label says whether the metric has landed by
      then; one that found a label compares it with its own. */
  lemma AnswerMeaning(s: Labeling, c: CallId)
    requires c in s.calls && (s.calls[c].phase.Written? || s.calls[c].phase.Found?)
    ensures var (x, landed) := (s.calls[c], exists i | 0 <= i < |s.metrics| ::
                                             s.metrics[i].predictionId == Some(s.calls[c].predictionId));
            var s' := DoRespond(s, c);
            && s'.calls[c].phase.Done?
            && var answer := s'.calls[c].phase.answer;
            && (x.phase.Written? ==> answer == if landed then AppliedLabel else PendingLabel)
            && (x.phase.Found? ==>
                  if x.phase.existing == x.actualLabel then answer == NoOp
                  else answer.Conflict? && answer.existing == x.phase.existing
                       && (answer.deploymentId.Some? <==> landed))
            && (s'.conflicts != s.conflicts <==> answer.Conflict? && landed)
  {
    FindMetricMeaning(s.metrics, s.calls[c].predictionId);
  }

  // ---------------------------------------------------------------------------------------------
  // What is put on record, and what an answer says about metrics

  function ConflictOf(x: Call): (DeploymentId, Event)
    requires x.phase.Done? && x.phase.answer.Conflict? && x.phase.answer.deploymentId.Some?
  {
    (x.phase.answer.deploymentId.value, LabelConflict(x.predictionId, x.phase.answer.existing, x.actualLabel))
  }

  predicate Attributed(x: Call) {
    x.phase.Done? && x.phase.answer.Conflict? && x.phase.answer.deploymentId.Some?
  }

  /** Answers that mention a metric mention the one in the table. */
  predicate Informed(metrics: seq<MetricRow>, x: Call) {
    && (x.phase == Done(AppliedLabel) ==> FindMetric(metrics, x.predictionId).Some?)
    && (Attributed(x) ==> FindMetric(metrics, x.predictionId) == x.phase.answer.deploymentId)
  }

  /** The calls whose answer calls for this event. */
  ghost function Claims(calls: map<CallId, Call>, e: (DeploymentId, Event)): set<CallId> {
    set c | c in calls && Attributed(calls[c]) && ConflictOf(calls[c]) == e
  }

  /** As many copies of each event as there are calls that claim it. */
  ghost predicate ConflictsOk(calls: map<CallId, Call>, conflicts: seq<(DeploymentId, Event)>) {
    forall e {:trigger Claims(calls, e)} :: multiset(conflicts)[e] == |Claims(calls, e)|
  }

  ghost predicate RecordOk(s: Labeling) {
    && (forall c {:trigger Informed(s.metrics, s.calls[c])} | c in s.calls :: Informed(s.metrics, s.calls[c]))
    && ConflictsOk(s.calls, s.conflicts)
  }

  /** Appending a row does not change what is found before it. */
  lemma {:induction false} FoundBefore(metrics: seq<MetricRow>, row: MetricRow, id: string)
    requires FindMetric(metrics, id).Some?
    ensures FindMetric(metrics + [row], id) == FindMetric(metrics, id)
  {
    assert (metrics + [row])[0] == metrics[0];
    assert (metrics + [row])[1..] == metrics[1..] + [row];
    if metrics[0].predictionId != Some(id) {
      FoundBefore(metrics[1..], row, id);
    }
  }

  lemma MeasureKeepsRecord(s: Labeling, row: MetricRow)
    requires RecordOk(s)
    ensures RecordOk(s.(metrics := RecordMetric(s.metrics, row)))
  {
    forall c | c in s.calls ensures Informed(RecordMetric(s.metrics, row), s.calls[c]) {
      assert Informed(s.metrics, s.calls[c]);
      if FindMetric(s.metrics, s.calls[c].predictionId).Some? {
        FoundBefore(s.metrics, row, s.calls[c].predictionId);
      }
    }
  }

  /** One call's answer and the event it leaves. */
  lemma OneMoreConflict(calls: map<CallId, Call>, conflicts: seq<(DeploymentId, Event)>, c: CallId, x: Call)
    requires ConflictsOk(calls, conflicts) && (c in calls ==> !Attributed(calls[c]))
    ensures ConflictsOk(calls[c := x], conflicts + if Attributed(x) then [ConflictOf(x)] else [])
  {
    var added := if Attributed(x) then [ConflictOf(x)] else [];
    forall e ensures multiset(conflicts + added)[e] == |Claims(calls[c := x], e)| {
      assert Claims(calls[c := x], e) == Claims(calls, e) + if Attributed(x) && ConflictOf(x) == e then {c} else {};
      assert multiset(conflicts + added) == multiset(conflicts) + multiset(added);
    }
  }

  lemma RespondKeepsRecord(s: Labeling, c: CallId)
    requires RecordOk(s) && c in s.calls && !s.calls[c].phase.Done?
    ensures RecordOk(DoRespond(s, c))
  {
    var s' := DoRespond(s, c);
    OneMoreConflict(s.calls, s.conflicts, c, s'.calls[c]);
    assert s.calls[c := s'.calls[c]] == s'.calls;
    assert s'.conflicts == s.conflicts + if Attributed(s'.calls[c]) then [ConflictOf(s'.calls[c])] else [];
    forall d | d in s'.calls ensures Informed(s'.metrics, s'.calls[d]) {
      assert Informed(s.metrics, s.calls[d]);
    }
  }

  /** All other steps leave tables, records and answers alone. */
  lemma QuietStep(s: Labeling, step: Step)
    requires !step.Respond? && !step.Measure?
    ensures var s' := Next(s, step);
            && s'.metrics == s.metrics && s'.conflicts == s.conflicts
            && (forall c | c in s.calls && s.calls[c].phase.Done? :: c in s'.calls && s'.calls[c] == s.calls[c])
            && (forall c | c in s'.calls && s'.calls[c].phase.Done? :: c in s.calls && s'.calls[c] == s.calls[c])
  {
  }

  lemma QuietStepKeepsRecord(s: Labeling, step: Step)
    requires RecordOk(s) && !step.Respond? && !step.Measure?
    ensures RecordOk(Next(s, step))
  {
    var s' := Next(s, step);
    QuietStep(s, step);
    forall c | c in s'.calls ensures Informed(s'.metrics, s'.calls[c]) {
      if s'.calls[c].phase.Done? {
        assert Informed(s.metrics, s.calls[c]);
      }
    }
    forall e ensures multiset(s'.conflicts)[e] == |Claims(s'.calls, e)| {
      assert Claims(s'.calls, e) == Claims(s.calls, e);
    }
  }

  lemma RecordStep(s: Labeling, step: Step)
    requires RecordOk(s)
    ensures RecordOk(Next(s, step))
  {
    if step.Measure? {
      MeasureKeepsRecord(s, step.row);
    } else if step.Respond? {
      if step.c in s.calls && !s.calls[step.c].phase.Done? {
        RespondKeepsRecord(s, step.c);
      }
    } else {
      QuietStepKeepsRecord(s, step);
    }
  }

  /** In every run: APPLIED means that the metric is there, a conflict names the deployment of the
      metric that is there, and each conflict is on record exactly as often as calls were answered
      with it: none is lost, none is doubled. */
  lemma {:induction false} ConflictsOnRecord(steps: seq<Step>)
    ensures RecordOk(Exec(EMPTY, steps))
  {
    if steps != [] {
      ConflictsOnRecord(steps[..|steps| - 1]);
      RecordStep(Exec(EMPTY, steps[..|steps| - 1]), steps[|steps| - 1]);
    }
  }
}
