/** The audit log read as a program: replaying a deployment's events gives its state back. */
module Audit {
  import opened Prelude
  import opened Models
  import opened StateMachine

  datatype AuditState = AuditState(created: bool, status: Status, retryCount: nat, paused: bool)

  const START := AuditState(false, Pending, 0, false)

  function AuditOf(row: Deployment): AuditState {
    AuditState(true, row.status, row.retryCount, row.paused)
  }

  /** Router and label events: they say nothing about the deployment row. */
  predicate IsObservation(e: Event) {
    e.RouterUnreachable? || e.RouterRecovered? || e.RouterReconciled? || e.LabelConflict?
  }

  /** One event, strictly: an event that could not have happened here gives None. */
  function ReplayOne(a: AuditState, e: Event): Option<AuditState> {
    match e
    case Created =>
      if !a.created && a == START then Some(a.(created := true)) else None
    case StatusChanged(source, target) =>
      if a.created && a.status == source && Allowed(source, target) then Some(a.(status := target)) else None
    case AutomationPaused =>
      if a.created && !a.paused && !a.status.IsTerminal() then Some(a.(paused := true)) else None
    case AutomationResumed =>
      if a.created && a.paused && !a.status.IsTerminal() then Some(a.(paused := false)) else None
    case TrafficAdvanced(_, _) =>
      if a.created && a.status.IsActive() then Some(a) else None
    case InconclusiveCycle(attempt, _) =>
      if a.created && a.status.IsActive() && attempt == a.retryCount + 1
      then Some(a.(retryCount := attempt)) else None
    case _ => Some(a)
  }

  function ReplayFrom(a: AuditState, events: seq<Event>): Option<AuditState>
    decreases |events|
  {
    if events == [] then Some(a)
    else
      var next := ReplayOne(a, events[0]);
      if next.None? then None else ReplayFrom(next.value, events[1..])
  }

  lemma {:induction false} ReplayAppend(a: AuditState, xs: seq<Event>, ys: seq<Event>)
    ensures ReplayFrom(a, xs + ys) ==
            var mid := ReplayFrom(a, xs);
            if mid.None? then None else ReplayFrom(mid.value, ys)
    decreases |xs|
  {
    if xs == [] {
      assert xs + ys == ys;
    } else {
      assert (xs + ys)[1..] == xs[1..] + ys;
      var next := ReplayOne(a, xs[0]);
      if next.Some? {
        ReplayAppend(next.value, xs[1..], ys);
      }
    }
  }

  lemma ReplayLog(a: AuditState, xs: seq<Event>, e: Event)
    ensures ReplayFrom(a, xs + [e]) ==
            var mid := ReplayFrom(a, xs);
            if mid.None? then None else ReplayOne(mid.value, e)
  {
    ReplayAppend(a, xs, [e]);
  }

  // ---------------------------------------------------------------------------------------------
  // What an accepted log looks like, without reference to replaying

  /** The statuses a log says the deployment went through after `from`. */
  function StatusPath(from: Status, events: seq<Event>): (path: seq<Status>)
    ensures |path| >= 1 && path[0] == from
    decreases |events|
  {
    if events == [] then [from]
    else if events[0].StatusChanged? then [from] + StatusPath(events[0].target, events[1..])
    else StatusPath(from, events[1..])
  }

  function Cycles(events: seq<Event>): nat {
    if events == [] then 0 else (if events[0].InconclusiveCycle? then 1 else 0) + Cycles(events[1..])
  }

  /** The automation hold after each paused/resumed event. */
  function Holds(events: seq<Event>): seq<bool> {
    if events == [] then []
    else if events[0].AutomationPaused? then [true] + Holds(events[1..])
    else if events[0].AutomationResumed? then [false] + Holds(events[1..])
    else Holds(events[1..])
  }

  /** Each hold event flips the flag that started at `paused`. */
  predicate Alternates(paused: bool, holds: seq<bool>) {
    && (holds != [] ==> holds[0] == !paused)
    && forall i | 0 < i < |holds| :: holds[i] == !holds[i - 1]
  }

  function Last(default: bool, holds: seq<bool>): bool {
    if holds == [] then default else holds[|holds| - 1]
  }

  /** An accepted log is a connected chain of allowed edges that ends at the current status, holds
      as many inconclusive cycles as were counted, and pauses and resumes strictly in turn. */
  lemma {:induction false} ReplayMeaning(a: AuditState, events: seq<Event>)
    requires ReplayFrom(a, events).Some?
    ensures var b := ReplayFrom(a, events).value;
            var path := StatusPath(a.status, events);
            && IsPath(path)
            && path[|path| - 1] == b.status
            && Cycles(events) + a.retryCount == b.retryCount
            && Alternates(a.paused, Holds(events))
            && Last(a.paused, Holds(events)) == b.paused
    decreases |events|
  {
    if events != [] {
      var next := ReplayOne(a, events[0]).value;
      ReplayMeaning(next, events[1..]);
      if events[0].StatusChanged? {
        var rest := StatusPath(events[0].target, events[1..]);
        var path := StatusPath(a.status, events);
        assert path == [a.status] + rest;
        forall i | 0 < i < |path| ensures Allowed(path[i - 1], path[i]) {
          if i > 1 {
            assert path[i - 1] == rest[i - 2] && path[i] == rest[i - 1];
          }
        }
      }
    }
  }

  /** The status after a log that starts from nothing. */
  function StatusAfter(events: seq<Event>): Status {
    var path := StatusPath(Pending, events);
    path[|path| - 1]
  }

  /** An event stands where it can have happened: created first and once, advances and inconclusive cycles on an
      active deployment, the cycles numbered from one, holds before the end, and each edge from the status the
      log had come to. */
  predicate InPlace(events: seq<Event>, i: nat)
    requires i < |events|
  {
    var (front, status) := (events[..i], StatusAfter(events[..i]));
    && (!IsObservation(events[i]) ==> (events[i] == Created <==> Created !in front))
    && match events[i]
       case StatusChanged(source, _) => source == status
       case TrafficAdvanced(_, _) => status in {CanaryRunning, Evaluating}
       case InconclusiveCycle(attempt, _) => status in {CanaryRunning, Evaluating} && attempt == Cycles(front) + 1
       case AutomationPaused => status !in {Promoted, RolledBack, Failed}
       case AutomationResumed => status !in {Promoted, RolledBack, Failed}
       case _ => true
  }

  lemma {:induction false} CreatedOnce(a: AuditState, events: seq<Event>)
    requires ReplayFrom(a, events).Some?
    ensures ReplayFrom(a, events).value.created <==> a.created || Created in events
    ensures a.created ==> Created !in events
    decreases |events|
  {
    if events != [] {
      CreatedOnce(ReplayOne(a, events[0]).value, events[1..]);
      assert events == [events[0]] + events[1..];
    }
  }

  lemma EventsInPlace(events: seq<Event>, i: nat)
    requires ReplayFrom(START, events).Some? && i < |events|
    ensures InPlace(events, i)
  {
    var front := events[..i];
    assert events == front + events[i..] && events[i..][0] == events[i];
    ReplayAppend(START, front, events[i..]);
    CreatedOnce(START, front);
    ReplayMeaning(START, front);
  }
}
