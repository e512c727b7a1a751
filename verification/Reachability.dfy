/** `record_router_reachability_change` (backend/app/control_plane/service.py): reachability events
    are written on change only, with the event log itself as the memory. */
module Reachability {
  import opened Models

  predicate IsReachability(e: Event) {
    e.RouterUnreachable? || e.RouterRecovered?
  }

  /** The newest reachability event of a log says unreachable: ORDER BY created_at DESC LIMIT 1. */
  predicate WasUnreachable(log: seq<Event>) {
    log != [] &&
    if IsReachability(log[|log| - 1]) then log[|log| - 1].RouterUnreachable?
    else WasUnreachable(log[..|log| - 1])
  }

  /** The events one observation writes. */
  function EdgeEvents(log: seq<Event>, reachable: bool): seq<Event> {
    if reachable != WasUnreachable(log) then []
    else [if reachable then RouterRecovered else RouterUnreachable]
  }

  function RecordReachability(db: Db, id: DeploymentId, reachable: bool): Db {
    var log := EventsOf(db, id);
    if EdgeEvents(log, reachable) == [] then db
    else db.(events := db.events[id := log + EdgeEvents(log, reachable)])
  }

  /** Some event says unreachable, and none after it says recovered. */
  ghost predicate LastSaysUnreachable(log: seq<Event>) {
    exists i | 0 <= i < |log| :: log[i] == RouterUnreachable && forall j | i < j < |log| :: log[j] != RouterRecovered
  }

  lemma {:induction false} MemoryMeaning(log: seq<Event>)
    ensures WasUnreachable(log) <==> LastSaysUnreachable(log)
  {
    if log != [] {
      var n := |log| - 1;
      var front := log[..n];
      MemoryMeaning(front);
      if WasUnreachable(log) && log[n] != RouterUnreachable {
        var i :| 0 <= i < |front| && front[i] == RouterUnreachable
                 && forall j | i < j < |front| :: front[j] != RouterRecovered;
        assert log[i] == RouterUnreachable;
      }
      if i :| 0 <= i < |log| && log[i] == RouterUnreachable && forall j | i < j < |log| :: log[j] != RouterRecovered {
        assert i < n ==> front[i] == RouterUnreachable;
      }
    }
  }

  /** One observation in the tables: recovered is written if the log said unreachable, unreachable if it did
      not, and nothing else changes. */
  ghost predicate Noted(db: Db, id: DeploymentId, reachable: bool, db': Db) {
    && db' == db.(events := db'.events)
    && EventsOf(db', id) == EventsOf(db, id)
       + (if reachable && LastSaysUnreachable(EventsOf(db, id)) then [RouterRecovered]
          else if !reachable && !LastSaysUnreachable(EventsOf(db, id)) then [RouterUnreachable]
          else [])
    && forall o | o != id :: EventsOf(db', o) == EventsOf(db, o)
  }

  lemma ObservationMeaning(db: Db, id: DeploymentId, reachable: bool)
    ensures Noted(db, id, reachable, RecordReachability(db, id, reachable))
  {
    MemoryMeaning(EventsOf(db, id));
  }

  // ---------------------------------------------------------------------------------------------
  // Edge detection

  /** The log after a sequence of observations; other events may be written in between. */
  datatype Entry = Seen(reachable: bool) | Other(event: Event)

  function LogAfter(log: seq<Event>, entries: seq<Entry>): seq<Event>
    decreases |entries|
  {
    if entries == [] then log
    else
      var next := match entries[0]
        case Seen(reachable) => log + EdgeEvents(log, reachable)
        case Other(event) => log + [event];
      LogAfter(next, entries[1..])
  }

  /** The reachability events among `events`, as flags: true for recovered. */
  function Edges(events: seq<Event>): seq<bool> {
    if events == [] then []
    else if events[0].RouterRecovered? then [true] + Edges(events[1..])
    else if events[0].RouterUnreachable? then [false] + Edges(events[1..])
    else Edges(events[1..])
  }

  /** The reference: where a sequence of observations differs from the one before it. */
  function Changes(current: bool, entries: seq<Entry>): seq<bool>
    decreases |entries|
  {
    if entries == [] then []
    else match entries[0]
      case Other(_) => Changes(current, entries[1..])
      case Seen(reachable) =>
        if reachable == current then Changes(current, entries[1..])
        else [reachable] + Changes(reachable, entries[1..])
  }

  lemma {:induction false} EdgesAppend(xs: seq<Event>, ys: seq<Event>)
    ensures Edges(xs + ys) == Edges(xs) + Edges(ys)
  {
    if xs == [] {
      assert xs + ys == ys;
    } else {
      assert (xs + ys)[1..] == xs[1..] + ys;
      EdgesAppend(xs[1..], ys);
    }
  }

  /** Reading the newest event back is reading the last edge. */
  lemma {:induction false} MemoryIsLastEdge(log: seq<Event>)
    ensures WasUnreachable(log) <==> Edges(log) != [] && !Edges(log)[|Edges(log)| - 1]
  {
    if log != [] {
      var front, e := log[..|log| - 1], log[|log| - 1];
      assert log == front + [e];
      EdgesAppend(front, [e]);
      MemoryIsLastEdge(front);
    }
  }

  /** Exact edge detection: for every sequence of observations, interleaved with any other events,
      the events written are precisely the changes of the sequence, starting from what the log said
      before (reachable, for an empty log). */
  lemma {:induction false} EventsAreTheEdges(log: seq<Event>, entries: seq<Entry>)
    requires forall e | e in entries && e.Other? :: !IsReachability(e.event)
    ensures Edges(LogAfter(log, entries)) == Edges(log) + Changes(!WasUnreachable(log), entries)
    decreases |entries|
  {
    if entries != [] {
      var added := match entries[0]
        case Seen(reachable) => EdgeEvents(log, reachable)
        case Other(event) => [event];
      assert entries[0] in entries;
      EventsAreTheEdges(log + added, entries[1..]);
      EdgesAppend(log, added);
      MemoryIsLastEdge(log);
      MemoryIsLastEdge(log + added);
      if entries[0].Seen? && entries[0].reachable == WasUnreachable(log) {
        assert added[1..] == [];
        assert Edges(added) == [entries[0].reachable];
        assert Edges(log) + Edges(added) + Changes(entries[0].reachable, entries[1..])
            == Edges(log) + Changes(!WasUnreachable(log), entries);
      } else if entries[0].Other? {
        assert added[1..] == [];
        assert Edges(log) + [] == Edges(log);
      } else {
        assert log + added == log;
      }
    }
  }

  /** Changes alternate, and a fresh log starts with unreachable. */
  lemma {:induction false} ChangesAlternate(current: bool, entries: seq<Entry>)
    ensures var c := Changes(current, entries);
            && (c != [] ==> c[0] == !current)
            && forall i | 0 < i < |c| :: c[i] == !c[i - 1]
    decreases |entries|
  {
    if entries != [] {
      match entries[0]
      case Other(_) => ChangesAlternate(current, entries[1..]);
      case Seen(reachable) => ChangesAlternate(reachable, entries[1..]);
    }
  }
}
