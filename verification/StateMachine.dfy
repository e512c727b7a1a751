/** The deployment life cycle (backend/app/control_plane/state_machine.py). */
module StateMachine {
  import opened Models

  function AllowedTransitions(current: Status): set<Status> {
    match current
    case Pending => {Deploying, Failed}
    case Deploying => {CanaryRunning, Failed}
    case CanaryRunning => {Evaluating, Failed}
    case Evaluating => {Promoting, RollingBack, Inconclusive, Failed}
    case Promoting => {Promoted, Failed}
    case RollingBack => {RolledBack, Failed}
    case Inconclusive => {Promoting, RollingBack}
    case Promoted => {}
    case RolledBack => {}
    case Failed => {}
  }

  predicate Allowed(current: Status, target: Status) {
    target in AllowedTransitions(current)
  }

  /** The life cycle read backwards: from where each status is entered. */
  lemma EnteredFrom(source: Status, target: Status)
    ensures Allowed(source, target) <==>
            match target
            case Pending => false
            case Deploying => source == Pending
            case CanaryRunning => source == Deploying
            case Evaluating => source == CanaryRunning
            case Promoting | RollingBack => source == Evaluating || source == Inconclusive
            case Promoted => source == Promoting
            case RolledBack => source == RollingBack
            case Inconclusive => source == Evaluating
            case Failed => !source.IsTerminal() && source != Inconclusive
  {
  }

  /** What the three kinds of status mean on the life cycle: terminal ones have no successor, active ones
      can still come to be frozen, those in flight can still be promoted. */
  lemma StatusKinds(s: Status)
    ensures s.IsTerminal() <==> forall t :: !Allowed(s, t)
    ensures s.IsActive() <==> Allowed(s, Inconclusive) || Allowed(s, Evaluating)
    ensures s.InFlight() <==> Allowed(s, Promoting) || Allowed(s, Evaluating)
  {
    assert s == Pending ==> Allowed(s, Deploying);
    assert s == Deploying ==> Allowed(s, CanaryRunning);
    assert s == Promoting ==> Allowed(s, Promoted);
    assert s == RollingBack ==> Allowed(s, RolledBack);
    assert s == CanaryRunning ==> Allowed(s, Evaluating);
    assert s == Evaluating || s == Inconclusive ==> Allowed(s, Promoting);
  }

  /** A status history: every two neighbours are joined by an allowed edge. */
  predicate IsPath(path: seq<Status>) {
    forall i | 0 < i < |path| :: Allowed(path[i - 1], path[i])
  }

  /** Distance from the start of the life cycle. */
  function Rank(s: Status): nat {
    match s
    case Pending => 0
    case Deploying => 1
    case CanaryRunning => 2
    case Evaluating => 3
    case Inconclusive => 4
    case Promoting | RollingBack => 5
    case Promoted | RolledBack | Failed => 6
  }

  /** No status history of any length revisits a status: the life cycle has no cycle,
      hence no history is longer than seven, and only a last status can be terminal. */
  lemma {:induction false} PathsAreSimple(path: seq<Status>)
    requires IsPath(path)
    ensures forall i, j | 0 <= i < j < |path| :: path[i] != path[j] && !path[i].IsTerminal()
    ensures |path| <= 7
  {
    forall i, j | 0 <= i < j < |path|
      ensures Rank(path[i]) + (j - i) <= Rank(path[j]) && !path[i].IsTerminal()
    {
      RankGrows(path, i, j);
      assert Allowed(path[i + 1 - 1], path[i + 1]);
    }
    if path != [] {
      RankGrows(path, 0, |path| - 1);
    }
  }

  lemma {:induction false} RankGrows(path: seq<Status>, i: nat, j: nat)
    requires IsPath(path) && i <= j < |path|
    ensures Rank(path[i]) + (j - i) <= Rank(path[j])
    decreases j - i
  {
    if i < j {
      RankGrows(path, i, j - 1);
      assert Allowed(path[j - 1], path[j]);
    }
  }
}
