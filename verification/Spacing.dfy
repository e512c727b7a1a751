/** How often the worker evaluates a deployment (backend/app/worker/loop.py, `_is_due_for_evaluation`).
    The worker remembers nothing: whether an evaluation is due is read off the recorded ones. */
module Spacing {
  import opened Prelude
  import opened Models

  /** One evaluation; its rows carry timestamps between `start` and `finish`. */
  datatype Evaluation = Evaluation(start: Time, finish: Time, byWorker: bool)

  /** The newest evaluated_at on record: ORDER BY evaluated_at DESC, first row. */
  function LastEvaluated(evaluations: seq<Evaluation>): Time
    requires evaluations != []
  {
    var n := |evaluations| - 1;
    if n == 0 || evaluations[n].finish >= LastEvaluated(evaluations[..n]) then evaluations[n].finish
    else LastEvaluated(evaluations[..n])
  }

  predicate IsDue(evaluations: seq<Evaluation>, windowSeconds: nat, now: Time) {
    evaluations == [] || now - LastEvaluated(evaluations) >= windowSeconds * SECOND
  }

  /** One deployment as a worker, operators and the clock see it. `decided` is a sweep between its
      due-ness check and its evaluate call. */
  datatype World = World(clock: Time, decided: Option<Time>, evaluations: seq<Evaluation>)

  datatype Happening =
    | Wait(duration: nat)
    | Check
    | Evaluate(duration: nat)
    | Abandon
    | ManualEvaluation(duration: nat)

  function Record(w: World, duration: nat, byWorker: bool): World {
    w.(clock := w.clock + duration,
       evaluations := w.evaluations + [Evaluation(w.clock, w.clock + duration, byWorker)])
  }

  /** Abandon is the evaluate call answered 409, or the worker restarting: its decision is forgotten. */
  function Happen(w: World, windowSeconds: nat, h: Happening): World {
    match h
    case Wait(duration) => w.(clock := w.clock + duration)
    case Check =>
      if w.decided.None? && IsDue(w.evaluations, windowSeconds, w.clock) then w.(decided := Some(w.clock)) else w
    case Evaluate(duration) => if w.decided.None? then w else Record(w, duration, true).(decided := None)
    case Abandon => w.(decided := None)
    case ManualEvaluation(duration) => Record(w, duration, false)
  }

  function Life(clock: Time, windowSeconds: nat, happenings: seq<Happening>): World {
    if happenings == [] then World(clock, None, [])
    else Happen(Life(clock, windowSeconds, happenings[..|happenings| - 1]), windowSeconds, happenings[|happenings| - 1])
  }

  // ---------------------------------------------------------------------------------------------
  // Spacing

  ghost predicate SpacedFrom(evaluations: seq<Evaluation>, windowSeconds: nat, t: Time) {
    forall i | 0 <= i < |evaluations| && evaluations[i].byWorker :: evaluations[i].finish + windowSeconds * SECOND <= t
  }

  ghost predicate Spaced(evaluations: seq<Evaluation>, windowSeconds: nat) {
    forall i, j | 0 <= i < j < |evaluations| && evaluations[i].byWorker && evaluations[j].byWorker ::
      evaluations[i].finish + windowSeconds * SECOND <= evaluations[j].start
  }

  ghost predicate Timely(evaluations: seq<Evaluation>, now: Time) {
    forall i | 0 <= i < |evaluations| :: evaluations[i].start <= evaluations[i].finish <= now
  }

  ghost predicate Orderly(w: World, windowSeconds: nat) {
    && Timely(w.evaluations, w.clock)
    && Spaced(w.evaluations, windowSeconds)
    && (w.decided.Some? ==> w.decided.value <= w.clock && SpacedFrom(w.evaluations, windowSeconds, w.decided.value))
  }

  lemma {:induction false} LastIsLatest(evaluations: seq<Evaluation>, i: nat)
    requires i < |evaluations|
    ensures evaluations[i].finish <= LastEvaluated(evaluations)
  {
    var n := |evaluations| - 1;
    if i < n {
      LastIsLatest(evaluations[..n], i);
    }
  }

  lemma {:induction false} LastIsOne(evaluations: seq<Evaluation>) returns (i: nat)
    requires evaluations != []
    ensures i < |evaluations| && evaluations[i].finish == LastEvaluated(evaluations)
  {
    i := |evaluations| - 1;
    if i > 0 && evaluations[i].finish < LastEvaluated(evaluations[..i]) {
      i := LastIsOne(evaluations[..i]);
    }
  }

  /** Every evaluation on record is at least a window old. */
  ghost predicate AllOld(evaluations: seq<Evaluation>, windowSeconds: nat, now: Time) {
    forall i | 0 <= i < |evaluations| :: now - evaluations[i].finish >= windowSeconds * 1000000
  }

  /** A deployment is due exactly when all its evaluations are at least a window old. */
  lemma DueMeaning(evaluations: seq<Evaluation>, windowSeconds: nat, now: Time)
    ensures IsDue(evaluations, windowSeconds, now) <==> AllOld(evaluations, windowSeconds, now)
  {
    forall i | 0 <= i < |evaluations| ensures evaluations[i].finish <= LastEvaluated(evaluations) {
      LastIsLatest(evaluations, i);
    }
    if evaluations != [] {
      var last := LastIsOne(evaluations);
    }
  }

  lemma DueIsSpaced(evaluations: seq<Evaluation>, windowSeconds: nat, now: Time)
    requires IsDue(evaluations, windowSeconds, now)
    ensures SpacedFrom(evaluations, windowSeconds, now)
  {
    DueMeaning(evaluations, windowSeconds, now);
  }

  lemma HappenKeepsOrder(w: World, windowSeconds: nat, h: Happening)
    requires Orderly(w, windowSeconds)
    ensures Orderly(Happen(w, windowSeconds, h), windowSeconds)
  {
    if h.Check? && w.decided.None? && IsDue(w.evaluations, windowSeconds, w.clock) {
      DueIsSpaced(w.evaluations, windowSeconds, w.clock);
    }
  }

  /** Two evaluations by the worker are at least a window apart, the end of one to the start of the
      next, whatever restarts, refused calls and manual evaluations come in between. */
  lemma {:induction false} WorkerEvaluationsAreSpaced(clock: Time, windowSeconds: nat, happenings: seq<Happening>)
    ensures Orderly(Life(clock, windowSeconds, happenings), windowSeconds)
  {
    if happenings != [] {
      var front := happenings[..|happenings| - 1];
      WorkerEvaluationsAreSpaced(clock, windowSeconds, front);
      HappenKeepsOrder(Life(clock, windowSeconds, front), windowSeconds, happenings[|happenings| - 1]);
    }
  }

  // ---------------------------------------------------------------------------------------------
  // Rate

  predicate CountsIn(e: Evaluation, since: Time, until: Time) {
    e.byWorker && since <= e.start <= until
  }

  function CountIn(evaluations: seq<Evaluation>, since: Time, until: Time): nat {
    if evaluations == [] then 0
    else
      var n := |evaluations| - 1;
      CountIn(evaluations[..n], since, until) + if CountsIn(evaluations[n], since, until) then 1 else 0
  }

  /** k counted evaluations reach at least k - 1 windows past the start of the interval. */
  lemma {:induction false} CountReaches(evaluations: seq<Evaluation>, windowSeconds: nat, since: Time, until: Time)
    requires Spaced(evaluations, windowSeconds)
    requires forall i | 0 <= i < |evaluations| :: evaluations[i].start <= evaluations[i].finish
    ensures var k := CountIn(evaluations, since, until);
            k > 0 ==> exists i | 0 <= i < |evaluations| ::
              CountsIn(evaluations[i], since, until)
                  && since + (k - 1) * (windowSeconds * SECOND) <= evaluations[i].start
  {
    if evaluations != [] {
      var n := |evaluations| - 1;
      var front := evaluations[..n];
      CountReaches(front, windowSeconds, since, until);
      var k := CountIn(front, since, until);
      if k > 0 {
        var i :| 0 <= i < |front| && CountsIn(front[i], since, until)
                 && since + (k - 1) * (windowSeconds * SECOND) <= front[i].start;
        assert evaluations[i] == front[i];
        if CountsIn(evaluations[n], since, until) {
          OneMoreWindow(k, windowSeconds * SECOND);
        }
      }
    }
  }

  lemma OneMoreWindow(k: nat, w: nat)
    requires k > 0
    ensures k * w == (k - 1) * w + w
  {
  }

  lemma LessFactor(a: int, b: int, w: nat)
    requires a * w < b * w
    ensures a < b
  {
  }

  lemma AtMost(k: nat, w: nat, length: nat)
    requires w > 0 && k > 0 && (k - 1) * w <= length
    ensures k <= length / w + 1
  {
    assert length < (length / w + 1) * w;
    LessFactor(k - 1, length / w + 1, w);
  }

  /** Any interval of length T holds at most T / window + 1 evaluations by the worker. */
  ghost predicate Rated(evaluations: seq<Evaluation>, windowSeconds: nat)
    requires windowSeconds >= 1
  {
    forall since, until | since <= until ::
      CountIn(evaluations, since, until) <= (until - since) / (windowSeconds * SECOND) + 1
  }

  lemma RateIn(evaluations: seq<Evaluation>, windowSeconds: nat, now: Time, since: Time, until: Time)
    requires windowSeconds >= 1 && Spaced(evaluations, windowSeconds) && Timely(evaluations, now) && since <= until
    ensures CountIn(evaluations, since, until) <= (until - since) / (windowSeconds * SECOND) + 1
  {
    var k := CountIn(evaluations, since, until);
    CountReaches(evaluations, windowSeconds, since, until);
    if k > 0 {
      AtMost(k, windowSeconds * SECOND, until - since);
    }
  }

  lemma SpacedIsRated(evaluations: seq<Evaluation>, windowSeconds: nat, now: Time)
    requires windowSeconds >= 1 && Spaced(evaluations, windowSeconds) && Timely(evaluations, now)
    ensures Rated(evaluations, windowSeconds)
  {
    forall since, until | since <= until
      ensures CountIn(evaluations, since, until) <= (until - since) / (windowSeconds * SECOND) + 1
    {
      RateIn(evaluations, windowSeconds, now, since, until);
    }
  }

  /** So it is whatever happens. */
  lemma EvaluationRate(clock: Time, windowSeconds: nat, happenings: seq<Happening>)
    requires windowSeconds >= 1
    ensures Rated(Life(clock, windowSeconds, happenings).evaluations, windowSeconds)
  {
    var w := Life(clock, windowSeconds, happenings);
    WorkerEvaluationsAreSpaced(clock, windowSeconds, happenings);
    SpacedIsRated(w.evaluations, windowSeconds, w.clock);
  }
}
