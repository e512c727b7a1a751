/** Traffic weights: rounding to six digits, the ramp, and what the router's validator asks of a
    split (backend/app/control_plane/service.py, backend/app/router/config.py). Weights are reals. */
module Weights {
  import opened Prelude
  import opened Models

  const MICRO := 1000000.0
  const SLACK := 0.000000001
  const TRAFFIC_STAGES: seq<real> := [0.10, 0.25, 0.50, 1.0]

  /** Round half to even, the rule of Python's `round`. */
  function RoundHalfEven(x: real): int {
    var f := x.Floor;
    var rest := x - f as real;
    if rest < 0.5 then f
    else if rest > 0.5 then f + 1
    else if f % 2 == 0 then f else f + 1
  }

  /** `round(w, 6)`. */
  function Round6(w: real): real {
    RoundHalfEven(w * MICRO) as real / MICRO
  }

  /** Rounding is nearest: the rounded number is within half a unit. */
  lemma RoundIsNearest(x: real)
    ensures -0.5 <= RoundHalfEven(x) as real - x <= 0.5
  {
  }

  /** The rounded number is the nearest integer; halfway between two, the even one. */
  lemma RoundMeaning(x: real, n: int)
    ensures RoundHalfEven(x) == n <==>
            -0.5 < n as real - x < 0.5 || ((n as real - x == 0.5 || n as real - x == -0.5) && n % 2 == 0)
  {
    var f := x.Floor;
    if n != f && n != f + 1 {
      assert n as real - x >= 1.0 || n as real - x < -0.5;
    }
  }

  /** Six digits: the nearest multiple of a millionth, ties to the even one. */
  lemma Round6Meaning(w: real, n: int)
    ensures Round6(w) == n as real / 1000000.0 <==>
            var off := n as real - w * 1000000.0;
            -0.5 < off < 0.5 || ((off == 0.5 || off == -0.5) && n % 2 == 0)
  {
    RoundMeaning(w * MICRO, n);
  }

  /** Rounding is symmetric about an even number: this is where half-to-even matters. */
  lemma RoundMirror(x: real, n: int)
    requires n % 2 == 0
    ensures RoundHalfEven(n as real - x) == n - RoundHalfEven(x)
  {
    var f := x.Floor;
    if x == f as real {
      assert (n as real - x).Floor == n - f;
    } else {
      assert (n as real - x).Floor == n - f - 1;
    }
  }

  /** The rounded count of millionths. */
  lemma Millionths(w: real, n: int)
    requires n == RoundHalfEven(w * MICRO)
    ensures Round6(w) == n as real / 1000000.0
    ensures -0.5 <= n as real - w * 1000000.0 <= 0.5
  {
    RoundIsNearest(w * MICRO);
  }

  lemma MillionthsMirror(w: real)
    ensures RoundHalfEven((1.0 - w) * MICRO) == 1000000 - RoundHalfEven(w * MICRO)
  {
    assert (1.0 - w) * MICRO == 1000000.0 - w * MICRO;
    RoundMirror(w * MICRO, 1000000);
  }

  lemma MillionthsInRange(w: real, n: int)
    requires -0.5 <= n as real - w * 1000000.0 <= 0.5
    ensures -0.0000005 <= n as real / 1000000.0 - w <= 0.0000005
    ensures 0.0 <= w <= 1.0 ==> 0 <= n <= 1000000
  {
  }

  /** Rounding w and 1 - w separately loses no traffic, for every real w; the split also
      moves each share by at most half a millionth. */
  lemma SplitIsConserved(w: real)
    ensures Round6(1.0 - w) + Round6(w) == 1.0
    ensures -0.0000005 <= Round6(w) - w <= 0.0000005
    ensures 0.0 <= w <= 1.0 ==> 0.0 <= Round6(w) <= 1.0 && 0.0 <= Round6(1.0 - w) <= 1.0
  {
    var n := RoundHalfEven(w * MICRO);
    Millionths(w, n);
    Millionths(1.0 - w, 1000000 - n) by {
      MillionthsMirror(w);
    }
    MillionthsInRange(w, n);
  }

  /** The two-way split a rollout writes. */
  function Split(stable: Version, canary: Version, canaryWeight: real): seq<Target> {
    [Target(stable, Round6(1.0 - canaryWeight)), Target(canary, Round6(canaryWeight))]
  }

  /** The first listed weight of `version`, if any. */
  function FindWeight(targets: seq<Target>, version: Version): Option<real> {
    if targets == [] then None
    else if targets[0].version == version then Some(targets[0].weight)
    else FindWeight(targets[1..], version)
  }

  /** It is the weight of the first target of that version. */
  lemma {:induction false} FindsFirst(targets: seq<Target>, version: Version)
    ensures FindWeight(targets, version).None? <==> forall i | 0 <= i < |targets| :: targets[i].version != version
    ensures forall i | 0 <= i < |targets| && targets[i].version == version
              && (forall j | 0 <= j < i :: targets[j].version != version) ::
              FindWeight(targets, version) == Some(targets[i].weight)
  {
    if targets != [] {
      var rest := targets[1..];
      FindsFirst(rest, version);
      assert forall i | 0 < i < |targets| :: targets[i] == rest[i - 1];
      if targets[0].version != version {
        forall i | 0 <= i < |targets| && targets[i].version == version
            && (forall j | 0 <= j < i :: targets[j].version != version)
          ensures FindWeight(targets, version) == Some(targets[i].weight)
        {
          assert forall j | 0 <= j < i - 1 :: rest[j] == targets[j + 1];
        }
      }
    }
  }

  /** `_current_canary_weight`. */
  function CanaryWeight(allocation: Option<Allocation>, canary: Version): real {
    if allocation.None? then 0.0 else FindWeight(allocation.value.targets, canary).GetOr(0.0)
  }

  /** The canary's weight is that of its first target, and zero without a target or an allocation. */
  lemma CanaryWeightMeaning(allocation: Option<Allocation>, canary: Version)
    ensures var targets := if allocation.None? then [] else allocation.value.targets;
            && ((forall i | 0 <= i < |targets| :: targets[i].version != canary) ==>
                  CanaryWeight(allocation, canary) == 0.0)
            && (forall i | 0 <= i < |targets| && targets[i].version == canary
                  && (forall j | 0 <= j < i :: targets[j].version != canary) ::
                  CanaryWeight(allocation, canary) == targets[i].weight)
  {
    if allocation.Some? {
      FindsFirst(allocation.value.targets, canary);
    }
  }

  function FirstAbove(stages: seq<real>, weight: real): Option<real> {
    if stages == [] then None
    else if stages[0] > weight + SLACK then Some(stages[0])
    else FirstAbove(stages[1..], weight)
  }

  /** The next step of the ramp, or None once no stage is left. */
  function NextStage(weight: real): Option<real> {
    FirstAbove(TRAFFIC_STAGES, weight)
  }

  /** `_canary_at_full_traffic` of the worker. */
  predicate AtFullTraffic(allocation: Option<Allocation>, canary: Version) {
    && allocation.Some?
    && var weight := FindWeight(allocation.value.targets, canary);
    && weight.Some?
    && weight.value >= 1.0 - SLACK
  }

  /** How many stages of the ramp lie above a weight. */
  function StagesAbove(weight: real): nat {
    if weight + SLACK < 0.10 then 4
    else if weight + SLACK < 0.25 then 3
    else if weight + SLACK < 0.50 then 2
    else if weight + SLACK < 1.0 then 1
    else 0
  }

  /** The generator's search over the ramp, read off: it yields exactly the least stage above
      the weight, each step leaves one stage fewer, and rounding does not move a stage. */
  lemma NextStageMeaning(weight: real)
    ensures NextStage(weight).None? <==> StagesAbove(weight) == 0
    ensures NextStage(weight).None? <==> weight >= 1.0 - SLACK
    ensures NextStage(weight).Some? ==>
              var next := NextStage(weight).value;
              && next in TRAFFIC_STAGES
              && next > weight + SLACK
              && (forall w | w in TRAFFIC_STAGES && w > weight + SLACK :: next <= w)
              && Round6(next) == next
              && StagesAbove(next) + 1 == StagesAbove(weight)
  {
    var s := TRAFFIC_STAGES;
    assert s[1..] == [0.25, 0.50, 1.0] && s[1..][1..] == [0.50, 1.0] && s[1..][1..][1..] == [1.0];
    assert FirstAbove([1.0], weight) == if 1.0 > weight + SLACK then Some(1.0) else None by {
      assert [1.0][1..] == [];
    }
    assert FirstAbove(s[1..][1..], weight) == if 0.50 > weight + SLACK then Some(0.50) else FirstAbove([1.0], weight);
    assert FirstAbove(s[1..], weight) == if 0.25 > weight + SLACK then Some(0.25) else FirstAbove(s[1..][1..], weight);
    assert Round6(0.10) == 0.10 && Round6(0.25) == 0.25 && Round6(0.50) == 0.50 && Round6(1.0) == 1.0 by {
      assert (0.10 * MICRO).Floor == 100000 && (0.25 * MICRO).Floor == 250000;
      assert (0.50 * MICRO).Floor == 500000 && (1.0 * MICRO).Floor == 1000000;
    }
  }

  /** The least stage of the ramp above a weight. */
  predicate LeastStageAbove(stage: real, weight: real) {
    var stages := [0.10, 0.25, 0.50, 1.0];
    && stage in stages && stage > weight + 0.000000001
    && forall other | other in stages && other > weight + 0.000000001 :: stage <= other
  }

  /** The split written for a stage has the stage's own weights, whole to the last digit. */
  lemma StageSplit(stable: Version, canary: Version, weight: real)
    requires NextStage(weight).Some?
    ensures var stage := NextStage(weight).value;
            && LeastStageAbove(stage, weight)
            && Split(stable, canary, stage) == [Target(stable, 1.0 - stage), Target(canary, stage)]
  {
    NextStageMeaning(weight);
    SplitIsConserved(NextStage(weight).value);
  }

  function TotalWeight(targets: seq<Target>): real {
    if targets == [] then 0.0 else targets[0].weight + TotalWeight(targets[1..])
  }

  /** `RouterConfig._validate_targets` together with the `ge=0` bound of each weight. */
  predicate RouterAccepts(targets: seq<Target>) {
    && targets != []
    && (forall i, j | 0 <= i < j < |targets| :: targets[i].version != targets[j].version)
    && (forall i | 0 <= i < |targets| :: targets[i].weight >= 0.0)
    && TotalWeight(targets) > 0.0
  }

  lemma {:induction false} TotalIsPositive(targets: seq<Target>)
    requires forall i | 0 <= i < |targets| :: targets[i].weight >= 0.0
    ensures TotalWeight(targets) >= 0.0
    ensures TotalWeight(targets) > 0.0 <==> exists i | 0 <= i < |targets| :: targets[i].weight > 0.0
  {
    if targets != [] {
      var rest := targets[1..];
      assert forall i | 0 <= i < |rest| :: rest[i] == targets[i + 1];
      TotalIsPositive(rest);
      if i :| 0 <= i < |targets| && targets[i].weight > 0.0 {
        assert i > 0 ==> rest[i - 1].weight > 0.0;
      }
    }
  }

  /** What the router validates: different versions, no negative weight, and some traffic. */
  lemma ValidatorMeaning(targets: seq<Target>)
    ensures RouterAccepts(targets) <==>
            && (forall i, j | 0 <= i < |targets| && 0 <= j < |targets| && i != j ::
                  targets[i].version != targets[j].version)
            && (forall i | 0 <= i < |targets| :: targets[i].weight >= 0.0)
            && exists i | 0 <= i < |targets| :: targets[i].weight > 0.0
  {
    if forall i | 0 <= i < |targets| :: targets[i].weight >= 0.0 {
      TotalIsPositive(targets);
    }
  }

  lemma SingleTarget(v: Version)
    ensures RouterAccepts([Target(v, 1.0)]) && TotalWeight([Target(v, 1.0)]) == 1.0
  {
    assert [Target(v, 1.0)][1..] == [];
  }

  /** A split of two different versions carries all the traffic, passes the router's validator,
      and its canary share is read back. */
  lemma SplitIsRoutable(stable: Version, canary: Version, w: real)
    requires stable != canary && 0.0 <= w <= 1.0
    ensures TotalWeight(Split(stable, canary, w)) == 1.0
    ensures RouterAccepts(Split(stable, canary, w))
    ensures FindWeight(Split(stable, canary, w), canary) == Some(Round6(w))
  {
    SplitIsConserved(w);
    var t := Split(stable, canary, w);
    assert t[1..] == [t[1]] && t[1..][1..] == [];
    assert TotalWeight(t[1..]) == t[1].weight + TotalWeight(t[1..][1..]);
  }

  /** The worker's "promote instead of advance" test and the service's "no stage left" test are
      the same test on every allocation, well formed or not, that names the canary. */
  lemma WorkerAgreesWithService(allocation: Option<Allocation>, canary: Version)
    ensures AtFullTraffic(allocation, canary) <==> NextStage(CanaryWeight(allocation, canary)).None?
  {
    NextStageMeaning(CanaryWeight(allocation, canary));
  }
}
