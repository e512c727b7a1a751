/** Linear-interpolation percentiles in exact arithmetic
    (backend/app/control_plane/metrics_service.py, `_percentile` over `sorted(...)`). */
module Percentile {

  // ---------------------------------------------------------------------------------------------
  // sorted()

  predicate IsSorted(s: seq<real>) {
    forall i, j | 0 <= i < j < |s| :: s[i] <= s[j]
  }

  function Insert(x: real, s: seq<real>): seq<real> {
    if s == [] || x <= s[0] then [x] + s else [s[0]] + Insert(x, s[1..])
  }

  function Sorted(s: seq<real>): seq<real> {
    if s == [] then [] else Insert(s[0], Sorted(s[1..]))
  }

  lemma SortedCons(x: real, s: seq<real>)
    requires IsSorted(s) && forall y | y in s :: x <= y
    ensures IsSorted([x] + s)
  {
    var t := [x] + s;
    forall i, j | 0 <= i < j < |t| ensures t[i] <= t[j] {
      assert t[j] == s[j - 1] && s[j - 1] in s;
      assert i > 0 ==> t[i] == s[i - 1];
    }
  }

  lemma {:induction false} InsertKeepsElements(x: real, s: seq<real>)
    ensures multiset(Insert(x, s)) == multiset{x} + multiset(s) && |Insert(x, s)| == |s| + 1
  {
    if s != [] && x > s[0] {
      InsertKeepsElements(x, s[1..]);
      assert s == [s[0]] + s[1..];
    }
  }

  lemma {:induction false} InsertKeepsSorted(x: real, s: seq<real>)
    requires IsSorted(s)
    ensures IsSorted(Insert(x, s))
  {
    if s != [] && x > s[0] {
      InsertKeepsSorted(x, s[1..]);
      InsertKeepsElements(x, s[1..]);
      forall y | y in Insert(x, s[1..]) ensures s[0] <= y {
        assert y in multiset(Insert(x, s[1..]));
        assert y == x || y in s[1..];
      }
      SortedCons(s[0], Insert(x, s[1..]));
    } else {
      SortedCons(x, s);
    }
  }

  lemma {:induction false} SortedKeepsElements(s: seq<real>)
    ensures multiset(Sorted(s)) == multiset(s) && |Sorted(s)| == |s|
  {
    if s != [] {
      SortedKeepsElements(s[1..]);
      InsertKeepsElements(s[0], Sorted(s[1..]));
      assert s == [s[0]] + s[1..];
    }
  }

  lemma {:induction false} SortedMeaning(s: seq<real>)
    ensures IsSorted(Sorted(s)) && multiset(Sorted(s)) == multiset(s) && |Sorted(s)| == |s|
  {
    SortedKeepsElements(s);
    if s != [] {
      SortedMeaning(s[1..]);
      InsertKeepsSorted(s[0], Sorted(s[1..]));
    }
  }

  lemma SortedLength(s: seq<real>)
    ensures |Sorted(s)| == |s|
  {
    SortedKeepsElements(s);
  }

  /** The first element of a sorted list is the least of its elements. */
  lemma FirstIsLeast(s: seq<real>, t: seq<real>)
    requires IsSorted(s) && s != [] && t != [] && multiset(s) == multiset(t)
    ensures s[0] <= t[0]
  {
    assert t[0] in multiset(s);
  }

  lemma RestIsDifference(s: seq<real>)
    requires s != []
    ensures multiset(s[1..]) == multiset(s) - multiset{s[0]}
  {
    assert s == [s[0]] + s[1..];
  }

  /** A sorted list is determined by its elements. */
  lemma {:induction false} SortedUnique(s: seq<real>, t: seq<real>)
    requires IsSorted(s) && IsSorted(t) && multiset(s) == multiset(t)
    ensures s == t
  {
    assert |multiset(s)| == |s| && |multiset(t)| == |t|;
    if s != [] {
      FirstIsLeast(s, t);
      FirstIsLeast(t, s);
      RestIsDifference(s);
      RestIsDifference(t);
      SortedUnique(s[1..], t[1..]);
      assert s == [s[0]] + s[1..] && t == [t[0]] + t[1..];
    }
  }

  /** `sorted` forgets the order it was given. */
  lemma SortedForgetsOrder(s: seq<real>, t: seq<real>)
    requires multiset(s) == multiset(t)
    ensures Sorted(s) == Sorted(t)
  {
    SortedMeaning(s);
    SortedMeaning(t);
    SortedUnique(Sorted(s), Sorted(t));
  }

  // ---------------------------------------------------------------------------------------------
  // The percentile

  function Ceiling(k: real): int {
    if k == k.Floor as real then k.Floor else k.Floor + 1
  }

  /** Two neighbouring samples, weighted. */
  function Blend(low: real, high: real, t: real, u: real): real {
    low * t + high * u
  }

  /** The value at fractional index k. */
  function ValueAt(s: seq<real>, k: real): real
    requires 0.0 <= k <= (|s| - 1) as real
  {
    var f := k.Floor;
    var c := Ceiling(k);
    if f == c then s[f] else Blend(s[f], s[c], c as real - k, k - f as real)
  }

  /** The fractional index of a percentage. */
  function Position(n: nat, pct: real): real {
    (n - 1) as real * (pct / 100.0)
  }

  lemma PositionInRange(n: nat, pct: real)
    requires n >= 1 && 0.0 <= pct <= 100.0
    ensures 0.0 <= Position(n, pct) <= (n - 1) as real
  {
    var last, share := (n - 1) as real, pct / 100.0;
    ShareOf(last, share);
    assert Position(n, pct) == last * share;
  }

  lemma PositionMonotone(n: nat, p: real, q: real)
    requires n >= 1 && p <= q
    ensures Position(n, p) <= Position(n, q)
  {
    ScaleMonotone((n - 1) as real, p / 100.0, q / 100.0);
  }

  lemma ProductNonNegative(a: real, b: real)
    requires a >= 0.0 && b >= 0.0
    ensures a * b >= 0.0
  {
  }

  /** A share of a whole. */
  lemma ShareOf(whole: real, share: real)
    requires whole >= 0.0 && 0.0 <= share <= 1.0
    ensures 0.0 <= whole * share <= whole
  {
    ProductNonNegative(whole, share);
    ProductNonNegative(whole, 1.0 - share);
    assert whole * (1.0 - share) == whole - whole * share;
  }

  lemma ScaleMonotone(a: real, x: real, y: real)
    requires a >= 0.0 && x <= y
    ensures a * x <= a * y && x * a <= y * a
  {
    ProductNonNegative(a, y - x);
    assert a * (y - x) == a * y - a * x;
  }

  /** `_percentile` of an already sorted, non-empty list. */
  function PercentileOf(s: seq<real>, pct: real): real
    requires s != [] && 0.0 <= pct <= 100.0
  {
    PositionInRange(|s|, pct);
    if |s| == 1 then s[0] else ValueAt(s, Position(|s|, pct))
  }

  /** A blend is a share of the distance away from either sample. */
  lemma BlendMoves(low: real, high: real, t: real, u: real)
    requires t + u == 1.0
    ensures Blend(low, high, t, u) == low + (high - low) * u
  {
    assert t == 1.0 - u;
    assert low * t == low - low * u;
  }

  lemma BlendMovesBack(low: real, high: real, t: real, u: real)
    requires t + u == 1.0
    ensures Blend(low, high, t, u) == high - (high - low) * t
  {
    assert u == 1.0 - t;
    assert high * u == high - high * t;
  }

  lemma BlendBetween(low: real, high: real, t: real, u: real)
    requires low <= high && t + u == 1.0 && 0.0 <= u <= 1.0
    ensures low <= Blend(low, high, t, u) <= high
  {
    BlendMoves(low, high, t, u);
    BlendMovesBack(low, high, t, u);
    ProductNonNegative(high - low, u);
    ProductNonNegative(high - low, t);
  }

  lemma BlendMonotone(low: real, high: real, t: real, u: real, t': real, u': real)
    requires low <= high && t + u == 1.0 && t' + u' == 1.0 && u <= u'
    ensures Blend(low, high, t, u) <= Blend(low, high, t', u')
  {
    BlendMoves(low, high, t, u);
    BlendMoves(low, high, t', u');
    ScaleMonotone(high - low, u, u');
  }

  /** The interpolated value lies between its two neighbours. */
  lemma AtNeighbours(s: seq<real>, k: real)
    requires IsSorted(s) && 0.0 <= k <= (|s| - 1) as real
    ensures s[k.Floor] <= ValueAt(s, k) <= s[Ceiling(k)]
  {
    var f, c := k.Floor, Ceiling(k);
    if f != c {
      BlendBetween(s[f], s[c], c as real - k, k - f as real);
    }
  }

  lemma AtMonotone(s: seq<real>, k: real, l: real)
    requires IsSorted(s) && 0.0 <= k <= l <= (|s| - 1) as real
    ensures ValueAt(s, k) <= ValueAt(s, l)
  {
    var f, c := k.Floor, Ceiling(k);
    if Ceiling(l) == c && f != c && l.Floor == f {
      BlendMonotone(s[f], s[c], c as real - k, k - f as real, c as real - l, l - f as real);
    } else {
      AtNeighbours(s, k);
      AtNeighbours(s, l);
      if k != l {
        assert c <= l.Floor;
      }
    }
  }

  /** A percentile never leaves the range of its samples, and a higher percentage never gives a
      lower value. */
  lemma PercentileBounds(s: seq<real>, p: real, q: real)
    requires s != [] && IsSorted(s) && 0.0 <= p <= q <= 100.0
    ensures s[0] <= PercentileOf(s, p) <= PercentileOf(s, q) <= s[|s| - 1]
  {
    PositionInRange(|s|, p);
    PositionInRange(|s|, q);
    PositionMonotone(|s|, p, q);
    var k, l := Position(|s|, p), Position(|s|, q);
    AtNeighbours(s, k);
    AtNeighbours(s, l);
    AtMonotone(s, k, l);
  }

  lemma Rearranged(a: real, p: real)
    ensures a * (p / 100.0) == a * p / 100.0
  {
  }

  lemma GapEnds(low: real, high: real, u: real)
    requires u == 0.0 || u == 1.0
    ensures low + (high - low) * u == if u == 0.0 then low else high
  {
    if u == 0.0 {
      assert (high - low) * u == 0.0;
    } else {
      assert (high - low) * u == high - low;
    }
  }

  lemma ValueBetween(s: seq<real>, k: real, i: nat, u: real)
    requires i + 1 < |s| && 0.0 <= u <= 1.0 && k == i as real + u
    ensures ValueAt(s, k) == s[i] + (s[i + 1] - s[i]) * u
  {
    if u == 0.0 || u == 1.0 {
      assert k.Floor == Ceiling(k) == if u == 0.0 then i else i + 1;
      GapEnds(s[i], s[i + 1], u);
    } else {
      assert k.Floor == i && Ceiling(k) == i + 1;
      BlendMoves(s[i], s[i + 1], (i + 1) as real - k, k - i as real);
      SameShare(s[i + 1] - s[i], k - i as real, u);
    }
  }

  lemma SameShare(gap: real, t: real, u: real)
    requires t == u
    ensures gap * t == gap * u
  {
  }

  /** Linear interpolation: at i and a share u of the way to i + 1, counted over the gaps between the
      samples, lies the sample at i and that share of the gap. */
  lemma PercentileMeaning(s: seq<real>, p: real, i: nat, u: real)
    requires i + 1 < |s| && 0.0 <= u <= 1.0 && 0.0 <= p <= 100.0
    requires (|s| - 1) as real * p / 100.0 == i as real + u
    ensures PercentileOf(s, p) == s[i] + (s[i + 1] - s[i]) * u
  {
    Rearranged((|s| - 1) as real, p);
    PositionInRange(|s|, p);
    ValueBetween(s, Position(|s|, p), i, u);
  }

  /** At the ends, and of a single sample. */
  lemma PercentileEnds(s: seq<real>)
    requires s != []
    ensures PercentileOf(s, 0.0) == s[0] && PercentileOf(s, 100.0) == s[|s| - 1]
    ensures |s| == 1 ==> forall p | 0.0 <= p <= 100.0 :: PercentileOf(s, p) == s[0]
  {
    PositionInRange(|s|, 100.0);
  }

  function Scaled(s: seq<real>, factor: real): seq<real> {
    seq(|s|, i requires 0 <= i < |s| => factor * s[i])
  }

  /** Scaling all samples scales the percentile. */
  lemma PercentileScales(s: seq<real>, factor: real, p: real)
    requires s != [] && 0.0 <= p <= 100.0
    ensures PercentileOf(Scaled(s, factor), p) == factor * PercentileOf(s, p)
  {
    PositionInRange(|s|, p);
    var k := Position(|s|, p);
    var f, c := k.Floor, Ceiling(k);
    if |s| > 1 && f != c {
      BlendScales(factor, s[f], s[c], c as real - k, k - f as real);
    }
  }

  lemma BlendScales(m: real, low: real, high: real, t: real, u: real)
    ensures Blend(m * low, m * high, t, u) == m * Blend(low, high, t, u)
  {
    assert (m * low) * t == m * (low * t) && (m * high) * u == m * (high * u);
  }

  /** As many samples, each at most its counterpart. */
  predicate Dominated(s: seq<real>, t: seq<real>) {
    |s| == |t| && (s == [] || (s[0] <= t[0] && Dominated(s[1..], t[1..])))
  }

  lemma {:induction false} DominatedAt(s: seq<real>, t: seq<real>, i: nat)
    requires Dominated(s, t) && i < |s|
    ensures |s| == |t| && s[i] <= t[i]
  {
    if i > 0 {
      DominatedAt(s[1..], t[1..], i - 1);
    }
  }

  lemma BlendDominates(a: real, b: real, c: real, d: real, t: real, u: real)
    requires a <= c && b <= d && t >= 0.0 && u >= 0.0
    ensures Blend(a, b, t, u) <= Blend(c, d, t, u)
  {
    ScaleMonotone(t, a, c);
    ScaleMonotone(u, b, d);
  }

  lemma AtDominates(s: seq<real>, t: seq<real>, k: real)
    requires Dominated(s, t) && 0.0 <= k <= (|s| - 1) as real
    ensures ValueAt(s, k) <= ValueAt(t, k)
  {
    var f, c := k.Floor, Ceiling(k);
    DominatedAt(s, t, f);
    DominatedAt(s, t, c);
    if f != c {
      BlendDominates(s[f], s[c], t[f], t[c], c as real - k, k - f as real);
    }
  }

  /** Pointwise larger samples give a larger percentile. */
  lemma PercentileDominates(s: seq<real>, t: seq<real>, p: real)
    requires s != [] && Dominated(s, t) && 0.0 <= p <= 100.0
    ensures PercentileOf(s, p) <= PercentileOf(t, p)
  {
    PositionInRange(|s|, p);
    AtDominates(s, t, Position(|s|, p));
  }

  /** Samples within a factor of other samples have a percentile within that factor. */
  lemma PercentileWithin(s: seq<real>, t: seq<real>, factor: real, p: real, x: real, y: real)
    requires s != [] && t != [] && Dominated(s, Scaled(t, factor)) && 0.0 <= p <= 100.0
    requires x == PercentileOf(s, p) && y == PercentileOf(t, p)
    ensures x <= y * factor
  {
    PercentileDominates(s, Scaled(t, factor), p);
    PercentileScales(t, factor, p);
  }

  /** The percentile of unsorted samples depends on the samples only, not on their order. */
  lemma PercentileForgetsOrder(s: seq<real>, t: seq<real>, p: real)
    requires s != [] && multiset(s) == multiset(t) && 0.0 <= p <= 100.0
    ensures Sorted(s) != [] && Sorted(t) != []
    ensures PercentileOf(Sorted(s), p) == PercentileOf(Sorted(t), p)
  {
    SortedMeaning(s);
    SortedForgetsOrder(s, t);
  }
}
