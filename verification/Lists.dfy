/** FlatMap and its one law: as a multiset, its result depends on its argument as a multiset. Every
    query and count of the evidence pipeline is a FlatMap. */
module Lists {

  function FlatMap<A, B>(s: seq<A>, f: A -> seq<B>): seq<B> {
    if s == [] then [] else f(s[0]) + FlatMap(s[1..], f)
  }

  lemma FlatMapOne<A, B>(x: A, f: A -> seq<B>)
    ensures FlatMap([x], f) == f(x)
  {
  }

  lemma {:induction false} FlatMapAppend<A, B>(s: seq<A>, t: seq<A>, f: A -> seq<B>)
    ensures FlatMap(s + t, f) == FlatMap(s, f) + FlatMap(t, f)
  {
    if s == [] {
      assert s + t == t;
    } else {
      assert (s + t)[1..] == s[1..] + t;
      FlatMapAppend(s[1..], t, f);
    }
  }

  lemma {:induction false} FlatMapExt<A, B>(s: seq<A>, f: A -> seq<B>, g: A -> seq<B>)
    requires forall x | x in s :: f(x) == g(x)
    ensures FlatMap(s, f) == FlatMap(s, g)
  {
    if s != [] {
      assert s[0] in s;
      FlatMapExt(s[1..], f, g);
    }
  }

  lemma MiddleFirst<B>(a: seq<B>, b: seq<B>, c: seq<B>)
    ensures multiset(a + (b + c)) == multiset(b) + multiset(a + c)
  {
  }

  lemma FlatMapAround<A, B>(front: seq<A>, x: A, back: seq<A>, f: A -> seq<B>)
    ensures multiset(FlatMap(front + ([x] + back), f)) == multiset(f(x)) + multiset(FlatMap(front + back, f))
  {
    FlatMapAppend(front, [x] + back, f);
    FlatMapAppend([x], back, f);
    FlatMapOne(x, f);
    FlatMapAppend(front, back, f);
    MiddleFirst(FlatMap(front, f), f(x), FlatMap(back, f));
  }

  lemma Around<A>(t: seq<A>, i: nat)
    requires i < |t|
    ensures t == t[..i] + ([t[i]] + t[i + 1..])
  {
  }

  /** Taking one element out of the middle. */
  lemma FlatMapWithout<A, B>(t: seq<A>, i: nat, f: A -> seq<B>)
    requires i < |t|
    ensures multiset(FlatMap(t, f)) == multiset(f(t[i])) + multiset(FlatMap(t[..i] + t[i + 1..], f))
  {
    Around(t, i);
    FlatMapAround(t[..i], t[i], t[i + 1..], f);
  }

  lemma Without<A>(t: seq<A>, i: nat)
    requires i < |t|
    ensures multiset(t[..i] + t[i + 1..]) == multiset(t) - multiset{t[i]}
  {
    assert t == t[..i] + [t[i]] + t[i + 1..];
  }

  /** A permutation of s has its first element somewhere, and the rest permutes the rest. */
  lemma FindFirst<A>(s: seq<A>, t: seq<A>) returns (i: nat)
    requires s != [] && multiset(s) == multiset(t)
    ensures i < |t| && t[i] == s[0]
    ensures multiset(s[1..]) == multiset(t[..i] + t[i + 1..])
    ensures |s| == |t|
  {
    assert |multiset(s)| == |s| && |multiset(t)| == |t|;
    assert s[0] in multiset(t);
    i :| 0 <= i < |t| && t[i] == s[0];
    Without(t, i);
    Without(s, 0);
    assert s[..0] + s[1..] == s[1..];
  }

  lemma {:induction false} FlatMapForgetsOrder<A, B>(s: seq<A>, t: seq<A>, f: A -> seq<B>)
    requires multiset(s) == multiset(t)
    ensures multiset(FlatMap(s, f)) == multiset(FlatMap(t, f))
    ensures |FlatMap(s, f)| == |FlatMap(t, f)|
  {
    if s == [] {
      assert |multiset(s)| == |s| && |multiset(t)| == |t|;
    } else {
      var i := FindFirst(s, t);
      FlatMapWithout(t, i, f);
      FlatMapForgetsOrder(s[1..], t[..i] + t[i + 1..], f);
      assert multiset(FlatMap(s, f)) == multiset(f(s[0])) + multiset(FlatMap(s[1..], f));
    }
    SameLength(FlatMap(s, f), FlatMap(t, f));
  }

  lemma SameLength<T>(s: seq<T>, t: seq<T>)
    requires multiset(s) == multiset(t)
    ensures |s| == |t|
  {
    assert |multiset(s)| == |s| && |multiset(t)| == |t|;
  }

  /** A FlatMap of at most one result per element is no longer than its argument. */
  lemma {:induction false} FlatMapBounded<A, B>(s: seq<A>, f: A -> seq<B>)
    requires forall x | x in s :: |f(x)| <= 1
    ensures |FlatMap(s, f)| <= |s|
  {
    if s != [] {
      assert s[0] in s;
      FlatMapBounded(s[1..], f);
    }
  }

  /** ... and one with fewer results per element is shorter. */
  lemma {:induction false} FlatMapShorter<A, B, C>(s: seq<A>, f: A -> seq<B>, g: A -> seq<C>)
    requires forall x | x in s :: |f(x)| <= |g(x)|
    ensures |FlatMap(s, f)| <= |FlatMap(s, g)|
  {
    if s != [] {
      assert s[0] in s;
      FlatMapShorter(s[1..], f, g);
    }
  }

  lemma {:induction false} FlatMapLengths<A, B, C, D>(s: seq<A>, f: A -> seq<B>, g: A -> seq<C>, h: A -> seq<D>)
    requires forall x | x in s :: |f(x)| + |g(x)| <= |h(x)|
    ensures |FlatMap(s, f)| + |FlatMap(s, g)| <= |FlatMap(s, h)|
  {
    if s != [] {
      assert s[0] in s;
      FlatMapLengths(s[1..], f, g, h);
    }
  }

  /** Where in a list a property holds. */
  ghost function Places<A>(s: seq<A>, p: A -> bool): set<int> {
    set i | 0 <= i < |s| && p(s[i])
  }

  lemma PlacesSnoc<A>(s: seq<A>, x: A, p: A -> bool)
    ensures |Places(s + [x], p)| == |Places(s, p)| + if p(x) then 1 else 0
  {
    assert Places(s + [x], p) == Places(s, p) + if p(x) then {|s|} else {};
  }

  /** A FlatMap with one result for some elements and none for the others is as long as there are such
      elements. */
  lemma {:induction false} FlatMapCounts<A, B>(s: seq<A>, f: A -> seq<B>, p: A -> bool)
    requires forall x | x in s :: |f(x)| == if p(x) then 1 else 0
    ensures |FlatMap(s, f)| == |Places(s, p)|
  {
    if s == [] {
      assert Places(s, p) == {};
    } else {
      var n := |s| - 1;
      assert s == s[..n] + [s[n]];
      FlatMapCounts(s[..n], f, p);
      PlacesSnoc(s[..n], s[n], p);
      FlatMapAppend(s[..n], [s[n]], f);
      FlatMapOne(s[n], f);
    }
  }

  /** ... and each result occurs as often as there are elements with it. */
  lemma {:induction false} FlatMapOccurs<A, B>(s: seq<A>, f: A -> seq<B>, y: B, p: A -> bool)
    requires forall x | x in s :: |f(x)| <= 1 && (p(x) <==> f(x) == [y])
    ensures multiset(FlatMap(s, f))[y] == |Places(s, p)|
  {
    if s == [] {
      assert Places(s, p) == {};
    } else {
      var n := |s| - 1;
      assert s == s[..n] + [s[n]];
      FlatMapOccurs(s[..n], f, y, p);
      PlacesSnoc(s[..n], s[n], p);
      FlatMapAppend(s[..n], [s[n]], f);
      FlatMapOne(s[n], f);
    }
  }
}
