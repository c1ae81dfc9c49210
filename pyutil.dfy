/**
 * The pieces of Python's standard library that the option classes lean on:
 * `math.pi`, `math.radians`, `math.isclose`, set insertion, order-keeping
 * deduplication and `itertools.product`.
 */
module PyMath {
  /** `math.pi`. */
  const PI: real := 3.141592653589793

  /** A float that may be `float('inf')`. */
  datatype ExtReal = Finite(value: real) | PosInf

  /** `math.isclose` default relative tolerance. */
  const REL_TOL: real := 0.000000001

  function Abs(x: real): (r: real)
    ensures r >= 0.0
    ensures r == x || r == -x
  {
    if x < 0.0 then -x else x
  }

  function Max(a: real, b: real): (r: real)
    ensures r >= a && r >= b
    ensures r == a || r == b
  {
    if a < b then b else a
  }

  /**
   * `math.isclose(a, b, abs_tol=absTol)`: the difference is within the
   * larger of the relative and the absolute tolerance.
   */
  predicate IsClose(a: real, b: real, absTol: real)
  {
    Abs(a - b) <= Max(REL_TOL * Max(Abs(a), Abs(b)), absTol)
  }

  /** `isclose` does not care about the order of its arguments. */
  lemma IsCloseSymmetric(a: real, b: real, absTol: real)
    ensures IsClose(a, b, absTol) <==> IsClose(b, a, absTol)
  {
    assert Abs(a - b) == Abs(b - a);
  }

  /** Values within the absolute tolerance are close, whatever their size. */
  lemma WithinAbsoluteTolerance(a: real, b: real, absTol: real)
    requires Abs(a - b) <= absTol
    ensures IsClose(a, b, absTol)
  {
  }

  /**
   * While the relative tolerance allows no more than the absolute one (both
   * values small), `isclose` is exactly a bound on the difference.
   */
  lemma IsCloseForSmallValues(a: real, b: real, absTol: real)
    requires REL_TOL * Max(Abs(a), Abs(b)) <= absTol
    ensures IsClose(a, b, absTol) <==> Abs(a - b) <= absTol
  {
  }

  /** `math.radians`. */
  function Radians(deg: real): (r: real)
    ensures r * 180.0 == deg * PI
  {
    deg * PI / 180.0
  }

  /** `math.degrees`, the factor of the `*_deg` attributes. */
  const DEGREES_PER_RADIAN: real := 180.0 / PI

  /** `math.degrees`: the inverse of `math.radians`. */
  function Degrees(rad: real): (r: real)
    ensures Radians(r) == rad
  {
    rad * DEGREES_PER_RADIAN
  }

  lemma RadiansToDegrees(deg: real)
    ensures Degrees(Radians(deg)) == deg
  {
  }
}

/**
 * Python sets and `unique` seen through their iteration order: a sequence
 * without repeats. `Insert` is `set.add`.
 */
module PySet {
  predicate Distinct<T(==)>(s: seq<T>)
  {
    forall i, j :: 0 <= i < j < |s| ==> s[i] != s[j]
  }

  /** `set.add(x)`: a new element goes last, a present one changes nothing. */
  function Insert<T(==)>(s: seq<T>, x: T): (r: seq<T>)
    ensures forall i :: 0 <= i < |s| ==> s[i] in r
    ensures x in r
    ensures forall i :: 0 <= i < |r| ==> r[i] in s || r[i] == x
    ensures x in s ==> r == s
    ensures x !in s ==> r == s + [x]
    ensures Distinct(s) ==> Distinct(r)
  {
    if x in s then s else s + [x]
  }

  /** Adding an element twice is adding it once. */
  lemma InsertIdempotent<T>(s: seq<T>, x: T)
    ensures Insert(Insert(s, x), x) == Insert(s, x)
  {
  }

  /** `unique`: the elements in order of first occurrence, each once. */
  function Unique<T(==)>(s: seq<T>): (r: seq<T>)
    ensures Distinct(r)
    ensures forall i :: 0 <= i < |s| ==> s[i] in r
    ensures forall i :: 0 <= i < |r| ==> r[i] in s
    ensures |r| <= |s|
    decreases |s|
  {
    if s == [] then [] else Insert(Unique(s[..|s| - 1]), s[|s| - 1])
  }

  /** A sequence that already has no repeats is its own `unique`. */
  lemma {:induction false} UniqueOfDistinct<T>(s: seq<T>)
    requires Distinct(s)
    ensures Unique(s) == s
    decreases |s|
  {
    if s != [] {
      var init := s[..|s| - 1];
      assert Distinct(init);
      UniqueOfDistinct(init);
      assert s[|s| - 1] !in init;
      assert init + [s[|s| - 1]] == s;
    }
  }

  /** `list.remove(x)` after an `x in list` test: the first occurrence goes. */
  function RemoveFirst<T(==)>(s: seq<T>, x: T): (r: seq<T>)
    ensures x !in s ==> r == s
    ensures x in s ==> |r| == |s| - 1
    ensures multiset(r) == multiset(s) - multiset{x}
    decreases |s|
  {
    if s == [] then []
    else
      assert s == [s[0]] + s[1..];
      if s[0] == x then s[1..] else [s[0]] + RemoveFirst(s[1..], x)
  }

  /** What is left after a removal was there before. */
  lemma RemoveFirstSubset<T>(s: seq<T>, x: T)
    ensures forall i :: 0 <= i < |RemoveFirst(s, x)| ==> RemoveFirst(s, x)[i] in s
  {
    var r := RemoveFirst(s, x);
    forall i | 0 <= i < |r|
      ensures r[i] in s
    {
      assert r[i] in multiset(r);
    }
  }

  /** With at most one occurrence, removing the first removes them all. */
  lemma {:induction false} RemoveFirstOfSingle<T>(s: seq<T>, x: T)
    requires multiset(s)[x] <= 1
    ensures RemoveFirst(s, x) == RemoveAll(s, x)
    decreases |s|
  {
    if s != [] {
      assert s == [s[0]] + s[1..];
      assert multiset(s) == multiset{s[0]} + multiset(s[1..]);
      if s[0] == x {
        assert multiset(s[1..])[x] == 0;
        RemoveAllAbsent(s[1..], x);
      } else {
        RemoveFirstOfSingle(s[1..], x);
      }
    }
  }

  lemma {:induction false} RemoveAllAbsent<T>(s: seq<T>, x: T)
    requires x !in s
    ensures RemoveAll(s, x) == s
    decreases |s|
  {
    if s != [] {
      assert s == [s[0]] + s[1..];
      RemoveAllAbsent(s[1..], x);
    }
  }

  /** Adding each element of `xs` in turn. */
  function InsertAll<T(==)>(s: seq<T>, xs: seq<T>): (r: seq<T>)
    ensures forall i :: 0 <= i < |s| ==> s[i] in r
    ensures forall i :: 0 <= i < |xs| ==> xs[i] in r
    ensures forall i :: 0 <= i < |r| ==> r[i] in s || r[i] in xs
    ensures Distinct(s) ==> Distinct(r)
    decreases |xs|
  {
    if xs == [] then s else Insert(InsertAll(s, xs[..|xs| - 1]), xs[|xs| - 1])
  }

  /** Removing every occurrence of `x`. */
  function RemoveAll<T(==)>(s: seq<T>, x: T): (r: seq<T>)
    ensures x !in r
    ensures forall i :: 0 <= i < |r| ==> r[i] in s && r[i] != x
    ensures forall i :: 0 <= i < |s| && s[i] != x ==> s[i] in r
    decreases |s|
  {
    if s == [] then []
    else if s[0] == x then RemoveAll(s[1..], x)
    else
      assert s == [s[0]] + s[1..];
      [s[0]] + RemoveAll(s[1..], x)
  }
}

/** `itertools.product`, built from pairs: the first factor varies slowest. */
module Itertools {
  import opened PySet

  function Pairs<A, B>(xs: seq<A>, ys: seq<B>): (r: seq<(A, B)>)
    decreases |xs|
  {
    if xs == [] then []
    else seq(|ys|, k requires 0 <= k < |ys| => (xs[0], ys[k])) + Pairs(xs[1..], ys)
  }

  /** The product has one entry per pair of positions. */
  lemma {:induction false} PairsLength<A, B>(xs: seq<A>, ys: seq<B>)
    ensures |Pairs(xs, ys)| == |xs| * |ys|
    decreases |xs|
  {
    if xs != [] {
      PairsLength(xs[1..], ys);
    }
  }

  /** A pair is in the product exactly when each half is in its factor. */
  lemma {:induction false} PairsMember<A, B>(xs: seq<A>, ys: seq<B>, p: (A, B))
    ensures p in Pairs(xs, ys) <==> p.0 in xs && p.1 in ys
    decreases |xs|
  {
    if xs != [] {
      PairsMember(xs[1..], ys, p);
      var row := seq(|ys|, k requires 0 <= k < |ys| => (xs[0], ys[k]));
      assert Pairs(xs, ys) == row + Pairs(xs[1..], ys);
      if p.0 == xs[0] && p.1 in ys {
        var k :| 0 <= k < |ys| && ys[k] == p.1;
        assert row[k] == p;
      }
      assert p in row ==> p.0 == xs[0] && p.1 in ys;
      assert xs == [xs[0]] + xs[1..];
    }
  }

  /** Factors without repeats give a product without repeats. */
  lemma {:induction false} PairsDistinct<A, B>(xs: seq<A>, ys: seq<B>)
    requires Distinct(xs) && Distinct(ys)
    ensures Distinct(Pairs(xs, ys))
    decreases |xs|
  {
    if xs != [] {
      var rest := Pairs(xs[1..], ys);
      var row := seq(|ys|, k requires 0 <= k < |ys| => (xs[0], ys[k]));
      assert Distinct(xs[1..]);
      PairsDistinct(xs[1..], ys);
      forall q | q in rest
        ensures q !in row
      {
        PairsMember(xs[1..], ys, q);
        assert q.0 != xs[0];
      }
      var r := row + rest;
      forall i, j | 0 <= i < j < |r|
        ensures r[i] != r[j]
      {
        if j < |row| {
        } else if i >= |row| {
          assert r[i] == rest[i - |row|] && r[j] == rest[j - |row|];
        } else {
          assert r[j] in rest;
        }
      }
    }
  }
}
