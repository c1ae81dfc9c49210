/**
 * Composition utilities: weight fractions from a chemical formula, atomic
 * fractions, the density estimate and the generated formula-style name.
 * A composition is a dictionary from atomic number to weight fraction,
 * written here as its items in iteration order (distinct keys).
 */
module Composition {
  import opened Wrappers
  import opened Elements

  /** Dictionary items: (atomic number, value). */
  type Entries = seq<(int, real)>

  function KeysOf<V>(c: seq<(int, V)>): (r: seq<int>)
    ensures |r| == |c| && forall i :: 0 <= i < |c| ==> r[i] == c[i].0
  {
    seq(|c|, i requires 0 <= i < |c| => c[i].0)
  }

  predicate DistinctInts(s: seq<int>)
  {
    forall i, j :: 0 <= i < j < |s| ==> s[i] != s[j]
  }

  /** The sum of the values, added in iteration order. */
  function Sum(c: Entries): real
  {
    if c == [] then 0.0 else Sum(c[..|c| - 1]) + c[|c| - 1].1
  }

  /** Every value divided by `d`. */
  function Divided(c: Entries, d: real): (r: Entries)
    requires d != 0.0
    ensures |r| == |c| && forall i :: 0 <= i < |c| ==> r[i] == (c[i].0, c[i].1 / d)
  {
    seq(|c|, i requires 0 <= i < |c| => (c[i].0, c[i].1 / d))
  }

  /** Dividing every value by `d` divides the sum by `d`. */
  lemma {:induction false} SumDivided(c: Entries, d: real)
    requires d != 0.0
    ensures Sum(Divided(c, d)) == Sum(c) / d
  {
    if c != [] {
      var n := |c| - 1;
      assert Divided(c, d)[..n] == Divided(c[..n], d);
      SumDivided(c[..n], d);
      assert Sum(c[..n]) / d + c[n].1 / d == (Sum(c[..n]) + c[n].1) / d;
    }
  }

  // ---------------------------------------------------------------------
  // Weight fractions from a chemical formula

  /** A parsed formula with its symbols resolved: (atomic number, count) per element reference. */
  type Formula = seq<(int, real)>

  /** Each symbol replaced by its atomic number; None when one names no element. */
  function Resolve(t: Table, parsed: seq<(string, real)>): (r: Option<Formula>)
    ensures r.Some? <==> forall i :: 0 <= i < |parsed| ==> t.atomicNumber(parsed[i].0).Some?
    ensures r.Some? ==> |r.value| == |parsed|
                        && forall i :: 0 <= i < |parsed| ==> r.value[i] == (t.atomicNumber(parsed[i].0).value, parsed[i].1)
  {
    if parsed == [] then Some([])
    else
      var n := |parsed| - 1;
      var front := Resolve(t, parsed[..n]);
      var z := t.atomicNumber(parsed[n].0);
      if front.None? || z.None? then
        assert front.None? ==> exists i :: 0 <= i < n && t.atomicNumber(parsed[..n][i].0).None?;
        None
      else Some(front.value + [(z.value, parsed[n].1)])
  }

  /** The total atomic mass of the formula: the sum of count times atomic weight. */
  function TotalMass(t: Table, f: Formula): real
  {
    if f == [] then 0.0 else TotalMass(t, f[..|f| - 1]) + f[|f| - 1].1 * t.atomicWeight(f[|f| - 1].0)
  }

  /** The mass contributed by the references to element `z`. */
  function MassOf(t: Table, f: Formula, z: int): real
  {
    if f == [] then 0.0
    else MassOf(t, f[..|f| - 1], z) + (if f[|f| - 1].0 == z then f[|f| - 1].1 * t.atomicWeight(z) else 0.0)
  }

  /** The distinct elements of the formula, in order of first reference. */
  function ElementsOf(f: Formula): (r: seq<int>)
    ensures DistinctInts(r)
    ensures forall z :: z in r <==> exists i :: 0 <= i < |f| && f[i].0 == z
  {
    if f == [] then []
    else
      var n := |f| - 1;
      var r := ElementsOf(f[..n]);
      assert forall i :: 0 <= i < n ==> f[..n][i] == f[i];
      if f[n].0 in r then r else r + [f[n].0]
  }

  /** The weight fraction of each element of the formula: its mass over the total mass. */
  function FormulaComposition(t: Table, f: Formula): (r: Entries)
    requires TotalMass(t, f) != 0.0
  {
    Divided(Masses(t, f, ElementsOf(f)), TotalMass(t, f))
  }

  /** The mass of each element of `ks`. */
  function Masses(t: Table, f: Formula, ks: seq<int>): (r: Entries)
    ensures |r| == |ks| && forall i :: 0 <= i < |ks| ==> r[i] == (ks[i], MassOf(t, f, ks[i]))
  {
    seq(|ks|, i requires 0 <= i < |ks| => (ks[i], MassOf(t, f, ks[i])))
  }

  /** An element never referenced contributes no mass. */
  lemma {:induction false} MassOfAbsent(t: Table, f: Formula, z: int)
    requires z !in ElementsOf(f)
    ensures MassOf(t, f, z) == 0.0
  {
    if f != [] {
      var n := |f| - 1;
      assert forall i :: 0 <= i < n ==> f[..n][i] == f[i];
      MassOfAbsent(t, f[..n], z);
    }
  }

  /** One more reference to `z` adds its mass to `z`'s entry only, when the keys are distinct. */
  lemma {:induction false} MassesAppend(t: Table, f: Formula, p: (int, real), ks: seq<int>)
    requires DistinctInts(ks)
    ensures Sum(Masses(t, f + [p], ks)) == Sum(Masses(t, f, ks)) + (if p.0 in ks then p.1 * t.atomicWeight(p.0) else 0.0)
  {
    assert (f + [p])[..|f|] == f;
    if ks != [] {
      var n := |ks| - 1;
      assert Masses(t, f + [p], ks)[..n] == Masses(t, f + [p], ks[..n]);
      assert Masses(t, f, ks)[..n] == Masses(t, f, ks[..n]);
      MassesAppend(t, f, p, ks[..n]);
      assert p.0 in ks <==> p.0 in ks[..n] || p.0 == ks[n];
      assert p.0 == ks[n] ==> p.0 !in ks[..n];
    }
  }

  /** The masses of the distinct elements add up to the total mass. */
  lemma {:induction false} MassesMakeTotal(t: Table, f: Formula)
    ensures Sum(Masses(t, f, ElementsOf(f))) == TotalMass(t, f)
  {
    if f != [] {
      var n := |f| - 1;
      var q := f[..n];
      var p := f[n];
      assert f == q + [p];
      var m := p.1 * t.atomicWeight(p.0);
      assert TotalMass(t, f) == TotalMass(t, q) + m;
      MassesMakeTotal(t, q);
      var ks := ElementsOf(q);
      MassesAppend(t, q, p, ks);
      if p.0 in ks {
        assert ElementsOf(f) == ks;
        assert Sum(Masses(t, f, ks)) == Sum(Masses(t, q, ks)) + m;
      } else {
        var ks' := ks + [p.0];
        assert ElementsOf(f) == ks';
        var ms := Masses(t, f, ks');
        assert ms[..|ks|] == Masses(t, f, ks);
        assert Sum(ms) == Sum(Masses(t, f, ks)) + ms[|ks|].1;
        MassOfAbsent(t, q, p.0);
        assert MassOf(t, f, p.0) == MassOf(t, q, p.0) + m;
      }
    }
  }

  /** The weight fractions of a formula add up to 1 (test_material.py expects this for e.g. Al2Na3B12). */
  lemma FormulaFractionsSumToOne(t: Table, f: Formula)
    requires TotalMass(t, f) != 0.0
    ensures Sum(FormulaComposition(t, f)) == 1.0
    ensures KeysOf(FormulaComposition(t, f)) == ElementsOf(f)
  {
    MassesMakeTotal(t, f);
    SumDivided(Masses(t, f, ElementsOf(f)), TotalMass(t, f));
    DivSelf(TotalMass(t, f));
  }

  lemma DivSelf(x: real)
    requires x != 0.0
    ensures x / x == 1.0
  {
  }

  /** With physical atomic weights, a formula whose counts are positive has a positive total mass. */
  lemma {:induction false} PositiveCountsPositiveMass(t: Table, f: Formula)
    requires f != []
    requires forall i :: 0 <= i < |f| ==> f[i].1 > 0.0
    ensures TotalMass(t, f) > 0.0
  {
    var n := |f| - 1;
    var w: real := t.atomicWeight(f[n].0);
    assert f[n].1 * w > 0.0;
    if n > 0 {
      assert forall i :: 0 <= i < n ==> f[..n][i] == f[i];
      PositiveCountsPositiveMass(t, f[..n]);
    }
  }

  /**
   * `composition_from_formula`: the symbols are resolved (ValueError for an
   * unknown one), the total atomic mass is accumulated, then each reference
   * adds `count * weight / total` to its element's entry.  A formula whose
   * total mass is zero raises ZeroDivisionError at its first reference.
   */
  method CompositionFromFormula(t: Table, parsed: seq<(string, real)>) returns (r: Result<Entries>)
    ensures Resolve(t, parsed).None? ==> r == Err(ValueError)
    ensures Resolve(t, parsed).Some? && parsed != [] && TotalMass(t, Resolve(t, parsed).value) == 0.0 ==>
              r == Err(ZeroDivisionError)
    ensures Resolve(t, parsed).Some? && TotalMass(t, Resolve(t, parsed).value) != 0.0 ==>
              r == Ok(FormulaComposition(t, Resolve(t, parsed).value))
    ensures parsed == [] ==> r == Ok([])
  {
    var resolved := ResolveSymbols(t, parsed);
    if resolved.None? {
      return Err(ValueError);
    }
    var f := resolved.value;
    var total := TotalAtomicMass(t, f);
    if f == [] {
      return Ok([]);
    }
    if total == 0.0 {
      return Err(ZeroDivisionError);
    }
    var comp := WeightFractions(t, f, total);
    r := Ok(comp);
  }

  /** The loop looking up the atomic number of every symbol. */
  method ResolveSymbols(t: Table, parsed: seq<(string, real)>) returns (r: Option<Formula>)
    ensures r == Resolve(t, parsed)
  {
    var f: Formula := [];
    var i := 0;
    while i < |parsed|
      invariant 0 <= i <= |parsed|
      invariant Resolve(t, parsed[..i]) == Some(f)
    {
      var z := t.atomicNumber(parsed[i].0);
      assert parsed[..i + 1][..i] == parsed[..i];
      if z.None? {
        assert t.atomicNumber(parsed[i].0).None?;
        return None;
      }
      f := f + [(z.value, parsed[i].1)];
      i := i + 1;
    }
    assert parsed[..|parsed|] == parsed;
    r := Some(f);
  }

  /** The loop accumulating the total atomic mass. */
  method TotalAtomicMass(t: Table, f: Formula) returns (total: real)
    ensures total == TotalMass(t, f)
  {
    total := 0.0;
    var i := 0;
    while i < |f|
      invariant 0 <= i <= |f|
      invariant total == TotalMass(t, f[..i])
    {
      assert f[..i + 1][..i] == f[..i];
      total := total + f[i].1 * t.atomicWeight(f[i].0);
      i := i + 1;
    }
    assert f[..|f|] == f;
  }

  /** One more reference changes the mass of its own element only. */
  lemma MassOfStep(t: Table, f: Formula, i: nat, z: int)
    requires i < |f|
    ensures MassOf(t, f[..i + 1], z) == MassOf(t, f[..i], z) + (if f[i].0 == z then f[i].1 * t.atomicWeight(z) else 0.0)
  {
    assert f[..i + 1][..i] == f[..i];
  }

  lemma DivAdd(a: real, b: real, d: real)
    requires d != 0.0
    ensures (a + b) / d == a / d + b / d
  {
  }

  /** The accumulated fractions of the first `i` references. */
  ghost predicate AccumulatedUpTo(t: Table, f: Formula, i: nat, total: real, comp: Entries)
    requires i <= |f| && total != 0.0
  {
    KeysOf(comp) == ElementsOf(f[..i])
    && forall j :: 0 <= j < |comp| ==> comp[j].1 == MassOf(t, f[..i], comp[j].0) / total
  }

  /** Adding reference `i` to the entry at `k` (or appending it when `k == |prev|`) accumulates one more reference. */
  lemma AccumulateStep(t: Table, f: Formula, i: nat, total: real, prev: Entries, k: nat, w: real, comp: Entries)
    requires i < |f| && total != 0.0 && AccumulatedUpTo(t, f, i, total, prev)
    requires k <= |prev| && (k < |prev| ==> prev[k].0 == f[i].0) && (k == |prev| ==> f[i].0 !in KeysOf(prev))
    requires w == f[i].1 * t.atomicWeight(f[i].0) / total
    requires comp == if k < |prev| then prev[k := (f[i].0, prev[k].1 + w)] else prev + [(f[i].0, w)]
    ensures AccumulatedUpTo(t, f, i + 1, total, comp)
  {
    AccumulateKeys(f, i, prev, k, w, comp);
    forall j | 0 <= j < |comp|
      ensures comp[j].1 == MassOf(t, f[..i + 1], comp[j].0) / total
    {
      AccumulateValue(t, f, i, total, prev, k, w, comp, j);
    }
  }

  lemma AccumulateKeys(f: Formula, i: nat, prev: Entries, k: nat, w: real, comp: Entries)
    requires i < |f| && KeysOf(prev) == ElementsOf(f[..i])
    requires k <= |prev| && (k < |prev| ==> prev[k].0 == f[i].0) && (k == |prev| ==> f[i].0 !in KeysOf(prev))
    requires comp == if k < |prev| then prev[k := (f[i].0, prev[k].1 + w)] else prev + [(f[i].0, w)]
    ensures KeysOf(comp) == ElementsOf(f[..i + 1])
  {
    var z := f[i].0;
    assert f[..i + 1][..i] == f[..i];
    if k < |prev| {
      assert KeysOf(comp) == KeysOf(prev);
      assert KeysOf(prev)[k] == z;
    } else {
      assert KeysOf(comp) == KeysOf(prev) + [z];
    }
  }

  lemma AccumulateValue(t: Table, f: Formula, i: nat, total: real, prev: Entries, k: nat, w: real, comp: Entries, j: nat)
    requires i < |f| && total != 0.0 && AccumulatedUpTo(t, f, i, total, prev)
    requires k <= |prev| && (k < |prev| ==> prev[k].0 == f[i].0) && (k == |prev| ==> f[i].0 !in KeysOf(prev))
    requires w == f[i].1 * t.atomicWeight(f[i].0) / total
    requires comp == if k < |prev| then prev[k := (f[i].0, prev[k].1 + w)] else prev + [(f[i].0, w)]
    requires j < |comp|
    ensures comp[j].1 == MassOf(t, f[..i + 1], comp[j].0) / total
  {
    var z := f[i].0;
    var m := f[i].1 * t.atomicWeight(z);
    MassOfStep(t, f, i, comp[j].0);
    if j < |prev| && prev[j].0 != z {
      assert comp[j] == prev[j];
    } else if j < |prev| {
      assert j == k by {
        assert KeysOf(prev)[j] == z;
        assert DistinctInts(KeysOf(prev));
      }
      DivAdd(MassOf(t, f[..i], z), m, total);
    } else {
      MassOfAbsent(t, f[..i], z);
      assert comp[j] == (z, w);
    }
  }

  /** The loop adding `count * weight / total` to the entry of each reference's element. */
  method WeightFractions(t: Table, f: Formula, total: real) returns (comp: Entries)
    requires total == TotalMass(t, f) && total != 0.0
    ensures comp == FormulaComposition(t, f)
  {
    comp := [];
    var i := 0;
    while i < |f|
      invariant 0 <= i <= |f|
      invariant AccumulatedUpTo(t, f, i, total, comp)
    {
      var z := f[i].0;
      var w := f[i].1 * t.atomicWeight(z) / total;
      var k := IndexOf(comp, z);
      ghost var prev := comp;
      if k < |comp| {
        comp := comp[k := (z, comp[k].1 + w)];
      } else {
        comp := comp + [(z, w)];
      }
      AccumulateStep(t, f, i, total, prev, k, w, comp);
      i := i + 1;
    }
    assert f[..|f|] == f;
    assert |comp| == |FormulaComposition(t, f)|;
  }

  /** The position of key `z`, or `|c|` when it is absent. */
  method IndexOf(c: Entries, z: int) returns (k: nat)
    ensures k <= |c|
    ensures k < |c| ==> c[k].0 == z
    ensures k == |c| ==> z !in KeysOf(c)
  {
    k := 0;
    while k < |c| && c[k].0 != z
      invariant k <= |c|
      invariant forall j :: 0 <= j < k ==> c[j].0 != z
    {
      k := k + 1;
    }
  }

  // ---------------------------------------------------------------------
  // Atomic fractions and density

  /** Each weight fraction divided by the element's atomic weight. */
  function PerWeight(t: Table, c: Entries): (r: Entries)
    ensures |r| == |c| && forall i :: 0 <= i < |c| ==> r[i] == (c[i].0, c[i].1 / t.atomicWeight(c[i].0))
  {
    seq(|c|, i requires 0 <= i < |c| => (c[i].0, c[i].1 / t.atomicWeight(c[i].0)))
  }

  /**
   * `calculate_composition_atomic`: `w / A` per element, then each divided
   * by their sum; the keys are kept.  ZeroDivisionError when that sum is
   * zero and there is an entry to divide.
   */
  method AtomicComposition(t: Table, c: Entries) returns (r: Result<Entries>)
    ensures c != [] && Sum(PerWeight(t, c)) == 0.0 ==> r == Err(ZeroDivisionError)
    ensures (c == [] || Sum(PerWeight(t, c)) != 0.0) ==> r.Ok?
    ensures r.Ok? ==> KeysOf(r.value) == KeysOf(c)
                      && forall i :: 0 <= i < |c| ==> r.value[i].1 == (c[i].1 / t.atomicWeight(c[i].0)) / Sum(PerWeight(t, c))
  {
    var c2: Entries := [];
    var i := 0;
    while i < |c|
      invariant 0 <= i <= |c|
      invariant c2 == PerWeight(t, c[..i])
    {
      c2 := c2 + [(c[i].0, c[i].1 / t.atomicWeight(c[i].0))];
      i := i + 1;
    }
    assert c[..|c|] == c;
    var total := 0.0;
    i := 0;
    while i < |c2|
      invariant 0 <= i <= |c2|
      invariant total == Sum(c2[..i])
    {
      assert c2[..i + 1][..i] == c2[..i];
      total := total + c2[i].1;
      i := i + 1;
    }
    assert c2[..|c2|] == c2;
    if c2 == [] {
      return Ok([]);
    }
    if total == 0.0 {
      return Err(ZeroDivisionError);
    }
    var j := 0;
    while j < |c2|
      invariant 0 <= j <= |c2| && |c2| == |c|
      invariant forall k :: 0 <= k < |c| ==> c2[k].0 == c[k].0
      invariant forall k :: 0 <= k < j ==> c2[k].1 == (c[k].1 / t.atomicWeight(c[k].0)) / total
      invariant forall k :: j <= k < |c| ==> c2[k].1 == c[k].1 / t.atomicWeight(c[k].0)
    {
      c2 := c2[j := (c2[j].0, c2[j].1 / total)];
      j := j + 1;
    }
    r := Ok(c2);
  }

  /** The atomic fractions add up to 1: they are `PerWeight` divided by its own sum. */
  lemma AtomicFractionsSumToOne(t: Table, c: Entries)
    requires Sum(PerWeight(t, c)) != 0.0
    ensures Sum(Divided(PerWeight(t, c), Sum(PerWeight(t, c)))) == 1.0
  {
    SumDivided(PerWeight(t, c), Sum(PerWeight(t, c)));
    DivSelf(Sum(PerWeight(t, c)));
  }

  /** Each weight fraction divided by the element's mass density. */
  function PerDensity(t: Table, c: Entries): (r: Entries)
    ensures |r| == |c| && forall i :: 0 <= i < |c| ==> r[i] == (c[i].0, c[i].1 / t.massDensity(c[i].0))
  {
    seq(|c|, i requires 0 <= i < |c| => (c[i].0, c[i].1 / t.massDensity(c[i].0)))
  }

  /** `calculate_density_kg_per_m3`: `1 / sum(w / rho)`; ZeroDivisionError when that sum is zero. */
  method DensityKgPerM3(t: Table, c: Entries) returns (r: Result<real>)
    ensures r.Err? <==> Sum(PerDensity(t, c)) == 0.0
    ensures r.Err? ==> r.error == ZeroDivisionError
    ensures r.Ok? ==> r.value * Sum(PerDensity(t, c)) == 1.0
  {
    var density := 0.0;
    var i := 0;
    while i < |c|
      invariant 0 <= i <= |c|
      invariant density == Sum(PerDensity(t, c[..i]))
    {
      assert PerDensity(t, c[..i + 1])[..i] == PerDensity(t, c[..i]);
      density := density + c[i].1 / t.massDensity(c[i].0);
      i := i + 1;
    }
    assert c[..|c|] == c;
    if density == 0.0 {
      return Err(ZeroDivisionError);
    }
    r := Ok(1.0 / density);
  }

  /** A pure element of weight fraction 1 gets the element's own density. */
  lemma PureElementDensity(t: Table, z: int)
    ensures Sum(PerDensity(t, [(z, 1.0)])) * t.massDensity(z) == 1.0
  {
    assert PerDensity(t, [(z, 1.0)])[..0] == [];
  }

  // ---------------------------------------------------------------------
  // Generated name

  /** Python's `%` on integers: the remainder takes the sign of the divisor. */
  function PyMod(a: int, b: int): (r: int)
    requires b != 0
    ensures (b > 0 ==> r == a % b) && (b < 0 ==> b < r <= 0)
  {
    var m := a % b;
    if m == 0 || b > 0 then m else m + b
  }

  /** `fractions.gcd`: Euclid's loop, `a, b = b, a % b` while `b` is non-zero. */
  function Gcd(a: int, b: int): int
    decreases if b < 0 then -b else b
  {
    if b == 0 then a else Gcd(b, PyMod(a, b))
  }

  /** `g` is the smallest gcd over all pairs `i < j` of counts, or 100 when there are fewer than two counts. */
  predicate IsSmallestGcd(counts: seq<int>, g: int)
  {
    if |counts| < 2 then g == 100 else IsSmallestOverPairs(counts, Gcd, g)
  }

  /** `g` is the smallest `f` over all pairs `i < j` of `counts`. */
  predicate IsSmallestOverPairs(counts: seq<int>, f: (int, int) -> int, g: int)
  {
    (exists i, j :: 0 <= i < j < |counts| && g == f(counts[i], counts[j]))
    && forall i, j :: 0 <= i < j < |counts| ==> g <= f(counts[i], counts[j])
  }

  /** The smallest gcd of `x` with an element of `rest`. */
  function MinGcdWith(x: int, rest: seq<int>): (r: int)
    requires rest != []
    ensures (exists j :: 0 <= j < |rest| && r == Gcd(x, rest[j])) && forall j :: 0 <= j < |rest| ==> r <= Gcd(x, rest[j])
  {
    if |rest| == 1 then Gcd(x, rest[0])
    else
      var m := MinGcdWith(x, rest[1..]);
      assert forall j :: 1 <= j < |rest| ==> rest[1..][j - 1] == rest[j];
      if Gcd(x, rest[0]) <= m then Gcd(x, rest[0]) else m
  }

  /** The smallest pairwise gcd, as a function of the counts. */
  function PairMinGcd(counts: seq<int>): int
    requires |counts| >= 2
  {
    if |counts| == 2 then Gcd(counts[0], counts[1])
    else
      var a := MinGcdWith(counts[0], counts[1..]);
      var b := PairMinGcd(counts[1..]);
      if a <= b then a else b
  }

  lemma {:induction false} PairMinGcdIsSmallest(counts: seq<int>)
    requires |counts| >= 2
    ensures IsSmallestGcd(counts, PairMinGcd(counts))
  {
    if |counts| > 2 {
      var tail := counts[1..];
      PairMinGcdIsSmallest(tail);
      var a := MinGcdWith(counts[0], tail);
      var b := PairMinGcd(tail);
      assert forall j :: 0 <= j < |tail| ==> tail[j] == counts[j + 1];
      if a <= b {
        var j :| 0 <= j < |tail| && a == Gcd(counts[0], tail[j]);
        assert a == Gcd(counts[0], counts[j + 1]);
      } else {
        var i, j :| 0 <= i < j < |tail| && b == Gcd(tail[i], tail[j]);
        assert b == Gcd(counts[i + 1], counts[j + 1]);
      }
      forall i, j | 0 <= i < j < |counts|
        ensures PairMinGcd(counts) <= Gcd(counts[i], counts[j])
      {
        if i == 0 {
          assert counts[j] == tail[j - 1];
        } else {
          assert counts[i] == tail[i - 1] && counts[j] == tail[j - 1];
        }
      }
    }
  }

  /** The smallest gcd is unique. */
  lemma SmallestGcdUnique(counts: seq<int>, g: int, h: int)
    requires IsSmallestGcd(counts, g) && IsSmallestGcd(counts, h)
    ensures g == h
  {
    if |counts| >= 2 {
      var i, j :| 0 <= i < j < |counts| && g == Gcd(counts[i], counts[j]);
      var k, l :| 0 <= k < l < |counts| && h == Gcd(counts[k], counts[l]);
    }
  }

  /** The divisor of the counts: the smallest gcd, replaced by 100 when it is 0. */
  function Divisor(counts: seq<int>): (g: int)
    ensures g != 0
  {
    var m := if |counts| < 2 then 100 else PairMinGcd(counts);
    if m == 0 then 100 else m
  }

  /** The smallest gcd over the pairs of `itertools.combinations(counts, 2)`, or 100 when there are fewer than two counts. */
  method SmallestGcd(counts: seq<int>) returns (g: int)
    ensures IsSmallestGcd(counts, g)
  {
    if |counts| < 2 {
      return 100;
    }
    g := SmallestOverPairs(counts, Gcd);
  }

  /** The loop over `itertools.combinations(counts, 2)` keeping the smallest `f` of a pair. */
  method SmallestOverPairs(counts: seq<int>, f: (int, int) -> int) returns (g: int)
    requires |counts| >= 2
    ensures IsSmallestOverPairs(counts, f, g)
  {
    g := f(counts[0], counts[1]);
    ghost var ga, gb := 0, 1;
    var i := 0;
    while i < |counts|
      invariant 0 <= i <= |counts|
      invariant 0 <= ga < gb < |counts| && g == f(counts[ga], counts[gb])
      invariant forall a, b :: 0 <= a < b < |counts| && a < i ==> g <= f(counts[a], counts[b])
    {
      g, ga, gb := SmallestInRow(counts, f, i, g, ga, gb);
      i := i + 1;
    }
  }

  /** The inner loop: the pairs of `counts[i]` with each later count, keeping the smallest `f`. */
  method SmallestInRow(counts: seq<int>, f: (int, int) -> int, i: nat, g0: int, ghost ga0: nat, ghost gb0: nat)
    returns (g: int, ghost ga: nat, ghost gb: nat)
    requires i < |counts| && ga0 < gb0 < |counts| && g0 == f(counts[ga0], counts[gb0])
    ensures ga < gb < |counts| && g == f(counts[ga], counts[gb])
    ensures g <= g0
    ensures forall b :: i < b < |counts| ==> g <= f(counts[i], counts[b])
  {
    g, ga, gb := g0, ga0, gb0;
    var j := i + 1;
    while j < |counts|
      invariant i + 1 <= j <= |counts|
      invariant ga < gb < |counts| && g == f(counts[ga], counts[gb])
      invariant g <= g0
      invariant forall b :: i < b < j ==> g <= f(counts[i], counts[b])
    {
      var d := f(counts[i], counts[j]);
      if d < g {
        g := d;
        ga, gb := i, j;
      }
      j := j + 1;
    }
  }

  /** `int(x)` on a float: truncation toward zero. */
  function Trunc(x: real): int
  {
    if x >= 0.0 then x.Floor else -((-x).Floor)
  }

  function DigitChar(d: int): char
    requires 0 <= d < 10
  {
    "0123456789"[d]
  }

  /** The decimal digits of `n`. */
  function NatToString(n: nat): (s: string)
    ensures |s| >= 1 && forall i :: 0 <= i < |s| ==> '0' <= s[i] <= '9'
  {
    if n < 10 then [DigitChar(n)] else NatToString(n / 10) + [DigitChar(n % 10)]
  }

  /** `%i` formatting of an integer. */
  function IntToString(i: int): string
  {
    if i < 0 then "-" + NatToString(-i) else NatToString(i)
  }

  predicate Descending(s: seq<int>)
  {
    forall i, j :: 0 <= i < j < |s| ==> s[i] > s[j]
  }

  /** `z` inserted into a descending sequence before the first smaller element. */
  function InsertDesc(z: int, s: seq<int>): (r: seq<int>)
    ensures |r| == |s| + 1
    ensures forall x :: x in r <==> x in s || x == z
  {
    if s == [] || z > s[0] then [z] + s
    else [s[0]] + InsertDesc(z, s[1..])
  }

  lemma {:induction false} InsertDescKeepsOrder(z: int, s: seq<int>)
    requires Descending(s) && z !in s
    ensures Descending(InsertDesc(z, s))
  {
    if s != [] && z <= s[0] {
      var tail := s[1..];
      assert Descending(tail) by {
        forall i, j | 0 <= i < j < |tail| ensures tail[i] > tail[j] {
          assert tail[i] == s[i + 1] && tail[j] == s[j + 1];
        }
      }
      assert z !in tail by {
        assert forall x :: x in tail ==> x in s;
      }
      InsertDescKeepsOrder(z, tail);
      var rest := InsertDesc(z, tail);
      assert forall x :: x in rest ==> x < s[0] by {
        forall x | x in rest ensures x < s[0] {
          if x != z {
            var i :| 0 <= i < |tail| && tail[i] == x;
            assert s[i + 1] == x;
          }
        }
      }
      var r := [s[0]] + rest;
      forall i, j | 0 <= i < j < |r| ensures r[i] > r[j] {
        if i == 0 {
          assert r[j] == rest[j - 1] && rest[j - 1] in rest;
        } else {
          assert r[i] == rest[i - 1] && r[j] == rest[j - 1];
        }
      }
    }
  }

  /** `sorted(keys, reverse=True)` for distinct keys. */
  function SortDesc(s: seq<int>): (r: seq<int>)
    ensures |r| == |s|
    ensures forall x :: x in r <==> x in s
  {
    if s == [] then []
    else InsertDesc(s[|s| - 1], SortDesc(s[..|s| - 1]))
  }

  lemma {:induction false} SortDescIsSorted(s: seq<int>)
    requires DistinctInts(s)
    ensures Descending(SortDesc(s))
  {
    if s != [] {
      var n := |s| - 1;
      assert DistinctInts(s[..n]);
      SortDescIsSorted(s[..n]);
      assert s[n] !in s[..n];
      InsertDescKeepsOrder(s[n], SortDesc(s[..n]));
    }
  }

  /** One element's part of the name: nothing for a zero count, the bare symbol for 1, else the symbol and `%i` of the count. */
  function NamePart(symbol: string, count: int, g: int): string
    requires g != 0
  {
    var fraction := count as real / g as real;
    if fraction == 0.0 then ""
    else if fraction == 1.0 then symbol
    else symbol + IntToString(Trunc(fraction))
  }

  function Name(symbols: seq<string>, counts: seq<int>, g: int): string
    requires |symbols| == |counts| && g != 0
  {
    if symbols == [] then ""
    else Name(symbols[..|symbols| - 1], counts[..|counts| - 1], g) + NamePart(symbols[|symbols| - 1], counts[|counts| - 1], g)
  }

  /** The number used for an element in the name: `int(100 * atomic fraction)`. */
  function Count(x: real): int
  {
    Trunc(x * 100.0)
  }

  /** The value of the first entry with key `z`, 0.0 when there is none. */
  function Lookup(c: Entries, z: int): real
  {
    if c == [] then 0.0 else if c[0].0 == z then c[0].1 else Lookup(c[1..], z)
  }

  lemma {:induction false} LookupAt(c: Entries, m: nat)
    requires m < |c| && DistinctInts(KeysOf(c))
    ensures Lookup(c, c[m].0) == c[m].1
  {
    if m > 0 {
      assert KeysOf(c)[0] != KeysOf(c)[m];
      assert KeysOf(c[1..]) == KeysOf(c)[1..];
      LookupAt(c[1..], m - 1);
    }
  }

  /** The element counts of `zs`: `int(100 * (w / A) / total)`. */
  function Counts(t: Table, c: Entries, zs: seq<int>, total: real): (r: seq<int>)
    requires total != 0.0
    ensures |r| == |zs|
  {
    seq(|zs|, i requires 0 <= i < |zs| => Count((Lookup(c, zs[i]) / t.atomicWeight(zs[i])) / total))
  }

  function Symbols(t: Table, zs: seq<int>): (r: seq<string>)
    ensures |r| == |zs|
  {
    seq(|zs|, i requires 0 <= i < |zs| => t.symbol(zs[i]))
  }

  /** The name `generate_name` gives a composition; ZeroDivisionError as in `calculate_composition_atomic`. */
  function GeneratedName(t: Table, c: Entries): (r: Result<string>)
    requires DistinctInts(KeysOf(c))
    ensures c == [] ==> r == Ok("")
    ensures r.Err? <==> c != [] && Sum(PerWeight(t, c)) == 0.0
    ensures r.Err? ==> r.error == ZeroDivisionError
  {
    var total := Sum(PerWeight(t, c));
    if c == [] then Ok("")
    else if total == 0.0 then Err(ZeroDivisionError)
    else
      var zs := SortDesc(KeysOf(c));
      var counts := Counts(t, c, zs, total);
      Ok(Name(Symbols(t, zs), counts, Divisor(counts)))
  }

  /**
   * `generate_name`: the atomic fractions, elements in descending atomic
   * number, counts `int(100 * fraction)`, divided by the smallest pairwise
   * gcd (100 when there are fewer than two elements or that gcd is 0).
   */
  method GenerateName(t: Table, c: Entries) returns (r: Result<string>)
    requires DistinctInts(KeysOf(c))
    ensures r == GeneratedName(t, c)
  {
    var atomic := AtomicComposition(t, c);
    if atomic.Err? {
      return Err(atomic.error);
    }
    if c == [] {
      return Ok("");
    }
    var zs := SortDesc(KeysOf(c));
    var symbols, counts := SymbolsAndCounts(t, c, atomic.value, zs);
    var g := SmallestGcd(counts);
    if |counts| >= 2 {
      PairMinGcdIsSmallest(counts);
      SmallestGcdUnique(counts, g, PairMinGcd(counts));
    }
    if g == 0 {
      g := 100;
    }
    var name := WriteFormula(symbols, counts, g);
    r := Ok(name);
  }

  /** The loop over the sorted atomic numbers collecting each symbol and count. */
  method SymbolsAndCounts(t: Table, c: Entries, a: Entries, zs: seq<int>) returns (symbols: seq<string>, counts: seq<int>)
    requires DistinctInts(KeysOf(c)) && Sum(PerWeight(t, c)) != 0.0
    requires KeysOf(a) == KeysOf(c)
    requires forall i :: 0 <= i < |c| ==> a[i].1 == (c[i].1 / t.atomicWeight(c[i].0)) / Sum(PerWeight(t, c))
    requires forall z :: z in zs ==> z in KeysOf(c)
    ensures symbols == Symbols(t, zs) && counts == Counts(t, c, zs, Sum(PerWeight(t, c)))
  {
    var total := Sum(PerWeight(t, c));
    symbols, counts := [], [];
    var i := 0;
    while i < |zs|
      invariant 0 <= i <= |zs|
      invariant symbols == Symbols(t, zs[..i])
      invariant counts == Counts(t, c, zs[..i], total)
    {
      assert zs[i] in zs;
      var m :| 0 <= m < |c| && c[m].0 == zs[i];
      LookupAt(c, m);
      symbols := symbols + [t.symbol(zs[i])];
      counts := counts + [Count(a[m].1)];
      i := i + 1;
      assert zs[..i][..i - 1] == zs[..i - 1];
    }
    assert zs[..|zs|] == zs;
  }

  /** The loop appending each element's part of the name. */
  method WriteFormula(symbols: seq<string>, counts: seq<int>, g: int) returns (name: string)
    requires |symbols| == |counts| && g != 0
    ensures name == Name(symbols, counts, g)
  {
    name := "";
    var i := 0;
    while i < |symbols|
      invariant 0 <= i <= |symbols|
      invariant name == Name(symbols[..i], counts[..i], g)
    {
      assert symbols[..i + 1][..i] == symbols[..i];
      assert counts[..i + 1][..i] == counts[..i];
      name := name + NamePart(symbols[i], counts[i], g);
      i := i + 1;
    }
    assert symbols[..|symbols|] == symbols && counts[..|counts|] == counts;
  }

  /** A single element of positive weight fraction is named by its bare symbol. */
  lemma PureElementName(t: Table, z: int, w: real)
    requires w > 0.0
    ensures GeneratedName(t, [(z, w)]) == Ok(t.symbol(z))
  {
    var c := [(z, w)];
    var a: real := t.atomicWeight(z);
    var pw := PerWeight(t, c);
    assert pw == [(z, w / a)];
    assert Sum(pw) == Sum(pw[..0]) + pw[0].1;
    assert pw[..0] == [];
    var total := Sum(pw);
    assert total == w / a;
    assert total > 0.0;
    assert KeysOf(c) == [z];
    assert SortDesc([z]) == [z] by {
      assert [z][..0] == [];
    }
    assert Lookup(c, z) == w;
    var counts := Counts(t, c, [z], total);
    DivSelf(total);
    assert counts[0] == Count(total / total);
    assert counts == [100];
    assert Divisor(counts) == 100;
    var syms := Symbols(t, [z]);
    assert Name(syms, counts, 100) == Name(syms[..0], counts[..0], 100) + NamePart(t.symbol(z), 100, 100);
    assert syms[..0] == [] && counts[..0] == [];
    assert (100 as real) / (100 as real) == 1.0;
    assert NamePart(t.symbol(z), 100, 100) == t.symbol(z);
    assert Name(syms[..0], counts[..0], 100) == "";
    assert "" + t.symbol(z) == t.symbol(z);
    assert GeneratedName(t, c) == Ok(Name(syms, counts, Divisor(counts)));
  }
}
