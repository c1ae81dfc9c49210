/**
 * The base material of a simulation: a name, a composition in weight
 * fractions (where `?` marks a fraction to be completed to a total of 1),
 * an optional user density and the absorption energies of electrons and
 * photons.
 */
module Material {
  import opened Wrappers
  import opened Elements
  import opened Composition

  /** A weight fraction as given by the user: a number, or the wildcard `?`. */
  datatype Fraction = Given(value: real) | Wildcard

  /** The composition dictionary as given: (atomic number, fraction) items with distinct keys. */
  type Given = seq<(int, Fraction)>

  /** An atomic number is in [1, 96] and a given fraction in ]0, 1]. */
  predicate ValidItem(item: (int, Fraction))
  {
    1 <= item.0 <= 96 && (item.1.Given? ==> 0.0 < item.1.value <= 1.0)
  }

  predicate AllValid(c: Given)
  {
    forall i :: 0 <= i < |c| ==> ValidItem(c[i])
  }

  /** The sum of the given (non-wildcard) fractions. */
  function GivenTotal(c: Given): real
  {
    if c == [] then 0.0
    else GivenTotal(c[..|c| - 1]) + (if c[|c| - 1].1.Given? then c[|c| - 1].1.value else 0.0)
  }

  /** The number of wildcards. */
  function WildcardCount(c: Given): nat
  {
    if c == [] then 0 else WildcardCount(c[..|c| - 1]) + (if c[|c| - 1].1.Wildcard? then 1 else 0)
  }

  /** The value a wildcard takes: what is missing to 1, shared equally, or 0.0 when nothing is missing. */
  function WildcardValue(c: Given): real
    requires WildcardCount(c) > 0
  {
    var total := GivenTotal(c);
    if total < 1.0 then (1.0 - total) / (WildcardCount(c) as real) else 0.0
  }

  /** The composition with every wildcard replaced by `w`. */
  function Completed(c: Given, w: real): (r: Entries)
    ensures |r| == |c|
  {
    seq(|c|, i requires 0 <= i < |c| => (c[i].0, if c[i].1.Wildcard? then w else c[i].1.value))
  }

  /** The tolerance on a total weight fraction above 1. */
  const TOTAL_TOLERANCE: real := 0.000001

  /**
   * `__calculate_composition`: ValueError for an atomic number outside
   * [1, 96] or a given fraction outside ]0, 1]; wildcards completed; then
   * ValueError when the total exceeds 1 by more than the tolerance.
   */
  function CalculatedComposition(c: Given): (r: Result<Entries>)
    ensures r.Err? ==> r.error == ValueError
    ensures !AllValid(c) ==> r.Err?
    ensures r.Ok? ==> |r.value| == |c| && Sum(r.value) <= 1.0 + TOTAL_TOLERANCE
    ensures r.Ok? ==>
              forall i :: 0 <= i < |c| ==> (r.value[i].0 == c[i].0 && (c[i].1.Given? ==> r.value[i].1 == c[i].1.value))
  {
    if !AllValid(c) then Err(ValueError)
    else
      var r := Completed(c, if WildcardCount(c) > 0 then WildcardValue(c) else 0.0);
      if Sum(r) - 1.0 > TOTAL_TOLERANCE then Err(ValueError) else Ok(r)
  }

  /** The three loops of `__calculate_composition`: check, count and total, then complete. */
  method CalculateComposition(c: Given) returns (r: Result<Entries>)
    ensures r == CalculatedComposition(c)
  {
    var ok := CheckItems(c);
    if !ok {
      return Err(ValueError);
    }
    var total, count := TotalAndCount(c);
    var w := 0.0;
    if count > 0 {
      if total < 1.0 {
        w := (1.0 - total) / (count as real);
      } else {
        w := 0.0;
      }
    }
    var c3 := CompleteWith(c, w);
    var sum := SumLoop(c3);
    if sum - 1.0 > TOTAL_TOLERANCE {
      return Err(ValueError);
    }
    r := Ok(c3);
  }

  /** The first loop: every atomic number in [1, 96] and every given fraction in (0, 1]. */
  method CheckItems(c: Given) returns (ok: bool)
    ensures ok <==> AllValid(c)
  {
    var i := 0;
    while i < |c|
      invariant 0 <= i <= |c|
      invariant forall k :: 0 <= k < i ==> ValidItem(c[k])
    {
      var z := c[i].0;
      if z <= 0 || z > 96 {
        return false;
      }
      if c[i].1.Given? && (c[i].1.value <= 0.0 || c[i].1.value > 1.0) {
        return false;
      }
      i := i + 1;
    }
    return true;
  }

  /** The second loop: the total of the given fractions and the number of wildcards. */
  method TotalAndCount(c: Given) returns (total: real, count: nat)
    ensures total == GivenTotal(c) && count == WildcardCount(c)
  {
    total, count := 0.0, 0;
    var i := 0;
    while i < |c|
      invariant 0 <= i <= |c|
      invariant total == GivenTotal(c[..i]) && count == WildcardCount(c[..i])
    {
      assert c[..i + 1][..i] == c[..i];
      if c[i].1.Wildcard? {
        count := count + 1;
      } else {
        total := total + c[i].1.value;
      }
      i := i + 1;
    }
    assert c[..|c|] == c;
  }

  /** The third loop: every wildcard replaced by `w`. */
  method CompleteWith(c: Given, w: real) returns (c3: Entries)
    ensures c3 == Completed(c, w)
  {
    c3 := [];
    var i := 0;
    while i < |c|
      invariant 0 <= i <= |c|
      invariant c3 == Completed(c[..i], w)
    {
      assert Completed(c[..i + 1], w) == Completed(c[..i], w) + [(c[i].0, if c[i].1.Wildcard? then w else c[i].1.value)];
      c3 := c3 + [(c[i].0, if c[i].1.Wildcard? then w else c[i].1.value)];
      i := i + 1;
    }
    assert c[..|c|] == c;
  }

  /** The `sum(...)` of the completed fractions. */
  method SumLoop(c3: Entries) returns (sum: real)
    ensures sum == Sum(c3)
  {
    sum := 0.0;
    var i := 0;
    while i < |c3|
      invariant 0 <= i <= |c3|
      invariant sum == Sum(c3[..i])
    {
      assert c3[..i + 1][..i] == c3[..i];
      sum := sum + c3[i].1;
      i := i + 1;
    }
    assert c3[..|c3|] == c3;
  }

  /** Completing with `w` gives the given total plus `w` per wildcard. */
  lemma {:induction false} CompletedSum(c: Given, w: real)
    ensures Sum(Completed(c, w)) == GivenTotal(c) + (WildcardCount(c) as real) * w
  {
    if c != [] {
      var n := |c| - 1;
      assert Completed(c, w)[..n] == Completed(c[..n], w);
      CompletedSum(c[..n], w);
    }
  }

  /** Completion keeps the keys, keeps every given fraction and puts `w` for every wildcard. */
  lemma CompletionKeepsGiven(c: Given)
    requires CalculatedComposition(c).Ok?
    ensures var r := CalculatedComposition(c).value;
            KeysOf(r) == KeysOf(c)
            && forall i :: 0 <= i < |c| && c[i].1.Given? ==> r[i].1 == c[i].1.value
    ensures WildcardCount(c) > 0 ==> var r := CalculatedComposition(c).value;
              forall i :: 0 <= i < |c| && c[i].1.Wildcard? ==> r[i].1 == WildcardValue(c)
  {
  }

  /** With a wildcard and given fractions below 1 in total, the completed total is exactly 1 and accepted. */
  lemma WildcardsCompleteToOne(c: Given)
    requires AllValid(c) && WildcardCount(c) > 0 && GivenTotal(c) < 1.0
    ensures CalculatedComposition(c).Ok? && Sum(CalculatedComposition(c).value) == 1.0
  {
    var n := WildcardCount(c) as real;
    var w := WildcardValue(c);
    var r := Completed(c, w);
    CompletedSum(c, w);
    SharesAddBack(n, 1.0 - GivenTotal(c));
    assert w == (1.0 - GivenTotal(c)) / n;
    assert Sum(r) == 1.0;
  }

  /** `n` equal shares of `x` add back up to `x`. */
  lemma SharesAddBack(n: real, x: real)
    requires n > 0.0
    ensures n * (x / n) == x
  {
  }

  /** Valid items are rejected only for a total above 1 + 1e-6: any total up to it, even below 1, is accepted. */
  lemma AcceptedUpToTolerance(c: Given)
    requires AllValid(c)
    ensures CalculatedComposition(c).Ok? <==>
              Sum(Completed(c, if WildcardCount(c) > 0 then WildcardValue(c) else 0.0)) <= 1.0 + TOTAL_TOLERANCE
  {
  }

  /** `__calculate_density`: the sum of element density times weight fraction. */
  function WeightedDensity(t: Table, c: Entries): real
  {
    if c == [] then 0.0 else WeightedDensity(t, c[..|c| - 1]) + t.massDensity(c[|c| - 1].0) * c[|c| - 1].1
  }

  /** A weighted density of positive fractions is positive, unless there is no element. */
  lemma {:induction false} WeightedDensityPositive(t: Table, c: Entries)
    requires c != [] && forall i :: 0 <= i < |c| ==> c[i].1 > 0.0
    ensures WeightedDensity(t, c) > 0.0
  {
    var n := |c| - 1;
    var rho: real := t.massDensity(c[n].0);
    assert rho * c[n].1 > 0.0;
    if n > 0 {
      assert forall i :: 0 <= i < n ==> c[..n][i] == c[i];
      WeightedDensityPositive(t, c[..n]);
    }
  }

  class Material {
    var name: string
    var composition: Entries
    var density: Option<real>          // the user density, None when deleted or not given
    var absorptionEnergyElectron: real // eV
    var absorptionEnergyPhoton: real   // eV

    ghost predicate Valid()
      reads this
    {
      absorptionEnergyElectron >= 0.0 && absorptionEnergyPhoton >= 0.0
    }

    /** The fields as stored, once every setter accepted its value. */
    constructor Init(name: string, composition: Entries, density: Option<real>, absE: real, absP: real)
      requires absE >= 0.0 && absP >= 0.0
      ensures Valid()
      ensures this.name == name && this.composition == composition && this.density == density
      ensures absorptionEnergyElectron == absE && absorptionEnergyPhoton == absP
    {
      this.name := name;
      this.composition := composition;
      this.density := density;
      absorptionEnergyElectron := absE;
      absorptionEnergyPhoton := absP;
    }

    /**
     * `Material(name, composition, density, abs_electron, abs_photon)`: the
     * composition is calculated, then the energies are checked; any
     * failure is a ValueError and no material is made.
     */
    static method Create(name: string, c: Given, density: Option<real>, absE: real, absP: real) returns (r: Result<Material>)
      ensures r.Err? <==> CalculatedComposition(c).Err? || absE < 0.0 || absP < 0.0
      ensures r.Err? ==> r.error == ValueError
      ensures r.Ok? ==> fresh(r.value) && r.value.Valid() && r.value.name == name
                        && r.value.composition == CalculatedComposition(c).value && r.value.density == density
                        && r.value.absorptionEnergyElectron == absE && r.value.absorptionEnergyPhoton == absP
    {
      var comp := CalculateComposition(c);
      if comp.Err? {
        return Err(comp.error);
      }
      if absE < 0.0 || absP < 0.0 {
        return Err(ValueError);
      }
      var m := new Material.Init(name, comp.value, density, absE, absP);
      r := Ok(m);
    }

    /** The `composition` setter: recalculated from the given items; unchanged on ValueError. */
    method SetComposition(c: Given) returns (r: Result<()>)
      modifies this`composition
      ensures r.Err? <==> CalculatedComposition(c).Err?
      ensures r.Ok? ==> composition == CalculatedComposition(c).value
      ensures r.Err? ==> composition == old(composition)
    {
      var comp := CalculateComposition(c);
      if comp.Err? {
        return Err(comp.error);
      }
      composition := comp.value;
      r := Ok(());
    }

    /** The `density` setter and deleter (None). */
    method SetDensity(d: Option<real>)
      modifies this`density
      ensures density == d
    {
      density := d;
    }

    /** The electron absorption energy setter: ValueError below 0, leaving the energy unchanged. */
    method SetAbsorptionEnergyElectron(energy: real) returns (r: Result<()>)
      requires Valid()
      modifies this`absorptionEnergyElectron
      ensures Valid()
      ensures r.Err? <==> energy < 0.0
      ensures absorptionEnergyElectron == if energy < 0.0 then old(absorptionEnergyElectron) else energy
    {
      if energy < 0.0 {
        return Err(ValueError);
      }
      absorptionEnergyElectron := energy;
      r := Ok(());
    }

    /** The photon absorption energy setter: ValueError below 0, leaving the energy unchanged. */
    method SetAbsorptionEnergyPhoton(energy: real) returns (r: Result<()>)
      requires Valid()
      modifies this`absorptionEnergyPhoton
      ensures Valid()
      ensures r.Err? <==> energy < 0.0
      ensures absorptionEnergyPhoton == if energy < 0.0 then old(absorptionEnergyPhoton) else energy
    {
      if energy < 0.0 {
        return Err(ValueError);
      }
      absorptionEnergyPhoton := energy;
      r := Ok(());
    }

    /** `has_density_defined`: the user density is set and not negative. */
    predicate HasDensityDefined()
      reads this
    {
      density.Some? && density.value >= 0.0
    }

    /** `density`: the user density when defined, else the weighted element density. */
    function Density(t: Table): (r: real)
      reads this
      ensures HasDensityDefined() ==> r == density.value && r >= 0.0
      ensures !HasDensityDefined() ==> r == WeightedDensity(t, composition)
    {
      if HasDensityDefined() then density.value else WeightedDensity(t, composition)
    }
  }

  /** `pure(z)`: the element's name and composition `{z: '?'}`; ValueError as in `Material`. */
  method Pure(t: Table, z: int, absE: real, absP: real) returns (r: Result<Material>)
    ensures r.Err? <==> z < 1 || z > 96 || absE < 0.0 || absP < 0.0
    ensures r.Err? ==> r.error == ValueError
    ensures r.Ok? ==> fresh(r.value) && r.value.name == t.name(z) && r.value.composition == [(z, 1.0)]
                      && r.value.density.None?
                      && r.value.absorptionEnergyElectron == absE && r.value.absorptionEnergyPhoton == absP
  {
    PureComposition(z);
    r := Material.Create(t.name(z), [(z, Wildcard)], None, absE, absP);
  }

  /** The composition `{z: '?'}` is `{z: 1.0}` for a valid atomic number. */
  lemma PureComposition(z: int)
    ensures CalculatedComposition([(z, Wildcard)]).Ok? <==> 1 <= z <= 96
    ensures 1 <= z <= 96 ==> CalculatedComposition([(z, Wildcard)]).value == [(z, 1.0)]
  {
    var c := [(z, Wildcard)];
    assert c[..0] == [];
    if 1 <= z <= 96 {
      WildcardsCompleteToOne(c);
    }
  }

  /** The calculated density of a pure element is the element's own density. */
  lemma PureDensity(t: Table, z: int)
    ensures WeightedDensity(t, [(z, 1.0)]) == t.massDensity(z)
  {
    assert [(z, 1.0)][..0] == [];
  }

  /** `VACUUM`: no element, a user density of 0 and absorption energies of 0. */
  method Vacuum() returns (m: Material)
    ensures fresh(m) && m.Valid() && m.name == "Vacuum" && m.composition == []
    ensures m.HasDensityDefined() && m.density == Some(0.0)
    ensures m.absorptionEnergyElectron == 0.0 && m.absorptionEnergyPhoton == 0.0
  {
    m := new Material.Init("Vacuum", [], Some(0.0), 0.0, 0.0);
  }

  /** The empty composition is accepted as it is, so the vacuum is a valid material. */
  lemma VacuumComposition()
    ensures CalculatedComposition([]) == Ok([])
  {
  }
}
