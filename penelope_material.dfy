/**
 * The PENELOPE material: a base material plus the elastic scattering
 * coefficients (C1, C2) and the cutoff energies of inelastic collisions
 * (WCC) and Bremsstrahlung emission (WCR), with their XML attributes.
 */
module PenelopeMaterial {
  import opened Wrappers
  import opened Elements
  import Material

  /** `elastic_scattering` as given: a pair `(C1, C2)` or one number for both. */
  datatype Coefficients = Pair(c1: real, c2: real) | Scalar(c: real)

  /** Both coefficients of the pair; a single number sets C1 = C2. */
  function Unpack(coeffs: Coefficients): (real, real)
  {
    match coeffs
    case Pair(c1, c2) => (c1, c2)
    case Scalar(c) => (c, c)
  }

  predicate InRange(c: real)
  {
    0.0 <= c <= 0.2
  }

  /** The stored coefficients, or ValueError when C1 or C2 lies outside [0, 0.2]. */
  function ElasticScattering(coeffs: Coefficients): (r: Result<(real, real)>)
    ensures r.Ok? <==> InRange(Unpack(coeffs).0) && InRange(Unpack(coeffs).1)
    ensures r.Ok? ==> r.value == Unpack(coeffs)
    ensures r.Err? ==> r.error == ValueError
    ensures coeffs.Scalar? && r.Ok? ==> r.value.0 == r.value.1
  {
    var (c1, c2) := Unpack(coeffs);
    if c1 < 0.0 || c1 > 0.2 then Err(ValueError)
    else if c2 < 0.0 || c2 > 0.2 then Err(ValueError)
    else Ok((c1, c2))
  }

  /** The four PENELOPE-specific values written as XML attributes. */
  datatype Parameters = Parameters(c1: real, c2: real, wcc: real, wcr: real)

  /** The PENELOPE parameters are accepted by the setters. */
  predicate ValidParameters(p: Parameters)
  {
    InRange(p.c1) && InRange(p.c2) && p.wcc >= 0.0 && p.wcr >= 0.0
  }

  class PenelopeMaterial {
    const base: Material.Material
    var elasticScattering: (real, real)
    var cutoffEnergyInelastic: real      // eV
    var cutoffEnergyBremsstrahlung: real // eV

    ghost predicate Valid()
      reads this, base
    {
      base.Valid() && InRange(elasticScattering.0) && InRange(elasticScattering.1)
      && cutoffEnergyInelastic >= 0.0 && cutoffEnergyBremsstrahlung >= 0.0
    }

    function GetParameters(): Parameters
      reads this
    {
      Parameters(elasticScattering.0, elasticScattering.1, cutoffEnergyInelastic, cutoffEnergyBremsstrahlung)
    }

    constructor Init(base: Material.Material, es: (real, real), wcc: real, wcr: real)
      requires base.Valid() && InRange(es.0) && InRange(es.1) && wcc >= 0.0 && wcr >= 0.0
      ensures Valid() && this.base == base
      ensures elasticScattering == es && cutoffEnergyInelastic == wcc && cutoffEnergyBremsstrahlung == wcr
    {
      this.base := base;
      elasticScattering := es;
      cutoffEnergyInelastic := wcc;
      cutoffEnergyBremsstrahlung := wcr;
    }

    /**
     * `Material(...)`: the base material first, then the elastic scattering
     * and the two cutoff energies through their setters; any failure is a
     * ValueError.
     */
    static method Create(name: string, c: Material.Given, density: Option<real>, absE: real, absP: real,
                         coeffs: Coefficients, wcc: real, wcr: real) returns (r: Result<PenelopeMaterial>)
      ensures r.Err? <==> Material.CalculatedComposition(c).Err? || absE < 0.0 || absP < 0.0
                          || ElasticScattering(coeffs).Err? || wcc < 0.0 || wcr < 0.0
      ensures r.Err? ==> r.error == ValueError
      ensures r.Ok? ==> fresh(r.value) && fresh(r.value.base) && r.value.Valid()
                        && r.value.base.name == name && r.value.base.composition == Material.CalculatedComposition(c).value
                        && r.value.base.density == density
                        && r.value.base.absorptionEnergyElectron == absE && r.value.base.absorptionEnergyPhoton == absP
                        && r.value.elasticScattering == Unpack(coeffs)
                        && r.value.cutoffEnergyInelastic == wcc && r.value.cutoffEnergyBremsstrahlung == wcr
    {
      var b := Material.Material.Create(name, c, density, absE, absP);
      if b.Err? {
        return Err(b.error);
      }
      var es := ElasticScattering(coeffs);
      if es.Err? {
        return Err(es.error);
      }
      if wcc < 0.0 || wcr < 0.0 {
        return Err(ValueError);
      }
      var m := new PenelopeMaterial.Init(b.value, es.value, wcc, wcr);
      r := Ok(m);
    }

    /** The `elastic_scattering` setter: ValueError leaves the coefficients unchanged. */
    method SetElasticScattering(coeffs: Coefficients) returns (r: Result<()>)
      requires Valid()
      modifies this`elasticScattering
      ensures Valid()
      ensures r == (if ElasticScattering(coeffs).Ok? then Ok(()) else Err(ValueError))
      ensures elasticScattering == if r.Ok? then Unpack(coeffs) else old(elasticScattering)
    {
      var es := ElasticScattering(coeffs);
      if es.Err? {
        return Err(es.error);
      }
      elasticScattering := es.value;
      r := Ok(());
    }

    /** The inelastic cutoff setter: ValueError below 0, leaving the energy unchanged. */
    method SetCutoffEnergyInelastic(energy: real) returns (r: Result<()>)
      requires Valid()
      modifies this`cutoffEnergyInelastic
      ensures Valid()
      ensures r.Err? <==> energy < 0.0
      ensures cutoffEnergyInelastic == if energy < 0.0 then old(cutoffEnergyInelastic) else energy
    {
      if energy < 0.0 {
        return Err(ValueError);
      }
      cutoffEnergyInelastic := energy;
      r := Ok(());
    }

    /** The Bremsstrahlung cutoff setter: ValueError below 0, leaving the energy unchanged. */
    method SetCutoffEnergyBremsstrahlung(energy: real) returns (r: Result<()>)
      requires Valid()
      modifies this`cutoffEnergyBremsstrahlung
      ensures Valid()
      ensures r.Err? <==> energy < 0.0
      ensures cutoffEnergyBremsstrahlung == if energy < 0.0 then old(cutoffEnergyBremsstrahlung) else energy
    {
      if energy < 0.0 {
        return Err(ValueError);
      }
      cutoffEnergyBremsstrahlung := energy;
      r := Ok(());
    }
  }

  /** `__savexml__`: the attributes `c1`, `c2`, `wcc` and `wcr` (string conversion of numbers not modelled). */
  function SaveAttributes(p: Parameters): (attrs: map<string, real>)
    ensures attrs.Keys == {"c1", "c2", "wcc", "wcr"}
  {
    map["c1" := p.c1, "c2" := p.c2, "wcc" := p.wcc, "wcr" := p.wcr]
  }

  /**
   * `__loadxml__`: the four attributes read back (TypeError when one is
   * missing) and passed to the constructor, whose setters check them.
   */
  function LoadAttributes(attrs: map<string, real>): (r: Result<Parameters>)
    ensures !({"c1", "c2", "wcc", "wcr"} <= attrs.Keys) ==> r == Err(TypeError)
    ensures {"c1", "c2", "wcc", "wcr"} <= attrs.Keys ==> (
      var p := Parameters(attrs["c1"], attrs["c2"], attrs["wcc"], attrs["wcr"]);
      r == if ValidParameters(p) then Ok(p) else Err(ValueError))
  {
    if "c1" !in attrs || "c2" !in attrs || "wcc" !in attrs || "wcr" !in attrs then Err(TypeError)
    else
      var es := ElasticScattering(Pair(attrs["c1"], attrs["c2"]));
      if es.Err? then Err(es.error)
      else if attrs["wcc"] < 0.0 || attrs["wcr"] < 0.0 then Err(ValueError)
      else Ok(Parameters(es.value.0, es.value.1, attrs["wcc"], attrs["wcr"]))
  }

  /** Saving then loading gives back the parameters of every valid material, and rejects any other. */
  lemma XmlRoundTrip(p: Parameters)
    ensures LoadAttributes(SaveAttributes(p)) == if ValidParameters(p) then Ok(p) else Err(ValueError)
  {
    var attrs := SaveAttributes(p);
    assert attrs["c1"] == p.c1 && attrs["c2"] == p.c2 && attrs["wcc"] == p.wcc && attrs["wcr"] == p.wcr;
  }

  /** `pure(z)`: composition `{z: '?'}` named after the element, with the given parameters. */
  method Pure(t: Table, z: int, absE: real, absP: real, coeffs: Coefficients, wcc: real, wcr: real)
    returns (r: Result<PenelopeMaterial>)
    ensures r.Err? <==> z < 1 || z > 96 || absE < 0.0 || absP < 0.0 || ElasticScattering(coeffs).Err? || wcc < 0.0 || wcr < 0.0
    ensures r.Err? ==> r.error == ValueError
    ensures r.Ok? ==> fresh(r.value) && r.value.base.name == t.name(z) && r.value.base.composition == [(z, 1.0)]
                      && r.value.base.density.None?
                      && r.value.base.absorptionEnergyElectron == absE && r.value.base.absorptionEnergyPhoton == absP
                      && r.value.elasticScattering == Unpack(coeffs)
                      && r.value.cutoffEnergyInelastic == wcc && r.value.cutoffEnergyBremsstrahlung == wcr
  {
    Material.PureComposition(z);
    r := PenelopeMaterial.Create(t.name(z), [(z, Material.Wildcard)], None, absE, absP, coeffs, wcc, wcr);
  }

  /** The PENELOPE `VACUUM`: the vacuum with (0, 0) scattering and zero cutoff energies. */
  method Vacuum() returns (m: PenelopeMaterial)
    ensures fresh(m) && m.Valid() && m.base.name == "Vacuum" && m.base.composition == []
    ensures m.base.density == Some(0.0) && m.base.absorptionEnergyElectron == 0.0 && m.base.absorptionEnergyPhoton == 0.0
    ensures m.elasticScattering == (0.0, 0.0) && m.cutoffEnergyInelastic == 0.0 && m.cutoffEnergyBremsstrahlung == 0.0
  {
    var b := Material.Vacuum();
    m := new PenelopeMaterial.Init(b, (0.0, 0.0), 0.0, 0.0);
  }
}
