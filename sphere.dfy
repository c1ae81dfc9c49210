/**
 * The sphere sample (a sphere of one material below the z = 0 plane) and
 * its builder, which combines materials and diameters with the tilts and
 * rotations of the base sample builder.
 */
module Sphere {
  import opened PySet
  import opened Itertools
  import opened OptionsMaterial
  import opened SampleBase

  datatype SphereSample = SphereSample(material: Material, diameterM: real, tiltRad: real, rotationRad: real)
  {
    function Orientation(): SampleBase.Orientation
    {
      SampleBase.Orientation(tiltRad, rotationRad)
    }
  }

  /** `__eq__`: sample equality, the same material and exactly the same diameter. */
  predicate Equal(a: SphereSample, b: SphereSample, baseEqual: bool)
  {
    SampleEqual(a.Orientation(), b.Orientation(), baseEqual) && a.material == b.material && a.diameterM == b.diameterM
  }

  /** A sphere equals itself; spheres of other materials or diameters never are equal. */
  lemma EqualProperties(a: SphereSample, b: SphereSample, baseEqual: bool)
    ensures Equal(a, a, true)
    ensures a.material != b.material || a.diameterM != b.diameterM ==> !Equal(a, b, baseEqual)
    ensures a.material == b.material && a.diameterM == b.diameterM && a.Orientation() == b.Orientation() ==>
      (Equal(a, b, baseEqual) <==> baseEqual)
  {
    SampleEqualWithinTolerance(a.Orientation(), a.Orientation(), true);
    SampleEqualWithinTolerance(a.Orientation(), a.Orientation(), baseEqual);
  }

  /** `materials`: the sphere's material, or nothing when it is VACUUM. */
  function Materials(s: SphereSample): (r: seq<Material>)
    ensures s.material == Vacuum ==> r == []
    ensures s.material != Vacuum ==> r == [s.material]
  {
    var r := CleanupMaterials([s.material]);
    assert s.material != Vacuum ==> s.material in r;
    r
  }

  /** `itertools.product(materials, diameters, tilts, rotations)`. */
  function Combinations(ms: seq<Material>, ds: seq<real>, ts: seq<real>, rs: seq<real>): seq<(Material, (real, (real, real)))>
  {
    Pairs(ms, Pairs(ds, Pairs(ts, rs)))
  }

  /** The samples of one combination each, in product order. */
  function Samples(ms: seq<Material>, ds: seq<real>, ts: seq<real>, rs: seq<real>): (r: seq<SphereSample>)
  {
    var c := Combinations(ms, ds, ts, rs);
    seq(|c|, k requires 0 <= k < |c| => SphereSample(c[k].0, c[k].1.0, c[k].1.1.0, c[k].1.1.1))
  }

  /** One sample per combination. */
  lemma SamplesLength(ms: seq<Material>, ds: seq<real>, ts: seq<real>, rs: seq<real>)
    ensures |Samples(ms, ds, ts, rs)| == |ts| * |rs| * |ms| * |ds|
  {
    PairsLength(ts, rs);
    PairsLength(ds, Pairs(ts, rs));
    PairsLength(ms, Pairs(ds, Pairs(ts, rs)));
    Regroup(|ms|, |ds|, |ts|, |rs|);
  }

  lemma Regroup(a: nat, b: nat, c: nat, d: nat)
    ensures a * (b * (c * d)) == c * d * a * b
  {
    assert a * (b * (c * d)) == (a * b) * (c * d);
    assert (a * b) * (c * d) == (c * d) * (a * b);
  }

  /** A sample is built exactly when its material, diameter, tilt and rotation are each among the choices. */
  lemma SamplesMember(ms: seq<Material>, ds: seq<real>, ts: seq<real>, rs: seq<real>, s: SphereSample)
    ensures s in Samples(ms, ds, ts, rs) <==>
      s.material in ms && s.diameterM in ds && s.tiltRad in ts && s.rotationRad in rs
  {
    var c := Combinations(ms, ds, ts, rs);
    var t := (s.material, (s.diameterM, (s.tiltRad, s.rotationRad)));
    PairsMember(ts, rs, t.1.1);
    PairsMember(ds, Pairs(ts, rs), t.1);
    PairsMember(ms, Pairs(ds, Pairs(ts, rs)), t);
    if s in Samples(ms, ds, ts, rs) {
      var k :| 0 <= k < |c| && Samples(ms, ds, ts, rs)[k] == s;
      assert c[k] == t;
    }
    if t in c {
      var k :| 0 <= k < |c| && c[k] == t;
      assert Samples(ms, ds, ts, rs)[k] == s;
    }
  }

  class SphereSampleBuilder {
    const base: SampleBuilder
    var materials: seq<Material>
    var diametersM: seq<real>

    ghost predicate Valid()
      reads this, base
    {
      base.Valid() && Distinct(materials) && Distinct(diametersM)
    }

    constructor Init()
      ensures Valid() && fresh(base)
      ensures base.tiltsRad == [] && base.rotationsRad == []
      ensures materials == [] && diametersM == []
    {
      base := new SampleBuilder.Init();
      materials := [];
      diametersM := [];
    }

    /** `__len__`: the base length times the number of materials and of diameters. */
    function Length(): nat
      reads this, base
    {
      base.Length() * |materials| * |diametersM|
    }

    /** `add_material`: appended unless already present, so first-insertion order is kept. */
    method AddMaterial(material: Material)
      requires Valid()
      modifies this`materials
      ensures Valid()
      ensures materials == Insert(old(materials), material)
    {
      if material !in materials {
        materials := materials + [material];
      }
    }

    /** `add_diameter_m`: a set insertion. */
    method AddDiameter(diameterM: real)
      requires Valid()
      modifies this`diametersM
      ensures Valid()
      ensures diametersM == Insert(old(diametersM), diameterM)
    {
      diametersM := Insert(diametersM, diameterM);
    }

    /** `build`: one sphere sample per element of materials × diameters × tilts × rotations. */
    function Build(): (r: seq<SphereSample>)
      reads this, base
    {
      var (ts, rs) := base.GetCombinations();
      Samples(materials, diametersM, ts, rs)
    }
  }

  /**
   * `Builder.__len__` is the length of `build()`, and a sample is built
   * exactly when each of its parts was added (with an unset tilt or rotation
   * standing for 0).
   */
  lemma BuildMatchesLength(b: SphereSampleBuilder, s: SphereSample)
    ensures |b.Build()| == b.Length()
    ensures s in b.Build() <==>
      s.material in b.materials && s.diameterM in b.diametersM
      && s.tiltRad in b.base.GetCombinations().0 && s.rotationRad in b.base.GetCombinations().1
  {
    var (ts, rs) := b.base.GetCombinations();
    SamplesLength(b.materials, b.diametersM, ts, rs);
    SamplesMember(b.materials, b.diametersM, ts, rs, s);
  }
}
