/**
 * The base of every sample: a tilt and a rotation (stored in radians, read
 * in degrees), an equality that allows a small angular tolerance, and the
 * clean-up of a sample's material list (no VACUUM, no repeats). Also the
 * sample builder's tilt and rotation sets, the layer, and the layered
 * sample that layer stacks build on.
 */
module SampleBase {
  import opened Wrappers
  import opened PyMath
  import opened PySet
  import opened OptionsMaterial
  import Sample

  /** The tilt and rotation of a sample, in radians. */
  datatype Orientation = Orientation(tiltRad: real, rotationRad: real)

  /**
   * The angular tolerance as written: `math.radians(1e-3)`, which is
   * 1.7e-5, compared against angles in degrees.
   */
  const TILT_TOLERANCE_DEG_AS_WRITTEN: real := Radians(0.001)

  /** The tolerance the constants' names and comments give: 0.001 degree. */
  const TILT_TOLERANCE_DEG: real := 0.001
  const ROTATION_TOLERANCE_DEG: real := 0.001

  /** `Sample.__eq__` as written: base equality, then tilt and rotation in degrees within `radians(1e-3)`. */
  predicate SampleEqualAsWritten(a: Orientation, b: Orientation, baseEqual: bool)
  {
    baseEqual
    && IsClose(Degrees(a.tiltRad), Degrees(b.tiltRad), TILT_TOLERANCE_DEG_AS_WRITTEN)
    && IsClose(Degrees(a.rotationRad), Degrees(b.rotationRad), TILT_TOLERANCE_DEG_AS_WRITTEN)
  }

  /** `Sample.__eq__` with the intended tolerance of 0.001 degree. */
  predicate SampleEqual(a: Orientation, b: Orientation, baseEqual: bool)
  {
    baseEqual
    && IsClose(Degrees(a.tiltRad), Degrees(b.tiltRad), TILT_TOLERANCE_DEG)
    && IsClose(Degrees(a.rotationRad), Degrees(b.rotationRad), ROTATION_TOLERANCE_DEG)
  }

  /**
   * Two untilted samples 0.0005 degree apart in tilt: as written they differ,
   * although 0.0005 degree is within the 0.001 degree tolerance.
   */
  lemma TiltToleranceTooTight()
    ensures !SampleEqualAsWritten(Orientation(0.0, 0.0), Orientation(Radians(0.0005), 0.0), true)
    ensures SampleEqual(Orientation(0.0, 0.0), Orientation(Radians(0.0005), 0.0), true)
  {
    RadiansToDegrees(0.0005);
  }

  /**
   * With the intended tolerance, samples whose angles differ by at most
   * 0.001 degree are equal exactly when their base parts are, and equality is
   * symmetric.
   */
  lemma SampleEqualWithinTolerance(a: Orientation, b: Orientation, baseEqual: bool)
    requires Abs(Degrees(a.tiltRad) - Degrees(b.tiltRad)) <= TILT_TOLERANCE_DEG
    requires Abs(Degrees(a.rotationRad) - Degrees(b.rotationRad)) <= ROTATION_TOLERANCE_DEG
    ensures SampleEqual(a, b, baseEqual) <==> baseEqual
    ensures SampleEqual(a, b, baseEqual) <==> SampleEqual(b, a, baseEqual)
  {
    WithinAbsoluteTolerance(Degrees(a.tiltRad), Degrees(b.tiltRad), TILT_TOLERANCE_DEG);
    WithinAbsoluteTolerance(Degrees(a.rotationRad), Degrees(b.rotationRad), ROTATION_TOLERANCE_DEG);
    WithinAbsoluteTolerance(Degrees(b.tiltRad), Degrees(a.tiltRad), TILT_TOLERANCE_DEG);
    WithinAbsoluteTolerance(Degrees(b.rotationRad), Degrees(a.rotationRad), ROTATION_TOLERANCE_DEG);
  }

  /**
   * `_cleanup_materials` as written: removes the first VACUUM only, then
   * drops repeats. A single VACUUM is gone from the result.
   */
  function CleanupMaterialsAsWritten(materials: seq<Material>): (r: seq<Material>)
    ensures Distinct(r)
    ensures multiset(materials)[Vacuum] <= 1 ==> Vacuum !in r
    ensures forall i :: 0 <= i < |r| ==> r[i] in materials
  {
    RemoveFirstSubset(materials, Vacuum);
    Unique(RemoveFirst(materials, Vacuum))
  }

  /** Two VACUUM layers leave VACUUM among the materials, which the materials must never hold. */
  lemma CleanupKeepsSecondVacuum()
    ensures CleanupMaterialsAsWritten([Vacuum, Vacuum]) == [Vacuum]
    ensures CleanupMaterials([Vacuum, Vacuum]) == []
  {
    assert RemoveFirst([Vacuum, Vacuum], Vacuum) == [Vacuum];
    assert RemoveAll([Vacuum, Vacuum], Vacuum) == [];
    assert Unique([Vacuum]) == Insert(Unique([]), Vacuum);
  }

  /**
   * `_cleanup_materials` as intended: every VACUUM removed, repeats dropped,
   * first occurrences kept in order.
   */
  function CleanupMaterials(materials: seq<Material>): (r: seq<Material>)
    ensures Distinct(r)
    ensures Vacuum !in r
    ensures forall i :: 0 <= i < |r| ==> r[i] in materials
    ensures forall i :: 0 <= i < |materials| && materials[i] != Vacuum ==> materials[i] in r
  {
    Unique(RemoveAll(materials, Vacuum))
  }

  /** The two agree whenever VACUUM occurs at most once. */
  lemma CleanupAgreesOnSingleVacuum(materials: seq<Material>)
    requires multiset(materials)[Vacuum] <= 1
    ensures CleanupMaterialsAsWritten(materials) == CleanupMaterials(materials)
  {
    RemoveFirstOfSingle(materials, Vacuum);
  }

  /** Materials already free of VACUUM and repeats come through unchanged. */
  lemma CleanupOfClean(materials: seq<Material>)
    requires Distinct(materials) && Vacuum !in materials
    ensures CleanupMaterials(materials) == materials
  {
    RemoveAllAbsent(materials, Vacuum);
    UniqueOfDistinct(materials);
  }

  /** `add_tilt_deg` as written calls itself with the converted angle, until Python's stack runs out. */
  function AddTiltDegAsWritten(tiltsRad: seq<real>, tiltDeg: real, stackLeft: nat): Result<seq<real>>
    decreases stackLeft
  {
    if stackLeft == 0 then Err(RecursionError)
    else AddTiltDegAsWritten(tiltsRad, Radians(tiltDeg), stackLeft - 1)
  }

  /** However deep the stack, the call as written never adds a tilt: it ends in RecursionError. */
  lemma {:induction false} AddTiltDegNeverAdds(tiltsRad: seq<real>, tiltDeg: real, stackLeft: nat)
    ensures AddTiltDegAsWritten(tiltsRad, tiltDeg, stackLeft) == Err(RecursionError)
    decreases stackLeft
  {
    if stackLeft > 0 {
      AddTiltDegNeverAdds(tiltsRad, Radians(tiltDeg), stackLeft - 1);
    }
  }

  /** `SampleBuilder`: the tilts and rotations to combine, each a set without repeats. */
  class SampleBuilder {
    var tiltsRad: seq<real>
    var rotationsRad: seq<real>

    ghost predicate Valid()
      reads this
    {
      Distinct(tiltsRad) && Distinct(rotationsRad)
    }

    constructor Init()
      ensures Valid()
      ensures tiltsRad == [] && rotationsRad == []
    {
      tiltsRad := [];
      rotationsRad := [];
    }

    /** `_get_combinations`: an empty set stands for `[0.0]`. */
    function GetCombinations(): (r: (seq<real>, seq<real>))
      reads this
      ensures |r.0| > 0 && |r.1| > 0
      ensures r.0 == (if tiltsRad == [] then [0.0] else tiltsRad)
      ensures r.1 == (if rotationsRad == [] then [0.0] else rotationsRad)
    {
      (if tiltsRad == [] then [0.0] else tiltsRad,
       if rotationsRad == [] then [0.0] else rotationsRad)
    }

    /** `__len__`: the number of tilt and rotation combinations, at least one. */
    function Length(): (r: nat)
      reads this
      ensures r >= 1
      ensures tiltsRad != [] && rotationsRad != [] ==> r == |tiltsRad| * |rotationsRad|
      ensures tiltsRad == [] ==> r == |GetCombinations().1|
      ensures rotationsRad == [] ==> r == |GetCombinations().0|
    {
      var (t, r) := GetCombinations();
      |t| * |r|
    }

    /** `add_tilt_rad`: a set insertion. */
    method AddTiltRad(tiltRad: real)
      requires Valid()
      modifies this`tiltsRad
      ensures Valid()
      ensures tiltsRad == Insert(old(tiltsRad), tiltRad)
    {
      tiltsRad := Insert(tiltsRad, tiltRad);
    }

    /** `add_tilt_deg` as intended: the angle converted to radians, then inserted. */
    method AddTiltDeg(tiltDeg: real)
      requires Valid()
      modifies this`tiltsRad
      ensures Valid()
      ensures tiltsRad == Insert(old(tiltsRad), Radians(tiltDeg))
      ensures Degrees(tiltsRad[|tiltsRad| - 1]) == tiltDeg || Radians(tiltDeg) in old(tiltsRad)
    {
      AddTiltRad(Radians(tiltDeg));
    }

    /** `add_rotation_rad`: a set insertion. */
    method AddRotationRad(rotationRad: real)
      requires Valid()
      modifies this`rotationsRad
      ensures Valid()
      ensures rotationsRad == Insert(old(rotationsRad), rotationRad)
    {
      rotationsRad := Insert(rotationsRad, rotationRad);
    }

    /** `add_rotation_deg`: the angle converted to radians, then inserted. */
    method AddRotationDeg(rotationDeg: real)
      requires Valid()
      modifies this`rotationsRad
      ensures Valid()
      ensures rotationsRad == Insert(old(rotationsRad), Radians(rotationDeg))
    {
      AddRotationRad(Radians(rotationDeg));
    }
  }

  /** 1 fm. */
  const THICKNESS_TOLERANCE_M: real := 0.000000000001

  /** A layer: the same material and thickness pair as the sample module's. */
  type Layer = Sample.Layer

  /** `Layer.__eq__`: the same material and thicknesses close within 1 fm. */
  predicate LayerEqual(a: Layer, b: Layer)
  {
    a.material == b.material && IsClose(a.thicknessM, b.thicknessM, THICKNESS_TOLERANCE_M)
  }

  /** Layer equality is reflexive and symmetric, and ignores thickness differences up to 1 fm. */
  lemma LayerEqualProperties(a: Layer, b: Layer)
    ensures LayerEqual(a, a)
    ensures LayerEqual(a, b) <==> LayerEqual(b, a)
    ensures a.material == b.material && Abs(a.thicknessM - b.thicknessM) <= THICKNESS_TOLERANCE_M ==> LayerEqual(a, b)
    ensures a.material != b.material ==> !LayerEqual(a, b)
  {
    IsCloseSymmetric(a.thicknessM, b.thicknessM, THICKNESS_TOLERANCE_M);
  }

  /** `are_sequence_equal` on layers: the same length and pairwise equal layers. */
  predicate LayersEqual(a: seq<Layer>, b: seq<Layer>)
  {
    |a| == |b| && forall i :: 0 <= i < |a| ==> LayerEqual(a[i], b[i])
  }

  /** What a layered sample holds: its layers and its orientation. */
  datatype LayeredState = LayeredState(layers: seq<Layer>, orientation: Orientation)

  /** `LayeredSample.__eq__`: sample equality and pairwise equal layers. */
  predicate LayeredEqual(a: LayeredState, b: LayeredState, baseEqual: bool)
  {
    SampleEqual(a.orientation, b.orientation, baseEqual) && LayersEqual(a.layers, b.layers)
  }

  /** A layered sample equals itself; a different number of layers makes samples different. */
  lemma LayeredEqualProperties(a: LayeredState, b: LayeredState, baseEqual: bool)
    ensures LayeredEqual(a, a, true)
    ensures |a.layers| != |b.layers| ==> !LayeredEqual(a, b, baseEqual)
  {
    forall i | 0 <= i < |a.layers|
      ensures LayerEqual(a.layers[i], a.layers[i])
    {
      LayerEqualProperties(a.layers[i], a.layers[i]);
    }
  }

  /** `LayeredSample.materials`: the clean-up of the layer materials in layer order. */
  function LayeredMaterials(layers: seq<Layer>): (r: seq<Material>)
    ensures Distinct(r) && Vacuum !in r
    ensures forall i :: 0 <= i < |layers| && layers[i].material != Vacuum ==> layers[i].material in r
    ensures forall i :: 0 <= i < |r| ==> r[i] in Sample.LayerMaterials(layers)
  {
    CleanupMaterials(Sample.LayerMaterials(layers))
  }

  class LayeredSample {
    var layers: seq<Layer>
    var tiltRad: real
    var rotationRad: real

    /** No layers given means none; the given list is copied. */
    constructor (layers: Option<seq<Layer>>, tiltRad: real, rotationRad: real)
      ensures this.layers == layers.GetOr([])
      ensures this.tiltRad == tiltRad && this.rotationRad == rotationRad
    {
      this.layers := layers.GetOr([]);
      this.tiltRad := tiltRad;
      this.rotationRad := rotationRad;
    }

    function State(): LayeredState
      reads this
    {
      LayeredState(layers, Orientation(tiltRad, rotationRad))
    }

    /** `add_layer`: appends a new layer after the others and returns it. */
    method AddLayer(material: Material, thicknessM: real) returns (layer: Layer)
      modifies this`layers
      ensures layer == Sample.Layer(material, thicknessM)
      ensures layers == old(layers) + [layer]
      ensures material != Vacuum ==> material in Materials()
    {
      layer := Sample.Layer(material, thicknessM);
      layers := layers + [layer];
      assert layers[|layers| - 1].material == material;
    }

    /** `materials`: no VACUUM, no repeats, and every other layer material. */
    function Materials(): (r: seq<Material>)
      reads this
      ensures Distinct(r) && Vacuum !in r
      ensures forall i :: 0 <= i < |layers| && layers[i].material != Vacuum ==> layers[i].material in r
    {
      LayeredMaterials(layers)
    }
  }
}
