/**
 * Sample geometries: a substrate, a hemispherical inclusion in a substrate,
 * a sphere, horizontal layers on an optional substrate, and vertical layers
 * between a left and a right material. Every sample has a tilt and a
 * rotation in radians, also readable in degrees.
 */
module Sample {
  import opened Wrappers
  import opened PyMath
  import opened OptionsMaterial
  import Cbook

  /**
   * `tilt_deg`/`rotation_deg`: the radian attribute read through
   * `MultiplierAttribute(name, 180 / pi)`; converting back gives the radians.
   */
  function InDegrees(rad: real): (r: real)
    ensures Radians(r) == rad
  {
    Cbook.Scaled(map["rad" := rad], "rad", DEGREES_PER_RADIAN).value
  }

  /** Writing a value in degrees stores it in radians, and reading it gives it back. */
  lemma DegreesRoundTrip(deg: real)
    ensures Cbook.Stored(deg, DEGREES_PER_RADIAN) == Ok(Radians(deg))
    ensures InDegrees(Radians(deg)) == deg
  {
    var stored := Cbook.Stored(deg, DEGREES_PER_RADIAN).value;
    assert stored * DEGREES_PER_RADIAN == deg;
    assert Radians(deg) * DEGREES_PER_RADIAN == deg;
    assert stored == Radians(deg);
  }

  /** The samples whose materials never change after construction. */
  datatype Sample =
    | Substrate(material: Material, tiltRad: real, rotationRad: real)
    | Inclusion(substrateMaterial: Material, inclusionMaterial: Material, inclusionDiameterM: real, tiltRad: real, rotationRad: real)
    | Sphere(material: Material, diameterM: real, tiltRad: real, rotationRad: real)

  /**
   * `get_materials`: the substrate or the sphere alone; the substrate then
   * the inclusion.
   */
  function GetMaterials(s: Sample): (r: seq<Material>)
    ensures s.Inclusion? ==> |r| == 2 && r[0] == s.substrateMaterial && r[1] == s.inclusionMaterial
    ensures !s.Inclusion? ==> |r| == 1 && r[0] == s.material
  {
    match s
    case Substrate(m, _, _) => [m]
    case Inclusion(sm, im, _, _, _) => [sm, im]
    case Sphere(m, _, _, _) => [m]
  }

  /** A layer: a material and a thickness in metres. */
  datatype Layer = Layer(material: Material, thicknessM: real)

  /** The materials of the layers, in layer order. */
  function LayerMaterials(layers: seq<Layer>): (r: seq<Material>)
    ensures |r| == |layers|
    ensures forall i :: 0 <= i < |layers| ==> r[i] == layers[i].material
  {
    seq(|layers|, i requires 0 <= i < |layers| => layers[i].material)
  }

  /** A layer added at the end adds its material at the end. */
  lemma LayerMaterialsAppend(layers: seq<Layer>, layer: Layer)
    ensures LayerMaterials(layers + [layer]) == LayerMaterials(layers) + [layer.material]
  {
    assert LayerMaterials(layers + [layer])[|layers|] == layer.material;
  }

  class HorizontalLayers {
    var substrateMaterial: Material
    var layers: seq<Layer>
    var tiltRad: real
    var rotationRad: real

    /**
     * No substrate material means VACUUM; the layers are copied, so later
     * changes to the caller's list are not seen here.
     */
    constructor (substrateMaterial: Option<Material>, layers: Option<seq<Layer>>, tiltRad: real, rotationRad: real)
      ensures this.substrateMaterial == substrateMaterial.GetOr(Vacuum)
      ensures this.layers == layers.GetOr([])
      ensures this.tiltRad == tiltRad && this.rotationRad == rotationRad
      ensures substrateMaterial.None? ==> !HasSubstrate()
    {
      this.substrateMaterial := substrateMaterial.GetOr(Vacuum);
      this.layers := layers.GetOr([]);
      this.tiltRad := tiltRad;
      this.rotationRad := rotationRad;
    }

    /** `has_substrate`: the substrate is not VACUUM. */
    predicate HasSubstrate()
      reads this
    {
      substrateMaterial != Vacuum
    }

    /** `add_layer`: appends a new layer and returns it; earlier layers are kept. */
    method AddLayer(material: Material, thicknessM: real) returns (layer: Layer)
      modifies this`layers
      ensures layer == Layer(material, thicknessM)
      ensures layers == old(layers) + [layer]
      ensures GetMaterials() == old(GetMaterials()) + [material]
    {
      layer := Layer(material, thicknessM);
      LayerMaterialsAppend(layers, layer);
      layers := layers + [layer];
    }

    /** `get_materials`: the substrate (VACUUM included) then the layer materials in order. */
    function GetMaterials(): (r: seq<Material>)
      reads this
      ensures |r| == |layers| + 1
      ensures r[0] == substrateMaterial
      ensures forall i :: 0 <= i < |layers| ==> r[i + 1] == layers[i].material
    {
      [substrateMaterial] + LayerMaterials(layers)
    }
  }

  class VerticalLayers {
    var leftMaterial: Material
    var rightMaterial: Material
    var layers: seq<Layer>
    var depthM: ExtReal
    var tiltRad: real
    var rotationRad: real

    /** The layers are copied; the depth is unbounded unless given. */
    constructor (leftMaterial: Material, rightMaterial: Material, layers: Option<seq<Layer>>, depthM: Option<real>, tiltRad: real, rotationRad: real)
      ensures this.leftMaterial == leftMaterial && this.rightMaterial == rightMaterial
      ensures this.layers == layers.GetOr([])
      ensures depthM.None? ==> this.depthM == PosInf
      ensures depthM.Some? ==> this.depthM == Finite(depthM.value)
      ensures this.tiltRad == tiltRad && this.rotationRad == rotationRad
    {
      this.leftMaterial := leftMaterial;
      this.rightMaterial := rightMaterial;
      this.layers := layers.GetOr([]);
      this.depthM := if depthM.None? then PosInf else Finite(depthM.value);
      this.tiltRad := tiltRad;
      this.rotationRad := rotationRad;
    }

    /** `add_layer`: appends a new layer and returns it; earlier layers are kept. */
    method AddLayer(material: Material, thicknessM: real) returns (layer: Layer)
      modifies this`layers
      ensures layer == Layer(material, thicknessM)
      ensures layers == old(layers) + [layer]
      ensures GetMaterials() == old(GetMaterials()) + [material]
    {
      layer := Layer(material, thicknessM);
      LayerMaterialsAppend(layers, layer);
      layers := layers + [layer];
    }

    /** `get_materials`: left, right, then the layer materials in order. */
    function GetMaterials(): (r: seq<Material>)
      reads this
      ensures |r| == |layers| + 2
      ensures r[0] == leftMaterial && r[1] == rightMaterial
      ensures forall i :: 0 <= i < |layers| ==> r[i + 2] == layers[i].material
    {
      [leftMaterial, rightMaterial] + LayerMaterials(layers)
    }
  }
}
