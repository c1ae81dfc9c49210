/**
 * The vertical layers sample: layers in the y-z plane between a left and a
 * right material, down to a depth that is unbounded by default.
 */
module VerticalLayers {
  import opened Wrappers
  import opened PyMath
  import opened PySet
  import opened OptionsMaterial
  import opened SampleBase
  import Sample

  datatype VerticalLayerSample = VerticalLayerSample(
    leftMaterial: Material, rightMaterial: Material, layers: seq<Layer>,
    depthM: ExtReal, tiltRad: real, rotationRad: real)
  {
    function State(): LayeredState
    {
      LayeredState(layers, Orientation(tiltRad, rotationRad))
    }
  }

  /** The constructor: no layers given means none, no depth given means an infinite one. */
  function Create(leftMaterial: Material, rightMaterial: Material, layers: Option<seq<Layer>>,
                  depthM: Option<real>, tiltRad: real, rotationRad: real): (r: VerticalLayerSample)
    ensures r.leftMaterial == leftMaterial && r.rightMaterial == rightMaterial
    ensures layers.None? ==> r.layers == []
    ensures layers.Some? ==> r.layers == layers.value
    ensures depthM.None? ==> r.depthM == PosInf
    ensures depthM.Some? ==> r.depthM == Finite(depthM.value)
  {
    VerticalLayerSample(leftMaterial, rightMaterial, layers.GetOr([]),
      if depthM.None? then PosInf else Finite(depthM.value), tiltRad, rotationRad)
  }

  /**
   * `__eq__`: layered-sample equality, the same left and right materials and
   * an identical depth.
   */
  predicate Equal(a: VerticalLayerSample, b: VerticalLayerSample, baseEqual: bool)
  {
    LayeredEqual(a.State(), b.State(), baseEqual)
    && a.leftMaterial == b.leftMaterial && a.rightMaterial == b.rightMaterial
    && a.depthM == b.depthM
  }

  /** A sample equals itself; a finite and an infinite depth make samples different. */
  lemma EqualProperties(a: VerticalLayerSample, b: VerticalLayerSample, baseEqual: bool)
    ensures Equal(a, a, true)
    ensures a.depthM.PosInf? != b.depthM.PosInf? ==> !Equal(a, b, baseEqual)
    ensures a.leftMaterial != b.leftMaterial || a.rightMaterial != b.rightMaterial ==> !Equal(a, b, baseEqual)
  {
    LayeredEqualProperties(a.State(), b.State(), baseEqual);
    SampleEqualWithinTolerance(a.State().orientation, a.State().orientation, true);
  }

  /**
   * `materials`: the clean-up of left, right and the layered materials, so
   * it holds no VACUUM and no repeats.
   */
  function Materials(s: VerticalLayerSample): (r: seq<Material>)
    ensures Distinct(r) && Vacuum !in r
    ensures s.leftMaterial != Vacuum ==> s.leftMaterial in r
    ensures s.rightMaterial != Vacuum ==> s.rightMaterial in r
  {
    var all := [s.leftMaterial, s.rightMaterial] + LayeredMaterials(s.layers);
    assert all[0] == s.leftMaterial && all[1] == s.rightMaterial;
    CleanupMaterials(all)
  }

  /**
   * The materials are exactly the sample's non-vacuum materials: left,
   * right and those of the layers.
   */
  lemma MaterialsCoverSample(s: VerticalLayerSample)
    ensures forall i :: 0 <= i < |s.layers| && s.layers[i].material != Vacuum ==> s.layers[i].material in Materials(s)
    ensures forall m :: m in Materials(s) ==>
      m == s.leftMaterial || m == s.rightMaterial || m in Sample.LayerMaterials(s.layers)
  {
    var inner := LayeredMaterials(s.layers);
    var all := [s.leftMaterial, s.rightMaterial] + inner;
    var r := Materials(s);
    assert r == CleanupMaterials(all);
    forall i | 0 <= i < |s.layers| && s.layers[i].material != Vacuum
      ensures s.layers[i].material in r
    {
      assert s.layers[i].material in inner;
      var k :| 0 <= k < |inner| && inner[k] == s.layers[i].material;
      assert all[k + 2] == s.layers[i].material;
    }
    forall m | m in r
      ensures m == s.leftMaterial || m == s.rightMaterial || m in Sample.LayerMaterials(s.layers)
    {
      var k :| 0 <= k < |all| && all[k] == m;
      if k >= 2 {
        assert inner[k - 2] == m;
      }
    }
  }
}
