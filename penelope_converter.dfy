/**
 * The PENELOPE converter: it turns base options into options PENELOPE can
 * run, replacing a pencil beam by a Gaussian beam of zero diameter and every
 * material, body and layer of the geometry by its PENELOPE counterpart.
 */
module PenelopeConverter {
  import opened Wrappers
  import opened Elements
  import opened Composition
  import Material
  import PenelopeMaterial
  import PenelopeBody

  datatype ModelType =
    | ElasticCrossSection
    | InelasticCrossSection
    | IonizationCrossSection
    | BremsstrahlungEmission
    | PhotonScatteringCrossSection
    | MassAbsorptionCoefficient

  datatype Model =
    | Elsepa2005
    | SternheimerLiljequist1952
    | BoteSalvat2008
    | SeltzerBerger1985
    | Brusa1996
    | Llnl1989

  /** The models PENELOPE supports, per model type. */
  const MODELS: map<ModelType, seq<Model>> :=
    map[ElasticCrossSection := [Elsepa2005],
        InelasticCrossSection := [SternheimerLiljequist1952],
        IonizationCrossSection := [BoteSalvat2008],
        BremsstrahlungEmission := [SeltzerBerger1985],
        PhotonScatteringCrossSection := [Brusa1996],
        MassAbsorptionCoefficient := [Llnl1989]]

  /** The model used for a type the options leave unset. */
  const DEFAULT_MODELS: map<ModelType, Model> :=
    map[ElasticCrossSection := Elsepa2005,
        InelasticCrossSection := SternheimerLiljequist1952,
        IonizationCrossSection := BoteSalvat2008,
        BremsstrahlungEmission := SeltzerBerger1985,
        PhotonScatteringCrossSection := Brusa1996,
        MassAbsorptionCoefficient := Llnl1989]

  /** Every model type has a default, and each default is one of the supported models of its type. */
  lemma DefaultModelsSupported()
    ensures DEFAULT_MODELS.Keys == MODELS.Keys
    ensures forall t :: t in DEFAULT_MODELS ==> DEFAULT_MODELS[t] in MODELS[t]
  {
  }

  type Vector = (real, real, real)

  datatype Beam =
    | PencilBeam(energy: real, origin: Vector, direction: Vector, aperture: real)
    | GaussianBeam(energy: real, diameter: real, origin: Vector, direction: Vector, aperture: real)

  const PENCIL_BEAM_WARNING: string := "Pencil beam converted to Gaussian beam with 0 m diameter"

  /** The options the conversion rewrites in place. */
  class Options {
    var beam: Beam

    constructor Init(beam: Beam)
      ensures this.beam == beam
    {
      this.beam := beam;
    }
  }

  /** A body and a layer of the base geometry, by their material. */
  datatype BaseBody = BaseBody(material: Material.Material)
  datatype BaseLayer = BaseLayer(material: Material.Material, thickness: real)

  /** The base geometries; a multi-layers sample without substrate has `substrateBody == None`. */
  datatype Geometry =
    | Substrate(body: BaseBody)
    | Inclusion(substrate: BaseBody, inclusion: BaseBody)
    | MultiLayers(substrateBody: Option<BaseBody>, layers: seq<BaseLayer>)
    | GrainBoundaries(left: BaseBody, right: BaseBody, layers: seq<BaseLayer>)
    | Unsupported

  /** The same geometries over PENELOPE bodies and layers. */
  datatype PenelopeGeometry =
    | PenelopeSubstrate(body: PenelopeBody.Body)
    | PenelopeInclusion(substrate: PenelopeBody.Body, inclusion: PenelopeBody.Body)
    | PenelopeMultiLayers(substrateBody: Option<PenelopeBody.Body>, layers: seq<PenelopeBody.Layer>)
    | PenelopeGrainBoundaries(left: PenelopeBody.Body, right: PenelopeBody.Body, layers: seq<PenelopeBody.Layer>)

  function LayerMaterials(layers: seq<BaseLayer>): (s: set<Material.Material>)
    ensures forall i :: 0 <= i < |layers| ==> layers[i].material in s
    ensures forall m :: m in s ==> exists i :: 0 <= i < |layers| && layers[i].material == m
  {
    set i | 0 <= i < |layers| :: layers[i].material
  }

  /** `get_materials`: the materials of every body and layer of the geometry. */
  function MaterialsOf(g: Geometry): set<Material.Material>
  {
    match g
    case Substrate(b) => {b.material}
    case Inclusion(s, i) => {s.material, i.material}
    case MultiLayers(s, layers) => (if s.Some? then {s.value.material} else {}) + LayerMaterials(layers)
    case GrainBoundaries(l, r, layers) => {l.material, r.material} + LayerMaterials(layers)
    case Unsupported => {}
  }

  /** A computed composition handed back to a material constructor: every fraction given. */
  function AsGiven(c: Entries): (r: Material.Given)
    ensures |r| == |c|
    ensures forall i :: 0 <= i < |c| ==> r[i] == (c[i].0, Material.Given(c[i].1))
  {
    seq(|c|, i requires 0 <= i < |c| => (c[i].0, Material.Given(c[i].1)))
  }

  /**
   * A composition whose items are all valid and whose total does not exceed 1
   * beyond the tolerance is accepted back unchanged; one holding a zero
   * fraction, which a wildcard completed to 0 produces, is rejected.
   */
  lemma RecalculatedComposition(c: Entries)
    ensures Material.AllValid(AsGiven(c)) && Sum(c) - 1.0 <= Material.TOTAL_TOLERANCE
            ==> Material.CalculatedComposition(AsGiven(c)) == Ok(c)
    ensures (exists i :: 0 <= i < |c| && c[i].1 == 0.0) ==> Material.CalculatedComposition(AsGiven(c)) == Err(ValueError)
  {
    var g := AsGiven(c);
    forall w: real
      ensures Material.Completed(g, w) == c
    {
      assert forall i :: 0 <= i < |c| ==> Material.Completed(g, w)[i] == c[i];
    }
    if exists i :: 0 <= i < |c| && c[i].1 == 0.0 {
      var i :| 0 <= i < |c| && c[i].1 == 0.0;
      assert !Material.ValidItem(g[i]);
    }
  }

  /** What the converter gives every non-vacuum material. */
  datatype Defaults = Defaults(elasticScattering: PenelopeMaterial.Coefficients, cutoffInelastic: real, cutoffBremsstrahlung: real)

  /** The constructor's keyword defaults: scattering (0, 0) and 50 eV cutoffs. */
  const DEFAULT_DEFAULTS: Defaults := Defaults(PenelopeMaterial.Pair(0.0, 0.0), 50.0, 50.0)

  class Converter {
    const defaults: Defaults
    const vacuum: Material.Material                          // the base VACUUM
    const penelopeVacuum: PenelopeMaterial.PenelopeMaterial  // the PENELOPE VACUUM
    const table: Table
    var warnings: seq<string>

    /** `Converter(elastic_scattering, cutoff_energy_inelastic, cutoff_energy_bremsstrahlung)`. */
    constructor Init(vacuum: Material.Material, penelopeVacuum: PenelopeMaterial.PenelopeMaterial, table: Table,
                     defaults: Defaults := DEFAULT_DEFAULTS)
      ensures this.defaults == defaults && this.vacuum == vacuum && this.penelopeVacuum == penelopeVacuum && this.table == table
      ensures warnings == []
    {
      this.defaults := defaults;
      this.vacuum := vacuum;
      this.penelopeVacuum := penelopeVacuum;
      this.table := table;
      warnings := [];
    }

    /**
     * `_convert_beam`: the base conversion's outcome is given. A
     * ConversionException on a pencil beam is answered by a Gaussian beam
     * of diameter 0 and a warning; any other failure is raised again.
     */
    method ConvertBeam(options: Options, baseOutcome: Result<()>) returns (r: Result<()>)
      modifies options, this`warnings
      ensures r.Err? <==> baseOutcome.Err? && (baseOutcome.error != ConversionException || !old(options.beam).PencilBeam?)
      ensures r.Err? ==> r == baseOutcome
      ensures var b := old(options.beam);
              if baseOutcome.Err? && baseOutcome.error == ConversionException && b.PencilBeam? then
                options.beam == GaussianBeam(b.energy, 0.0, b.origin, b.direction, b.aperture)
                && warnings == old(warnings) + [PENCIL_BEAM_WARNING]
              else
                options.beam == b && warnings == old(warnings)
    {
      if baseOutcome.Ok? {
        return Ok(());
      }
      if baseOutcome.error == ConversionException && options.beam.PencilBeam? {
        var b := options.beam;
        options.beam := GaussianBeam(b.energy, 0.0, b.origin, b.direction, b.aperture);
        warnings := warnings + [PENCIL_BEAM_WARNING];
        return Ok(());
      }
      r := baseOutcome;
    }

    /** The PENELOPE material constructor rejects what the converter would make of `orig`. */
    predicate CreationFails(orig: Material.Material)
      reads this, orig
    {
      orig != vacuum
      && (Material.CalculatedComposition(AsGiven(orig.composition)).Err?
          || orig.absorptionEnergyElectron < 0.0 || orig.absorptionEnergyPhoton < 0.0
          || PenelopeMaterial.ElasticScattering(defaults.elasticScattering).Err?
          || defaults.cutoffInelastic < 0.0 || defaults.cutoffBremsstrahlung < 0.0)
    }

    /**
     * `m` is what `_create_penelope_material` makes of `orig`: the PENELOPE
     * vacuum for the vacuum, otherwise a material with the same name,
     * composition, density and absorption energies and the converter's
     * scattering coefficients and cutoff energies.
     */
    ghost predicate ConvertedFrom(orig: Material.Material, m: PenelopeMaterial.PenelopeMaterial)
      requires !CreationFails(orig)
      reads this, orig, m, m.base
    {
      if orig == vacuum then m == penelopeVacuum
      else
        m.base.name == orig.name && m.base.composition == Material.CalculatedComposition(AsGiven(orig.composition)).value
        && m.base.density == Some(orig.Density(table))
        && m.base.absorptionEnergyElectron == orig.absorptionEnergyElectron
        && m.base.absorptionEnergyPhoton == orig.absorptionEnergyPhoton
        && m.elasticScattering == PenelopeMaterial.Unpack(defaults.elasticScattering)
        && m.cutoffEnergyInelastic == defaults.cutoffInelastic
        && m.cutoffEnergyBremsstrahlung == defaults.cutoffBremsstrahlung
    }

    /** `_create_penelope_material`. */
    method CreatePenelopeMaterial(orig: Material.Material) returns (r: Result<PenelopeMaterial.PenelopeMaterial>)
      ensures r.Err? <==> CreationFails(orig)
      ensures r.Err? ==> r.error == ValueError
      ensures r.Ok? ==> ConvertedFrom(orig, r.value)
      ensures r.Ok? && orig != vacuum ==> fresh(r.value)
    {
      if orig == vacuum {
        return Ok(penelopeVacuum);
      }
      r := PenelopeMaterial.PenelopeMaterial.Create(orig.name, AsGiven(orig.composition), Some(orig.Density(table)),
                                                    orig.absorptionEnergyElectron, orig.absorptionEnergyPhoton,
                                                    defaults.elasticScattering, defaults.cutoffInelastic, defaults.cutoffBremsstrahlung);
    }

    /** The lookup holds what `_create_penelope_material` makes of each of its keys. */
    ghost predicate LookupConverts(lookup: map<Material.Material, PenelopeMaterial.PenelopeMaterial>)
      reads this, lookup.Keys, lookup.Values, set m | m in lookup.Values :: m.base
    {
      forall o :: o in lookup ==> !CreationFails(o) && ConvertedFrom(o, lookup[o])
    }

    /**
     * `_create_penelope_materials`: one converted material per distinct
     * original material; the first rejected material stops the conversion.
     */
    method CreatePenelopeMaterials(origs: set<Material.Material>) returns (r: Result<map<Material.Material, PenelopeMaterial.PenelopeMaterial>>)
      ensures r.Err? <==> exists o :: o in origs && CreationFails(o)
      ensures r.Err? ==> r.error == ValueError
      ensures r.Ok? ==> r.value.Keys == origs && LookupConverts(r.value)
      ensures r.Ok? ==> forall a, b :: a in origs && b in origs && a != b && a != vacuum ==> r.value[a] != r.value[b]
    {
      var lookup: map<Material.Material, PenelopeMaterial.PenelopeMaterial> := map[];
      var rest := origs;
      while rest != {}
        invariant rest <= origs && lookup.Keys == origs - rest
        invariant LookupConverts(lookup)
        invariant forall o :: o in lookup && o != vacuum ==> fresh(lookup[o])
        invariant forall a, b :: a in lookup && b in lookup && a != b && a != vacuum ==> lookup[a] != lookup[b]
        decreases rest
      {
        var o :| o in rest;
        var m := CreatePenelopeMaterial(o);
        if m.Err? {
          return Err(m.error);
        }
        lookup := lookup[o := m.value];
        rest := rest - {o};
      }
      r := Ok(lookup);
    }

    /** `b` is the PENELOPE body made for `orig`: its converted material, no forcing and the default step. */
    ghost predicate BodyFrom(orig: BaseBody, b: PenelopeBody.Body)
      requires !CreationFails(orig.material)
      reads this, orig.material, b, b.material, b.material.base
    {
      ConvertedFrom(orig.material, b.material) && b.Valid()
      && b.interactionForcings == {} && b.maximumStepLength == PenelopeBody.MAX_STEP_LENGTH
    }

    /** `l` is the PENELOPE layer made for `orig`: same thickness, converted material, step thickness / 10. */
    ghost predicate LayerFrom(orig: BaseLayer, l: PenelopeBody.Layer)
      requires !CreationFails(orig.material)
      reads this, orig.material, l, l.body, l.body.material, l.body.material.base
    {
      ConvertedFrom(orig.material, l.body.material) && l.Valid() && l.thickness == orig.thickness
      && l.body.interactionForcings == {} && l.body.maximumStepLength == orig.thickness / 10.0
    }

    /** `_create_penelope_body`. */
    method CreatePenelopeBody(orig: BaseBody, lookup: map<Material.Material, PenelopeMaterial.PenelopeMaterial>) returns (b: PenelopeBody.Body)
      requires orig.material in lookup && LookupConverts(lookup)
      ensures fresh(b) && BodyFrom(orig, b)
    {
      var created := PenelopeBody.Body.Create(lookup[orig.material], None);
      b := created.value;
    }

    /** `_create_penelope_layers`: one layer per layer, in order, with a step of a tenth of its thickness. */
    method CreatePenelopeLayers(layers: seq<BaseLayer>, lookup: map<Material.Material, PenelopeMaterial.PenelopeMaterial>)
      returns (r: Result<seq<PenelopeBody.Layer>>)
      requires forall i :: 0 <= i < |layers| ==> layers[i].material in lookup
      requires LookupConverts(lookup)
      ensures r.Err? <==> !StepsFit(layers)
      ensures r.Err? ==> r.error == ValueError
      ensures r.Ok? ==> |r.value| == |layers| && forall i :: 0 <= i < |layers| ==> fresh(r.value[i]) && LayerFrom(layers[i], r.value[i])
    {
      var news: seq<PenelopeBody.Layer> := [];
      var i := 0;
      while i < |layers|
        invariant 0 <= i <= |layers| && |news| == i
        invariant forall k :: 0 <= k < i ==> PenelopeBody.InStepRange(layers[k].thickness / 10.0)
        invariant forall k :: 0 <= k < i ==> fresh(news[k]) && LayerFrom(layers[k], news[k])
      {
        var l := PenelopeBody.Layer.Create(lookup[layers[i].material], layers[i].thickness, Some(layers[i].thickness / 10.0));
        if l.Err? {
          return Err(l.error);
        }
        news := news + [l.value];
        i := i + 1;
      }
      r := Ok(news);
    }

    /** The inclusion branch of `_convert_geometry`: both bodies converted. */
    method ConvertInclusion(substrate: BaseBody, inclusion: BaseBody,
                            lookup: map<Material.Material, PenelopeMaterial.PenelopeMaterial>) returns (r: Result<PenelopeGeometry>)
      requires substrate.material in lookup && inclusion.material in lookup
      requires LookupConverts(lookup)
      ensures r.Ok? && r.value.PenelopeInclusion?
      ensures BodyFrom(substrate, r.value.substrate) && BodyFrom(inclusion, r.value.inclusion)
    {
      var s := CreatePenelopeBody(substrate, lookup);
      var i := CreatePenelopeBody(inclusion, lookup);
      r := Ok(PenelopeInclusion(s, i));
    }

    /** The multi-layers branch of `_convert_geometry`. */
    method ConvertMultiLayers(substrate: Option<BaseBody>, layers: seq<BaseLayer>,
                              lookup: map<Material.Material, PenelopeMaterial.PenelopeMaterial>) returns (r: Result<PenelopeGeometry>)
      requires substrate.Some? ==> substrate.value.material in lookup
      requires forall i :: 0 <= i < |layers| ==> layers[i].material in lookup
      requires LookupConverts(lookup)
      ensures r.Err? <==> !StepsFit(layers)
      ensures r.Err? ==> r.error == ValueError
      ensures r.Ok? ==> r.value.PenelopeMultiLayers?
                        && (r.value.substrateBody.Some? <==> substrate.Some?)
                        && (substrate.Some? ==> BodyFrom(substrate.value, r.value.substrateBody.value))
                        && |r.value.layers| == |layers|
                        && forall i :: 0 <= i < |layers| ==> LayerFrom(layers[i], r.value.layers[i])
    {
      var s: Option<PenelopeBody.Body> := None;
      if substrate.Some? {
        var b := CreatePenelopeBody(substrate.value, lookup);
        s := Some(b);
      }
      var news := CreatePenelopeLayers(layers, lookup);
      if news.Err? {
        return Err(news.error);
      }
      r := Ok(PenelopeMultiLayers(s, news.value));
    }

    /** The grain-boundaries branch of `_convert_geometry`. */
    method ConvertGrainBoundaries(left: BaseBody, right: BaseBody, layers: seq<BaseLayer>,
                                  lookup: map<Material.Material, PenelopeMaterial.PenelopeMaterial>) returns (r: Result<PenelopeGeometry>)
      requires left.material in lookup && right.material in lookup
      requires forall i :: 0 <= i < |layers| ==> layers[i].material in lookup
      requires LookupConverts(lookup)
      ensures r.Err? <==> !StepsFit(layers)
      ensures r.Err? ==> r.error == ValueError
      ensures r.Ok? ==> r.value.PenelopeGrainBoundaries?
                        && BodyFrom(left, r.value.left) && BodyFrom(right, r.value.right)
                        && |r.value.layers| == |layers|
                        && forall i :: 0 <= i < |layers| ==> LayerFrom(layers[i], r.value.layers[i])
    {
      var lb := CreatePenelopeBody(left, lookup);
      var rb := CreatePenelopeBody(right, lookup);
      var news := CreatePenelopeLayers(layers, lookup);
      if news.Err? {
        return Err(news.error);
      }
      r := Ok(PenelopeGrainBoundaries(lb, rb, news.value));
    }

    /** Every layer gets a step, a tenth of its thickness, within [0, 1e20]. */
    predicate StepsFit(layers: seq<BaseLayer>)
    {
      forall i :: 0 <= i < |layers| ==> PenelopeBody.InStepRange(layers[i].thickness / 10.0)
    }

    /** Every layer of the geometry gets a step within [0, 1e20]. */
    predicate LayersFit(g: Geometry)
    {
      (g.MultiLayers? || g.GrainBoundaries?) ==> StepsFit(g.layers)
    }

    /** The isinstance dispatch of `_convert_geometry`, over a lookup holding every material of the geometry. */
    method DispatchGeometry(g: Geometry, lookup: map<Material.Material, PenelopeMaterial.PenelopeMaterial>) returns (r: Result<PenelopeGeometry>)
      requires lookup.Keys == MaterialsOf(g) && LookupConverts(lookup)
      ensures r.Ok? <==> !g.Unsupported? && LayersFit(g)
      ensures r.Err? ==> r.error == if g.Unsupported? then ConversionException else ValueError
      ensures r.Ok? && g.Substrate? ==> r.value.PenelopeSubstrate? && BodyFrom(g.body, r.value.body)
      ensures r.Ok? && g.Inclusion? ==> r.value.PenelopeInclusion?
                                        && BodyFrom(g.substrate, r.value.substrate) && BodyFrom(g.inclusion, r.value.inclusion)
      ensures r.Ok? && g.MultiLayers? ==> r.value.PenelopeMultiLayers?
                                          && (r.value.substrateBody.Some? <==> g.substrateBody.Some?)
                                          && (g.substrateBody.Some? ==> BodyFrom(g.substrateBody.value, r.value.substrateBody.value))
                                          && |r.value.layers| == |g.layers|
                                          && forall i :: 0 <= i < |g.layers| ==> LayerFrom(g.layers[i], r.value.layers[i])
      ensures r.Ok? && g.GrainBoundaries? ==> r.value.PenelopeGrainBoundaries?
                                              && BodyFrom(g.left, r.value.left) && BodyFrom(g.right, r.value.right)
                                              && |r.value.layers| == |g.layers|
                                              && forall i :: 0 <= i < |g.layers| ==> LayerFrom(g.layers[i], r.value.layers[i])
    {
      match g {
        case Substrate(body) =>
          var b := CreatePenelopeBody(body, lookup);
          r := Ok(PenelopeSubstrate(b));
        case Inclusion(substrate, inclusion) =>
          r := ConvertInclusion(substrate, inclusion, lookup);
        case MultiLayers(substrate, layers) =>
          r := ConvertMultiLayers(substrate, layers, lookup);
        case GrainBoundaries(left, right, layers) =>
          r := ConvertGrainBoundaries(left, right, layers, lookup);
        case Unsupported =>
          r := Err(ConversionException);
      }
    }

    /**
     * `_convert_geometry`: after the base conversion (whose outcome is
     * given) and the material lookup, every body and layer of a supported
     * geometry is replaced by its PENELOPE counterpart; the substrate of a
     * multi-layers sample only when it has one.
     */
    method ConvertGeometry(g: Geometry, baseOutcome: Result<()>) returns (r: Result<PenelopeGeometry>)
      ensures baseOutcome.Err? ==> r == Err(baseOutcome.error)
      ensures baseOutcome.Ok? && (exists o :: o in MaterialsOf(g) && CreationFails(o)) ==> r == Err(ValueError)
      ensures baseOutcome.Ok? && g.Unsupported? ==> r == Err(ConversionException)
      ensures r.Ok? <==> baseOutcome.Ok? && !g.Unsupported? && LayersFit(g)
                         && forall o :: o in MaterialsOf(g) ==> !CreationFails(o)
      ensures r.Ok? && g.Substrate? ==> r.value.PenelopeSubstrate? && BodyFrom(g.body, r.value.body)
      ensures r.Ok? && g.Inclusion? ==> r.value.PenelopeInclusion?
                                        && BodyFrom(g.substrate, r.value.substrate) && BodyFrom(g.inclusion, r.value.inclusion)
      ensures r.Ok? && g.MultiLayers? ==> r.value.PenelopeMultiLayers?
                                          && (r.value.substrateBody.Some? <==> g.substrateBody.Some?)
                                          && (g.substrateBody.Some? ==> BodyFrom(g.substrateBody.value, r.value.substrateBody.value))
                                          && |r.value.layers| == |g.layers|
                                          && forall i :: 0 <= i < |g.layers| ==> LayerFrom(g.layers[i], r.value.layers[i])
      ensures r.Ok? && g.GrainBoundaries? ==> r.value.PenelopeGrainBoundaries?
                                              && BodyFrom(g.left, r.value.left) && BodyFrom(g.right, r.value.right)
                                              && |r.value.layers| == |g.layers|
                                              && forall i :: 0 <= i < |g.layers| ==> LayerFrom(g.layers[i], r.value.layers[i])
    {
      if baseOutcome.Err? {
        return Err(baseOutcome.error);
      }
      var looked := CreatePenelopeMaterials(MaterialsOf(g));
      if looked.Err? {
        return Err(looked.error);
      }
      r := DispatchGeometry(g, looked.value);
    }
  }
}
