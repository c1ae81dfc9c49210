/**
 * PENELOPE bodies and layers: a material, a set of interaction forcings and
 * the maximum step length of an electron trajectory in the body (in
 * metres), with their XML element.
 */
module PenelopeBody {
  import opened Wrappers
  import PenelopeMaterial

  /**
   * An interaction forcing, carried as its own XML child element; the
   * fields of a forcing (interactionforcing.py) are not part of this model.
   */
  datatype InteractionForcing = InteractionForcing(element: string)

  /** The largest maximum step length accepted, 1e20 m, which is also the default. */
  const MAX_STEP_LENGTH: real := 100000000000000000000.0

  predicate InStepRange(length: real)
  {
    0.0 <= length <= MAX_STEP_LENGTH
  }

  /** The PENELOPE-specific part of a body element: the `maximumStepLength` attribute and the `interactionForcings` child. */
  datatype BodyElement = BodyElement(maximumStepLength: Option<real>, interactionForcings: Option<seq<InteractionForcing>>)

  /** What a body holds besides its material. */
  datatype BodyState = BodyState(maximumStepLength: real, interactionForcings: set<InteractionForcing>)

  function ForcingSet(children: seq<InteractionForcing>): (s: set<InteractionForcing>)
    ensures forall f :: f in s <==> f in children
  {
    set f | f in children
  }

  /**
   * `Body.__loadxml__`: a missing `maximumStepLength` attribute or a missing
   * `interactionForcings` child is a TypeError, a step outside [0, 1e20] a
   * ValueError from the constructor; otherwise every child is added to the
   * forcing set.
   */
  function LoadBody(e: BodyElement): (r: Result<BodyState>)
    ensures r.Ok? <==> e.maximumStepLength.Some? && InStepRange(e.maximumStepLength.value) && e.interactionForcings.Some?
    ensures r.Err? ==> r.error == (if e.maximumStepLength.Some? && !InStepRange(e.maximumStepLength.value) then ValueError else TypeError)
    ensures r.Ok? ==> r.value.maximumStepLength == e.maximumStepLength.value
                      && forall f :: f in r.value.interactionForcings <==> f in e.interactionForcings.value
  {
    if e.maximumStepLength.None? then Err(TypeError)
    else if !InStepRange(e.maximumStepLength.value) then Err(ValueError)
    else if e.interactionForcings.None? then Err(TypeError)
    else Ok(BodyState(e.maximumStepLength.value, ForcingSet(e.interactionForcings.value)))
  }

  class Body {
    var material: PenelopeMaterial.PenelopeMaterial
    var interactionForcings: set<InteractionForcing>
    var maximumStepLength: real

    ghost predicate Valid()
      reads this
    {
      InStepRange(maximumStepLength)
    }

    function State(): BodyState
      reads this
    {
      BodyState(maximumStepLength, interactionForcings)
    }

    constructor Init(material: PenelopeMaterial.PenelopeMaterial, length: real)
      requires InStepRange(length)
      ensures Valid() && this.material == material
      ensures interactionForcings == {} && maximumStepLength == length
    {
      this.material := material;
      interactionForcings := {};
      maximumStepLength := length;
    }

    /** `Body(material, maximum_step_length)`: no forcing, the step defaults to 1e20 and must lie in [0, 1e20]. */
    static method Create(material: PenelopeMaterial.PenelopeMaterial, length: Option<real>) returns (r: Result<Body>)
      ensures r.Err? <==> !InStepRange(length.GetOr(MAX_STEP_LENGTH))
      ensures r.Err? ==> r.error == ValueError
      ensures r.Ok? ==> fresh(r.value) && r.value.Valid() && r.value.material == material
                        && r.value.interactionForcings == {} && r.value.maximumStepLength == length.GetOr(MAX_STEP_LENGTH)
    {
      var l := length.GetOr(MAX_STEP_LENGTH);
      if l < 0.0 || l > MAX_STEP_LENGTH {
        return Err(ValueError);
      }
      var b := new Body.Init(material, l);
      r := Ok(b);
    }

    /** The `maximum_step_length` setter: ValueError outside [0, 1e20], leaving the step unchanged. */
    method SetMaximumStepLength(length: real) returns (r: Result<()>)
      requires Valid()
      modifies this`maximumStepLength
      ensures Valid()
      ensures r.Err? <==> !InStepRange(length)
      ensures maximumStepLength == if InStepRange(length) then length else old(maximumStepLength)
    {
      if length < 0.0 || length > MAX_STEP_LENGTH {
        return Err(ValueError);
      }
      maximumStepLength := length;
      r := Ok(());
    }

    /** `interaction_forcings.add`: set insertion. */
    method AddInteractionForcing(f: InteractionForcing)
      modifies this`interactionForcings
      ensures interactionForcings == old(interactionForcings) + {f}
    {
      interactionForcings := interactionForcings + {f};
    }

    /** `__savexml__`: the step as attribute and one child per forcing, in the set's iteration order. */
    method SaveXml() returns (e: BodyElement)
      ensures e.maximumStepLength == Some(maximumStepLength)
      ensures e.interactionForcings.Some?
      ensures ForcingSet(e.interactionForcings.value) == interactionForcings
      ensures |e.interactionForcings.value| == |interactionForcings|
    {
      var children: seq<InteractionForcing> := [];
      var rest := interactionForcings;
      while rest != {}
        invariant rest <= interactionForcings
        invariant ForcingSet(children) + rest == interactionForcings
        invariant |children| + |rest| == |interactionForcings|
        decreases rest
      {
        var f :| f in rest;
        children := children + [f];
        rest := rest - {f};
      }
      e := BodyElement(Some(maximumStepLength), Some(children));
    }

    /** `__loadxml__`: a new body over `material` holding exactly what LoadBody reads from the element. */
    static method LoadXml(material: PenelopeMaterial.PenelopeMaterial, e: BodyElement) returns (r: Result<Body>)
      ensures r.Err? <==> LoadBody(e).Err?
      ensures r.Err? ==> r.error == LoadBody(e).error
      ensures r.Ok? ==> fresh(r.value) && r.value.Valid() && r.value.material == material
                        && r.value.State() == LoadBody(e).value
    {
      if e.maximumStepLength.None? {
        return Err(TypeError);
      }
      var created := Create(material, e.maximumStepLength);
      if created.Err? {
        return Err(created.error);
      }
      if e.interactionForcings.None? {
        return Err(TypeError);
      }
      var b := created.value;
      var children := e.interactionForcings.value;
      var i := 0;
      while i < |children|
        invariant 0 <= i <= |children|
        invariant b.Valid() && b.material == material && b.maximumStepLength == e.maximumStepLength.value
        invariant b.interactionForcings == ForcingSet(children[..i])
      {
        b.AddInteractionForcing(children[i]);
        assert children[..i + 1] == children[..i] + [children[i]];
        i := i + 1;
      }
      assert children[..i] == children;
      r := Ok(b);
    }
  }

  /** Loading what was saved gives back the step and the forcing set of every body. */
  lemma XmlRoundTrip(s: BodyState, e: BodyElement)
    requires InStepRange(s.maximumStepLength)
    requires e.maximumStepLength == Some(s.maximumStepLength) && e.interactionForcings.Some?
    requires ForcingSet(e.interactionForcings.value) == s.interactionForcings
    ensures LoadBody(e) == Ok(s)
  {
  }

  /** The step of a new layer: the given one, or a tenth of the thickness. */
  function LayerStep(thickness: real, length: Option<real>): real
  {
    if length.None? then thickness / 10.0 else length.value
  }

  /** A PENELOPE layer: a body with a thickness (in metres). */
  class Layer {
    const body: Body
    var thickness: real

    ghost predicate Valid()
      reads this, body
    {
      body.Valid()
    }

    constructor Init(body: Body, thickness: real)
      requires body.Valid()
      ensures Valid() && this.body == body && this.thickness == thickness
    {
      this.body := body;
      this.thickness := thickness;
    }

    /**
     * `Layer(material, thickness, maximum_step_length)`: the step defaults
     * to thickness / 10 and is then checked like any body's.
     */
    static method Create(material: PenelopeMaterial.PenelopeMaterial, thickness: real, length: Option<real>) returns (r: Result<Layer>)
      ensures r.Err? <==> !InStepRange(LayerStep(thickness, length))
      ensures r.Err? ==> r.error == ValueError
      ensures r.Ok? ==> fresh(r.value) && fresh(r.value.body) && r.value.Valid()
                        && r.value.thickness == thickness && r.value.body.material == material
                        && r.value.body.interactionForcings == {}
                        && r.value.body.maximumStepLength == LayerStep(thickness, length)
    {
      var b := Body.Create(material, Some(LayerStep(thickness, length)));
      if b.Err? {
        return Err(b.error);
      }
      var l := new Layer.Init(b.value, thickness);
      r := Ok(l);
    }

    /**
     * `Layer.__loadxml__` with the forcings kept: the step and the forcing
     * set come back as LoadBody reads them.
     */
    static method LoadXml(material: PenelopeMaterial.PenelopeMaterial, e: LayerElement) returns (r: Result<Layer>)
      ensures r == Err(ValueError) || r == Err(TypeError) || r.Ok?
      ensures r.Err? <==> LoadLayer(e).Err?
      ensures r.Ok? ==> fresh(r.value) && r.value.Valid() && r.value.thickness == e.thickness
                        && r.value.body.material == material && LoadLayer(e) == Ok(LayerState(e.thickness, r.value.body.State()))
    {
      var b := Body.LoadXml(material, e.body);
      if b.Err? {
        return Err(b.error);
      }
      var l := new Layer.Init(b.value, e.thickness);
      r := Ok(l);
    }
  }

  /** A layer element: the body part and the thickness read by the base layer. */
  datatype LayerElement = LayerElement(body: BodyElement, thickness: real)

  datatype LayerState = LayerState(thickness: real, body: BodyState)

  /**
   * `Layer.__loadxml__` as written: the body part is read, but only its step
   * is passed to the constructor, so the layer starts with no forcing.
   */
  function LoadLayerAsWritten(e: LayerElement): (r: Result<LayerState>)
    ensures r.Ok? <==> LoadBody(e.body).Ok?
    ensures r.Ok? ==> r.value.body.interactionForcings == {}
  {
    var body :- LoadBody(e.body);
    Ok(LayerState(e.thickness, BodyState(body.maximumStepLength, {})))
  }

  /** A layer saved with one forcing comes back without it from the load as written. */
  lemma LayerLoadDropsForcings(f: InteractionForcing)
    ensures var e := LayerElement(BodyElement(Some(1.0), Some([f])), 1.0);
            LoadLayerAsWritten(e).Ok? && f !in LoadLayerAsWritten(e).value.body.interactionForcings
            && LoadBody(e.body).Ok? && f in LoadBody(e.body).value.interactionForcings
  {
    var e := LayerElement(BodyElement(Some(1.0), Some([f])), 1.0);
    assert f in e.body.interactionForcings.value;
  }

  /** `Layer.__loadxml__` keeping the forcings read from the element, as `Body.__loadxml__` does. */
  function LoadLayer(e: LayerElement): (r: Result<LayerState>)
    ensures r.Ok? <==> LoadBody(e.body).Ok?
    ensures r.Ok? ==> r.value.thickness == e.thickness && r.value.body == LoadBody(e.body).value
  {
    var body :- LoadBody(e.body);
    Ok(LayerState(e.thickness, body))
  }

  /** Saving a layer's body part and loading it gives back the thickness, the step and every forcing. */
  lemma LayerXmlRoundTrip(s: LayerState, e: LayerElement)
    requires InStepRange(s.body.maximumStepLength)
    requires e.thickness == s.thickness
    requires e.body.maximumStepLength == Some(s.body.maximumStepLength) && e.body.interactionForcings.Some?
    requires ForcingSet(e.body.interactionForcings.value) == s.body.interactionForcings
    ensures LoadLayer(e) == Ok(s)
  {
    XmlRoundTrip(s.body, e.body);
  }
}
