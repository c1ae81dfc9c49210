/**
 * The Monaco converter: it accepts only electron beams up to 400 keV, resets
 * any geometry tilt, allows one photon intensity detector at most, requires
 * every delimited detector to share the first one's elevation and azimuth
 * windows, and requires a showers limit.
 */
module MonacoConverter {
  import opened Wrappers

  datatype ModelType =
    | ElasticCrossSection
    | IonizationCrossSection
    | IonizationPotential
    | EnergyLoss
    | MassAbsorptionCoefficient

  datatype Model =
    | MottCzyzewski1990
    | Gryzinsky
    | Springer1967
    | Bethe1930Mod
    | BastinHeijligers1989

  /** The models Monaco supports, per model type. */
  const MODELS: map<ModelType, seq<Model>> :=
    map[ElasticCrossSection := [MottCzyzewski1990],
        IonizationCrossSection := [Gryzinsky],
        IonizationPotential := [Springer1967],
        EnergyLoss := [Bethe1930Mod],
        MassAbsorptionCoefficient := [BastinHeijligers1989]]

  /** The model used for a type the options leave unset. */
  const DEFAULT_MODELS: map<ModelType, Model> :=
    map[ElasticCrossSection := MottCzyzewski1990,
        IonizationCrossSection := Gryzinsky,
        IonizationPotential := Springer1967,
        EnergyLoss := Bethe1930Mod,
        MassAbsorptionCoefficient := BastinHeijligers1989]

  /** Every model type has a default, and each default is one of the supported models of its type. */
  lemma DefaultModelsSupported()
    ensures DEFAULT_MODELS.Keys == MODELS.Keys
    ensures forall t :: t in DEFAULT_MODELS ==> DEFAULT_MODELS[t] in MODELS[t]
  {
  }

  datatype Particle = Electron | Photon | Positron

  datatype Beam = Beam(particle: Particle, energyEV: real, apertureRad: real)

  /** The highest beam energy Monaco accepts, 400 keV. */
  const MAX_ENERGY_EV: real := 400000.0

  const APERTURE_WARNING: string := "Monaco does not support beam aperture."
  const TILT_WARNING: string := "Geometry cannot be tilted in Monaco, only the beam direction. Tilt set to 0.0 deg."

  /** The geometry field the conversion may rewrite. */
  class Geometry {
    var tiltRad: real

    constructor Init(tiltRad: real)
      ensures this.tiltRad == tiltRad
    {
      this.tiltRad := tiltRad;
    }
  }

  /** A detector: a delimited one has (min, max) elevation and azimuth windows in radians. */
  datatype Detector =
    | Delimited(clasz: string, elevationRad: (real, real), azimuthRad: (real, real))
    | Undelimited(clasz: string)

  /** The detector classes Monaco supports. */
  const DETECTORS: seq<string> := ["PhotonIntensityDetector"]

  /** The tolerance on the bounds of elevation and azimuth windows. */
  const ANGLE_TOLERANCE: real := 0.000001

  function Abs(x: real): real
  {
    if x < 0.0 then -x else x
  }

  predicate Within(a: (real, real), b: (real, real), tolerance: real)
  {
    Abs(a.0 - b.0) <= tolerance && Abs(a.1 - b.1) <= tolerance
  }

  /** `d` has the elevation and azimuth windows of `first`, up to the tolerance. */
  predicate Agrees(first: Detector, d: Detector)
    requires first.Delimited? && d.Delimited?
  {
    Within(first.elevationRad, d.elevationRad, ANGLE_TOLERANCE) && Within(first.azimuthRad, d.azimuthRad, ANGLE_TOLERANCE)
  }

  /** The number of detectors of a class. */
  function CountOf(detectors: seq<Detector>, clasz: string): (n: nat)
    ensures n <= |detectors|
    ensures n == 0 <==> forall i :: 0 <= i < |detectors| ==> detectors[i].clasz != clasz
  {
    if detectors == [] then 0
    else CountOf(detectors[..|detectors| - 1], clasz) + (if detectors[|detectors| - 1].clasz == clasz then 1 else 0)
  }

  /** `findall(_DelimitedDetector).values()`, in iteration order. */
  function DelimitedOf(detectors: seq<Detector>): (r: seq<Detector>)
    ensures |r| <= |detectors|
    ensures forall i :: 0 <= i < |r| ==> r[i].Delimited? && r[i] in detectors
    ensures forall d :: d in detectors && d.Delimited? ==> d in r
  {
    if detectors == [] then []
    else
      var init := DelimitedOf(detectors[..|detectors| - 1]);
      var last := detectors[|detectors| - 1];
      assert forall d :: d in detectors ==> d in detectors[..|detectors| - 1] || d == last;
      if last.Delimited? then init + [last] else init
  }

  /** What `_convert_detectors` accepts once the base conversion has passed. */
  predicate DetectorsAccepted(detectors: seq<Detector>)
  {
    (forall i :: 0 <= i < |DETECTORS| ==> CountOf(detectors, DETECTORS[i]) <= 1)
    && var ds := DelimitedOf(detectors);
       forall i :: 0 < i < |ds| ==> Agrees(ds[0], ds[i])
  }

  /** Agreeing with the first delimited detector puts any two of them within twice the tolerance. */
  lemma AcceptedDetectorsPairwiseClose(detectors: seq<Detector>, i: nat, j: nat)
    requires DetectorsAccepted(detectors)
    requires i < |DelimitedOf(detectors)| && j < |DelimitedOf(detectors)|
    ensures var ds := DelimitedOf(detectors);
            Within(ds[i].elevationRad, ds[j].elevationRad, 2.0 * ANGLE_TOLERANCE)
            && Within(ds[i].azimuthRad, ds[j].azimuthRad, 2.0 * ANGLE_TOLERANCE)
  {
    var ds := DelimitedOf(detectors);
    if i > 0 {
      assert Agrees(ds[0], ds[i]);
    }
    if j > 0 {
      assert Agrees(ds[0], ds[j]);
    }
  }

  class Converter {
    var warnings: seq<string>

    constructor Init()
      ensures warnings == []
    {
      warnings := [];
    }

    /**
     * `_convert_beam`: the base conversion's failure is raised again; a
     * particle other than the electron or an energy above 400 keV is a
     * ConversionException; a non-zero aperture only adds a warning.
     */
    method ConvertBeam(beam: Beam, baseOutcome: Result<()>) returns (r: Result<()>)
      modifies this`warnings
      ensures baseOutcome.Err? ==> r == baseOutcome
      ensures baseOutcome.Ok? ==> (r.Ok? <==> beam.particle == Electron && beam.energyEV <= MAX_ENERGY_EV)
      ensures r.Err? && baseOutcome.Ok? ==> r.error == ConversionException
      ensures warnings == if r.Ok? && beam.apertureRad != 0.0 then old(warnings) + [APERTURE_WARNING] else old(warnings)
    {
      if baseOutcome.Err? {
        return baseOutcome;
      }
      if beam.particle != Electron {
        return Err(ConversionException);
      }
      if beam.energyEV > MAX_ENERGY_EV {
        return Err(ConversionException);
      }
      if beam.apertureRad != 0.0 {
        warnings := warnings + [APERTURE_WARNING];
      }
      r := Ok(());
    }

    /** `_convert_geometry`: a non-zero tilt is reset to 0 with a warning. */
    method ConvertGeometry(g: Geometry, baseOutcome: Result<()>) returns (r: Result<()>)
      modifies g, this`warnings
      ensures r == baseOutcome
      ensures r.Ok? ==> g.tiltRad == 0.0
      ensures r.Err? ==> g.tiltRad == old(g.tiltRad)
      ensures warnings == if r.Ok? && old(g.tiltRad) != 0.0 then old(warnings) + [TILT_WARNING] else old(warnings)
    {
      if baseOutcome.Err? {
        return baseOutcome;
      }
      if g.tiltRad != 0.0 {
        g.tiltRad := 0.0;
        warnings := warnings + [TILT_WARNING];
      }
      r := baseOutcome;
    }
  }

  /** The number of detectors of a class, counted by a loop. */
  method Count(detectors: seq<Detector>, clasz: string) returns (n: nat)
    ensures n == CountOf(detectors, clasz)
  {
    n := 0;
    var i := 0;
    while i < |detectors|
      invariant 0 <= i <= |detectors| && n == CountOf(detectors[..i], clasz)
    {
      assert detectors[..i + 1][..i] == detectors[..i];
      if detectors[i].clasz == clasz {
        n := n + 1;
      }
      i := i + 1;
    }
    assert detectors[..i] == detectors;
  }

  /**
   * `_convert_detectors`: the detectors in iteration order. More than one
   * detector of a supported class, or a delimited detector whose windows
   * differ from the first one's by more than the tolerance, is a
   * ConversionException.
   */
  method ConvertDetectors(detectors: seq<Detector>, baseOutcome: Result<()>) returns (r: Result<()>)
    ensures baseOutcome.Err? ==> r == baseOutcome
    ensures baseOutcome.Ok? ==> (r.Ok? <==> DetectorsAccepted(detectors))
    ensures r.Err? && baseOutcome.Ok? ==> r.error == ConversionException
  {
    if baseOutcome.Err? {
      return baseOutcome;
    }
    var c := 0;
    while c < |DETECTORS|
      invariant 0 <= c <= |DETECTORS|
      invariant forall k :: 0 <= k < c ==> CountOf(detectors, DETECTORS[k]) <= 1
    {
      var n := Count(detectors, DETECTORS[c]);
      if n > 1 {
        return Err(ConversionException);
      }
      c := c + 1;
    }
    var ds := DelimitedOf(detectors);
    if ds == [] {
      return Ok(());
    }
    var elevation := ds[0].elevationRad;
    var azimuth := ds[0].azimuthRad;
    var i := 1;
    while i < |ds|
      invariant 1 <= i <= |ds|
      invariant forall k :: 0 < k < i ==> Agrees(ds[0], ds[k])
    {
      var d := ds[i];
      if Abs(elevation.0 - d.elevationRad.0) > ANGLE_TOLERANCE || Abs(elevation.1 - d.elevationRad.1) > ANGLE_TOLERANCE {
        return Err(ConversionException);
      }
      if Abs(azimuth.0 - d.azimuthRad.0) > ANGLE_TOLERANCE || Abs(azimuth.1 - d.azimuthRad.1) > ANGLE_TOLERANCE {
        return Err(ConversionException);
      }
      i := i + 1;
    }
    r := Ok(());
  }

  /** `_convert_limits`: the limits by class; a missing showers limit is a ConversionException. */
  method ConvertLimits(limits: map<string, real>, baseOutcome: Result<()>) returns (r: Result<()>)
    ensures baseOutcome.Err? ==> r == baseOutcome
    ensures baseOutcome.Ok? ==> (r.Ok? <==> "ShowersLimit" in limits)
    ensures r.Err? && baseOutcome.Ok? ==> r.error == ConversionException
  {
    if baseOutcome.Err? {
      return baseOutcome;
    }
    if "ShowersLimit" !in limits {
      return Err(ConversionException);
    }
    r := Ok(());
  }
}
