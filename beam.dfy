/**
 * Beams of a simulation: a pencil beam (energy, particle, origin, direction,
 * aperture) and a Gaussian beam, which adds a diameter; the rotation of a
 * beam direction about an axis; and the conversions between the FWHM and
 * the 2-sigma beam diameter.
 */
module Beam {
  import opened Wrappers
  import PyMath
  import opened Particles

  /** `math.pi` as a double. */
  const PI: real := PyMath.PI

  type Vector = (real, real, real)

  predicate ValidEnergy(energyEV: real)
  {
    energyEV > 0.0
  }

  predicate ValidAperture(apertureRad: real)
  {
    0.0 <= apertureRad <= PI / 2.0
  }

  predicate ValidDiameter(diameterM: real)
  {
    diameterM >= 0.0
  }

  class PencilBeam {
    var energyEV: real
    var particle: Particle
    var originM: Vector
    var direction: Vector
    var apertureRad: real

    ghost predicate Valid()
      reads this
    {
      ValidEnergy(energyEV) && ValidAperture(apertureRad)
    }

    constructor Init(energyEV: real, particle: Particle, originM: Vector, direction: Vector, apertureRad: real)
      requires ValidEnergy(energyEV) && ValidAperture(apertureRad)
      ensures Valid()
      ensures this.energyEV == energyEV && this.particle == particle && this.originM == originM
      ensures this.direction == direction && this.apertureRad == apertureRad
    {
      this.energyEV := energyEV;
      this.particle := particle;
      this.originM := originM;
      this.direction := direction;
      this.apertureRad := apertureRad;
    }

    /**
     * `PencilBeam(energy_eV, particle, origin_m, direction, aperture_rad)`:
     * ValueError for an energy not above 0 eV or an aperture outside
     * [0, pi/2] rad.
     */
    static method Create(energyEV: real, particle: Particle, originM: Vector, direction: Vector, apertureRad: real)
      returns (r: Result<PencilBeam>)
      ensures r.Err? <==> !ValidEnergy(energyEV) || !ValidAperture(apertureRad)
      ensures r.Err? ==> r.error == ValueError
      ensures r.Ok? ==> fresh(r.value) && r.value.Valid()
                        && r.value.energyEV == energyEV && r.value.particle == particle && r.value.originM == originM
                        && r.value.direction == direction && r.value.apertureRad == apertureRad
    {
      if energyEV <= 0.0 {
        return Err(ValueError);
      }
      if apertureRad < 0.0 || apertureRad > PI / 2.0 {
        return Err(ValueError);
      }
      var b := new PencilBeam.Init(energyEV, particle, originM, direction, apertureRad);
      r := Ok(b);
    }

    /** `PencilBeam(energy_eV)`: an electron beam from (0, 0, 1) going down (0, 0, -1), without aperture. */
    static method CreateDefault(energyEV: real) returns (r: Result<PencilBeam>)
      ensures r.Err? <==> !ValidEnergy(energyEV)
      ensures r.Ok? ==> fresh(r.value) && r.value.Valid() && r.value.energyEV == energyEV
                        && r.value.particle == Electron && r.value.originM == (0.0, 0.0, 1.0)
                        && r.value.direction == (0.0, 0.0, -1.0) && r.value.apertureRad == 0.0
    {
      r := Create(energyEV, Electron, (0.0, 0.0, 1.0), (0.0, 0.0, -1.0), 0.0);
    }

    /** The `energy` setter: ValueError unless above 0 eV, leaving the energy unchanged. */
    method SetEnergy(energyEV: real) returns (r: Result<()>)
      requires Valid()
      modifies this`energyEV
      ensures Valid()
      ensures r.Err? <==> !ValidEnergy(energyEV)
      ensures this.energyEV == if ValidEnergy(energyEV) then energyEV else old(this.energyEV)
    {
      if energyEV <= 0.0 {
        return Err(ValueError);
      }
      this.energyEV := energyEV;
      r := Ok(());
    }

    /** The `aperture` setter: ValueError outside [0, pi/2] rad, leaving the aperture unchanged. */
    method SetAperture(apertureRad: real) returns (r: Result<()>)
      requires Valid()
      modifies this`apertureRad
      ensures Valid()
      ensures r.Err? <==> !ValidAperture(apertureRad)
      ensures this.apertureRad == if ValidAperture(apertureRad) then apertureRad else old(this.apertureRad)
    {
      if apertureRad < 0.0 || apertureRad > PI / 2.0 {
        return Err(ValueError);
      }
      this.apertureRad := apertureRad;
      r := Ok(());
    }
  }

  /** A Gaussian beam: the pencil-beam fields and a FWHM diameter. */
  class GaussianBeam {
    const pencil: PencilBeam
    var diameterM: real

    ghost predicate Valid()
      reads this, pencil
    {
      pencil.Valid() && ValidDiameter(diameterM)
    }

    constructor Init(pencil: PencilBeam, diameterM: real)
      requires pencil.Valid() && ValidDiameter(diameterM)
      ensures Valid() && this.pencil == pencil && this.diameterM == diameterM
    {
      this.pencil := pencil;
      this.diameterM := diameterM;
    }

    /** `GaussianBeam(...)`: the pencil-beam fields are set first, then the diameter, which must be at least 0. */
    static method Create(energyEV: real, diameterM: real, particle: Particle, originM: Vector, direction: Vector, apertureRad: real)
      returns (r: Result<GaussianBeam>)
      ensures r.Err? <==> !ValidEnergy(energyEV) || !ValidAperture(apertureRad) || !ValidDiameter(diameterM)
      ensures r.Err? ==> r.error == ValueError
      ensures r.Ok? ==> fresh(r.value) && fresh(r.value.pencil) && r.value.Valid() && r.value.diameterM == diameterM
                        && r.value.pencil.energyEV == energyEV && r.value.pencil.particle == particle
                        && r.value.pencil.originM == originM && r.value.pencil.direction == direction
                        && r.value.pencil.apertureRad == apertureRad
    {
      var p := PencilBeam.Create(energyEV, particle, originM, direction, apertureRad);
      if p.Err? {
        return Err(p.error);
      }
      if diameterM < 0.0 {
        return Err(ValueError);
      }
      var g := new GaussianBeam.Init(p.value, diameterM);
      r := Ok(g);
    }

    /** The `diameter` setter: ValueError below 0, leaving the diameter unchanged. */
    method SetDiameter(diameterM: real) returns (r: Result<()>)
      requires Valid()
      modifies this`diameterM
      ensures Valid()
      ensures r.Err? <==> !ValidDiameter(diameterM)
      ensures this.diameterM == if ValidDiameter(diameterM) then diameterM else old(this.diameterM)
    {
      if diameterM < 0.0 {
        return Err(ValueError);
      }
      this.diameterM := diameterM;
      r := Ok(());
    }
  }

  /** `str.lower` on ASCII letters. */
  function LowerChar(ch: char): char
  {
    if 'A' <= ch <= 'Z' then (ch as int + 32) as char else ch
  }

  function Lower(s: string): (r: string)
    ensures |r| == |s| && forall i :: 0 <= i < |s| ==> r[i] == LowerChar(s[i])
  {
    seq(|s|, i requires 0 <= i < |s| => LowerChar(s[i]))
  }

  datatype Axis = AxisX | AxisY | AxisZ

  /** The axis `axis.lower()` names, if any. */
  function AxisOf(axis: string): Option<Axis>
  {
    var a := Lower(axis);
    if a == "x" then Some(AxisX) else if a == "y" then Some(AxisY) else if a == "z" then Some(AxisZ) else None
  }

  /** The axis is recognised in either case, and nothing else is. */
  lemma AxisOfCases(axis: string)
    ensures AxisOf(axis) == Some(AxisX) <==> axis == "x" || axis == "X"
    ensures AxisOf(axis) == Some(AxisY) <==> axis == "y" || axis == "Y"
    ensures AxisOf(axis) == Some(AxisZ) <==> axis == "z" || axis == "Z"
  {
    var a := Lower(axis);
    if |axis| == 1 {
      assert a == [LowerChar(axis[0])];
    }
  }

  /** The point `p` of a plane rotated by the angle whose cosine and sine are `c` and `s`. */
  function Rotate(c: real, s: real, p: (real, real)): (real, real)
  {
    (c * p.0 - s * p.1, s * p.0 + c * p.1)
  }

  /** The direction rotated about an axis by the angle whose cosine and sine are `c` and `s`. */
  function Tilt(c: real, s: real, a: Axis, d: Vector): (r: Vector)
    ensures a == AxisX ==> r.0 == d.0
    ensures a == AxisY ==> r.1 == d.1
    ensures a == AxisZ ==> r.2 == d.2
  {
    match a
    case AxisX => var p := Rotate(c, s, (d.1, d.2)); (d.0, p.0, p.1)
    case AxisY => var p := Rotate(c, -s, (d.0, d.2)); (p.0, d.1, p.1)
    case AxisZ => var p := Rotate(c, s, (d.0, d.1)); (p.0, p.1, d.2)
  }

  /**
   * `tilt_beam`: the rotation matrix of the axis `axis.lower()` applied to
   * the direction; ValueError for an unknown axis. About y the rotation of
   * the (x, z) plane runs the other way, as in the source's matrix.
   */
  function TiltBeam(c: real, s: real, axis: string, d: Vector): (r: Result<Vector>)
    ensures r.Err? <==> AxisOf(axis).None?
    ensures r.Err? ==> r.error == ValueError
    ensures r.Ok? ==> r.value == Tilt(c, s, AxisOf(axis).value, d)
  {
    match AxisOf(axis)
    case Some(a) => Ok(Tilt(c, s, a, d))
    case None => Err(ValueError)
  }

  /** The squared length of a point of a plane. */
  function Norm2(p: (real, real)): real
  {
    p.0 * p.0 + p.1 * p.1
  }

  /** A plane rotation (c² + s² = 1) keeps the length of the point. */
  lemma RotateKeepsNorm(c: real, s: real, p: (real, real))
    requires c * c + s * s == 1.0
    ensures Norm2(Rotate(c, s, p)) == Norm2(p)
  {
    var (x, y) := p;
    calc {
      Norm2(Rotate(c, s, p));
      (c * x - s * y) * (c * x - s * y) + (s * x + c * y) * (s * x + c * y);
      (c * c + s * s) * (x * x) + (c * c + s * s) * (y * y);
      x * x + y * y;
    }
  }

  /** Rotating by the opposite angle (same cosine, opposite sine) brings the point back. */
  lemma RotateBack(c: real, s: real, p: (real, real))
    requires c * c + s * s == 1.0
    ensures Rotate(c, -s, Rotate(c, s, p)) == p
  {
    var (x, y) := p;
    var q := Rotate(c, s, p);
    var r := Rotate(c, -s, q);
    var k := c * c + s * s;
    calc {
      r.0;
      c * (c * x - s * y) + s * (s * x + c * y);
      k * x;
      { assert k == 1.0; }
      x;
    }
    calc {
      r.1;
      (-s) * (c * x - s * y) + c * (s * x + c * y);
      k * y;
      { assert k == 1.0; }
      y;
    }
  }

  function NormSquared(v: Vector): real
  {
    v.0 * v.0 + Norm2((v.1, v.2))
  }

  /** A direction and one with the same coordinate on the fixed axis and an equally long rest have the same length. */
  lemma SameNorm(a: Axis, d: Vector, t: Vector)
    requires a == AxisX ==> t.0 == d.0 && Norm2((t.1, t.2)) == Norm2((d.1, d.2))
    requires a == AxisY ==> t.1 == d.1 && Norm2((t.0, t.2)) == Norm2((d.0, d.2))
    requires a == AxisZ ==> t.2 == d.2 && Norm2((t.0, t.1)) == Norm2((d.0, d.1))
    ensures NormSquared(t) == NormSquared(d)
  {
  }

  /** A rotation (c² + s² = 1) keeps the length of the direction. */
  lemma TiltKeepsNorm(c: real, s: real, a: Axis, d: Vector)
    requires c * c + s * s == 1.0
    ensures NormSquared(Tilt(c, s, a, d)) == NormSquared(d)
  {
    match a
    case AxisX => RotateKeepsNorm(c, s, (d.1, d.2));
    case AxisY => RotateKeepsNorm(c, -s, (d.0, d.2));
    case AxisZ => RotateKeepsNorm(c, s, (d.0, d.1));
    SameNorm(a, d, Tilt(c, s, a, d));
  }

  /** Tilting by the opposite angle (same cosine, opposite sine) brings the direction back. */
  lemma TiltBackRestores(c: real, s: real, a: Axis, d: Vector)
    requires c * c + s * s == 1.0
    ensures Tilt(c, -s, a, Tilt(c, s, a, d)) == d
  {
    match a
    case AxisX => RotateBack(c, s, (d.1, d.2));
    case AxisY =>
      RotateBack(c, -s, (d.0, d.2));
      assert - -s == s;
    case AxisZ => RotateBack(c, s, (d.0, d.1));
  }

  /** The ratio of the FWHM diameter to the 2-sigma diameter of a Gaussian beam. */
  const FWHM_PER_SIGMA: real := 1.177411

  /** `convert_diameter_fwhm_to_sigma`: a FWHM diameter as a 2-sigma diameter. */
  function FwhmToSigma(diameter: real): (r: real)
    ensures r * FWHM_PER_SIGMA == diameter
  {
    diameter / FWHM_PER_SIGMA
  }

  /** `convert_diameter_sigma_to_fwhm`: a 2-sigma diameter as a FWHM diameter. */
  function SigmaToFwhm(diameter: real): (r: real)
    ensures r / FWHM_PER_SIGMA == diameter
  {
    diameter * FWHM_PER_SIGMA
  }

  /** Each conversion undoes the other. */
  lemma DiameterConversionsInverse(d: real)
    ensures SigmaToFwhm(FwhmToSigma(d)) == d
    ensures FwhmToSigma(SigmaToFwhm(d)) == d
  {
  }
}
