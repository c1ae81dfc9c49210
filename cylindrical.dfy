/**
 * The cylindrical beam (a beam of given diameter, parallel to the z-axis,
 * centred on (x0, y0)) and its builder, which keeps sets of diameters and
 * positions and builds one beam per combination with the energies and
 * particles of the base beam builder.
 */
module Cylindrical {
  import opened Wrappers
  import opened PyMath
  import opened PySet
  import opened Itertools
  import opened Particles

  /** 1 fm. */
  const DIAMETER_TOLERANCE_M: real := 0.000000000001
  /** 1 pm. */
  const POSITION_TOLERANCE_M: real := 0.000000000001

  datatype CylindricalBeam = CylindricalBeam(energyEV: real, diameterM: real, particle: Particle, x0M: real, y0M: real)

  /** The default arguments of the constructor: an electron beam centred on the z-axis. */
  function DefaultBeam(energyEV: real, diameterM: real): (r: CylindricalBeam)
    ensures r.particle == Electron && r.x0M == 0.0 && r.y0M == 0.0
    ensures r.energyEV == energyEV && r.diameterM == diameterM
  {
    CylindricalBeam(energyEV, diameterM, Electron, 0.0, 0.0)
  }

  /**
   * `__eq__`: the base beam equality (given as `baseEqual`), then the
   * diameter and both coordinates of the centre close within their
   * tolerances.
   */
  predicate Equal(a: CylindricalBeam, b: CylindricalBeam, baseEqual: bool)
  {
    baseEqual
    && IsClose(a.diameterM, b.diameterM, DIAMETER_TOLERANCE_M)
    && IsClose(a.x0M, b.x0M, POSITION_TOLERANCE_M)
    && IsClose(a.y0M, b.y0M, POSITION_TOLERANCE_M)
  }

  /** A beam equals itself, and equality does not depend on the order of the operands. */
  lemma EqualReflexiveSymmetric(a: CylindricalBeam, b: CylindricalBeam, baseEqual: bool)
    ensures Equal(a, a, true)
    ensures Equal(a, b, baseEqual) <==> Equal(b, a, baseEqual)
  {
    IsCloseSymmetric(a.diameterM, b.diameterM, DIAMETER_TOLERANCE_M);
    IsCloseSymmetric(a.x0M, b.x0M, POSITION_TOLERANCE_M);
    IsCloseSymmetric(a.y0M, b.y0M, POSITION_TOLERANCE_M);
  }

  /**
   * Beams whose base parts are equal and whose diameters and centres differ
   * by at most the tolerances are equal; beams that differ in the base part
   * never are.
   */
  lemma EqualWithinTolerance(a: CylindricalBeam, b: CylindricalBeam, baseEqual: bool)
    requires Abs(a.diameterM - b.diameterM) <= DIAMETER_TOLERANCE_M
    requires Abs(a.x0M - b.x0M) <= POSITION_TOLERANCE_M
    requires Abs(a.y0M - b.y0M) <= POSITION_TOLERANCE_M
    ensures Equal(a, b, baseEqual) <==> baseEqual
  {
    WithinAbsoluteTolerance(a.diameterM, b.diameterM, DIAMETER_TOLERANCE_M);
    WithinAbsoluteTolerance(a.x0M, b.x0M, POSITION_TOLERANCE_M);
    WithinAbsoluteTolerance(a.y0M, b.y0M, POSITION_TOLERANCE_M);
  }

  /**
   * The converse of `EqualWithinTolerance` for centres within 1 mm of the
   * origin: beams whose centres are more than the tolerance apart along x
   * or along y are never equal.
   */
  lemma DistinctCentres(a: CylindricalBeam, b: CylindricalBeam, baseEqual: bool)
    requires Abs(a.x0M) <= 0.001 && Abs(b.x0M) <= 0.001
    requires Abs(a.y0M) <= 0.001 && Abs(b.y0M) <= 0.001
    requires Abs(a.x0M - b.x0M) > POSITION_TOLERANCE_M || Abs(a.y0M - b.y0M) > POSITION_TOLERANCE_M
    ensures !Equal(a, b, baseEqual)
  {
    IsCloseForSmallValues(a.x0M, b.x0M, POSITION_TOLERANCE_M);
    IsCloseForSmallValues(a.y0M, b.y0M, POSITION_TOLERANCE_M);
  }

  /** `particles` in `build`: an empty particle set means electrons only. */
  function BuildParticles(particles: seq<Particle>): (r: seq<Particle>)
    ensures |r| > 0
    ensures particles != [] ==> r == particles
    ensures particles == [] ==> r == [Electron]
  {
    if particles == [] then [Electron] else particles
  }

  /** `itertools.product(energies, diameters, particles, positions)`. */
  function Combinations(es: seq<real>, ds: seq<real>, ps: seq<Particle>, xs: seq<(real, real)>): seq<(real, (real, (Particle, (real, real))))>
  {
    Pairs(es, Pairs(ds, Pairs(ps, xs)))
  }

  /** `_create_beam` applied to one combination. */
  function BeamOf(c: (real, (real, (Particle, (real, real))))): CylindricalBeam
  {
    CylindricalBeam(c.0, c.1.0, c.1.1.0, c.1.1.1.0, c.1.1.1.1)
  }

  /** The beams `build` returns, in product order. */
  function Built(es: seq<real>, ds: seq<real>, ps: seq<Particle>, xs: seq<(real, real)>): (r: seq<CylindricalBeam>)
  {
    var c := Combinations(es, ds, ps, xs);
    seq(|c|, k requires 0 <= k < |c| => BeamOf(c[k]))
  }

  /** One beam per combination: the count is the product of the four sizes. */
  lemma BuiltLength(es: seq<real>, ds: seq<real>, ps: seq<Particle>, xs: seq<(real, real)>)
    ensures |Built(es, ds, ps, xs)| == |es| * |ds| * |ps| * |xs|
  {
    PairsLength(ps, xs);
    PairsLength(ds, Pairs(ps, xs));
    PairsLength(es, Pairs(ds, Pairs(ps, xs)));
    ProductRegroup(|es|, |ds|, |ps|, |xs|);
  }

  lemma ProductRegroup(a: nat, b: nat, c: nat, d: nat)
    ensures a * (b * (c * d)) == a * b * c * d
    ensures a * c * b * d == a * b * c * d
  {
    assert a * (b * (c * d)) == (a * b) * (c * d);
    assert a * c * b == a * b * c;
  }

  /** A beam is built exactly when its energy, diameter, particle and centre were each added. */
  lemma BuiltMember(es: seq<real>, ds: seq<real>, ps: seq<Particle>, xs: seq<(real, real)>, b: CylindricalBeam)
    ensures b in Built(es, ds, ps, xs) <==>
      b.energyEV in es && b.diameterM in ds && b.particle in ps && (b.x0M, b.y0M) in xs
  {
    var c := Combinations(es, ds, ps, xs);
    var t := (b.energyEV, (b.diameterM, (b.particle, (b.x0M, b.y0M))));
    PairsMember(ps, xs, t.1.1);
    PairsMember(ds, Pairs(ps, xs), t.1);
    PairsMember(es, Pairs(ds, Pairs(ps, xs)), t);
    if b in Built(es, ds, ps, xs) {
      var k :| 0 <= k < |c| && BeamOf(c[k]) == b;
      assert c[k] == t;
    }
    if t in c {
      var k :| 0 <= k < |c| && c[k] == t;
      assert Built(es, ds, ps, xs)[k] == b;
    }
  }

  /** Sets without repeats give beams without repeats. */
  lemma BuiltDistinct(es: seq<real>, ds: seq<real>, ps: seq<Particle>, xs: seq<(real, real)>)
    requires Distinct(es) && Distinct(ds) && Distinct(ps) && Distinct(xs)
    ensures Distinct(Built(es, ds, ps, xs))
  {
    PairsDistinct(ps, xs);
    PairsDistinct(ds, Pairs(ps, xs));
    PairsDistinct(es, Pairs(ds, Pairs(ps, xs)));
    var c := Combinations(es, ds, ps, xs);
    var r := Built(es, ds, ps, xs);
    forall i, j | 0 <= i < j < |r|
      ensures r[i] != r[j]
    {
      assert c[i] != c[j];
    }
  }

  /** `ceil(q)` on a real. */
  function Ceil(q: real): (n: int)
    ensures q <= n as real < q + 1.0
  {
    -((-q).Floor)
  }

  /** The length of `numpy.arange(start, stop, step)`: `ceil((stop - start) / step)`, never negative. */
  function ArangeLength(start: real, stop: real, step: real): nat
    requires step != 0.0
  {
    var n := Ceil((stop - start) / step);
    if n < 0 then 0 else n
  }

  /** `numpy.arange(start, stop, step)`: `start`, `start + step`, ... short of `stop`. */
  function Arange(start: real, stop: real, step: real): (r: seq<real>)
    requires step != 0.0
    ensures |r| == ArangeLength(start, stop, step)
    ensures forall i :: 0 <= i < |r| ==> r[i] == start + i as real * step
  {
    seq(ArangeLength(start, stop, step), i requires 0 <= i => start + i as real * step)
  }

  /** For a positive step the points are the grid points of `[start, stop)`, all of them. */
  lemma ArangeCoversInterval(start: real, stop: real, step: real)
    requires step > 0.0
    ensures forall x :: x in Arange(start, stop, step) ==> start <= x < stop
    ensures start + |Arange(start, stop, step)| as real * step >= stop
  {
    var r := Arange(start, stop, step);
    var n := |r|;
    forall x | x in r
      ensures start <= x < stop
    {
      var i :| 0 <= i < n && r[i] == x;
      GridBelow(start, stop, step, i);
    }
    GridAbove(start, stop, step, n);
  }

  /** A grid point whose index is below `ceil((stop - start) / step)` lies in [start, stop). */
  lemma GridBelow(start: real, stop: real, step: real, i: nat)
    requires step > 0.0 && i < ArangeLength(start, stop, step)
    ensures start <= start + i as real * step < stop
  {
    var q := (stop - start) / step;
    assert i as real < q;
    assert q * step == stop - start;
    StepBelow(i as real, q, step);
  }

  /** The grid point at index `ArangeLength` is at or beyond stop. */
  lemma GridAbove(start: real, stop: real, step: real, n: nat)
    requires step > 0.0 && n == ArangeLength(start, stop, step)
    ensures start + n as real * step >= stop
  {
    var q := (stop - start) / step;
    assert q * step == stop - start;
    if Ceil(q) < 0 {
      assert stop < start;
    } else {
      assert n as real >= q;
      StepAbove(n as real, q, step);
    }
  }

  lemma StepBelow(a: real, b: real, step: real)
    requires 0.0 <= a < b && step > 0.0
    ensures 0.0 <= a * step < b * step
  {
  }

  lemma StepAbove(a: real, b: real, step: real)
    requires a >= b && step > 0.0
    ensures a * step >= b * step
  {
  }

  /** The positions of a line scan along x at height `y0`. */
  function LinePositions(xs: seq<real>, y0: real): (r: seq<(real, real)>)
    ensures |r| == |xs|
    ensures forall i :: 0 <= i < |r| ==> r[i] == (xs[i], y0)
  {
    seq(|xs|, i requires 0 <= i < |xs| => (xs[i], y0))
  }

  /**
   * `CylindricalBeamBuilder`. The energies and particles are the sets of the
   * base beam builder; every set is kept in its iteration order, without
   * repeats.
   */
  class CylindricalBeamBuilder {
    var energiesEV: seq<real>
    var particles: seq<Particle>
    var diametersM: seq<real>
    var positions: seq<(real, real)>

    ghost predicate Valid()
      reads this
    {
      Distinct(energiesEV) && Distinct(particles) && Distinct(diametersM) && Distinct(positions)
    }

    constructor Init()
      ensures Valid()
      ensures energiesEV == [] && particles == [] && diametersM == [] && positions == []
    {
      energiesEV := [];
      particles := [];
      diametersM := [];
      positions := [];
    }

    /**
     * `__len__`: the base builder's length times the number of diameters and
     * of positions.
     */
    function Length(baseLength: nat): nat
      reads this
    {
      baseLength * |diametersM| * |positions|
    }

    /** `add_diameter_m`: a set insertion. */
    method AddDiameter(diameterM: real)
      requires Valid()
      modifies this`diametersM
      ensures Valid()
      ensures diametersM == Insert(old(diametersM), diameterM)
    {
      diametersM := Insert(diametersM, diameterM);
    }

    /** `add_position`: a set insertion of the pair. */
    method AddPosition(x0M: real, y0M: real)
      requires Valid()
      modifies this`positions
      ensures Valid()
      ensures positions == Insert(old(positions), (x0M, y0M))
    {
      positions := Insert(positions, (x0M, y0M));
    }

    /**
     * `add_linescan_x`: inserts `(x, y0)` for each `x` of
     * `numpy.arange(x0, x1, step)`; a zero step is a division by zero.
     */
    method AddLinescanX(x0M: real, x1M: real, xstepM: real, y0M: real) returns (r: Result<()>)
      requires Valid()
      modifies this`positions
      ensures Valid()
      ensures r.Err? <==> xstepM == 0.0
      ensures r.Err? ==> r.error == ZeroDivisionError && positions == old(positions)
      ensures r.Ok? ==> positions == InsertAll(old(positions), LinePositions(Arange(x0M, x1M, xstepM), y0M))
    {
      if xstepM == 0.0 {
        return Err(ZeroDivisionError);
      }
      var xs := Arange(x0M, x1M, xstepM);
      ghost var line := LinePositions(xs, y0M);
      ghost var start := positions;
      var i := 0;
      while i < |xs|
        invariant 0 <= i <= |xs|
        invariant Distinct(positions)
        invariant positions == InsertAll(start, line[..i])
      {
        assert line[..i + 1][..i] == line[..i];
        positions := Insert(positions, (xs[i], y0M));
        i := i + 1;
      }
      assert line[..|xs|] == line;
      r := Ok(());
    }

    /** `build`: one beam per element of energies × diameters × particles × positions. */
    method Build() returns (beams: seq<CylindricalBeam>)
      ensures beams == Built(energiesEV, diametersM, BuildParticles(particles), positions)
    {
      var ps := BuildParticles(particles);
      var product := Combinations(energiesEV, diametersM, ps, positions);
      beams := [];
      var i := 0;
      while i < |product|
        invariant 0 <= i <= |product|
        invariant |beams| == i
        invariant forall k :: 0 <= k < i ==> beams[k] == BeamOf(product[k])
      {
        beams := beams + [BeamOf(product[i])];
        i := i + 1;
      }
    }
  }

  /**
   * `Builder.__len__` is the length of `build()`: the builder's own length
   * agrees with it when the base length counts the energies times the
   * particles `build` uses.
   */
  lemma LengthIsBuildLength(b: CylindricalBeamBuilder, baseLength: nat)
    requires baseLength == |b.energiesEV| * |BuildParticles(b.particles)|
    ensures b.Length(baseLength) == |Built(b.energiesEV, b.diametersM, BuildParticles(b.particles), b.positions)|
  {
    var es, ds, ps, xs := |b.energiesEV|, |b.diametersM|, |BuildParticles(b.particles)|, |b.positions|;
    BuiltLength(b.energiesEV, b.diametersM, BuildParticles(b.particles), b.positions);
    ProductRegroup(es, ds, ps, xs);
  }
}
