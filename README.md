# pymontecarlo core, modelled in Dafny

pymontecarlo is a common front end to several Monte Carlo programs that
simulate electron–matter interaction: PENELOPE/PENEPMA, Monaco, NISTMonte,
Casino and others. A user describes a simulation once as *options*. Options
hold a beam, a sample geometry with its materials, detectors, limits and
physical models. The front end then does four things:

- it converts the options for one program and checks that the program supports them;
- it writes and reads the options as XML;
- it queues and runs simulations, including the k-ratio quantification loop;
- it imports the program's output into *result* containers: photon intensities,
  spectra, photon distributions, electron fractions, trajectories and channel
  histograms.

This project models the core of that front end in Dafny:

- **Job and quantification bookkeeping.** The task queue with its recorded
  exception, the local runner's dispatchers, and the two generations of
  quantification runners. They are modelled one sequential step at a time.
  Also the PENEPMA worker's reading of the program's output, the base result
  importer, the quantification results archive, and the k-ratio
  reconstruction's Jacobian set-up.
- **Materials.** Weight and atomic fractions from chemical formulas, wildcard
  fractions, density, generated material names, PENELOPE materials and
  bodies, and the PENELOPE and Monaco option converters.
- **Options.** Beams, samples and their builders, the options container with
  its limits and models, the series columns that flatten options into tables,
  and XML reading and writing.
- **Results.** Intensity, spectrum, distribution, time, shower, electron
  fraction, trajectory and channel results, and the NISTMonte channel
  detector.

Each source file has one Dafny module. Code that updates objects in place
becomes a class with `modifies` clauses. Pure lookups and conversions become
functions. Loops become methods proved against the function that specifies
them. The Python float operations used here are modelled on `real`; the few
that overflow, divide by zero or give NaN are made explicit.

The source lines cited below are in the original repository. Some source
files appear in several generations of the repository (for example
`results/result.py` and `output/result.py`). Where the code is the same, one
Dafny member models both, and the table cites each.

## Model

| member | source | states |
|---|---|---|
| Particles.Particle.Name | src/core/pymontecarlo/input/particle.py:42-43 | `str(p)` is the particle's own name: "electron", "photon" or "positron" |
| Particles.Particle.Index | src/core/pymontecarlo/input/particle.py:45-46 | `int(p)` is 1, 2 or 3 for electron, photon and positron |
| Particles.Particle.Charge | src/core/pymontecarlo/input/particle.py:54-56 | the charge is -1, 0 and +1 elementary charges |
| Particles.ParticlesAreThree | src/core/pymontecarlo/input/particle.py:58-62 | PARTICLES holds exactly the three particles, which differ in index, name and charge |
| Particles.ToXml | src/core/pymontecarlo/input/particle.py:70-71 | the XML value is the particle's name, and `from_xml` of it gives the particle back |
| Particles.FromXml | src/core/pymontecarlo/input/particle.py:66-68 | a particle name maps to its particle; any other string raises KeyError |
| Particles.FromXmlRejectsUnknown | src/core/pymontecarlo/input/particle.py:67-68 | every text other than `electron`, `photon` and `positron` is refused with KeyError; the lookup is case-sensitive |
| Cbook.Instance.Init | pymontecarlo/util/cbook.py:23-25 | an object holding the given attributes |
| Cbook.Scaled | pymontecarlo/util/cbook.py:30 | the stored attribute times the multiplier; AttributeError when unset |
| Cbook.Stored | pymontecarlo/util/cbook.py:33 | the value divided by the multiplier, which scaled back gives the value; ZeroDivisionError for a zero multiplier |
| Cbook.SetThenGet | pymontecarlo/util/cbook.py:27-33 | setting a value through the descriptor and getting it back returns that value |
| Cbook.GetThenSet | pymontecarlo/util/cbook.py:27-33 | setting what was read leaves the stored attribute unchanged |
| Cbook.Deleted | pymontecarlo/util/cbook.py:35-36 | the intended deletion removes only the target attribute; AttributeError when unset |
| Cbook.DeleteAsWritten | pymontecarlo/util/cbook.py:35-36 | deleting through the descriptor as written always fails |
| Cbook.DeleteAsWrittenKeepsAttribute | pymontecarlo/util/cbook.py:35-36 | with the attribute set, the code as written raises AttributeError where the intended deletion succeeds |
| Cbook.MultiplierAttribute.constructor | pymontecarlo/util/cbook.py:23-25 | keeps the attribute name and the multiplier |
| Cbook.MultiplierAttribute.Get | pymontecarlo/util/cbook.py:27-30 | without an instance, the descriptor itself; with one, the stored attribute times the multiplier, or AttributeError |
| Cbook.MultiplierAttribute.Set | pymontecarlo/util/cbook.py:32-33 | stores value / multiplier and changes nothing else, so a get returns the value; ZeroDivisionError leaves the object unchanged |
| Cbook.MultiplierAttribute.Delete | pymontecarlo/util/cbook.py:35-36 | the intended deleter removes the attribute, after which a get raises AttributeError |
| Sphere.BuildMatchesLength | pymontecarlo/util/cbook.py:14-15 | a builder's length is the number of samples `build` returns; a sample is built exactly when each of its parts was added; in pymontecarlo/options/sample/sphere.py, lines 59-74: `len(builder)` equals the number of built samples, and exactly the added combinations are built |
| Sphere.SphereSampleBuilder.Build | pymontecarlo/options/sample/sphere.py:70-74 | one sample per element of materials × diameters × tilts × rotations; `Sphere.BuildMatchesLength` states its length and membership |
| Sphere.EqualProperties | pymontecarlo/options/sample/sphere.py:36-39 | a sphere equals itself; a different material or diameter makes spheres unequal; with both equal, equality is the base sample's |
| Sphere.Equal | pymontecarlo/options/sample/sphere.py:36-39 | intended behaviour (Findings row 4: the base equality is `SampleBase.SampleEqual` with the 0.001 degree tolerance, not `SampleBase.SampleEqualAsWritten`): `__eq__`: the base sample equality, the same material and exactly the same diameter; its consequences are stated by `Sphere.EqualProperties` |
| Sphere.Materials | pymontecarlo/options/sample/sphere.py:48-50 | the sphere's material, or nothing when it is VACUUM |
| Sphere.SamplesLength | pymontecarlo/options/sample/sphere.py:59-61 | the product yields tilts × rotations × materials × diameters samples |
| Sphere.SamplesMember | pymontecarlo/options/sample/sphere.py:70-74 | a sample is in the product exactly when its material, diameter, tilt and rotation are each among the choices |
| Sphere.SphereSampleBuilder.Init | pymontecarlo/options/sample/sphere.py:54-57 | a builder with no materials, diameters, tilts or rotations |
| Sphere.SphereSampleBuilder.AddMaterial | pymontecarlo/options/sample/sphere.py:63-65 | appends the material unless already present, keeping first-insertion order |
| Sphere.SphereSampleBuilder.AddDiameter | pymontecarlo/options/sample/sphere.py:67-68 | inserts the diameter into the set |
| VerticalLayers.Create | pymontecarlo/options/sample/verticallayers.py:16-33 | keeps both materials; no layers means none; no depth means an infinite one |
| VerticalLayers.EqualProperties | pymontecarlo/options/sample/verticallayers.py:40-44 | a sample equals itself; different materials, or one finite and one infinite depth, make samples unequal |
| VerticalLayers.Equal | pymontecarlo/options/sample/verticallayers.py:40-44 | intended behaviour (Findings row 4: built on `SampleBase.SampleEqual` with the 0.001 degree tolerance): `__eq__`: layered-sample equality, the same left and right materials and the same depth; its consequences are stated by `VerticalLayers.EqualProperties` |
| VerticalLayers.Materials | pymontecarlo/options/sample/verticallayers.py:46-50 | intended behaviour (Findings row 5: every VACUUM removed, as `SampleBase.CleanupMaterials` does): distinct non-VACUUM materials that include the left and right materials unless VACUUM |
| VerticalLayers.MaterialsCoverSample | pymontecarlo/options/sample/verticallayers.py:46-50 | intended behaviour (Findings row 5): the materials are exactly the left, right and layer materials that are not VACUUM |
| SampleBase.TiltToleranceTooTight | pymontecarlo/options/sample/base.py:24-25 | as written, two samples 0.0005° apart in tilt are unequal although within the 0.001° tolerance; with the intended tolerance they are equal |
| SampleBase.SampleEqualWithinTolerance | pymontecarlo/options/sample/base.py:42-45 | with the 0.001° tolerance, samples whose tilts and rotations are that close are equal exactly when their base parts are; equality is symmetric |
| SampleBase.SampleEqual | pymontecarlo/options/sample/base.py:42-45 | intended behaviour (Findings row 4): the base equality and tilts and rotations close within 0.001 degree; `SampleBase.SampleEqualWithinTolerance` states it |
| SampleBase.CleanupMaterialsAsWritten | pymontecarlo/options/sample/base.py:47-53 | as written: no repeats, only given materials, and no VACUUM when VACUUM occurred at most once |
| SampleBase.CleanupKeepsSecondVacuum | pymontecarlo/options/sample/base.py:50-51 | two VACUUM entries leave VACUUM in the result as written; the intended clean-up removes both |
| SampleBase.CleanupMaterials | pymontecarlo/options/sample/base.py:47-53 | the intended clean-up: no repeats, no VACUUM, only given materials, and every non-VACUUM material kept |
| SampleBase.CleanupAgreesOnSingleVacuum | pymontecarlo/options/sample/base.py:47-53 | the code as written and the intended clean-up agree when VACUUM occurs at most once |
| SampleBase.CleanupOfClean | pymontecarlo/options/sample/base.py:47-53 | materials without VACUUM or repeats come through unchanged |
| SampleBase.AddTiltDegNeverAdds | pymontecarlo/options/sample/base.py:96-97 | `add_tilt_deg` as written calls itself with ever smaller angles and never adds a tilt; it ends in RecursionError |
| SampleBase.SampleBuilder.Init | pymontecarlo/options/sample/base.py:74-76 | empty tilt and rotation sets |
| SampleBase.SampleBuilder.GetCombinations | pymontecarlo/options/sample/base.py:82-91 | an empty set is replaced by [0.0]; the other is kept |
| SampleBase.SampleBuilder.Length | pymontecarlo/options/sample/base.py:78-80 | the number of tilts times the number of rotations, an empty set counting as one |
| SampleBase.SampleBuilder.AddTiltRad | pymontecarlo/options/sample/base.py:93-94 | a set insertion of the tilt |
| SampleBase.SampleBuilder.AddTiltDeg | pymontecarlo/options/sample/base.py:96-97 | the intended behaviour: the angle converted to radians and inserted |
| SampleBase.SampleBuilder.AddRotationRad | pymontecarlo/options/sample/base.py:99-100 | a set insertion of the rotation |
| SampleBase.SampleBuilder.AddRotationDeg | pymontecarlo/options/sample/base.py:102-103 | the angle converted to radians and inserted |
| SampleBase.LayerEqualProperties | pymontecarlo/options/sample/base.py:125-127 | layer equality is reflexive and symmetric, holds for thicknesses within 1e-12 m, and needs equal materials |
| SampleBase.LayerEqual | pymontecarlo/options/sample/base.py:125-127 | `Layer.__eq__`: the same material and thicknesses close within the tolerance; `SampleBase.LayerEqualProperties` states its consequences |
| SampleBase.LayeredEqualProperties | pymontecarlo/options/sample/base.py:138-140 | a layered sample equals itself; a different number of layers makes samples unequal |
| SampleBase.LayeredEqual | pymontecarlo/options/sample/base.py:138-140 | intended behaviour (Findings row 4: built on `SampleBase.SampleEqual` with the 0.001 degree tolerance): `LayeredSample.__eq__`: sample equality and pairwise equal layers; `SampleBase.LayeredEqualProperties` states its consequences |
| SampleBase.LayeredMaterials | pymontecarlo/options/sample/base.py:164-167 | intended behaviour (Findings row 5: every VACUUM removed, as `SampleBase.CleanupMaterials` does): distinct, VACUUM-free, every non-VACUUM layer material, nothing else |
| SampleBase.LayeredSample.constructor | pymontecarlo/options/sample/base.py:131-136 | no layers given means none; the orientation is kept |
| SampleBase.LayeredSample.AddLayer | pymontecarlo/options/sample/base.py:142-154 | appends the new layer after the others and returns it; its material is then among the materials unless VACUUM |
| SampleBase.LayeredSample.Materials | pymontecarlo/options/sample/base.py:164-167 | intended behaviour (Findings row 5): distinct, VACUUM-free, and every non-VACUUM layer material |
| Sample.InDegrees | pymontecarlo/options/sample.py:48-49 | `tilt_deg`/`rotation_deg` read the radian field times 180/π; converting back to radians gives the stored value |
| Sample.DegreesRoundTrip | pymontecarlo/options/sample.py:48-49 | writing an angle in degrees stores its radians, and reading it back gives the degrees written |
| Sample.GetMaterials | pymontecarlo/options/sample.py:66-90 | a substrate or sphere lists its one material; an inclusion lists the substrate material then the inclusion material |
| Sample.LayerMaterials | pymontecarlo/options/sample.py:166 | one material per layer, in layer order |
| Sample.LayerMaterialsAppend | pymontecarlo/options/sample.py:150-166 | a layer added at the end adds its material at the end of the list |
| Sample.HorizontalLayers.constructor | pymontecarlo/options/sample.py:112-133 | no substrate material means VACUUM (so no substrate); no layers means none; the orientation is kept |
| Sample.HorizontalLayers.AddLayer | pymontecarlo/options/sample.py:150-162 | appends one layer of the given material and thickness at the end, returns it, and keeps the earlier layers |
| Sample.HorizontalLayers.GetMaterials | pymontecarlo/options/sample.py:164-167 | the substrate material first, then each layer's material in order |
| Sample.VerticalLayers.constructor | pymontecarlo/options/sample.py:171-192 | left and right materials kept; no layers means none; no depth means an infinite depth |
| Sample.VerticalLayers.AddLayer | pymontecarlo/options/sample.py:199-211 | appends one layer at the end, returns it, and keeps the earlier layers |
| Sample.VerticalLayers.GetMaterials | pymontecarlo/options/sample.py:213-216 | left, right, then each layer's material in order |
| Cylindrical.DefaultBeam | pymontecarlo/options/beam/cylindrical.py:23-51 | the default beam is an electron beam centred at (0, 0) with the given energy and diameter |
| Cylindrical.EqualReflexiveSymmetric | pymontecarlo/options/beam/cylindrical.py:57-61 | a beam equals itself and beam equality is symmetric |
| Cylindrical.Equal | pymontecarlo/options/beam/cylindrical.py:57-61 | `__eq__`: the base beam equality, then diameter and centre coordinates close within 1e-12 m; `Cylindrical.EqualReflexiveSymmetric`, `Cylindrical.EqualWithinTolerance` and `Cylindrical.DistinctCentres` state its properties |
| Cylindrical.EqualWithinTolerance | pymontecarlo/options/beam/cylindrical.py:20-21 | diameters and centres within 1e-12 m of each other make beams equal exactly when their base parts are equal |
| Cylindrical.DistinctCentres | pymontecarlo/options/beam/cylindrical.py:57-61 | the converse of `EqualWithinTolerance` for centres within 1 mm of the origin: centres more than 1e-12 m apart along x or y make beams unequal, whatever the base equality |
| Cylindrical.BuildParticles | pymontecarlo/options/beam/cylindrical.py:90-92 | no particles means [ELECTRON]; otherwise the particles as given; never empty |
| Cylindrical.BuiltLength | pymontecarlo/options/beam/cylindrical.py:94-104 | one beam per combination: energies × diameters × particles × positions |
| Cylindrical.BuiltMember | pymontecarlo/options/beam/cylindrical.py:94-104 | a beam is built exactly when its energy, diameter, particle and centre are each among the given ones |
| Cylindrical.BuiltDistinct | pymontecarlo/options/beam/cylindrical.py:94-104 | sets without repeats give a beam list without repeats |
| Cylindrical.Arange | pymontecarlo/options/beam/cylindrical.py:83 | `numpy.arange`: point i is start + i·step |
| Cylindrical.ArangeCoversInterval | pymontecarlo/options/beam/cylindrical.py:83 | with a positive step every point lies in [start, stop) and the grid reaches stop |
| Cylindrical.LinePositions | pymontecarlo/options/beam/cylindrical.py:83-84 | one position (x, y0) per scan point, in order |
| Cylindrical.CylindricalBeamBuilder.Init | pymontecarlo/options/beam/cylindrical.py:65-68 | a builder with no energies, particles, diameters or positions |
| Cylindrical.CylindricalBeamBuilder.AddDiameter | pymontecarlo/options/beam/cylindrical.py:76-77 | a set insertion of the diameter |
| Cylindrical.CylindricalBeamBuilder.AddPosition | pymontecarlo/options/beam/cylindrical.py:79-80 | a set insertion of the pair (x0, y0) |
| Cylindrical.CylindricalBeamBuilder.AddLinescanX | pymontecarlo/options/beam/cylindrical.py:82-84 | a zero step fails with ZeroDivisionError and adds nothing; otherwise every scan point at y0 is inserted |
| Cylindrical.CylindricalBeamBuilder.Build | pymontecarlo/options/beam/cylindrical.py:89-104 | the beams of every combination of energy, diameter, particle (defaulting to electrons) and position, in product order |
| Cylindrical.LengthIsBuildLength | pymontecarlo/options/beam/cylindrical.py:70-74 | `__len__` equals the number of beams `build` returns |
| Beam.PencilBeam.Init | src/core/pymontecarlo/options/beam.py:70-94 | a pencil beam holding the given energy, particle, origin, direction and aperture |
| Beam.PencilBeam.Create | src/core/pymontecarlo/options/beam.py:50-53 | ValueError exactly when the energy is not above 0 eV or the aperture is outside [0, π/2] rad; otherwise a valid new beam |
| Beam.PencilBeam.CreateDefault | src/core/pymontecarlo/options/beam.py:70-72 | the defaults (electron, origin (0, 0, 1), direction (0, 0, -1), no aperture); ValueError exactly for an energy not above 0 eV |
| Beam.PencilBeam.SetEnergy | src/core/pymontecarlo/options/beam.py:50-51 | the `energy` parameter accepts exactly energies above 0 eV and otherwise raises ValueError and keeps the old energy |
| Beam.PencilBeam.SetAperture | src/core/pymontecarlo/options/beam.py:52-53 | the `aperture` parameter accepts exactly [0, π/2] rad and otherwise raises ValueError and keeps the old aperture |
| Beam.GaussianBeam.Init | src/core/pymontecarlo/options/beam.py:130-154 | a Gaussian beam with the pencil-beam part and the diameter given |
| Beam.GaussianBeam.Create | src/core/pymontecarlo/options/beam.py:122-154 | ValueError exactly when the energy, aperture or diameter (which must be ≥ 0) is invalid; otherwise a valid new beam with that diameter |
| Beam.GaussianBeam.SetDiameter | src/core/pymontecarlo/options/beam.py:122-128 | the `diameter` parameter accepts exactly diameters ≥ 0 and otherwise raises ValueError and keeps the old diameter |
| Beam.Lower | src/core/pymontecarlo/options/beam.py:177 | `axis.lower()`: the same length, each character lower-cased |
| Beam.AxisOfCases | src/core/pymontecarlo/options/beam.py:177-184 | the axis is x, y or z exactly for "x"/"X", "y"/"Y", "z"/"Z" |
| Beam.AxisOf | src/core/pymontecarlo/options/beam.py:177-184 | `axis.lower()` against x, y and z; `Beam.AxisOfCases` states that exactly x/X, y/Y and z/Z are recognised |
| Beam.Rotate | src/core/pymontecarlo/options/beam.py:178-182 | the plane rotation (c·x − s·y, s·x + c·y) of the rotation matrices; `Beam.RotateKeepsNorm` and `Beam.RotateBack` state that it keeps lengths and is undone by the opposite angle |
| Beam.Tilt | src/core/pymontecarlo/options/beam.py:177-186 | the rotation leaves the coordinate along its axis unchanged |
| Beam.TiltBeam | src/core/pymontecarlo/options/beam.py:163-186 | ValueError exactly for an unknown axis; otherwise the direction rotated about that axis |
| Beam.RotateKeepsNorm | src/core/pymontecarlo/options/beam.py:178-182 | a plane rotation with c² + s² = 1 keeps the length |
| Beam.RotateBack | src/core/pymontecarlo/options/beam.py:178-182 | rotating by the opposite angle undoes a plane rotation |
| Beam.SameNorm | src/core/pymontecarlo/options/beam.py:178-186 | a vector with the axis coordinate kept and an equally long rest has the same length |
| Beam.TiltKeepsNorm | src/core/pymontecarlo/options/beam.py:163-186 | tilting keeps the length of the direction |
| Beam.TiltBackRestores | src/core/pymontecarlo/options/beam.py:163-186 | tilting by the opposite angle about the same axis gives the original direction back |
| Beam.FwhmToSigma | src/core/pymontecarlo/options/beam.py:188-197 | the result times 1.177411 is the given diameter |
| Beam.SigmaToFwhm | src/core/pymontecarlo/options/beam.py:199-208 | the result divided by 1.177411 is the given diameter |
| Beam.DiameterConversionsInverse | src/core/pymontecarlo/options/beam.py:188-208 | each conversion inverts the other |
| Composition.SumDivided | pymontecarlo/util/composition.py:63-66 | dividing every value by the same non-zero number divides their sum by it |
| Composition.Resolve | pymontecarlo/util/composition.py:28-30 | every parsed symbol resolves to an atomic number, or the lookup fails as a whole; one element reference per parsed pair |
| Composition.ElementsOf | pymontecarlo/util/composition.py:39-44 | the keys the default dictionary ends with: each referenced element once, nothing else |
| Composition.Masses | pymontecarlo/util/composition.py:41-44 | each element's entry holds the mass of all its references |
| Composition.FormulaComposition | pymontecarlo/util/composition.py:22-46 | `composition_from_formula`: each element's mass over the total mass; `Composition.MassesMakeTotal` and `Composition.MassesAppend` state the masses it divides |
| Composition.MassOfAbsent | pymontecarlo/util/composition.py:41-44 | an element the formula never references contributes no mass |
| Composition.MassesAppend | pymontecarlo/util/composition.py:34-36 | one more reference adds its mass to its own element's entry only |
| Composition.MassesMakeTotal | pymontecarlo/util/composition.py:33-36 | the per-element masses add up to the total atomic mass |
| Composition.FormulaFractionsSumToOne | pymontecarlo/util/composition.py:22-46 | the weight fractions n·A / Σ n·A of a formula add up to 1 (repeated symbols accumulated), keyed by its distinct elements; in src/python/pymontecarlo/input/base/material.py, lines 59-74: its weight fractions add up to 1, repeated symbols accumulated into one entry |
| Composition.PositiveCountsPositiveMass | pymontecarlo/util/composition.py:33-36 | positive counts and positive atomic weights give a positive total mass, so the division is defined |
| Composition.CompositionFromFormula | pymontecarlo/util/composition.py:22-46 | ValueError for an unknown symbol; ZeroDivisionError for a zero total mass; otherwise the accumulated weight fractions; an empty formula gives an empty composition; in src/python/pymontecarlo/input/base/material.py, lines 34-74: the older `composition_from_formula` runs the same three loops: ValueError for an unknown symbol, otherwise the accumulated weight fractions n·A / Σ n·A |
| Composition.ResolveSymbols | pymontecarlo/util/composition.py:28-30 | the loop resolves exactly as the specification function |
| Composition.TotalAtomicMass | pymontecarlo/util/composition.py:33-36 | the loop computes Σ count·atomic weight |
| Composition.WeightFractions | pymontecarlo/util/composition.py:39-44 | the loop builds each element's Σ count·weight / total, keys in order of first reference |
| Composition.PerWeight | pymontecarlo/util/composition.py:60-61 | each weight fraction divided by its element's atomic weight, same keys |
| Composition.AtomicComposition | pymontecarlo/util/composition.py:48-68 | keys kept; ZeroDivisionError exactly when there is an entry and Σ w/A is 0 |
| Composition.AtomicFractionsSumToOne | pymontecarlo/util/composition.py:63-66 | the atomic fractions add up to 1 |
| Composition.PerDensity | pymontecarlo/util/composition.py:87-88 | each weight fraction divided by its element's mass density |
| Composition.DensityKgPerM3 | pymontecarlo/util/composition.py:70-90 | ZeroDivisionError exactly when Σ w/ρ is 0; otherwise ρ with ρ · Σ w/ρ = 1 |
| Composition.PureElementDensity | pymontecarlo/util/composition.py:85-90 | a single element of fraction 1 gets its own mass density |
| Composition.PyMod | pymontecarlo/util/composition.py:116 | Python's `%`: the remainder has the sign of the divisor |
| Composition.MinGcdWith | pymontecarlo/util/composition.py:115-117 | the smallest gcd of one count with any later count, attained by one of them |
| Composition.PairMinGcdIsSmallest | pymontecarlo/util/composition.py:115-117 | the minimum over all pairs is attained and below every pair's gcd |
| Composition.SmallestGcdUnique | pymontecarlo/util/composition.py:117 | there is only one smallest gcd |
| Composition.Divisor | pymontecarlo/util/composition.py:119-120 | the divisor is never 0 (a smallest gcd of 0 becomes 100) |
| Composition.SmallestGcd | pymontecarlo/util/composition.py:112-117 | 100 for fewer than two counts; otherwise the smallest gcd over the pairs |
| Composition.SmallestOverPairs | pymontecarlo/util/composition.py:114-117 | the loop over `itertools.combinations(fractions, 2)` finds the minimum of the pairs |
| Composition.NatToString | pymontecarlo/util/composition.py:131 | `%i` writes decimal digits, at least one |
| Composition.InsertDesc | pymontecarlo/util/composition.py:107 | inserting into the sorted keys adds exactly that key |
| Composition.InsertDescKeepsOrder | pymontecarlo/util/composition.py:107 | insertion keeps the keys strictly descending |
| Composition.SortDesc | pymontecarlo/util/composition.py:107 | `sorted(keys, reverse=True)` has the same keys |
| Composition.SortDescIsSorted | pymontecarlo/util/composition.py:107 | and lists them in strictly descending atomic number |
| Composition.LookupAt | pymontecarlo/util/composition.py:109 | looking up a key gives its entry's value |
| Composition.Counts | pymontecarlo/util/composition.py:109 | one count `int(100 · fraction)` per element |
| Composition.GenerateName | pymontecarlo/util/composition.py:92-133 | the loop program computes the name the specification function defines |
| Composition.GeneratedName | pymontecarlo/util/composition.py:92-133 | the empty name for an empty composition; ZeroDivisionError, and only that, exactly when a non-empty composition has zero total atomic weight |
| Composition.SymbolsAndCounts | pymontecarlo/util/composition.py:105-109 | the symbols and counts in descending atomic-number order |
| Composition.WriteFormula | pymontecarlo/util/composition.py:123-131 | the name is the concatenation of each part: nothing for 0, the bare symbol for 1, symbol and count otherwise |
| Composition.PureElementName | pymontecarlo/util/composition.py:92-133 | a pure element is named by its bare symbol |
| Material.Completed | src/python/pymontecarlo/input/base/material.py:207-211 | every wildcard replaced by the same fraction; keys and order kept |
| Material.CalculateComposition | src/python/pymontecarlo/input/base/material.py:174-218 | the three loops compute the specification function: ValueError for an atomic number outside [1, 96], a given fraction outside (0, 1], or a completed total above 1 + 1e-6 |
| Material.CalculatedComposition | src/python/pymontecarlo/input/base/material.py:174-218 | only ValueError, always for an invalid entry; otherwise one entry per given one with the same atomic number, given fractions kept, and a total at most 1 + 1e-6 |
| Material.CompletedSum | src/python/pymontecarlo/input/base/material.py:192-214 | the completed total is the given total plus the wildcard fraction once per wildcard |
| Material.CompletionKeepsGiven | src/python/pymontecarlo/input/base/material.py:201-211 | completion keeps the keys and every given fraction and puts (1 − total) / count at every wildcard |
| Material.WildcardsCompleteToOne | src/python/pymontecarlo/input/base/material.py:201-216 | valid fractions totalling below 1 with a wildcard complete to exactly 1 and are accepted |
| Material.AcceptedUpToTolerance | src/python/pymontecarlo/input/base/material.py:213-216 | valid items are accepted exactly when the completed total is at most 1 + 1e-6, so totals below 1 are accepted too |
| Material.WeightedDensityPositive | src/python/pymontecarlo/input/base/material.py:220-226 | positive fractions of at least one element give a positive calculated density |
| Material.Material.Init | src/python/pymontecarlo/input/base/material.py:131-136 | the name, composition, density and absorption energies as stored |
| Material.Material.Create | src/python/pymontecarlo/input/base/material.py:99-136 | ValueError exactly when the composition is rejected or an absorption energy is negative; otherwise a valid material with that name |
| Material.Material.SetComposition | src/python/pymontecarlo/input/base/material.py:249-251 | the stored composition becomes the calculated one; on ValueError it is unchanged |
| Material.Material.SetDensity | src/python/pymontecarlo/input/base/material.py:263-269 | the setter stores the density and the deleter stores None |
| Material.Material.SetAbsorptionEnergyElectron | src/python/pymontecarlo/input/base/material.py:285-290 | ValueError exactly for a negative energy, which leaves the old one |
| Material.Material.SetAbsorptionEnergyPhoton | src/python/pymontecarlo/input/base/material.py:299-304 | ValueError exactly for a negative energy, which leaves the old one |
| Material.Material.Density | src/python/pymontecarlo/input/base/material.py:253-276 | the user density when it is set and ≥ 0, otherwise Σ mass density · fraction |
| Material.Pure | src/python/pymontecarlo/input/base/material.py:76-95 | ValueError exactly for an atomic number outside [1, 96] or a negative energy, and no other error; otherwise the element's name, composition {z: 1.0}, no user density, and the two absorption energies as given |
| Material.PureComposition | src/python/pymontecarlo/input/base/material.py:92 | {z: '?'} is accepted exactly for 1 ≤ z ≤ 96 and completes to {z: 1.0} |
| Material.PureDensity | src/python/pymontecarlo/input/base/material.py:220-226 | the calculated density of a pure element is the element's own density |
| Material.Vacuum | src/python/pymontecarlo/input/base/material.py:306-311 | VACUUM: named "Vacuum", no elements, a defined density of 0 and absorption energies of 0 |
| Material.VacuumComposition | src/python/pymontecarlo/input/base/material.py:174-218 | the empty composition is accepted unchanged |
| PenelopeMaterial.ElasticScattering | pymontecarlo/input/penelope/material.py:159-171 | a pair gives (C1, C2) and a single number gives C1 = C2; ValueError exactly when either lies outside [0, 0.2] |
| PenelopeMaterial.PenelopeMaterial.Init | pymontecarlo/input/penelope/material.py:116-121 | the base material plus the stored coefficients and cutoff energies |
| PenelopeMaterial.PenelopeMaterial.Create | pymontecarlo/input/penelope/material.py:69-121 | ValueError exactly when the base material, the coefficients or a cutoff energy is rejected; otherwise a valid material |
| PenelopeMaterial.PenelopeMaterial.SetElasticScattering | pymontecarlo/input/penelope/material.py:159-171 | the coefficients are stored when valid; on ValueError the old ones are kept |
| PenelopeMaterial.PenelopeMaterial.SetCutoffEnergyInelastic | pymontecarlo/input/penelope/material.py:180-185 | ValueError exactly for a negative energy, which leaves the old one |
| PenelopeMaterial.PenelopeMaterial.SetCutoffEnergyBremsstrahlung | pymontecarlo/input/penelope/material.py:194-199 | ValueError exactly for a negative energy, which leaves the old one |
| PenelopeMaterial.SaveAttributes | pymontecarlo/input/penelope/material.py:143-149 | the attributes c1, c2, wcc and wcr, and only those |
| PenelopeMaterial.LoadAttributes | pymontecarlo/input/penelope/material.py:130-141 | TypeError when one of c1, c2, wcc, wcr is missing; otherwise the parameters read back, or ValueError when a setter rejects them |
| PenelopeMaterial.XmlRoundTrip | pymontecarlo/input/penelope/material.py:130-149 | saving then loading gives the parameters back when they are valid and ValueError otherwise |
| PenelopeMaterial.Pure | pymontecarlo/input/penelope/material.py:31-66 | ValueError exactly when z is outside [1, 96] or a parameter is rejected, and no other error; otherwise the element's name, composition {z: 1.0}, no user density, the two absorption energies, the elastic-scattering pair and the two cutoff energies as given |
| PenelopeMaterial.Vacuum | pymontecarlo/input/penelope/material.py:201-206 | the vacuum with coefficients (0, 0) and zero cutoff energies |
| PenelopeBody.ForcingSet | src/python/pymontecarlo/input/penelope/body.py:50-52 | the forcings read from the children form a set holding exactly the children |
| PenelopeBody.LoadBody | src/python/pymontecarlo/input/penelope/body.py:43-54 | TypeError for a missing step attribute or forcing child list, ValueError for a step outside [0, 1e20]; otherwise the step read and every forcing child |
| PenelopeBody.Body.Init | src/python/pymontecarlo/input/penelope/body.py:33-37 | no forcings and the given step |
| PenelopeBody.Body.Create | src/python/pymontecarlo/input/penelope/body.py:33-37 | ValueError exactly when the step (1e20 by default) lies outside [0, 1e20]; otherwise a valid body of that material |
| PenelopeBody.Body.SetMaximumStepLength | src/python/pymontecarlo/input/penelope/body.py:81-86 | ValueError exactly outside [0, 1e20], which leaves the old step |
| PenelopeBody.Body.AddInteractionForcing | src/python/pymontecarlo/input/penelope/body.py:66-72 | `interaction_forcings.add` is a set insertion |
| PenelopeBody.Body.SaveXml | src/python/pymontecarlo/input/penelope/body.py:56-64 | the step as attribute and one child per forcing, each forcing once |
| PenelopeBody.Body.LoadXml | src/python/pymontecarlo/input/penelope/body.py:43-54 | fails exactly as LoadBody does, with its error; otherwise a fresh body holding the state it reads |
| PenelopeBody.XmlRoundTrip | src/python/pymontecarlo/input/penelope/body.py:43-64 | loading what a valid body saved gives back its step and forcing set |
| PenelopeBody.Layer.Init | src/python/pymontecarlo/input/penelope/body.py:88-94 | a layer of the given body and thickness |
| PenelopeBody.Layer.Create | src/python/pymontecarlo/input/penelope/body.py:89-94 | the step defaults to thickness / 10; ValueError exactly when it lies outside [0, 1e20]; no forcings |
| PenelopeBody.LoadLayerAsWritten | src/python/pymontecarlo/input/penelope/body.py:96-101 | as written the layer is rebuilt from material, thickness and step only, so it loads with no forcings |
| PenelopeBody.LayerLoadDropsForcings | src/python/pymontecarlo/input/penelope/body.py:96-101 | a layer element carrying one forcing loads without it |
| PenelopeBody.LoadLayer | src/python/pymontecarlo/input/penelope/body.py:96-101 | the intended load: it fails as the body part does, and otherwise keeps the thickness, the step and every forcing |
| PenelopeBody.Layer.LoadXml | src/python/pymontecarlo/input/penelope/body.py:96-105 | the corrected layer load: its result holds the state LoadLayer describes |
| PenelopeBody.LayerXmlRoundTrip | src/python/pymontecarlo/input/penelope/body.py:96-105 | saving a layer's body part and loading it gives back thickness, step and forcings |
| PenelopeConverter.DefaultModelsSupported | code/python/pymontecarlo/input/penelope/converter.py:73-84 | every model type with a supported list has a default, and each default is among the supported models of its type |
| PenelopeConverter.Options.Init | code/python/pymontecarlo/input/penelope/converter.py:103-115 | options holding the given beam |
| PenelopeConverter.LayerMaterials | code/python/pymontecarlo/input/penelope/converter.py:181-182 | the set of layer materials holds exactly the materials of the layers |
| PenelopeConverter.AsGiven | code/python/pymontecarlo/input/penelope/converter.py:169 | a computed composition handed back to the constructor: every key with its fraction as a given number |
| PenelopeConverter.RecalculatedComposition | code/python/pymontecarlo/input/penelope/converter.py:169-172 | a computed composition whose items are valid and whose total is within 1 + 1e-6 is accepted back unchanged; one holding a zero fraction is rejected with ValueError |
| PenelopeConverter.Converter.Init | code/python/pymontecarlo/input/penelope/converter.py:87-101 | the default elastic scattering and cutoff energies as given, no warnings yet |
| PenelopeConverter.Converter.ConvertBeam | code/python/pymontecarlo/input/penelope/converter.py:103-115 | a ConversionException on a pencil beam becomes a Gaussian beam of diameter 0 with the same energy, origin, direction and aperture plus one warning; any other failure is raised again; success changes nothing |
| PenelopeConverter.Converter.CreatePenelopeMaterial | code/python/pymontecarlo/input/penelope/converter.py:165-172 | VACUUM becomes the PENELOPE VACUUM; any other material keeps its name, composition, density and energies and takes the default coefficients and cutoffs; ValueError exactly when the new material is rejected |
| PenelopeConverter.Converter.CreatePenelopeMaterials | code/python/pymontecarlo/input/penelope/converter.py:157-163 | one converted material per original material, distinct originals other than VACUUM getting distinct objects; ValueError when any is rejected |
| PenelopeConverter.Converter.CreatePenelopeBody | code/python/pymontecarlo/input/penelope/converter.py:174-176 | a fresh body of the looked-up material with the default step |
| PenelopeConverter.Converter.CreatePenelopeLayers | code/python/pymontecarlo/input/penelope/converter.py:178-190 | one fresh layer per layer in order, same material and thickness, step a tenth of the thickness; ValueError exactly when such a step lies outside [0, 1e20] |
| PenelopeConverter.Converter.ConvertMultiLayers | code/python/pymontecarlo/input/penelope/converter.py:134-142 | the substrate converted when present and the layers replaced by their converted list |
| PenelopeConverter.Converter.ConvertInclusion | code/python/pymontecarlo/input/penelope/converter.py:128-132 | the inclusion branch never fails; the substrate and inclusion bodies are each converted from the given body |
| PenelopeConverter.Converter.ConvertGrainBoundaries | code/python/pymontecarlo/input/penelope/converter.py:144-153 | left and right bodies converted and the layers replaced by their converted list |
| PenelopeConverter.Converter.DispatchGeometry | code/python/pymontecarlo/input/penelope/converter.py:124-155 | each supported geometry has its bodies and layers converted; any other raises ConversionException |
| PenelopeConverter.Converter.ConvertGeometry | code/python/pymontecarlo/input/penelope/converter.py:117-155 | the base conversion's failure is raised; then a rejected material gives ValueError and an unsupported geometry ConversionException; otherwise every body and layer is replaced |
| Options.Detectors.Init | code/python/pymontecarlo/input/base/options.py:35-36 | an empty dictionary |
| Options.Detectors.SetItem | code/python/pymontecarlo/input/base/options.py:47-48 | the name now maps to the detector; other names unchanged |
| Options.Detectors.GetItem | code/python/pymontecarlo/input/base/options.py:41-42 | the stored detector exactly when the name is present, KeyError otherwise |
| Options.Detectors.DelItem | code/python/pymontecarlo/input/base/options.py:44-45 | the name removed; KeyError exactly when it was absent, the dictionary then unchanged |
| Options.Detectors.FindAll | code/python/pymontecarlo/input/base/options.py:53-54 | exactly the entries whose detector is an instance of the class, with their values |
| Options.Select | code/python/pymontecarlo/input/base/options.py:54 | a filter keeps only keys of the dictionary |
| Options.SelectPartition | code/python/pymontecarlo/input/base/options.py:53-54 | the instances of a class and the others split the dictionary into two disjoint parts that rebuild it |
| Options.ContainsIsLookup | code/python/pymontecarlo/input/base/options.py:66-67 | membership by value in `_data.values()` is lookup under the item's key |
| Options.LengthCountsItems | code/python/pymontecarlo/input/base/options.py:60-61 | the length equals the number of distinct stored items |
| Options.KeyedSet.Init | code/python/pymontecarlo/input/base/options.py:57-58 | an empty container with the given key function |
| Options.KeyedSet.Add | code/python/pymontecarlo/input/base/options.py:69-71 | the item replaces whatever was stored under its key, and is then found and contained |
| Options.KeyedSet.Discard | code/python/pymontecarlo/input/base/options.py:73-74 | the entry under the item's key is removed even when a different item of that key is stored; KeyError exactly when the key was absent |
| Options.KeyedSet.Find | code/python/pymontecarlo/input/base/options.py:76-77 | the stored item of that key, or the default (None) exactly when the key is absent |
| Options.AddAllKeepsLast | code/python/pymontecarlo/input/base/options.py:92-94 | after a series of adds each key holds the last item added with it, and nothing else is keyed |
| Options.Options.Init | code/python/pymontecarlo/input/base/options.py:107-131 | named 'Untitled' by default, a 1 keV 10 nm Gaussian beam, a gold substrate, and empty detectors, limits (keyed by class) and models (keyed by type) |
| MonacoConverter.DefaultModelsSupported | code/pymontecarlo/program/monaco/input/converter.py:50-59 | every model type has a default, and each default is among the supported models of its type |
| MonacoConverter.Geometry.Init | code/pymontecarlo/program/monaco/input/converter.py:79 | a geometry with the given tilt |
| MonacoConverter.CountOf | code/pymontecarlo/program/monaco/input/converter.py:88-89 | the number of detectors of a class is zero exactly when none has that class |
| MonacoConverter.DelimitedOf | code/pymontecarlo/program/monaco/input/converter.py:93 | the delimited detectors, each taken from the detectors, and every delimited detector among them |
| MonacoConverter.AcceptedDetectorsPairwiseClose | code/pymontecarlo/program/monaco/input/converter.py:92-114 | when every delimited detector's windows are within 1e-6 of the first one's, any two are within 2e-6 of each other |
| MonacoConverter.Converter.Init | code/pymontecarlo/program/monaco/input/converter.py:45 | no warnings yet |
| MonacoConverter.Converter.ConvertBeam | code/pymontecarlo/program/monaco/input/converter.py:61-74 | the base failure is raised again; otherwise ConversionException exactly for a non-electron particle or an energy above 400 keV; a non-zero aperture on an accepted beam adds one warning |
| MonacoConverter.Converter.ConvertGeometry | code/pymontecarlo/program/monaco/input/converter.py:76-82 | after the base conversion the tilt is 0, and one warning is added exactly when it was not 0 |
| MonacoConverter.Count | code/pymontecarlo/program/monaco/input/converter.py:88-89 | the loop counts the detectors of a class |
| MonacoConverter.ConvertDetectors | code/pymontecarlo/program/monaco/input/converter.py:84-114 | the base failure is raised again; otherwise ConversionException exactly when there are two detectors of a supported class or a delimited detector's elevation or azimuth differs from the first one's by more than 1e-6 |
| MonacoConverter.ConvertLimits | code/pymontecarlo/program/monaco/input/converter.py:116-121 | the base failure is raised again; otherwise ConversionException exactly when there is no showers limit |
| TaskQueue.JoinReturnsOnlyWhenDrained | src/core/pymontecarlo/util/queue.py:49-56 | `join` returns only when no task is unfinished; while tasks remain and nothing is recorded it keeps waiting |
| TaskQueue.JoinSpec | src/core/pymontecarlo/util/queue.py:49-56 | the outcome of `join` after the given wait rounds; `TaskQueue.JoinReturnsOnlyWhenDrained`, `TaskQueue.JoinRaisesRecorded` and `TaskQueue.JoinRaisesAfterFirstRound` state it |
| TaskQueue.JoinRaisesRecorded | src/core/pymontecarlo/util/queue.py:49-56 | `join` raises exactly the exception it ends with recorded, and returns at once with nothing unfinished even when an exception is recorded |
| TaskQueue.JoinRaisesAfterFirstRound | src/core/pymontecarlo/util/queue.py:53-56 | with an exception recorded and tasks unfinished, `join` raises it after the first wait round |
| TaskQueue.JoinNeverAddsTasks | src/core/pymontecarlo/util/queue.py:49-56 | waiting in `join` never raises the number of unfinished tasks |
| TaskQueue.Queue.constructor | src/core/pymontecarlo/util/queue.py:33-36 | empty, no unfinished task, no recorded exception |
| TaskQueue.Queue.Put | src/core/pymontecarlo/util/queue.py:32 | the item appended at the end and one more unfinished task |
| TaskQueue.Queue.Get | src/core/pymontecarlo/util/queue.py:32 | the oldest item removed and returned; nothing when empty |
| TaskQueue.Queue.TaskDone | src/core/pymontecarlo/util/queue.py:32 | one unfinished task fewer; ValueError with none unfinished |
| TaskQueue.Queue.AreAllTasksDone | src/core/pymontecarlo/util/queue.py:38-44 | a recorded exception is raised first; otherwise true exactly when no task is unfinished |
| TaskQueue.Queue.RaiseException | src/core/pymontecarlo/util/queue.py:46-47 | the exception is recorded |
| TaskQueue.Queue.Join | src/core/pymontecarlo/util/queue.py:49-56 | the loop over observed wait rounds ends in the state JoinSpec describes |
| LocalRunner.JoinPath | pymontecarlo/runner/local.py:137-138 | `os.path.join`: an absolute name replaces the directory; otherwise the path starts with the directory and ends with the name |
| LocalRunner.FileSystem.constructor | pymontecarlo/runner/local.py:141 | the existing directories and files as given |
| LocalRunner.OptionsDispatcher.constructor | pymontecarlo/runner/local.py:43-50 | no worker, no current options, idle; the work directory is user-defined exactly when one was given |
| LocalRunner.OptionsDispatcher.Progress | pymontecarlo/runner/local.py:104-108 | 0.0 without a worker, else the worker's progress |
| LocalRunner.OptionsDispatcher.Status | pymontecarlo/runner/local.py:110-114 | the empty string without a worker, else the worker's status |
| LocalRunner.OptionsDispatcher.WorkerReports | pymontecarlo/runner/local.py:105-114 | the running worker's progress and status replaced, nothing else |
| LocalRunner.OptionsDispatcher.BeginStep | pymontecarlo/runner/local.py:53-76 | an empty queue changes nothing; otherwise the job is dequeued, a temporary directory created unless one was given, `options_running` fired, the options recorded and the first program's worker started (no program: `options_error` and task done); only the queue's items and counter change |
| LocalRunner.OptionsDispatcher.FinishStep | pymontecarlo/runner/local.py:76-93 | success clears the options, fires `options_simulated`, removes a temporary directory and enqueues one Results(base options, [container]); failure fires `options_error` only; the worker goes and the task is done either way; only the queues' items and counters change, so a recorded exception stays |
| LocalRunner.ResultsDispatcher.constructor | pymontecarlo/runner/local.py:118-123 | no writes and no events yet |
| LocalRunner.ResultsDispatcher.Step | pymontecarlo/runner/local.py:125-150 | an empty queue changes nothing; otherwise the results are appended to an existing `<name>.h5` or written to a new one and `results_saved` fired, or `results_error` fired on failure; the task is done either way; only the queue's items and counter change |
| LocalRunner.CheckDirectories | pymontecarlo/runner/local.py:178-184 | ValueError unless the output directory is a directory and the work directory is absent or a directory |
| LocalRunner.LocalRunner.constructor | pymontecarlo/runner/local.py:154-191 | the directories, overwrite flag and worker count as given |
| LocalRunner.LocalRunner.Create | pymontecarlo/runner/local.py:178-191 | ValueError exactly when CheckDirectories rejects; otherwise a runner with the given settings |
| LocalRunner.LocalRunner.Put | pymontecarlo/runner/local.py:203-215 | an existing result with overwrite off raises IOError and enqueues nothing; with overwrite on the `.h5` and its `.lock` are removed first; then the options are enqueued once |
| LocalRunner.ImporterOptionsDispatcher.constructor | pymontecarlo/runner/local.py:227-232 | no worker, no current options, idle |
| LocalRunner.ImporterOptionsDispatcher.Progress | pymontecarlo/runner/local.py:276-279 | 0.0 without a worker, else the worker's progress |
| LocalRunner.ImporterOptionsDispatcher.Status | pymontecarlo/runner/local.py:282-285 | the empty string without a worker, else the worker's status |
| LocalRunner.ImporterOptionsDispatcher.BeginStep | pymontecarlo/runner/local.py:234-252 | an empty queue changes nothing; otherwise `options_running` fires and the options are recorded; an autorun program ends the job with no results; otherwise the worker starts; only the queue's items and counter change |
| LocalRunner.ImporterOptionsDispatcher.FinishStep | pymontecarlo/runner/local.py:252-264 | success clears the options, fires `options_simulated` and enqueues one Results (one more unfinished result task); failure fires `options_error` and leaves the results queue as it was; the task is done either way; only the queues' items and counters change, so a recorded exception stays |
| LocalRunner.CheckImporterDirectory | pymontecarlo/runner/local.py:289-291 | ValueError unless the output directory is a directory, the same check as the runner's without a work directory |
| QuantRunner.FirstActive | code/pymontecarlo/quant/runner/runner.py:160-163 | the first worker whose progress is strictly between 0 and 1; None exactly when there is no such worker |
| QuantRunner.ReportOf | code/pymontecarlo/quant/runner/runner.py:158-165 | the completed count with the first active worker's progress and status, or with 0 and '' when none is active |
| QuantRunner.SplitProcesses | code/pymontecarlo/quant/runner/runner.py:52-60 | ValueError exactly below one process; otherwise both pools get at least one process and quantification the larger share |
| QuantRunner.SplitSharesProcesses | code/pymontecarlo/quant/runner/runner.py:55-60 | from two processes on the pools share them exactly, n/2 for simulation and the rest for quantification; one process serves both |
| QuantRunner.Runner.constructor | code/pymontecarlo/quant/runner/runner.py:65-75 | the split, the overwrite flag and the queue as given; no names, no workers |
| QuantRunner.Runner.Create | code/pymontecarlo/quant/runner/runner.py:35-75 | ValueError exactly below one process; otherwise a runner with the split's pools, no names, no workers and an empty queue |
| QuantRunner.Runner.Start | code/pymontecarlo/quant/runner/runner.py:84-102 | RuntimeError when workers exist, keeping them; otherwise exactly `nbprocesses` workers |
| QuantRunner.Runner.Put | code/pymontecarlo/quant/runner/runner.py:104-121 | a recorded name raises ValueError and changes neither queue nor names; otherwise the measurement is enqueued once and its name appended |
| QuantRunner.Runner.Stop | code/pymontecarlo/quant/runner/runner.py:123-130 | the simulation runner is stopped and no worker remains, so `start` is allowed again |
| QuantRunner.Runner.IsAlive | code/pymontecarlo/quant/runner/runner.py:132-139 | a recorded exception is raised; otherwise true exactly when every worker is alive and tasks remain unfinished |
| QuantRunner.Runner.Join | code/pymontecarlo/quant/runner/runner.py:141-146 | waits as the queue's `join`; when it returns the runner is stopped, when it raises nothing is stopped |
| QuantRunner.Runner.GetReport | code/pymontecarlo/quant/runner/runner.py:148-165 | completed = recorded names − unfinished tasks, between 0 and the number of names, with the first active worker's progress and status, else 0 and '' |
| QuantRunnerOld.CheckArguments | old/pymontecarlo/quant/runner/runner.py:52-62 | ValueError unless there is at least one process, the output directory is a directory and the work directory is absent or a directory |
| QuantRunnerOld.Runner.constructor | old/pymontecarlo/quant/runner/runner.py:54-74 | the process count and directories as given; no names, no workers |
| QuantRunnerOld.Runner.Create | old/pymontecarlo/quant/runner/runner.py:35-74 | ValueError exactly when CheckArguments rejects; otherwise the pool size equals `nbprocesses` |
| QuantRunnerOld.Runner.Start | old/pymontecarlo/quant/runner/runner.py:83-103 | RuntimeError when workers exist; otherwise exactly `nbprocesses` workers |
| QuantRunnerOld.Runner.Put | old/pymontecarlo/quant/runner/runner.py:105-122 | a recorded name raises ValueError with no change; otherwise the measurement is enqueued once and its name appended |
| QuantRunnerOld.Runner.Stop | old/pymontecarlo/quant/runner/runner.py:124-130 | no worker remains and the recorded names stay |
| QuantRunnerOld.Runner.IsAlive | old/pymontecarlo/quant/runner/runner.py:132-139 | a recorded exception is raised; otherwise true exactly when every worker is alive and tasks remain unfinished |
| QuantRunnerOld.Runner.Join | old/pymontecarlo/quant/runner/runner.py:141-146 | once the queue drains the recorded names are cleared, so the same names can be put again; the workers are not stopped |
| QuantRunnerOld.Runner.GetReport | old/pymontecarlo/quant/runner/runner.py:148-165 | the same completed count, within 0 and the number of recorded names, and active-worker rule as the newer runner |
| QuantResults.NewResults | old/pymontecarlo/quant/output/results.py:61-89 | ValueError exactly for a negative elapsed time; otherwise the compositions kept, and the iteration count is their number |
| QuantResults.RowOf | old/pymontecarlo/quant/output/results.py:154-155 | row i holds i + 1 and then each header element's fraction, 0.0 when absent |
| QuantResults.ZipIntoAt | old/pymontecarlo/quant/output/results.py:116-117 | `dict(zip(zs, wfs))` maps each header element to the value at its position and adds no other key |
| QuantResults.RowRoundTrip | old/pymontecarlo/quant/output/results.py:115-117 | a saved row read back holds every header element's saved fraction and no other key |
| QuantResults.FirstRowRoundTrip | old/pymontecarlo/quant/output/results.py:151-155 | the first composition, whose keys form the header, reads back unchanged |
| QuantResults.StatsOf | old/pymontecarlo/quant/output/results.py:163-167 | the saved iteration count is the number of compositions |
| QuantResults.Save | old/pymontecarlo/quant/output/results.py:138-173 | IndexError exactly with no composition; otherwise comment 'version=2', a header of the first composition's keys and one row per composition |
| QuantResults.Load | old/pymontecarlo/quant/output/results.py:92-136 | IOError unless the comment is 'version=2'; AssertionError when the stored iteration count differs from the number of rows; otherwise one composition per row |
| QuantResults.SaveLoadRoundTrip | old/pymontecarlo/quant/output/results.py:92-173 | loading what was saved gives the first composition back, and every later one restricted to the first one's elements with 0.0 for those it lacked |
| PenepmaWorker.TrimLeft | code/pymontecarlo/runner/penelope/epma/worker.py:102 | the suffix of the text left after the leading whitespace, which it starts after |
| PenepmaWorker.TrimRight | code/pymontecarlo/runner/penelope/epma/worker.py:102 | the prefix of the text left before the trailing whitespace |
| PenepmaWorker.Strip | code/pymontecarlo/runner/penelope/epma/worker.py:102 | `str.strip()`: a slice of the text that neither starts nor ends with whitespace, everything cut away being whitespace |
| PenepmaWorker.Divide | code/pymontecarlo/runner/penelope/epma/worker.py:104-106 | float division: ZeroDivisionError exactly for a zero limit, 0 for an infinite one, otherwise the quotient |
| PenepmaWorker.ApplyLine | code/pymontecarlo/runner/penelope/epma/worker.py:99-109 | one field sets the stripped status and keeps the progress; four fields set status 'Running' and the progress max(0.001, showers / showers limit, time / time limit, uncertainty / uncertainty limit); it fails exactly when one of the three ratios fails, and the first failing field in order decides the error: ValueError for a non-number, ZeroDivisionError for a zero limit; other counts change nothing |
| PenepmaWorker.ZeroShowersLimitComesFirst | code/pymontecarlo/runner/penelope/epma/worker.py:104-106 | with a zero showers limit, the line 1,x,0,0 raises ZeroDivisionError, not the ValueError of its second field |
| PenepmaWorker.ApplyLines | code/pymontecarlo/runner/penelope/epma/worker.py:99-109 | the output lines applied in order, stopping at the first error; lines with neither 1 nor 4 fields change nothing, and the progress changes only if some line has four fields |
| PenepmaWorker.ProgressStaysAboveFloor | code/pymontecarlo/runner/penelope/epma/worker.py:93-109 | from 0.001 on, no sequence of output lines lowers the progress below 0.001 |
| PenepmaWorker.CheckExecutable | code/pymontecarlo/runner/penelope/epma/worker.py:47-49 | IOError exactly when the executable is not an existing file |
| PenepmaWorker.CreateInput | code/pymontecarlo/runner/penelope/epma/worker.py:52-70 | nothing exported, exactly when the directory is not empty; otherwise the exported input file |
| PenepmaWorker.Worker.constructor | code/pymontecarlo/runner/penelope/epma/worker.py:41-45 | no progress, no status, no running process |
| PenepmaWorker.Worker.Run | code/pymontecarlo/runner/penelope/epma/worker.py:72-117 | no change when the directory was skipped; otherwise progress and status are those after all lines from 'Running PENEPMA' at 0.001, and a non-zero return code raises RuntimeError |
| Importer.Importer.constructor | code/pymontecarlo/io/importer.py:39-40 | no detector importer registered |
| Importer.Importer.Register | code/pymontecarlo/io/importer.py:40 | the importer registered for a detector class is replaced or added; the others stay |
| Importer.Importer.ImportResults | code/pymontecarlo/io/importer.py:42-57 | a result exactly for each detector whose exact class has an importer, namely that importer's result for its name and detector; a warning per other detector, in order |
| Reconstructor.PlanReconstruction | src/exp/pymontecarlo/reconstruction/reconstructor.py:54-104 | ValueError exactly without a reference experiment and without `ref_x`; a given reference experiment wins; the optimiser gets `(ref_x, rel_err)` exactly when `ref_x` is given and `rel_err` is truthy |
| Reconstructor.Subtract | src/exp/pymontecarlo/reconstruction/reconstructor.py:149 | NumPy subtraction: element-wise for equal lengths, a length-1 operand broadcast, otherwise an error |
| Reconstructor.Matching | src/exp/pymontecarlo/reconstruction/reconstructor.py:172-175 | at most one entry per simulated experiment, each the k-ratios of an experiment simulated with exactly these values |
| Reconstructor.MatchingEmpty | src/exp/pymontecarlo/reconstruction/reconstructor.py:172-175 | nothing matches exactly when no experiment was simulated with these values |
| Reconstructor.FuncEntries | src/exp/pymontecarlo/reconstruction/reconstructor.py:158-179 | every entry of `_func` is the k-ratios of an experiment simulated with one of the requested vectors |
| Reconstructor.Func | src/exp/pymontecarlo/reconstruction/reconstructor.py:158-179 | `get_func`: for each input vector in order, the k-ratios of every matching experiment; `Reconstructor.FuncEntries` and `Reconstructor.FuncAppend` state it |
| Reconstructor.FuncAppend | src/exp/pymontecarlo/reconstruction/reconstructor.py:171-175 | entries are grouped by requested vector, earlier vectors first |
| Reconstructor.SubtractEach | src/exp/pymontecarlo/reconstruction/reconstructor.py:146-149 | one difference per entry, each the subtraction of the reference; an error exactly when some subtraction fails |
| Reconstructor.TargetFuncDifferences | src/exp/pymontecarlo/reconstruction/reconstructor.py:132-153 | with k-ratio vectors as long as the reference's, `_targetfunc` is `_func` minus the reference, entry by entry |
| Reconstructor.TargetFunc | src/exp/pymontecarlo/reconstruction/reconstructor.py:132-153 | `get_targetfunc`: each entry of `get_func` minus the reference k-ratios; `Reconstructor.TargetFuncDifferences` states it |
| Reconstructor.First | src/exp/pymontecarlo/reconstruction/reconstructor.py:208-210 | `fs[0]`: IndexError exactly for an empty list, otherwise the first entry |
| Reconstructor.HandlerFuncAt | src/exp/pymontecarlo/reconstruction/reconstructor.py:214-220 | `get_func` at `x` succeeds exactly when some experiment was simulated with `x`, and gives the first such experiment's k-ratios |
| Reconstructor.JacobianPoints | src/exp/pymontecarlo/reconstruction/reconstructor.py:231-241 | `x` first, then per coordinate `x` moved only there by `+eps` when at most 0.5 and by `-eps` otherwise; each step is that signed move |
| Reconstructor.Jacobian | src/exp/pymontecarlo/reconstruction/reconstructor.py:243-252 | IndexError without evaluations or when the first failing coordinate lacks one, ValueError when it has one of another length; otherwise `J[k][i] = (fs[i+1][k] - fs[0][k]) / dxs[i]`, broadcasting a one-value evaluation |
| Reconstructor.OffsetsDistinct | src/exp/pymontecarlo/reconstruction/reconstructor.py:273 | the multiples of `eps` run through `-n..-1` then `1..n`: none is zero, each in range, strictly increasing |
| Reconstructor.SlotIs | src/exp/pymontecarlo/reconstruction/reconstructor.py:283-284 | point `t` of coordinate `i`'s block sits at index `1 + i * 2n + t`, as the regression reads it back |
| Reconstructor.RegressionPoints | src/exp/pymontecarlo/reconstruction/reconstructor.py:268-276 | `x` first, then for each coordinate a block of `2n` vectors, `x` moved only at that coordinate by each multiple of `eps` in turn |
| OptionsXml.WithKey | pymontecarlo/fileformat/options/options.py:298 | the converted detector element with its `_key` attribute set and nothing else changed |
| OptionsXml.Attr | pymontecarlo/fileformat/options/options.py:88-95 | `element.attrib[key]`: KeyError exactly when the attribute is absent, otherwise its value |
| OptionsXml.FindChild | pymontecarlo/fileformat/options/options.py:98 | `element.find(tag)`: whatever is found has that tag |
| OptionsXml.FindChildFirst | pymontecarlo/fileformat/options/options.py:98 | nothing is found exactly when no child has the tag; otherwise the first child with it |
| OptionsXml.Texts | pymontecarlo/fileformat/options/options.py:102-106 | the set of programs is exactly the set of the children's texts |
| OptionsXml.ParseAll | pymontecarlo/fileformat/options/options.py:113-118 | a successful parse has one item per child |
| OptionsXml.GroupByKeyNonEmpty | pymontecarlo/fileformat/options/options.py:137-144 | every key in the grouped detectors has at least one detector |
| OptionsXml.GroupByKey | pymontecarlo/fileformat/options/options.py:132-144 | detectors grouped by `_key` in document order, KeyError for a missing key; `OptionsXml.GroupByKeyNonEmpty` and `OptionsXml.GroupByKeyLoop` state it |
| OptionsXml.ReadDetectors | pymontecarlo/fileformat/options/options.py:132-144 | every key read holds a non-empty list |
| OptionsXml.ReadElement | pymontecarlo/fileformat/options/options.py:45-86 | KeyError without a version, ValueError for a version other than '6'; otherwise name and uuid from the attributes, and each absent sub-element gives an empty collection |
| OptionsXml.UuidText | pymontecarlo/fileformat/options/options.py:271-272 | an unset or empty uuid is written as 'xsi:nil', any other as itself; the written text is never empty |
| OptionsXml.WrittenDetectors | pymontecarlo/fileformat/options/options.py:292-299 | keys with an empty list produce no element; the others keep their lists |
| OptionsXml.ReadBack | pymontecarlo/fileformat/options/options.py:265-311 | what reading a written element gives: the uuid as written text, only the non-empty detector lists, everything else unchanged |
| OptionsXml.ReadBackIdempotent | pymontecarlo/fileformat/options/options.py:271-299 | reading back twice is reading back once |
| OptionsXml.StepsIncrease | pymontecarlo/fileformat/options/options.py:46-82 | the reported progress values 0.1 … 0.9 strictly increase |
| OptionsXml.Monitor.constructor | pymontecarlo/fileformat/options/options.py:42-43 | an empty progress log and the given cancellation point |
| OptionsXml.Monitor.UpdateStatus | pymontecarlo/fileformat/options/options.py:46 | the progress is appended to the log and the status text replaced |
| OptionsXml.ReadProgramsLoop | pymontecarlo/fileformat/options/options.py:97-106 | the loop collects exactly `ReadPrograms`, empty without a `programs` element |
| OptionsXml.ReadPrograms | pymontecarlo/fileformat/options/options.py:97-106 | the texts of the `programs` sub-element, or none; `OptionsXml.ReadProgramsLoop` computes it |
| OptionsXml.CanParse | pymontecarlo/fileformat/options/options.py:207-208 | exactly an element with the options tag; `OptionsXml.WrittenElementIsWritten` states that every written element is accepted |
| OptionsXml.CanConvert | pymontecarlo/fileformat/options/options.py:347-348 | exactly the type `Options`, not a subclass |
| OptionsXml.ParseAllLoop | pymontecarlo/fileformat/options/options.py:108-118 | the loop computes `ParseAll`, stopping at the first failure |
| OptionsXml.PrefixFailure | pymontecarlo/fileformat/options/options.py:114-116 | a failure within the first children is the failure of the whole list |
| OptionsXml.ParseSetLoop | pymontecarlo/fileformat/options/options.py:151-156 | the loop computes `ParseSet` |
| OptionsXml.SetPrefixFailure | pymontecarlo/fileformat/options/options.py:152-154 | a failure within the first children is the failure of the whole set |
| OptionsXml.GroupByKeyLoop | pymontecarlo/fileformat/options/options.py:137-144 | the loop computes `GroupByKey` |
| OptionsXml.GroupPrefixFailure | pymontecarlo/fileformat/options/options.py:138-142 | a failure within the first detector children is the failure of the whole grouping |
| OptionsXml.OptionsReaderThread.constructor | pymontecarlo/fileformat/options/options.py:42-43 | the monitor and the handlers as given |
| OptionsXml.OptionsReaderThread.Run | pymontecarlo/fileformat/options/options.py:45-86 | reports a prefix of the nine progress steps; cancelled at a step it returns nothing; an error is `ReadElement`'s; completed it returns `ReadElement`'s options after all nine steps |
| OptionsXml.OptionsReaderThread.ReadItems | pymontecarlo/fileformat/options/options.py:66-86 | the steps from the beams on, with the same prefix, cancellation and result rules |
| OptionsXml.OptionsReaderThread.ReadLists | pymontecarlo/fileformat/options/options.py:66-76 | the beams, geometries and detectors steps: an error is the reader's; going on carries the lists read |
| OptionsXml.Converted | pymontecarlo/fileformat/options/options.py:282-284 | one converted element per item, in order |
| OptionsXml.ProgramElements | pymontecarlo/fileformat/options/options.py:276-278 | one `program` element per alias |
| OptionsXml.KeyedBlock | pymontecarlo/fileformat/options/options.py:295-299 | one converted element per detector under the key |
| OptionsXml.ParseConverted | pymontecarlo/fileformat/options/options.py:113-118 | with round-tripping handlers, parsing converted items gives the items back in order |
| OptionsXml.ParseSetConverted | pymontecarlo/fileformat/options/options.py:151-156 | with round-tripping handlers, parsing converted items into a set gives the set of the items |
| OptionsXml.ProgramTexts | pymontecarlo/fileformat/options/options.py:102-104 | the texts of the program elements are the aliases |
| OptionsXml.GroupAppend | pymontecarlo/fileformat/options/options.py:142 | `setdefault(key, []).append(detector)`: one more detector at the end of its key's list, other keys unchanged |
| OptionsXml.GroupBlock | pymontecarlo/fileformat/options/options.py:138-142 | a block of detectors under one key is appended to that key's list; an empty block changes nothing |
| OptionsXml.NonEmptyLists | pymontecarlo/fileformat/options/options.py:294-299 | exactly the given keys whose list is not empty, with their lists |
| OptionsXml.NonEmptyListsAppend | pymontecarlo/fileformat/options/options.py:294-299 | one more key adds its list exactly when it is not empty |
| OptionsXml.GroupDetectorElements | pymontecarlo/fileformat/options/options.py:137-144 | the detector elements of distinct keys group back into the keys' non-empty lists |
| OptionsXml.FindAt | pymontecarlo/fileformat/options/options.py:98 | the first child with the tag is found, whatever follows it |
| OptionsXml.WrittenChildren | pymontecarlo/fileformat/options/options.py:274-311 | each written sub-element is found by its tag |
| OptionsXml.WriteThenRead | pymontecarlo/fileformat/options/options.py:45-311 | whatever order the writer visits sets and keys in, reading what it wrote succeeds and gives `ReadBack` of the options |
| OptionsXml.ReadIsStable | pymontecarlo/fileformat/options/options.py:45-86 | options read from an element with a non-empty uuid come back unchanged from writing and reading |
| OptionsXml.ConvertList | pymontecarlo/fileformat/options/options.py:280-290 | the loop converts the list's items in order |
| OptionsXml.ConvertSet | pymontecarlo/fileformat/options/options.py:301-311 | the loop converts every item of the set once, in some iteration order |
| OptionsXml.ConvertPrograms | pymontecarlo/fileformat/options/options.py:274-278 | one program element per alias, in some iteration order |
| OptionsXml.ConvertDetectors | pymontecarlo/fileformat/options/options.py:292-299 | every detector of every key converted and tagged with its key, keys in some iteration order |
| OptionsXml.OptionsWriterThread.constructor | pymontecarlo/fileformat/options/options.py:221-222 | the monitor and the handlers as given |
| OptionsXml.OptionsWriterThread.Run | pymontecarlo/fileformat/options/options.py:224-263 | reports a prefix of the nine steps; nothing exactly when cancelled before the end; otherwise an element the reader accepts holding the written options |
| OptionsXml.OptionsWriterThread.WriteRest | pymontecarlo/fileformat/options/options.py:247-263 | the geometries, detectors, limits and models steps, with the same rules |
| OptionsXml.WriterOutputReads | pymontecarlo/fileformat/options/options.py:224-263 | with round-tripping handlers a written element always reads back, with the same name |
| Results.Check1 | src/core/pymontecarlo/results/result.py:79-82 | ValueError exactly when the generated or emitted group is missing |
| Results.Check2 | src/core/pymontecarlo/results/result.py:84-91 | ValueError exactly when the kind is missing from the group or is not a (value, uncertainty) pair |
| Results.CheckDatumAccepts | src/core/pymontecarlo/results/result.py:92-105 | the eight checks pass exactly for data holding all eight pairs, and otherwise raise ValueError |
| Results.NewIntensityResult | src/core/pymontecarlo/results/result.py:69-107 | ValueError exactly when some transition's data fails the checks; otherwise the intensities kept as given; the same in src/core/pymontecarlo/output/result.py, lines 87-126 |
| Results.CreateIntensityDict | src/core/pymontecarlo/results/result.py:50-64 | one key, the transition, holding data that passes every check |
| Results.Known | src/core/pymontecarlo/results/result.py:128-133 | the data of a set's members that are stored as single transitions; well-formed when every stored datum is |
| Results.DataFor | src/core/pymontecarlo/results/result.py:118-139 | a stored key gives its own datum; an unknown single transition raises ValueError; an unknown set gathers its stored members, ValueError when none is |
| Results.KnownEmpty | src/core/pymontecarlo/results/result.py:128-133 | a set gathers nothing exactly when none of its members is stored |
| Results.HasIntensityIffData | src/core/pymontecarlo/results/result.py:154-181 | `has_intensity` holds exactly when `_get_intensity` would not raise; the same in src/core/pymontecarlo/output/result.py, lines 207-234 |
| Results.HasIntensity | src/core/pymontecarlo/results/result.py:154-181 | `has_intensity`: the key is stored, or for a set one of its members is; `Results.HasIntensityIffData` relates it to the stored data |
| Results.WellFormedPairs | src/core/pymontecarlo/results/result.py:141-150 | every gathered datum has the pair that is summed |
| Results.SumSquares | src/core/pymontecarlo/results/result.py:141-150 | the summed squared uncertainties are never negative |
| Results.Summed | src/core/pymontecarlo/results/result.py:141-152 | a single datum sums to its own stored pair; squared uncertainties are never negative |
| Results.IntensityOf | src/core/pymontecarlo/results/result.py:118-152 | ValueError exactly when `has_intensity` is false; a stored key gives its stored pair |
| Results.CollectData | src/core/pymontecarlo/results/result.py:124-138 | the gathering loop computes `DataFor` |
| Results.Accumulate | src/core/pymontecarlo/results/result.py:141-150 | the accumulating loop sums values and squared uncertainties as `Summed` |
| Results.GetIntensity | src/core/pymontecarlo/results/result.py:118-152 | the two loops together compute `IntensityOf`; the same in src/core/pymontecarlo/output/result.py, lines 171-205 |
| Results.KnownSums | src/core/pymontecarlo/results/result.py:141-150 | summing the gathered data is summing the members' own intensities |
| Results.SetIntensityIsMemberSum | src/core/pymontecarlo/results/result.py:118-152 | an unstored set's intensity is the sum of its stored members' intensities, uncertainties added in quadrature |
| Results.IntensityFor | src/core/pymontecarlo/results/result.py:183-221 | succeeds exactly when `has_intensity`; a stored key gives emitted or generated, total or no-fluorescence, as asked; the same in src/core/pymontecarlo/output/result.py, lines 236-274 |
| Results.CreatedIntensities | src/core/pymontecarlo/results/result.py:50-107 | a result built from `create_intensity_dict` is accepted and gives back each pair it was given for the matching flags |
| Results.CharacteristicFluorescence | src/core/pymontecarlo/results/result.py:223-238 | succeeds exactly when `has_intensity`; a stored key gives its characteristic-fluorescence pair |
| Results.BremsstrahlungFluorescence | src/core/pymontecarlo/results/result.py:240-255 | succeeds exactly when `has_intensity`; a stored key gives its bremsstrahlung-fluorescence pair |
| Results.Fluorescence | src/core/pymontecarlo/results/result.py:257-276 | succeeds exactly when `has_intensity`; total minus no-fluorescence, with both uncertainties; the same in src/core/pymontecarlo/output/result.py, lines 310-329 |
| Results.Absorption | src/core/pymontecarlo/results/result.py:278-296 | succeeds exactly when `has_intensity`; emitted minus generated, with the squared uncertainties of the generated and the emitted intensity; the same in src/core/pymontecarlo/output/result.py, lines 331-349 |
| Results.IterIntensities | src/core/pymontecarlo/results/result.py:298-310 | every stored key once, with the intensity `intensity` gives for it; the same in src/core/pymontecarlo/output/result.py, lines 351-364 |
| Results.CheckColumns | src/core/pymontecarlo/results/result.py:337-343 | ValueError exactly below two columns; two columns get a zero uncertainty column; the given columns are kept |
| Results.Column0 | src/core/pymontecarlo/results/result.py:345 | the first column, row by row |
| Results.NewSpectrum | src/core/pymontecarlo/results/result.py:314-352 | IndexError without an energy column, ValueError when the energies are not close; otherwise both arrays checked; the same in src/core/pymontecarlo/output/result.py, lines 369-407 |
| Results.ChannelWidth | src/core/pymontecarlo/results/result.py:354-358 | the second energy minus the first; IndexError exactly with fewer than two rows |
| Results.EnergyOffset | src/core/pymontecarlo/results/result.py:361-365 | the first energy; IndexError exactly without rows |
| Results.BisectRight | src/core/pymontecarlo/results/result.py:397 | the number of leading energies not above the energy; the next one is above it |
| Results.BisectRightSplits | src/core/pymontecarlo/results/result.py:397 | on sorted energies every energy from the bisection point on is above the energy |
| Results.SpectrumIntensity | src/core/pymontecarlo/results/result.py:383-401 | IndexError exactly for an empty array or a total with fewer than two rows |
| Results.SpectrumIntensityBins | src/core/pymontecarlo/results/result.py:383-401 | (0, 0) below the first channel and from the end of the last; inside, the row of the channel the energy falls in; the same in src/core/pymontecarlo/output/result.py, lines 450-468 |
| Results.TotalIntensity | src/core/pymontecarlo/results/result.py:403-411 | succeeds exactly when the total has at least two rows |
| Results.BackgroundIntensity | src/core/pymontecarlo/results/result.py:414-422 | succeeds exactly when the background has rows and the total at least two |
| Results.Put | src/core/pymontecarlo/results/result.py:446-451 | `setdefault(key1, {})[key2] = a`: the new entry stored, every other entry kept, nothing else added |
| Results.PutChecked | src/core/pymontecarlo/results/result.py:446-451 | an absent array changes nothing; a given one is checked (ValueError below two columns) and stored |
| Results.CreateDistDict | src/core/pymontecarlo/results/result.py:425-453 | ValueError exactly when a given array has fewer than two columns; otherwise one key, the transition; in src/core/pymontecarlo/output/result.py, lines 494-522: `create_phirhoz_dict`: the same |
| Results.CreatedExists | src/core/pymontecarlo/results/result.py:425-501 | a distribution exists exactly for the arrays that were given, and holds them checked |
| Results.Exists | src/core/pymontecarlo/results/result.py:474-501 | `exists`: the transition, its absorption group and its fluorescence entry are all stored; `Results.CreatedExists` states it for created results |
| Results.Get | src/core/pymontecarlo/results/result.py:503-529 | ValueError exactly when the distribution does not exist; otherwise the stored array; the same in src/core/pymontecarlo/output/result.py, lines 594-632 |
| Results.Integral | src/core/pymontecarlo/results/result.py:540-560 | ValueError when the distribution does not exist, IndexError with fewer than two rows; otherwise the intensity sum times the first abscissa spacing; the same in src/core/pymontecarlo/output/result.py, lines 643-663 |
| Results.Fchi | src/core/pymontecarlo/results/result.py:654-669 | succeeds exactly when both integrals do; the ratio times the generated integral is the emitted one, non-finite exactly for a zero generated integral; the same in src/core/pymontecarlo/output/result.py, lines 665-680 |
| Results.IterDistributions | src/core/pymontecarlo/results/result.py:562-583 | exactly the transitions whose distribution exists, each with the array `get` gives; the same in src/core/pymontecarlo/output/result.py, lines 682-703 |
| Results.NewTimeResult | src/core/pymontecarlo/results/result.py:776-799 | ValueError exactly when the speed is not a (value, uncertainty) pair; otherwise both kept |
| Results.Showers | src/core/pymontecarlo/results/result.py:804-815 | `int(showers)` truncates toward zero |
| Results.NewElectronFractionResult | src/core/pymontecarlo/results/result.py:818-846 | ValueError exactly when one of the three fractions is not a pair; otherwise the three pairs kept |
| Results.Filter | src/core/pymontecarlo/results/result.py:969-1005 | the loop collects exactly `Filtered`, the matching trajectories in order; the same in src/core/pymontecarlo/output/result.py, lines 987-1025 |
| Results.Filtered | src/core/pymontecarlo/results/result.py:994-1005 | the matching trajectories in their order; `Results.FilteredMember` and `Results.FilteredAppend` state it |
| Results.FilteredMember | src/core/pymontecarlo/results/result.py:994-1005 | a trajectory is yielded exactly when it is in the result and matches every criterion |
| Results.FilteredAppend | src/core/pymontecarlo/results/result.py:994-1005 | filtering keeps the original order: it distributes over concatenation |
| Results.DefaultFilterKeeps | src/core/pymontecarlo/results/result.py:969-970 | with the defaults a trajectory is kept exactly when its collision and exit state are known ones |
| Results.NewChannelsResult | src/core/pymontecarlo/results/result.py:1007-1034 | ValueError exactly below two columns and no other error; otherwise every given entry kept in place, a zero third column appended to a two-column array, and a wider array kept unchanged; the same in src/core/pymontecarlo/output/result.py, lines 1027-1062 |
| SeriesBase.EqualIsConsistent | pymontecarlo/formats/series/base.py:32-39 | column equality is an equivalence, agrees with the hash (also against a bare name) and ignores abbreviation, unit and tolerance |
| SeriesBase.Equal | pymontecarlo/formats/series/base.py:32-35 | `__eq__`: a string by name, a column by class and name; `SeriesBase.EqualIsConsistent` states its consistency with the hash |
| SeriesBase.Hash | pymontecarlo/formats/series/base.py:37-39 | `__hash__`: the hash of the name |
| SeriesBase.Compare | pymontecarlo/formats/series/base.py:47-51 | exact equality without a tolerance; with one, `math.isclose` with that absolute tolerance, ValueError for a negative tolerance |
| SeriesBase.CompareProperties | pymontecarlo/formats/series/base.py:47-51 | values within the tolerance compare equal, and the comparison is symmetric |
| SeriesBase.Find | pymontecarlo/formats/series/base.py:83-86 | no position exactly when no column is equal; otherwise a position holding an equal column |
| SeriesBase.SetItem | pymontecarlo/formats/series/base.py:86 | `s[column] = value`: an equal column's value is replaced in place; otherwise the entry is appended |
| SeriesBase.PrefixColumn | pymontecarlo/formats/series/base.py:81-85 | TypeError exactly without an abbreviation; otherwise a series column with the prefixed name and abbreviation, unit and tolerance kept |
| SeriesBase.UpdateWithPrefix | pymontecarlo/formats/series/base.py:74-88 | the loop computes `WithPrefix`, the abbreviation prefix defaulting to the name prefix |
| SeriesBase.WithPrefix | pymontecarlo/formats/series/base.py:74-88 | the prefixed series; `SeriesBase.WithPrefixEntries` and `SeriesBase.PrefixFailure` state it |
| SeriesBase.PrefixFailure | pymontecarlo/formats/series/base.py:81-86 | an entry without an abbreviation makes the whole update fail with TypeError |
| SeriesBase.WithPrefixEntries | pymontecarlo/formats/series/base.py:74-88 | for distinct names that all have an abbreviation every entry is kept in order, prefixed, with its value |
| SeriesBase.CanConvertIsExact | pymontecarlo/formats/series/base.py:93-94 | a convertible object is an instance of the handler's class, but an instance of a subclass is not convertible |
| SeriesBase.CanConvert | pymontecarlo/formats/series/base.py:93-94 | the class is exactly the handler's class; `SeriesBase.CanConvertIsExact` states it |
| SeriesBase.FirstHandler | pymontecarlo/formats/series/base.py:17-22 | the first handler that can convert; ConvertError exactly when none can |
| SeriesBase.FindConvertHandler | pymontecarlo/formats/series/base.py:17-22 | the loop over the handlers finds `FirstHandler` |
| SeriesBase.FirstHandlerIsFirst | pymontecarlo/formats/series/base.py:17-22 | a handler that converts, with none before it converting, is the one found |
| ChannelDetector.BoundsAsWrittenCollapse | src/java/pymontecarlo/input/nistmonte/AbstractChannelDetector.java:42-43 | limits in order are kept; limits given in reverse both become the original maximum, so (2, 1) gives (1, 1) |
| ChannelDetector.BoundsAsWritten | src/java/pymontecarlo/input/nistmonte/AbstractChannelDetector.java:42-43 | as written (Findings row 1): `min` overwritten before `max` is computed from it; `ChannelDetector.BoundsAsWrittenCollapse` states the collapse |
| ChannelDetector.Bounds | src/java/pymontecarlo/input/nistmonte/AbstractChannelDetector.java:42-43 | the limits ordered: the smaller first, both limits kept |
| ChannelDetector.BoundsAgree | src/java/pymontecarlo/input/nistmonte/AbstractChannelDetector.java:42-43 | the code's bounds equal the ordered ones exactly when the limits were given in order |
| ChannelDetector.NewDetector | src/java/pymontecarlo/input/nistmonte/AbstractChannelDetector.java:37-45 | intended behaviour (Findings row 1: the limits ordered by `ChannelDetector.Bounds`, not collapsed as in `ChannelDetector.BoundsAsWritten`): IllegalArgumentException exactly without a positive channel count; otherwise that many empty channels between the ordered limits |
| ChannelDetector.LimitsAndWidth | src/java/pymontecarlo/input/nistmonte/AbstractChannelDetector.java:111-134 | the minimum and maximum limits are the histogram's ends; the channel width times the channel count is their span |
| ChannelDetector.NewDetectorSpans | src/java/pymontecarlo/input/nistmonte/AbstractChannelDetector.java:37-45 | a new detector spans from the smaller limit to the larger, whichever order they were given in |
| ChannelDetector.SaveResults | src/java/pymontecarlo/input/nistmonte/AbstractChannelDetector.java:77-94 | the header row, then one row per channel in order with its midpoint and count |
| ChannelDetector.MidpointsOrdered | src/java/pymontecarlo/input/nistmonte/AbstractChannelDetector.java:83-91 | midpoints are half a channel past each lower bound, lie within the limits and strictly increase when the limits differ |
| ChannelDetector.Midpoint | src/java/pymontecarlo/input/nistmonte/AbstractChannelDetector.java:87 | the middle of channel i; `ChannelDetector.MidpointsOrdered` states that the midpoints increase |

## Left out

- Threads, locks, condition waits, daemon flags and queue timeouts. They are not modelled. The task queue, the runners and the dispatchers are modelled one step at a time. Another thread's effect (a worker finishing, an exception it records) is an input to the step.
- Filesystem effects: existence tests, temporary directories, deleting and writing files. Existing files and directories are given as sets of paths.
- File formats: HDF5 reading and writing (`__loadhdf5__`, `__savehdf5__`), ZIP, CSV and ConfigParser bytes, and XML serialisation. Only the rows, headers and element trees they carry are modelled.
- The result manager's registration of result classes. It is module-level bookkeeping.
- The external programs (PENEPMA, Monaco, NISTMonte's EPQ library, Casino), `subprocess`, and the Casino importers and exporters. The PENEPMA run is given as the lines it prints and its return code.
- The EPQ `Histogram` class. It is modelled as equal bins between two limits.
- The element property tables (atomic weights, mass densities, symbols). They are a table given as a parameter with positive values.
- pyparsing formula parsing. The parsed (symbol, count) pairs are the input.
- Python and Java floats. They are modelled as exact reals: no rounding, overflow or NaN. Where a float division by zero gives infinity or NaN, it is a separate `NonFinite` outcome.
- Square roots of uncertainties. Squared uncertainties are kept instead. `Results.IntensityOf` states the squared uncertainty; `Results.Fluorescence` and `Results.Absorption` state the pair of squared uncertainties their difference combines.
- `math.cos` and `math.sin`. `tilt_beam` and its rotation matrices are modelled (`Beam.Tilt`, `Beam.TiltBeam`), but the cosine and sine of the angle are parameters `c` and `s`; the rotation lemmas assume c² + s² = 1.
- Float rounding in `np.arange`. `Cylindrical.Arange` and the line scans are modelled with the exact length ⌈(stop − start) / step⌉ and the exact grid points.
- `np.allclose` and `np.polyfit`. The outcome of `np.allclose` is a parameter. The regression Jacobian is modelled up to its evaluation points; the least-squares slope itself is left out.
- Reconstructor.Jacobian: requires non-zero steps. With a zero `eps` NumPy divides by zero and gives infinities or NaN, which the exact reals cannot represent.
- The simulation and experiment runners behind the reconstruction, and the optimiser. The simulated experiments are an input.
- The quantification iteration and convergence strategies. The result archive keeps only their names.
- Code not part of this model: the base `_Runner`, `BeamBuilder`, `Option` and `_Converter` classes, the `unique` and `are_sequence_equal` helpers, and `resolve_entrypoints`. Base-class equality and builder lengths are parameters, `unique` is order-preserving de-duplication, and the handler list is given in entry-point order.
- Hashing. A string hash is a parameter.
- `__repr__`, `__str__`, `__len__` and `__iter__` of the containers. Logging messages, warning texts and exception messages. Only the exception class is modelled.
- Python dict iteration order where the source relies on maps only for lookup. Python sets are sequences without repeats in insertion order. Where the order of iteration over a set or dict is not fixed, the writer methods return it as a ghost enumeration.
- Symbol keys in material compositions. Only atomic-number keys are modelled.
- Transition parsing from strings. Transitions and transition sets are values of a type parameter, and a set is a sequence of members.
- `create_datarow`, the pandas conversions and the series handler subclasses. A pandas series is a list of (column, value) entries.
- The uuid generation of new options, and object identity. Copies, `copy` and `deepcopy` are value semantics.
- Interaction forcings of PENELOPE bodies. They are kept as an opaque list of values; their own fields and validation are not modelled.
- CLI, GUI, settings, packaging and program registration (`WorkerManager.register`).
- MonacoConverter.CountOf: counts detectors whose class is exactly the given one, where `findall` also counts instances of subclasses. No subclass of `PhotonIntensityDetector` is part of this model, so the two agree on the detectors modelled.
- Reconstructor.Matching: compares an experiment's values with the input vector as whole sequences. NumPy broadcasting in `np.all(a == b)` is not modelled: a one-element array compared with a longer one, or with an empty one, is treated as unequal.
- Importer.Importer.ImportResults: an exception raised by a registered detector importer is not modelled. `call` always returns a result, so the path where the exception escapes `_import_results` and no Results object is built is missing.
- LocalRunner.LocalRunner.Put: the base `_Runner.put` is not part of this model. The model takes it to enqueue the options once, as their own base options.

## Findings

| source | as written | input that shows it | evidently intended | confidence | as-written member | corrected member |
|---|---|---|---|---|---|---|
| src/java/pymontecarlo/input/nistmonte/AbstractChannelDetector.java:42-43 | `min` is overwritten with `Math.min(min, max)` before `max` is computed from it, so limits given in reverse collapse to one point | min = 2.0, max = 1.0 gives bounds (1.0, 1.0) | the histogram spans from the smaller to the larger limit | high (not executed) | ChannelDetector.BoundsAsWrittenCollapse | ChannelDetector.NewDetectorSpans |
| src/python/pymontecarlo/input/penelope/body.py:96-101 | a layer read from XML is built from its material, thickness and step only; the interaction forcings read just before are dropped | a layer saved with one interaction forcing loads with none | the loaded layer keeps the forcings, as `Body` does | high (not executed) | PenelopeBody.LayerLoadDropsForcings | PenelopeBody.Layer.LoadXml |
| pymontecarlo/util/cbook.py:35-36 | the descriptor defines `__del__` (a finaliser) instead of `__delete__`, so `del obj.attr` raises AttributeError and the target attribute stays | deleting the attribute of an instance whose `tilt_rad` is 0.5 | deleting removes the target attribute | medium (not executed) | Cbook.DeleteAsWrittenKeepsAttribute | Cbook.MultiplierAttribute.Delete |
| pymontecarlo/options/sample/base.py:24-25 | the tilt and rotation tolerances are `math.radians(1e-3)` but are compared with differences in degrees | tilts 0 and 0.0005 degrees apart compare unequal | a tolerance of 1e-3 degrees | medium (not executed) | SampleBase.TiltToleranceTooTight | SampleBase.SampleEqualWithinTolerance |
| pymontecarlo/options/sample/base.py:47-53 | `list.remove(VACUUM)` removes only the first VACUUM | materials [VACUUM, VACUUM] clean up to [VACUUM] | no VACUUM in the result | medium (not executed) | SampleBase.CleanupKeepsSecondVacuum | SampleBase.CleanupMaterials |
| pymontecarlo/options/sample/base.py:96-97 | `add_tilt_deg` calls itself instead of `add_tilt_rad`, so every call recurses until Python raises RecursionError and no tilt is added | any call, for example add_tilt_deg(10.0) | convert to radians and add the tilt | high (not executed) | SampleBase.AddTiltDegNeverAdds | SampleBase.SampleBuilder.AddTiltDeg |
