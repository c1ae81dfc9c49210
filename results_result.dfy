/**
 * Simulation results: photon intensities per transition (or set of
 * transitions), photon spectra, photon depth and radial distributions,
 * simulation time, shower count, electron fractions, trajectories and
 * channel distributions. Results are read-only once constructed.
 */
module Results {
  import opened Wrappers
  import opened PyMath
  import opened Particles

  const GENERATED: string := "g"
  const EMITTED: string := "e"
  const NOFLUORESCENCE: string := "nf"
  const CHARACTERISTIC: string := "cf"
  const BREMSSTRAHLUNG: string := "bf"
  const TOTAL: string := "t"

  /** The four intensity kinds stored for generated and for emitted photons. */
  const INTENSITY_KEYS: seq<string> := [CHARACTERISTIC, BREMSSTRAHLUNG, NOFLUORESCENCE, TOTAL]

  /** `EMITTED if absorption else GENERATED`. */
  function AbsorptionKey(absorption: bool): string
  {
    if absorption then EMITTED else GENERATED
  }

  /** `TOTAL if fluorescence else NOFLUORESCENCE`. */
  function FluorescenceKey(fluorescence: bool): string
  {
    if fluorescence then TOTAL else NOFLUORESCENCE
  }

  /** A transition, or a set of transitions (its members in iteration order); both are dictionary keys. */
  datatype Query<T> = One(transition: T) | Several(members: seq<T>)

  /** The intensities of one transition: `data[GENERATED or EMITTED][kind]` is a (value, uncertainty) tuple. */
  type Datum = map<string, map<string, seq<real>>>

  /** The tuple `data[key1][key2]` is present and has two entries. */
  predicate HasPair(d: Datum, key1: string, key2: string)
  {
    key1 in d && key2 in d[key1] && |d[key1][key2]| == 2
  }

  /** Both groups hold a (value, uncertainty) pair for every intensity kind. */
  predicate WellFormed(d: Datum)
  {
    forall k :: k in INTENSITY_KEYS ==> HasPair(d, GENERATED, k) && HasPair(d, EMITTED, k)
  }

  /** `_check1`: the group is present. */
  function Check1(d: Datum, key1: string): (r: Result<()>)
    ensures r.Ok? <==> key1 in d
    ensures r.Err? ==> r.error == ValueError
  {
    if key1 !in d then Err(ValueError) else Ok(())
  }

  /** `_check2`: the kind is present in the group, as a 2-tuple. */
  function Check2(d: Datum, key1: string, key2: string): (r: Result<()>)
    requires key1 in d
    ensures r.Ok? <==> HasPair(d, key1, key2)
    ensures r.Err? ==> r.error == ValueError
  {
    if key2 !in d[key1] then Err(ValueError)
    else if |d[key1][key2]| != 2 then Err(ValueError)
    else Ok(())
  }

  /** The constructor's checks of one transition's data, in the order they are made. */
  function CheckDatum(d: Datum): Result<()>
  {
    var _ :- Check1(d, GENERATED);
    var _ :- Check1(d, EMITTED);
    var _ :- Check2(d, GENERATED, CHARACTERISTIC);
    var _ :- Check2(d, GENERATED, BREMSSTRAHLUNG);
    var _ :- Check2(d, GENERATED, NOFLUORESCENCE);
    var _ :- Check2(d, GENERATED, TOTAL);
    var _ :- Check2(d, EMITTED, CHARACTERISTIC);
    var _ :- Check2(d, EMITTED, BREMSSTRAHLUNG);
    var _ :- Check2(d, EMITTED, NOFLUORESCENCE);
    Check2(d, EMITTED, TOTAL)
  }

  /** The sequence of checks passes exactly for well-formed data, and fails with ValueError otherwise. */
  lemma CheckDatumAccepts(d: Datum)
    ensures CheckDatum(d).Ok? <==> WellFormed(d)
    ensures CheckDatum(d).Err? ==> CheckDatum(d).error == ValueError
  {
    if WellFormed(d) {
      assert HasPair(d, GENERATED, INTENSITY_KEYS[0]) && HasPair(d, EMITTED, INTENSITY_KEYS[3]);
      assert HasPair(d, GENERATED, INTENSITY_KEYS[1]) && HasPair(d, GENERATED, INTENSITY_KEYS[2]);
      assert HasPair(d, GENERATED, INTENSITY_KEYS[3]) && HasPair(d, EMITTED, INTENSITY_KEYS[0]);
      assert HasPair(d, EMITTED, INTENSITY_KEYS[1]) && HasPair(d, EMITTED, INTENSITY_KEYS[2]);
    }
  }

  /** The photon intensity result: data per transition or transition set. */
  datatype IntensityResult<T(==)> = IntensityResult(intensities: map<Query<T>, Datum>)
  {
    predicate Valid()
    {
      forall q :: q in intensities ==> WellFormed(intensities[q])
    }
  }

  /** The constructor: ValueError unless every transition's data passes the checks. */
  function NewIntensityResult<T(==)>(intensities: map<Query<T>, Datum>): (r: Result<IntensityResult<T>>)
    ensures r.Ok? <==> forall q :: q in intensities ==> CheckDatum(intensities[q]).Ok?
    ensures r.Ok? ==> r.value.intensities == intensities && r.value.Valid()
    ensures r.Err? ==> r.error == ValueError
  {
    if forall q :: q in intensities ==> CheckDatum(intensities[q]).Ok? then
      assert forall q :: q in intensities ==> WellFormed(intensities[q]) by {
        forall q | q in intensities ensures WellFormed(intensities[q]) {
          CheckDatumAccepts(intensities[q]);
        }
      }
      Ok(IntensityResult(intensities))
    else Err(ValueError)
  }

  /** The (value, squared uncertainty) stored for one group and kind. */
  function Stored(d: Datum, absorption: bool, key: string): Intensity
    requires WellFormed(d) && key in INTENSITY_KEYS
  {
    var pair := d[AbsorptionKey(absorption)][key];
    Intensity(pair[0], pair[1] * pair[1])
  }

  /** `create_intensity_dict`: the eight (value, uncertainty) pairs under their keys. */
  function CreateIntensityDict<T(==)>(transition: Query<T>,
                                      gcf: (real, real), gbf: (real, real), gnf: (real, real), gt: (real, real),
                                      ecf: (real, real), ebf: (real, real), enf: (real, real), et: (real, real)): (r: map<Query<T>, Datum>)
    ensures r.Keys == {transition} && WellFormed(r[transition])
  {
    var d: Datum := map[
      GENERATED := map[CHARACTERISTIC := [gcf.0, gcf.1], BREMSSTRAHLUNG := [gbf.0, gbf.1],
                       NOFLUORESCENCE := [gnf.0, gnf.1], TOTAL := [gt.0, gt.1]],
      EMITTED := map[CHARACTERISTIC := [ecf.0, ecf.1], BREMSSTRAHLUNG := [ebf.0, ebf.1],
                     NOFLUORESCENCE := [enf.0, enf.1], TOTAL := [et.0, et.1]]];
    assert forall k :: k in INTENSITY_KEYS ==> HasPair(d, GENERATED, k) && HasPair(d, EMITTED, k) by {
      forall k | k in INTENSITY_KEYS ensures HasPair(d, GENERATED, k) && HasPair(d, EMITTED, k) {
        var i :| 0 <= i < 4 && INTENSITY_KEYS[i] == k;
      }
    }
    map[transition := d]
  }

  /** The data of the members of a set that are known as single transitions, in member order. */
  function Known<T(==)>(intensities: map<Query<T>, Datum>, members: seq<T>): (r: seq<Datum>)
    ensures (forall q :: q in intensities ==> WellFormed(intensities[q])) ==> AllWellFormed(r)
    decreases |members|
  {
    if members == [] then []
    else
      var init := Known(intensities, members[..|members| - 1]);
      var t := members[|members| - 1];
      if One(t) in intensities then init + [intensities[One(t)]] else init
  }

  predicate AllWellFormed(data: seq<Datum>)
  {
    forall i :: 0 <= i < |data| ==> WellFormed(data[i])
  }

  /**
   * The data an intensity is made of: a key (single transition or set) is
   * used directly; a set that is not a key gathers its known members;
   * ValueError when nothing is found.
   */
  function DataFor<T(==)>(r: IntensityResult<T>, q: Query<T>): (d: Result<seq<Datum>>)
    ensures q in r.intensities ==> d == Ok([r.intensities[q]])
    ensures q.One? && q !in r.intensities ==> d == Err(ValueError)
    ensures d.Err? ==> d.error == ValueError
    ensures d.Ok? ==> |d.value| > 0
    ensures d.Ok? && r.Valid() ==> AllWellFormed(d.value)
  {
    if q in r.intensities then Ok([r.intensities[q]])
    else if q.One? then Err(ValueError)
    else
      var known := Known(r.intensities, q.members);
      if known == [] then Err(ValueError) else Ok(known)
  }

  /** `has_intensity`, with its own loop over the members of a set. */
  predicate HasIntensity<T(==)>(r: IntensityResult<T>, q: Query<T>)
  {
    match q
    case One(_) => q in r.intensities
    case Several(ts) => q in r.intensities || exists i :: 0 <= i < |ts| && One(ts[i]) in r.intensities
  }

  /** A set's known data is empty exactly when none of its members is a key. */
  lemma {:induction false} KnownEmpty<T>(intensities: map<Query<T>, Datum>, members: seq<T>)
    ensures Known(intensities, members) == [] <==> forall i :: 0 <= i < |members| ==> One(members[i]) !in intensities
    decreases |members|
  {
    if members != [] {
      var n := |members| - 1;
      KnownEmpty(intensities, members[..n]);
      assert forall i :: 0 <= i < n ==> members[..n][i] == members[i];
    }
  }

  /** `has_intensity(t)` holds exactly when looking its data up raises nothing. */
  lemma HasIntensityIffData<T>(r: IntensityResult<T>, q: Query<T>)
    ensures HasIntensity(r, q) <==> DataFor(r, q).Ok?
  {
    if q.Several? {
      KnownEmpty(r.intensities, q.members);
    }
  }

  /** An intensity: its value and the square of its uncertainty. */
  datatype Intensity = Intensity(value: real, uncertaintySquared: real)

  predicate AllPairs(data: seq<Datum>, key1: string, key2: string)
  {
    forall i :: 0 <= i < |data| ==> HasPair(data[i], key1, key2)
  }

  lemma WellFormedPairs(data: seq<Datum>, absorption: bool, key: string)
    requires AllWellFormed(data) && key in INTENSITY_KEYS
    ensures AllPairs(data, AbsorptionKey(absorption), key)
  {
  }

  /** The values of one kind summed over the data. */
  function SumValues(data: seq<Datum>, key1: string, key2: string): real
    requires AllPairs(data, key1, key2)
    decreases |data|
  {
    if data == [] then 0.0
    else SumValues(data[..|data| - 1], key1, key2) + data[|data| - 1][key1][key2][0]
  }

  /** The squared uncertainties of one kind summed over the data. */
  function SumSquares(data: seq<Datum>, key1: string, key2: string): (r: real)
    requires AllPairs(data, key1, key2)
    ensures r >= 0.0
    decreases |data|
  {
    if data == [] then 0.0
    else
      var u := data[|data| - 1][key1][key2][1];
      SumSquares(data[..|data| - 1], key1, key2) + u * u
  }

  /** The sums over the data: (sum of values, sum of squared uncertainties). */
  function Summed(data: seq<Datum>, absorption: bool, key: string): (s: Intensity)
    requires AllWellFormed(data) && key in INTENSITY_KEYS
    ensures s.uncertaintySquared >= 0.0
    ensures |data| == 1 ==> s == Stored(data[0], absorption, key)
  {
    WellFormedPairs(data, absorption, key);
    assert |data| == 1 ==> data[..0] == [] && SumValues(data[..0], AbsorptionKey(absorption), key) == 0.0
                                          && SumSquares(data[..0], AbsorptionKey(absorption), key) == 0.0;
    Intensity(SumValues(data, AbsorptionKey(absorption), key), SumSquares(data, AbsorptionKey(absorption), key))
  }

  /**
   * `_get_intensity` as a value: the sum of the values, and the sum of the
   * squared uncertainties (the uncertainty is its square root).
   */
  function IntensityOf<T(==)>(r: IntensityResult<T>, key: string, q: Query<T>, absorption: bool): (res: Result<Intensity>)
    requires r.Valid() && key in INTENSITY_KEYS
    ensures res.Ok? <==> HasIntensity(r, q)
    ensures res.Err? ==> res.error == ValueError
    ensures res.Ok? ==> res.value.uncertaintySquared >= 0.0
    ensures q in r.intensities ==> res == Ok(Stored(r.intensities[q], absorption, key))
  {
    HasIntensityIffData(r, q);
    var data :- DataFor(r, q);
    Ok(Summed(data, absorption, key))
  }

  /** The gathering loop of `_get_intensity`. */
  method CollectData<T(==)>(r: IntensityResult<T>, q: Query<T>) returns (d: Result<seq<Datum>>)
    ensures d == DataFor(r, q)
  {
    if q in r.intensities {
      return Ok([r.intensities[q]]);
    }
    if q.One? {
      return Err(ValueError);
    }
    var data: seq<Datum> := [];
    var i := 0;
    while i < |q.members|
      invariant 0 <= i <= |q.members|
      invariant data == Known(r.intensities, q.members[..i])
    {
      assert q.members[..i + 1][..i] == q.members[..i];
      var t := q.members[i];
      if One(t) in r.intensities {
        data := data + [r.intensities[One(t)]];
      }
      i := i + 1;
    }
    assert q.members[..|q.members|] == q.members;
    if data == [] {
      return Err(ValueError);
    }
    return Ok(data);
  }

  /** The accumulating loop of `_get_intensity`. */
  method Accumulate(data: seq<Datum>, absorption: bool, key: string) returns (s: Intensity)
    requires AllWellFormed(data) && key in INTENSITY_KEYS
    ensures s == Summed(data, absorption, key)
  {
    WellFormedPairs(data, absorption, key);
    var k1 := AbsorptionKey(absorption);
    var totalValue := 0.0;
    var totalSquares := 0.0;
    var j := 0;
    while j < |data|
      invariant 0 <= j <= |data|
      invariant AllPairs(data[..j], k1, key)
      invariant totalValue == SumValues(data[..j], k1, key)
      invariant totalSquares == SumSquares(data[..j], k1, key)
    {
      assert data[..j + 1][..j] == data[..j];
      var pair := data[j][k1][key];
      totalValue := totalValue + pair[0];
      totalSquares := totalSquares + pair[1] * pair[1];
      j := j + 1;
    }
    assert data[..|data|] == data;
    s := Intensity(totalValue, totalSquares);
  }

  /** `_get_intensity`: gathers the data, then accumulates values and squared uncertainties. */
  method GetIntensity<T(==)>(r: IntensityResult<T>, key: string, q: Query<T>, absorption: bool) returns (res: Result<Intensity>)
    requires r.Valid() && key in INTENSITY_KEYS
    ensures res == IntensityOf(r, key, q, absorption)
  {
    var data := CollectData(r, q);
    if data.Err? {
      return Err(data.error);
    }
    var s := Accumulate(data.value, absorption, key);
    res := Ok(s);
  }

  /** The intensities of the known members of a set, one lookup each, summed. */
  function MemberSum<T(==)>(r: IntensityResult<T>, key: string, members: seq<T>, absorption: bool): Intensity
    requires r.Valid() && key in INTENSITY_KEYS
    decreases |members|
  {
    if members == [] then Intensity(0.0, 0.0)
    else
      var init := MemberSum(r, key, members[..|members| - 1], absorption);
      var t := members[|members| - 1];
      if One(t) in r.intensities then
        var m := IntensityOf(r, key, One(t), absorption).value;
        Intensity(init.value + m.value, init.uncertaintySquared + m.uncertaintySquared)
      else init
  }

  /** Summing the gathered data is summing the members' own intensities. */
  lemma {:induction false} KnownSums<T>(r: IntensityResult<T>, key: string, members: seq<T>, absorption: bool)
    requires r.Valid() && key in INTENSITY_KEYS
    ensures MemberSum(r, key, members, absorption) == Summed(Known(r.intensities, members), absorption, key)
    decreases |members|
  {
    if members != [] {
      var n := |members| - 1;
      KnownSums(r, key, members[..n], absorption);
      var known := Known(r.intensities, members);
      var init := Known(r.intensities, members[..n]);
      if One(members[n]) in r.intensities {
        var d := r.intensities[One(members[n])];
        assert known == init + [d];
        SummedAppend(init, d, absorption, key);
      } else {
        assert known == init;
      }
    }
  }

  /** Appending one datum adds its stored value and squared uncertainty to the sums. */
  lemma SummedAppend(data: seq<Datum>, d: Datum, absorption: bool, key: string)
    requires AllWellFormed(data) && WellFormed(d) && key in INTENSITY_KEYS
    ensures AllWellFormed(data + [d])
    ensures var s := Summed(data, absorption, key);
            var m := Stored(d, absorption, key);
            Summed(data + [d], absorption, key) == Intensity(s.value + m.value, s.uncertaintySquared + m.uncertaintySquared)
  {
    var all := data + [d];
    assert all[..|all| - 1] == data;
    assert AllWellFormed(all);
    WellFormedPairs(all, absorption, key);
    WellFormedPairs(data, absorption, key);
  }

  /**
   * A set of transitions that is not itself a key: its intensity is the
   * sum of its known members' intensities, uncertainties added in
   * quadrature.
   */
  lemma SetIntensityIsMemberSum<T>(r: IntensityResult<T>, key: string, members: seq<T>, absorption: bool)
    requires r.Valid() && key in INTENSITY_KEYS
    requires Several(members) !in r.intensities
    requires HasIntensity(r, Several(members))
    ensures IntensityOf(r, key, Several(members), absorption) == Ok(MemberSum(r, key, members, absorption))
  {
    KnownSums(r, key, members, absorption);
  }

  /**
   * `intensity`: EMITTED with absorption, else GENERATED; TOTAL with
   * fluorescence, else NOFLUORESCENCE.
   */
  function IntensityFor<T(==)>(r: IntensityResult<T>, q: Query<T>, absorption: bool, fluorescence: bool): (res: Result<Intensity>)
    requires r.Valid()
    ensures res.Ok? <==> HasIntensity(r, q)
    ensures q in r.intensities ==> res == Ok(Stored(r.intensities[q], absorption, FluorescenceKey(fluorescence)))
  {
    IntensityOf(r, FluorescenceKey(fluorescence), q, absorption)
  }

  /**
   * A result built from `create_intensity_dict` gives back, for each choice
   * of absorption and fluorescence, the pair it was given.
   */
  lemma CreatedIntensities<T>(transition: Query<T>,
                              gcf: (real, real), gbf: (real, real), gnf: (real, real), gt: (real, real),
                              ecf: (real, real), ebf: (real, real), enf: (real, real), et: (real, real))
    ensures var m := CreateIntensityDict(transition, gcf, gbf, gnf, gt, ecf, ebf, enf, et);
      var r := NewIntensityResult(m);
      r.Ok?
      && IntensityFor(r.value, transition, false, false) == Ok(Intensity(gnf.0, gnf.1 * gnf.1))
      && IntensityFor(r.value, transition, false, true) == Ok(Intensity(gt.0, gt.1 * gt.1))
      && IntensityFor(r.value, transition, true, false) == Ok(Intensity(enf.0, enf.1 * enf.1))
      && IntensityFor(r.value, transition, true, true) == Ok(Intensity(et.0, et.1 * et.1))
      && CharacteristicFluorescence(r.value, transition, true) == Ok(Intensity(ecf.0, ecf.1 * ecf.1))
      && BremsstrahlungFluorescence(r.value, transition, false) == Ok(Intensity(gbf.0, gbf.1 * gbf.1))
  {
    var m := CreateIntensityDict(transition, gcf, gbf, gnf, gt, ecf, ebf, enf, et);
    var d := m[transition];
    CheckDatumAccepts(d);
    var res := NewIntensityResult(m).value;
    assert res.intensities == m && transition in m;
    assert IntensityFor(res, transition, false, false) == Ok(Stored(d, false, NOFLUORESCENCE));
    assert IntensityFor(res, transition, false, true) == Ok(Stored(d, false, TOTAL));
    assert IntensityFor(res, transition, true, false) == Ok(Stored(d, true, NOFLUORESCENCE));
    assert IntensityFor(res, transition, true, true) == Ok(Stored(d, true, TOTAL));
    assert d[GENERATED][NOFLUORESCENCE] == [gnf.0, gnf.1] && d[GENERATED][TOTAL] == [gt.0, gt.1];
    assert d[EMITTED][NOFLUORESCENCE] == [enf.0, enf.1] && d[EMITTED][TOTAL] == [et.0, et.1];
    assert d[EMITTED][CHARACTERISTIC] == [ecf.0, ecf.1] && d[GENERATED][BREMSSTRAHLUNG] == [gbf.0, gbf.1];
    assert Stored(d, false, NOFLUORESCENCE) == Intensity(gnf.0, gnf.1 * gnf.1);
    assert Stored(d, false, TOTAL) == Intensity(gt.0, gt.1 * gt.1);
    assert Stored(d, true, NOFLUORESCENCE) == Intensity(enf.0, enf.1 * enf.1);
    assert Stored(d, true, TOTAL) == Intensity(et.0, et.1 * et.1);
    assert Stored(d, true, CHARACTERISTIC) == Intensity(ecf.0, ecf.1 * ecf.1);
    assert Stored(d, false, BREMSSTRAHLUNG) == Intensity(gbf.0, gbf.1 * gbf.1);
  }

  /** `characteristic_fluorescence`: the characteristic-fluorescence kind. */
  function CharacteristicFluorescence<T(==)>(r: IntensityResult<T>, q: Query<T>, absorption: bool): (res: Result<Intensity>)
    requires r.Valid()
    ensures res.Ok? <==> HasIntensity(r, q)
    ensures q in r.intensities ==> res == Ok(Stored(r.intensities[q], absorption, CHARACTERISTIC))
  {
    IntensityOf(r, CHARACTERISTIC, q, absorption)
  }

  /** `bremsstrahlung_fluorescence`: the bremsstrahlung-fluorescence kind. */
  function BremsstrahlungFluorescence<T(==)>(r: IntensityResult<T>, q: Query<T>, absorption: bool): (res: Result<Intensity>)
    requires r.Valid()
    ensures res.Ok? <==> HasIntensity(r, q)
    ensures q in r.intensities ==> res == Ok(Stored(r.intensities[q], absorption, BREMSSTRAHLUNG))
  {
    IntensityOf(r, BREMSSTRAHLUNG, q, absorption)
  }

  /**
   * A difference of two intensities; its uncertainty is the sum of the two
   * uncertainties, kept as their squares.
   */
  datatype Difference = Difference(value: real, uncertaintiesSquared: (real, real))

  /** `fluorescence`: total minus no-fluorescence. */
  function Fluorescence<T(==)>(r: IntensityResult<T>, q: Query<T>, absorption: bool): (res: Result<Difference>)
    requires r.Valid()
    ensures res.Ok? <==> HasIntensity(r, q)
    ensures res.Ok? ==> (
      res.value.value == IntensityFor(r, q, absorption, true).value.value - IntensityFor(r, q, absorption, false).value.value)
    ensures res.Ok? ==> (
      res.value.uncertaintiesSquared ==
      (IntensityFor(r, q, absorption, false).value.uncertaintySquared, IntensityFor(r, q, absorption, true).value.uncertaintySquared))
  {
    if !HasIntensity(r, q) then Err(ValueError)
    else
      var nf := IntensityFor(r, q, absorption, false).value;
      var t := IntensityFor(r, q, absorption, true).value;
      Ok(Difference(t.value - nf.value, (nf.uncertaintySquared, t.uncertaintySquared)))
  }

  /** `absorption`: emitted minus generated. */
  function Absorption<T(==)>(r: IntensityResult<T>, q: Query<T>, fluorescence: bool): (res: Result<Difference>)
    requires r.Valid()
    ensures res.Ok? <==> HasIntensity(r, q)
    ensures res.Ok? ==> (
      res.value.value == IntensityFor(r, q, true, fluorescence).value.value - IntensityFor(r, q, false, fluorescence).value.value)
    ensures res.Ok? ==> (
      res.value.uncertaintiesSquared ==
      (IntensityFor(r, q, false, fluorescence).value.uncertaintySquared, IntensityFor(r, q, true, fluorescence).value.uncertaintySquared))
  {
    if !HasIntensity(r, q) then Err(ValueError)
    else
      var g := IntensityFor(r, q, false, fluorescence).value;
      var e := IntensityFor(r, q, true, fluorescence).value;
      Ok(Difference(e.value - g.value, (g.uncertaintySquared, e.uncertaintySquared)))
  }

  /** `iter_transitions`: every stored key with its intensity; none of them raises. */
  function IterIntensities<T(==)>(r: IntensityResult<T>, absorption: bool, fluorescence: bool): (m: map<Query<T>, Intensity>)
    requires r.Valid()
    ensures m.Keys == r.intensities.Keys
    ensures forall q :: q in m ==> IntensityFor(r, q, absorption, fluorescence) == Ok(m[q])
  {
    map q | q in r.intensities :: IntensityFor(r, q, absorption, fluorescence).value
  }

  /** A numpy two-dimensional array: every row has `cols` entries. */
  datatype RawArray = RawArray(cols: nat, rows: seq<seq<real>>)

  type Array2 = a: RawArray | forall i :: 0 <= i < |a.rows| ==> |a.rows[i]| == a.cols
    witness RawArray(0, [])

  /**
   * `_check`: ValueError with fewer than two columns; a zero uncertainty
   * column is appended to a two-column array; wider arrays are kept.
   */
  function CheckColumns(a: Array2): (r: Result<Array2>)
    ensures r.Err? <==> a.cols < 2
    ensures r.Err? ==> r.error == ValueError
    ensures r.Ok? ==> r.value.cols >= 3 && |r.value.rows| == |a.rows|
    ensures r.Ok? ==> forall i, j :: 0 <= i < |a.rows| && 0 <= j < a.cols ==> |r.value.rows[i]| > j && r.value.rows[i][j] == a.rows[i][j]
    ensures r.Ok? && a.cols == 2 ==> r.value.cols == 3 && forall i :: 0 <= i < |a.rows| ==> r.value.rows[i][2] == 0.0
    ensures a.cols >= 3 ==> r == Ok(a)
  {
    if a.cols < 2 then Err(ValueError)
    else if a.cols == 2 then
      var rows := seq(|a.rows|, i requires 0 <= i < |a.rows| => a.rows[i] + [0.0]);
      var padded: Array2 := RawArray(3, rows);
      Ok(padded)
    else Ok(a)
  }

  /** The first column. */
  function Column0(a: Array2): (xs: seq<real>)
    requires a.cols >= 1
    ensures |xs| == |a.rows| && forall i :: 0 <= i < |a.rows| ==> xs[i] == a.rows[i][0]
  {
    seq(|a.rows|, i requires 0 <= i < |a.rows| => a.rows[i][0])
  }

  /** A photon spectrum: total and background arrays with (energy, intensity, uncertainty) columns. */
  datatype Spectrum = Spectrum(total: Array2, background: Array2)
  {
    predicate Valid()
    {
      total.cols >= 3 && background.cols >= 3
    }
  }

  /**
   * The constructor: IndexError when an array has no energy column,
   * ValueError when the two energy columns are not close (decided by
   * `np.allclose`, given here), then each array is checked.
   */
  function NewSpectrum(total: Array2, background: Array2, energiesClose: bool): (r: Result<Spectrum>)
    ensures r.Ok? <==> energiesClose && total.cols >= 2 && background.cols >= 2
    ensures r.Err? ==> r.error == (if total.cols == 0 || background.cols == 0 then IndexError else ValueError)
    ensures r.Ok? ==> (
      r.value.Valid() && r.value.total == CheckColumns(total).value
      && r.value.background == CheckColumns(background).value)
  {
    if total.cols == 0 || background.cols == 0 then Err(IndexError)
    else if !energiesClose then Err(ValueError)
    else
      var t :- CheckColumns(total);
      var b :- CheckColumns(background);
      Ok(Spectrum(t, b))
  }

  /** `energy_channel_width_eV`: the second energy minus the first; IndexError with fewer than two rows. */
  function ChannelWidth(s: Spectrum): (r: Result<real>)
    requires s.Valid()
    ensures r.Ok? <==> |s.total.rows| >= 2
    ensures r.Ok? ==> r.value == s.total.rows[1][0] - s.total.rows[0][0]
  {
    if |s.total.rows| < 2 then Err(IndexError) else Ok(s.total.rows[1][0] - s.total.rows[0][0])
  }

  /** `energy_offset_eV`: the first energy. */
  function EnergyOffset(s: Spectrum): (r: Result<real>)
    requires s.Valid()
    ensures r.Ok? <==> |s.total.rows| >= 1
    ensures r.Ok? ==> r.value == s.total.rows[0][0]
    ensures r.Err? ==> r.error == IndexError
  {
    if |s.total.rows| == 0 then Err(IndexError) else Ok(s.total.rows[0][0])
  }

  /**
   * `bisect.bisect_right` on sorted values: the number of leading values
   * not above x.
   */
  function BisectRight(xs: seq<real>, x: real): (i: nat)
    ensures i <= |xs|
    ensures forall j :: 0 <= j < i ==> xs[j] <= x
    ensures i < |xs| ==> xs[i] > x
    decreases |xs|
  {
    if xs == [] || xs[0] > x then 0 else 1 + BisectRight(xs[1..], x)
  }

  predicate Sorted(xs: seq<real>)
  {
    forall i, j :: 0 <= i < j < |xs| ==> xs[i] <= xs[j]
  }

  /** On sorted values, every value from the bisection point on is above x. */
  lemma BisectRightSplits(xs: seq<real>, x: real)
    requires Sorted(xs)
    ensures forall j :: BisectRight(xs, x) <= j < |xs| ==> xs[j] > x
  {
  }

  /**
   * `_get_intensity` of a spectrum: (0, 0) at or above the last energy plus
   * the channel width, (0, 0) below the first energy, otherwise the
   * intensity and uncertainty of the row of the last energy not above it.
   */
  function SpectrumIntensity(s: Spectrum, energy: real, data: Array2): (r: Result<(real, real)>)
    requires s.Valid() && data.cols >= 3
    ensures r.Err? <==> |data.rows| == 0 || |s.total.rows| < 2
  {
    if |data.rows| == 0 then Err(IndexError)
    else
      var width :- ChannelWidth(s);
      if energy >= data.rows[|data.rows| - 1][0] + width then Ok((0.0, 0.0))
      else
        var index := BisectRight(Column0(data), energy);
        if index == 0 then Ok((0.0, 0.0))
        else Ok((data.rows[index - 1][1], data.rows[index - 1][2]))
  }

  /** Outside the spectrum the lookup gives (0, 0); inside, the row of the bin the energy falls in. */
  lemma SpectrumIntensityBins(s: Spectrum, energy: real, data: Array2)
    requires s.Valid() && data.cols >= 3 && |data.rows| > 0 && |s.total.rows| >= 2
    requires Sorted(Column0(data))
    ensures energy < data.rows[0][0] ==> SpectrumIntensity(s, energy, data) == Ok((0.0, 0.0))
    ensures energy >= data.rows[|data.rows| - 1][0] + ChannelWidth(s).value ==> SpectrumIntensity(s, energy, data) == Ok((0.0, 0.0))
    ensures data.rows[0][0] <= energy < data.rows[|data.rows| - 1][0] + ChannelWidth(s).value ==>
      exists i :: 0 <= i < |data.rows| && data.rows[i][0] <= energy
        && (i + 1 == |data.rows| || data.rows[i + 1][0] > energy)
        && SpectrumIntensity(s, energy, data) == Ok((data.rows[i][1], data.rows[i][2]))
  {
    var xs := Column0(data);
    BisectRightSplits(xs, energy);
    var index := BisectRight(xs, energy);
    if data.rows[0][0] <= energy {
      assert index > 0;
    }
  }

  /** `total_intensity` and `background_intensity`. */
  function TotalIntensity(s: Spectrum, energy: real): (r: Result<(real, real)>)
    requires s.Valid()
    ensures r.Ok? <==> |s.total.rows| >= 2
  {
    SpectrumIntensity(s, energy, s.total)
  }

  function BackgroundIntensity(s: Spectrum, energy: real): (r: Result<(real, real)>)
    requires s.Valid()
    ensures r.Ok? <==> |s.background.rows| > 0 && |s.total.rows| >= 2
  {
    SpectrumIntensity(s, energy, s.background)
  }

  /** The distributions of one transition: `dist[GENERATED or EMITTED][TOTAL or NOFLUORESCENCE]`. */
  type DistData = map<string, map<string, Array2>>

  /** `setdefault(key1, {})[key2] = a`. */
  function Put(d: DistData, key1: string, key2: string, a: Array2): (r: DistData)
    ensures key1 in r && key2 in r[key1] && r[key1][key2] == a
    ensures forall k1, k2 :: k1 in d && k2 in d[k1] && (k1, k2) != (key1, key2) ==> k1 in r && k2 in r[k1] && r[k1][k2] == d[k1][k2]
    ensures forall k1, k2 :: k1 in r && k2 in r[k1] && (k1, k2) != (key1, key2) ==> k1 in d && k2 in d[k1]
  {
    d[key1 := (if key1 in d then d[key1] else map[])[key2 := a]]
  }

  /** The array checked, then stored when given. */
  function PutChecked(d: DistData, key1: string, key2: string, a: Option<Array2>): (r: Result<DistData>)
    ensures r.Err? <==> a.Some? && a.value.cols < 2
    ensures r.Ok? && a.None? ==> r.value == d
    ensures r.Ok? && a.Some? ==> r.value == Put(d, key1, key2, CheckColumns(a.value).value)
  {
    if a.None? then Ok(d)
    else
      var checked :- CheckColumns(a.value);
      Ok(Put(d, key1, key2, checked))
  }

  /**
   * `create_photondist_dict` (and `create_phirhoz_dict`): the given arrays,
   * checked, under their (absorption, fluorescence) keys; nothing else.
   */
  function CreateDistDict<T(==)>(transition: Query<T>, gnf: Option<Array2>, gt: Option<Array2>,
                             enf: Option<Array2>, et: Option<Array2>): (r: Result<map<Query<T>, DistData>>)
    ensures r.Err? <==> (
      (gnf.Some? && gnf.value.cols < 2) || (gt.Some? && gt.value.cols < 2)
      || (enf.Some? && enf.value.cols < 2) || (et.Some? && et.value.cols < 2))
    ensures r.Err? ==> r.error == ValueError
    ensures r.Ok? ==> r.value.Keys == {transition}
  {
    var d0: DistData := map[];
    var d1 :- PutChecked(d0, GENERATED, NOFLUORESCENCE, gnf);
    var d2 :- PutChecked(d1, GENERATED, TOTAL, gt);
    var d3 :- PutChecked(d2, EMITTED, NOFLUORESCENCE, enf);
    var d4 :- PutChecked(d3, EMITTED, TOTAL, et);
    Ok(map[transition := d4])
  }

  /** A photon distribution result (depth, radial, or phi-rho-z). */
  datatype DistributionResult<T(==)> = DistributionResult(distributions: map<Query<T>, DistData>)

  /** `exists`: the transition, its absorption group and its fluorescence entry are all present. */
  predicate Exists<T(==)>(r: DistributionResult<T>, q: Query<T>, absorption: bool, fluorescence: bool)
  {
    q in r.distributions && AbsorptionKey(absorption) in r.distributions[q]
    && FluorescenceKey(fluorescence) in r.distributions[q][AbsorptionKey(absorption)]
  }

  /** A distribution created from the given arrays exists exactly for the arrays that were given, and holds them checked. */
  lemma CreatedExists<T>(transition: Query<T>, gnf: Option<Array2>, gt: Option<Array2>, enf: Option<Array2>, et: Option<Array2>,
                         absorption: bool, fluorescence: bool)
    requires CreateDistDict(transition, gnf, gt, enf, et).Ok?
    ensures var r := DistributionResult(CreateDistDict(transition, gnf, gt, enf, et).value);
      var given := if absorption then (if fluorescence then et else enf) else (if fluorescence then gt else gnf);
      (Exists(r, transition, absorption, fluorescence) <==> given.Some?)
      && (given.Some? ==> r.distributions[transition][AbsorptionKey(absorption)][FluorescenceKey(fluorescence)]
                          == CheckColumns(given.value).value)
  {
    var d0: DistData := map[];
    var d1 := PutChecked(d0, GENERATED, NOFLUORESCENCE, gnf).value;
    var d2 := PutChecked(d1, GENERATED, TOTAL, gt).value;
    var d3 := PutChecked(d2, EMITTED, NOFLUORESCENCE, enf).value;
    var d4 := PutChecked(d3, EMITTED, TOTAL, et).value;
    assert CreateDistDict(transition, gnf, gt, enf, et).value[transition] == d4;
  }

  /** `get`: ValueError exactly when the distribution does not exist. */
  function Get<T(==)>(r: DistributionResult<T>, q: Query<T>, absorption: bool, fluorescence: bool): (res: Result<Array2>)
    ensures res.Err? <==> !Exists(r, q, absorption, fluorescence)
    ensures res.Err? ==> res.error == ValueError
    ensures res.Ok? ==> res.value == r.distributions[q][AbsorptionKey(absorption)][FluorescenceKey(fluorescence)]
  {
    if !Exists(r, q, absorption, fluorescence) then Err(ValueError)
    else Ok(r.distributions[q][AbsorptionKey(absorption)][FluorescenceKey(fluorescence)])
  }

  /** Python's `sum` over a column. */
  function ColumnSum(a: Array2, j: nat): real
    requires j < a.cols
    decreases |a.rows|
  {
    if a.rows == [] then 0.0
    else ColumnSum(RawArray(a.cols, a.rows[..|a.rows| - 1]), j) + a.rows[|a.rows| - 1][j]
  }

  /**
   * `integral`: the sum of the intensities times the spacing of the first
   * two abscissae; IndexError with fewer than two rows or columns.
   */
  function Integral<T(==)>(r: DistributionResult<T>, q: Query<T>, absorption: bool, fluorescence: bool): (res: Result<real>)
    ensures res.Ok? <==> (
      Exists(r, q, absorption, fluorescence) && Get(r, q, absorption, fluorescence).value.cols >= 2
      && |Get(r, q, absorption, fluorescence).value.rows| >= 2)
    ensures !Exists(r, q, absorption, fluorescence) ==> res == Err(ValueError)
    ensures res.Ok? ==> var d := Get(r, q, absorption, fluorescence).value;
      res.value == ColumnSum(d, 1) * Abs(d.rows[1][0] - d.rows[0][0])
  {
    var d :- Get(r, q, absorption, fluorescence);
    if d.cols < 2 || |d.rows| < 2 then Err(IndexError)
    else Ok(ColumnSum(d, 1) * Abs(d.rows[1][0] - d.rows[0][0]))
  }

  /** A floating-point quotient: finite, or infinite/NaN when the divisor is zero. */
  datatype Quotient = Ratio(value: real) | NonFinite

  /** `fchi`: the emitted integral over the generated one. */
  function Fchi<T(==)>(r: DistributionResult<T>, q: Query<T>, fluorescence: bool): (res: Result<Quotient>)
    ensures res.Ok? <==> Integral(r, q, true, fluorescence).Ok? && Integral(r, q, false, fluorescence).Ok?
    ensures res.Ok? && res.value.Ratio? ==>
      res.value.value * Integral(r, q, false, fluorescence).value == Integral(r, q, true, fluorescence).value
    ensures res.Ok? ==> (res.value.NonFinite? <==> Integral(r, q, false, fluorescence).value == 0.0)
  {
    var emitted :- Integral(r, q, true, fluorescence);
    var generated :- Integral(r, q, false, fluorescence);
    if generated == 0.0 then Ok(NonFinite) else Ok(Ratio(emitted / generated))
  }

  /** `iter_transitions`: exactly the transitions whose distribution exists, each with it. */
  function IterDistributions<T(==)>(r: DistributionResult<T>, absorption: bool, fluorescence: bool): (m: map<Query<T>, Array2>)
    ensures m.Keys <= r.distributions.Keys
    ensures forall q :: q in r.distributions ==> (q in m <==> Exists(r, q, absorption, fluorescence))
    ensures forall q :: q in m ==> Get(r, q, absorption, fluorescence) == Ok(m[q])
  {
    map q | q in r.distributions && Exists(r, q, absorption, fluorescence) :: Get(r, q, absorption, fluorescence).value
  }

  /** `TimeResult`: the speed must be a (value, uncertainty) pair. */
  datatype TimeResult = TimeResult(simulationTimeS: real, simulationSpeedS: (real, real))

  function NewTimeResult(simulationTimeS: real, simulationSpeedS: seq<real>): (r: Result<TimeResult>)
    ensures r.Ok? <==> |simulationSpeedS| == 2
    ensures r.Err? ==> r.error == ValueError
    ensures r.Ok? ==> (
      r.value.simulationTimeS == simulationTimeS
      && r.value.simulationSpeedS == (simulationSpeedS[0], simulationSpeedS[1]))
  {
    if |simulationSpeedS| != 2 then Err(ValueError)
    else Ok(TimeResult(simulationTimeS, (simulationSpeedS[0], simulationSpeedS[1])))
  }

  /** `int(showers)`: truncation toward zero. */
  function Showers(showers: real): (r: int)
    ensures showers >= 0.0 ==> r as real <= showers < r as real + 1.0
    ensures showers < 0.0 ==> r as real - 1.0 < showers <= r as real
  {
    if showers >= 0.0 then showers.Floor else -((-showers).Floor)
  }

  /** `ElectronFractionResult`: each fraction must be a (value, uncertainty) pair. */
  datatype ElectronFractionResult = ElectronFractionResult(absorbed: (real, real), backscattered: (real, real), transmitted: (real, real))

  function NewElectronFractionResult(absorbed: seq<real>, backscattered: seq<real>, transmitted: seq<real>): (r: Result<ElectronFractionResult>)
    ensures r.Ok? <==> |absorbed| == 2 && |backscattered| == 2 && |transmitted| == 2
    ensures r.Err? ==> r.error == ValueError
    ensures r.Ok? ==> (
      r.value.absorbed == (absorbed[0], absorbed[1])
      && r.value.backscattered == (backscattered[0], backscattered[1])
      && r.value.transmitted == (transmitted[0], transmitted[1]))
  {
    if |absorbed| != 2 then Err(ValueError)
    else if |backscattered| != 2 then Err(ValueError)
    else if |transmitted| != 2 then Err(ValueError)
    else Ok(ElectronFractionResult((absorbed[0], absorbed[1]), (backscattered[0], backscattered[1]), (transmitted[0], transmitted[1])))
  }

  const EXIT_STATE_TRANSMITTED: int := 1
  const EXIT_STATE_BACKSCATTERED: int := 2
  const EXIT_STATE_ABSORBED: int := 3
  const EXIT_STATES: set<int> := {EXIT_STATE_BACKSCATTERED, EXIT_STATE_TRANSMITTED, EXIT_STATE_ABSORBED}

  /** One trajectory; the collision kinds are a type parameter. */
  datatype Trajectory<C> = Trajectory(primary: bool, particle: Particle, collision: C, exitState: int,
                                      interactions: seq<seq<real>>)
  {
    predicate IsSecondary()
    {
      !primary
    }
  }

  /** A filter criterion: a single accepted value, or a collection of them. */
  datatype Criterion<X(==)> = Single(x: X) | AnyOf(xs: set<X>)
  {
    /** `x in criterion`, a single value first wrapped in a list. */
    predicate Accepts(y: X)
    {
      match this
      case Single(v) => y == v
      case AnyOf(vs) => y in vs
    }
  }

  datatype Criteria<C(==)> = Criteria(isPrimary: Criterion<bool>, particles: Criterion<Particle>,
                                  collisions: Criterion<C>, exitStates: Criterion<int>)
  {
    predicate Matches(t: Trajectory<C>)
    {
      isPrimary.Accepts(t.primary) && particles.Accepts(t.particle)
      && collisions.Accepts(t.collision) && exitStates.Accepts(t.exitState)
    }
  }

  /** The defaults: both primary and secondary, all particles, all collisions, all exit states. */
  function DefaultCriteria<C(==)>(collisions: set<C>): Criteria<C>
  {
    Criteria(AnyOf({true, false}), AnyOf(set p | p in PARTICLES), AnyOf(collisions), AnyOf(EXIT_STATES))
  }

  /** The matching trajectories, in their original order. */
  function Filtered<C(==)>(ts: seq<Trajectory<C>>, c: Criteria<C>): seq<Trajectory<C>>
    decreases |ts|
  {
    if ts == [] then []
    else
      var init := Filtered(ts[..|ts| - 1], c);
      if c.Matches(ts[|ts| - 1]) then init + [ts[|ts| - 1]] else init
  }

  /** `filter`: the generator, collected. */
  method Filter<C(==)>(ts: seq<Trajectory<C>>, c: Criteria<C>) returns (r: seq<Trajectory<C>>)
    ensures r == Filtered(ts, c)
  {
    r := [];
    var i := 0;
    while i < |ts|
      invariant 0 <= i <= |ts|
      invariant r == Filtered(ts[..i], c)
    {
      assert ts[..i + 1][..i] == ts[..i];
      var t := ts[i];
      if c.Matches(t) {
        r := r + [t];
      }
      i := i + 1;
    }
    assert ts[..|ts|] == ts;
  }

  /** Exactly the matching trajectories are yielded. */
  lemma {:induction false} FilteredMember<C>(ts: seq<Trajectory<C>>, c: Criteria<C>, t: Trajectory<C>)
    ensures t in Filtered(ts, c) <==> t in ts && c.Matches(t)
    decreases |ts|
  {
    if ts != [] {
      var n := |ts| - 1;
      FilteredMember(ts[..n], c, t);
      assert ts == ts[..n] + [ts[n]];
    }
  }

  /** Filtering keeps the original order: it distributes over concatenation. */
  lemma {:induction false} FilteredAppend<C>(ts: seq<Trajectory<C>>, us: seq<Trajectory<C>>, c: Criteria<C>)
    ensures Filtered(ts + us, c) == Filtered(ts, c) + Filtered(us, c)
    decreases |us|
  {
    if us != [] {
      var n := |us| - 1;
      assert (ts + us)[..|ts + us| - 1] == ts + us[..n];
      FilteredAppend(ts, us[..n], c);
    } else {
      assert ts + us == ts;
    }
  }

  /** With the defaults, a trajectory is kept exactly when its collision and exit state are known ones. */
  lemma DefaultFilterKeeps<C>(collisions: set<C>, t: Trajectory<C>)
    ensures DefaultCriteria(collisions).Matches(t) <==> t.collision in collisions && t.exitState in EXIT_STATES
  {
    ParticlesAreThree(t.particle, t.particle);
    assert t.particle in set p | p in PARTICLES;
  }

  /** `_ChannelsResult`: the array checked as for spectra; its length is the number of rows. */
  function NewChannelsResult(data: Array2): (r: Result<Array2>)
    ensures r.Ok? <==> data.cols >= 2
    ensures r.Err? ==> r.error == ValueError
    ensures r.Ok? ==> |r.value.rows| == |data.rows| && r.value.cols >= 3
    ensures r.Ok? ==> forall i, j :: 0 <= i < |data.rows| && 0 <= j < data.cols ==>
                        |r.value.rows[i]| > j && r.value.rows[i][j] == data.rows[i][j]
    ensures r.Ok? && data.cols == 2 ==> r.value.cols == 3 && forall i :: 0 <= i < |data.rows| ==> r.value.rows[i][2] == 0.0
    ensures data.cols >= 3 ==> r == Ok(data)
  {
    CheckColumns(data)
  }
}
