/**
 * The results of a quantification: the composition after every iteration
 * and run statistics, saved as an archive holding a `compositions.csv`
 * table (a header of atomic numbers, one row per iteration) and a
 * `stats.cfg` section.  Archive bytes, CSV quoting and float formatting are
 * not modelled: a table cell is a real.
 */
module QuantResults {
  import opened Wrappers

  /** Weight fraction per atomic number. */
  type Composition = map<int, real>

  const VERSION: string := "2"
  const VERSION_COMMENT: string := "version=" + VERSION

  datatype Results = Results(compositions: seq<Composition>, elapsedTime: real, maxIterations: int,
                             iteratorName: string, convergorName: string)
  {
    /** The number of iterations is the number of stored compositions. */
    function Iterations(): nat
    {
      |compositions|
    }
  }

  datatype Stats = Stats(elapsedTime: real, iterations: int, maxIterations: int, iteratorName: string, convergorName: string)

  /** A saved archive: its comment, the atomic numbers of the table header, the table rows and the statistics. */
  datatype Archive = Archive(comment: string, header: seq<int>, rows: seq<seq<real>>, stats: Stats)

  /**
   * `Results(compositions, elapsed_time_s, max_iterations, iterator, convergor)`:
   * a negative elapsed time raises ValueError; the list is copied (a Dafny
   * sequence is a value, so later changes to the caller's list cannot show).
   */
  function NewResults(compositions: seq<Composition>, elapsedTime: real, maxIterations: int,
                      iteratorName: string, convergorName: string): (r: Result<Results>)
    ensures elapsedTime < 0.0 <==> r == Err(ValueError)
    ensures r.Ok? ==> r.value.compositions == compositions && r.value.Iterations() == |compositions|
                      && r.value.elapsedTime == elapsedTime && r.value.maxIterations == maxIterations
                      && r.value.iteratorName == iteratorName && r.value.convergorName == convergorName
  {
    if elapsedTime < 0.0 then Err(ValueError)
    else Ok(Results(compositions, elapsedTime, maxIterations, iteratorName, convergorName))
  }

  /** `composition.get(z, 0.0)`. */
  function FractionOf(c: Composition, z: int): real
  {
    if z in c then c[z] else 0.0
  }

  predicate Distinct(zs: seq<int>)
  {
    forall i, j :: 0 <= i < j < |zs| ==> zs[i] != zs[j]
  }

  /** `zs` lists every key of `c` exactly once, as iterating the dict does. */
  predicate IsKeyOrder(zs: seq<int>, c: Composition)
  {
    Distinct(zs) && (set z | z in zs) == c.Keys
  }

  /** Row `i` of the table: the iteration number `i + 1`, then the fraction of each header element. */
  function RowOf(i: nat, c: Composition, zs: seq<int>): (row: seq<real>)
    ensures |row| == |zs| + 1 && row[0] == (i + 1) as real
    ensures forall k :: 0 <= k < |zs| ==> row[k + 1] == FractionOf(c, zs[k])
  {
    [(i + 1) as real] + seq(|zs|, k requires 0 <= k < |zs| => FractionOf(c, zs[k]))
  }

  /** `composition.update(dict(zip(zs, wfs)))`: pairs are stored left to right, so a repeated atomic number keeps its last value. */
  function ZipInto(acc: Composition, zs: seq<int>, wfs: seq<real>): Composition
    decreases |zs|
  {
    if zs == [] || wfs == [] then acc
    else ZipInto(acc[zs[0] := wfs[0]], zs[1..], wfs[1..])
  }

  /** The composition read from one table row; the iteration number in column 0 is skipped. */
  function ParseRow(zs: seq<int>, row: seq<real>): Composition
  {
    ZipInto(map[], zs, if row == [] then [] else row[1..])
  }

  /** The stored value of a zipped pair: keys from the shorter of the two lists, values at their position. */
  lemma {:induction false} ZipIntoAt(acc: Composition, zs: seq<int>, wfs: seq<real>)
    requires Distinct(zs) && |wfs| >= |zs|
    ensures ZipInto(acc, zs, wfs).Keys == acc.Keys + (set z | z in zs)
    ensures forall k :: 0 <= k < |zs| ==> ZipInto(acc, zs, wfs)[zs[k]] == wfs[k]
    ensures forall z :: z in acc && z !in zs ==> ZipInto(acc, zs, wfs)[z] == acc[z]
    decreases |zs|
  {
    if zs != [] {
      var acc' := acc[zs[0] := wfs[0]];
      ZipIntoAt(acc', zs[1..], wfs[1..]);
      assert (set z | z in zs) == {zs[0]} + (set z | z in zs[1..]);
      forall k | 0 <= k < |zs|
        ensures ZipInto(acc, zs, wfs)[zs[k]] == wfs[k]
      {
        if k > 0 {
          assert zs[k] == zs[1..][k - 1];
        } else {
          assert zs[0] !in zs[1..];
        }
      }
    }
  }

  /**
   * Reading back a saved row gives, for every header element, the fraction
   * that was saved (0.0 for one the composition lacks), and no other key.
   */
  lemma RowRoundTrip(i: nat, c: Composition, zs: seq<int>)
    requires Distinct(zs)
    ensures ParseRow(zs, RowOf(i, c, zs)).Keys == (set z | z in zs)
    ensures forall k :: 0 <= k < |zs| ==> ParseRow(zs, RowOf(i, c, zs))[zs[k]] == FractionOf(c, zs[k])
  {
    var row := RowOf(i, c, zs);
    ZipIntoAt(map[], zs, row[1..]);
  }

  /** A row of the composition whose keys form the header reads back as that very composition. */
  lemma FirstRowRoundTrip(c: Composition, zs: seq<int>)
    requires IsKeyOrder(zs, c)
    ensures ParseRow(zs, RowOf(0, c, zs)) == c
  {
    RowRoundTrip(0, c, zs);
    var p := ParseRow(zs, RowOf(0, c, zs));
    forall z | z in c
      ensures p[z] == c[z]
    {
      var k :| 0 <= k < |zs| && zs[k] == z;
    }
  }

  /** The statistics section written by `save`; the iteration count is the number of compositions. */
  function StatsOf(r: Results): (s: Stats)
    ensures s.iterations == |r.compositions|
  {
    Stats(r.elapsedTime, r.Iterations(), r.maxIterations, r.iteratorName, r.convergorName)
  }

  /**
   * `save`: the header lists the atomic numbers of the first composition in
   * the order `zs` of its keys, and row `i` holds `i + 1` and each of those
   * fractions.  With no composition, indexing the first one raises
   * IndexError.
   */
  method Save(r: Results, zs: seq<int>) returns (a: Result<Archive>)
    requires |r.compositions| > 0 ==> IsKeyOrder(zs, r.compositions[0])
    ensures r.compositions == [] <==> a == Err(IndexError)
    ensures a.Ok? ==> && a.value.comment == VERSION_COMMENT && a.value.header == zs
                      && a.value.stats == StatsOf(r)
                      && |a.value.rows| == |r.compositions|
                      && forall i :: 0 <= i < |r.compositions| ==> a.value.rows[i] == RowOf(i, r.compositions[i], zs)
  {
    if r.compositions == [] {
      return Err(IndexError);
    }
    var rows: seq<seq<real>> := [];
    var i := 0;
    while i < |r.compositions|
      invariant 0 <= i <= |r.compositions|
      invariant |rows| == i
      invariant forall j :: 0 <= j < i ==> rows[j] == RowOf(j, r.compositions[j], zs)
    {
      rows := rows + [RowOf(i, r.compositions[i], zs)];
      i := i + 1;
    }
    a := Ok(Archive(VERSION_COMMENT, zs, rows, StatsOf(r)));
  }

  /**
   * `load`: IOError unless the comment is `version=2`; each row becomes the
   * composition zipping the header's atomic numbers with the row's values;
   * AssertionError when the recorded iteration count differs from the
   * number of rows.
   */
  method Load(a: Archive) returns (r: Result<Results>)
    ensures a.comment != VERSION_COMMENT ==> r == Err(IOError)
    ensures a.comment == VERSION_COMMENT && a.stats.iterations != |a.rows| ==> r == Err(AssertionError)
    ensures a.comment == VERSION_COMMENT && a.stats.iterations == |a.rows| ==>
              (r.Ok? <==> a.stats.elapsedTime >= 0.0)
    ensures r.Ok? ==> && |r.value.compositions| == |a.rows|
                      && (forall i :: 0 <= i < |a.rows| ==> r.value.compositions[i] == ParseRow(a.header, a.rows[i]))
                      && r.value.elapsedTime == a.stats.elapsedTime
                      && r.value.maxIterations == a.stats.maxIterations
                      && r.value.iteratorName == a.stats.iteratorName && r.value.convergorName == a.stats.convergorName
  {
    if a.comment != VERSION_COMMENT {
      return Err(IOError);
    }
    var compositions: seq<Composition> := [];
    var i := 0;
    while i < |a.rows|
      invariant 0 <= i <= |a.rows|
      invariant |compositions| == i
      invariant forall j :: 0 <= j < i ==> compositions[j] == ParseRow(a.header, a.rows[j])
    {
      compositions := compositions + [ParseRow(a.header, a.rows[i])];
      i := i + 1;
    }
    if a.stats.iterations != |compositions| {
      return Err(AssertionError);
    }
    r := NewResults(compositions, a.stats.elapsedTime, a.stats.maxIterations, a.stats.iteratorName, a.stats.convergorName);
  }

  /**
   * What loading a saved archive yields: the same number of compositions,
   * the first one unchanged, and every later one restricted to the first
   * composition's elements, with 0.0 for those it lacked.
   */
  lemma {:induction false} SaveLoadRoundTrip(r: Results, zs: seq<int>, rows: seq<seq<real>>)
    requires |r.compositions| > 0 && IsKeyOrder(zs, r.compositions[0])
    requires |rows| == |r.compositions|
    requires forall i :: 0 <= i < |rows| ==> rows[i] == RowOf(i, r.compositions[i], zs)
    ensures ParseRow(zs, rows[0]) == r.compositions[0]
    ensures forall i :: 0 <= i < |rows| ==>
              ParseRow(zs, rows[i]).Keys == r.compositions[0].Keys
              && forall z :: z in r.compositions[0] ==> ParseRow(zs, rows[i])[z] == FractionOf(r.compositions[i], z)
  {
    FirstRowRoundTrip(r.compositions[0], zs);
    forall i | 0 <= i < |rows|
      ensures ParseRow(zs, rows[i]).Keys == r.compositions[0].Keys
      ensures forall z :: z in r.compositions[0] ==> ParseRow(zs, rows[i])[z] == FractionOf(r.compositions[i], z)
    {
      RowRoundTrip(i, r.compositions[i], zs);
      forall z | z in r.compositions[0]
        ensures ParseRow(zs, rows[i])[z] == FractionOf(r.compositions[i], z)
      {
        var k :| 0 <= k < |zs| && zs[k] == z;
      }
    }
  }
}
