/**
 * Series handlers flatten objects into labelled series. A series is an
 * ordered list of (column, value) entries; a column is labelled by its name
 * and compares equal to its name.
 */
module SeriesBase {
  import opened Wrappers
  import opened PyMath

  /**
   * A series column. `kind` is the column's Python class; an abbreviation
   * may be missing, as `_create_column` defaults it to None.
   */
  datatype Column = Column(kind: string, name: string, abbrev: Option<string>,
                           unit: Option<string>, tolerance: Option<real>)

  /** The class every handler creates its columns with. */
  const SERIES_COLUMN: string := "SeriesColumn"

  /** What a column is compared with: a string or another column. */
  datatype Operand = Str(s: string) | Col(c: Column)

  /** `__eq__`: a string by name; a column by class and name. */
  predicate Equal(c: Column, other: Operand)
  {
    match other
    case Str(s) => c.name == s
    case Col(d) => c.kind == d.kind && c.name == d.name
  }

  /** `__hash__`: the hash of the name, for a given string hash. */
  function Hash(c: Column, hashString: string -> int): int
  {
    hashString(c.name)
  }

  /**
   * Column equality is an equivalence, it ignores abbreviation, unit and
   * tolerance, and it agrees with the hash, including for a bare name (so a
   * series can be sliced by name).
   */
  lemma EqualIsConsistent(c: Column, d: Column, e: Column, s: string, hashString: string -> int)
    ensures Equal(c, Col(c))
    ensures Equal(c, Col(d)) <==> Equal(d, Col(c))
    ensures Equal(c, Col(d)) && Equal(d, Col(e)) ==> Equal(c, Col(e))
    ensures Equal(c, Col(d)) ==> Hash(c, hashString) == Hash(d, hashString)
    ensures Equal(c, Str(s)) ==> Hash(c, hashString) == hashString(s)
    ensures Equal(c, Col(d)) <==> Equal(c, Str(d.name)) && c.kind == d.kind
  {
  }

  /**
   * `compare`: exact equality without a tolerance, otherwise `math.isclose`
   * with the tolerance as absolute tolerance (which rejects a negative one
   * with ValueError).
   */
  function Compare(c: Column, value0: real, value1: real): (r: Result<bool>)
    ensures c.tolerance.None? ==> r == Ok(value0 == value1)
    ensures c.tolerance.Some? && c.tolerance.value < 0.0 ==> r == Err(ValueError)
    ensures c.tolerance.Some? && c.tolerance.value >= 0.0 ==> r.Ok? && (r.value <==> IsClose(value0, value1, c.tolerance.value))
  {
    if c.tolerance.None? then Ok(value0 == value1)
    else if c.tolerance.value < 0.0 then Err(ValueError)
    else Ok(IsClose(value0, value1, c.tolerance.value))
  }

  /** With a tolerance, values within it compare equal; the comparison is symmetric. */
  lemma CompareProperties(c: Column, value0: real, value1: real)
    requires c.tolerance.Some? && c.tolerance.value >= 0.0
    ensures Abs(value0 - value1) <= c.tolerance.value ==> Compare(c, value0, value1) == Ok(true)
    ensures Compare(c, value0, value1) == Compare(c, value1, value0)
  {
    IsCloseSymmetric(value0, value1, c.tolerance.value);
    if Abs(value0 - value1) <= c.tolerance.value {
      WithinAbsoluteTolerance(value0, value1, c.tolerance.value);
    }
  }

  /** A pandas series: entries in insertion order. */
  type Series<V> = seq<(Column, V)>

  predicate DistinctNames<V>(s: Series<V>)
  {
    forall i, j :: 0 <= i < j < |s| ==> s[i].0.name != s[j].0.name
  }

  /** The position of the first entry whose column equals c, if any. */
  function Find<V>(s: Series<V>, c: Column): (r: Option<nat>)
    ensures r.None? <==> forall i :: 0 <= i < |s| ==> !Equal(s[i].0, Col(c))
    ensures r.Some? ==> r.value < |s| && Equal(s[r.value].0, Col(c))
    decreases |s|
  {
    if s == [] then None
    else if Equal(s[0].0, Col(c)) then Some(0)
    else
      var rest := Find(s[1..], c);
      if rest.None? then None else Some(rest.value + 1)
  }

  /** `s[column] = value`: replaces the value of an equal column, else appends. */
  function SetItem<V>(s: Series<V>, c: Column, v: V): (r: Series<V>)
    ensures Find(s, c).None? ==> r == s + [(c, v)]
    ensures Find(s, c).Some? ==> r == s[Find(s, c).value := (s[Find(s, c).value].0, v)]
  {
    var i := Find(s, c);
    if i.Some? then s[i.value := (s[i.value].0, v)] else s + [(c, v)]
  }

  /** The column `_update_with_prefix` makes of one column; TypeError without an abbreviation. */
  function PrefixColumn(c: Column, prefix: string, prefixAbbrev: string): (r: Result<Column>)
    ensures r.Ok? <==> c.abbrev.Some?
    ensures r.Err? ==> r.error == TypeError
    ensures r.Ok? ==> (
      r.value.kind == SERIES_COLUMN && r.value.name == prefix + c.name
      && r.value.abbrev == Some(prefixAbbrev + c.abbrev.value)
      && r.value.unit == c.unit && r.value.tolerance == c.tolerance)
  {
    if c.abbrev.None? then Err(TypeError)
    else Ok(Column(SERIES_COLUMN, prefix + c.name, Some(prefixAbbrev + c.abbrev.value), c.unit, c.tolerance))
  }

  /** The abbreviation prefix defaults to the name prefix. */
  function AbbrevPrefix(prefix: string, prefixAbbrev: Option<string>): string
  {
    prefixAbbrev.GetOr(prefix)
  }

  /** `_update_with_prefix` as a value: each entry set in turn into a new series. */
  function WithPrefix<V>(s: Series<V>, prefix: string, prefixAbbrev: string): Result<Series<V>>
    decreases |s|
  {
    if s == [] then Ok([])
    else
      var init :- WithPrefix(s[..|s| - 1], prefix, prefixAbbrev);
      var c :- PrefixColumn(s[|s| - 1].0, prefix, prefixAbbrev);
      Ok(SetItem(init, c, s[|s| - 1].1))
  }

  /** `_update_with_prefix`: the loop over the series. */
  method UpdateWithPrefix<V>(s: Series<V>, prefix: string, prefixAbbrev: Option<string>) returns (r: Result<Series<V>>)
    ensures r == WithPrefix(s, prefix, AbbrevPrefix(prefix, prefixAbbrev))
  {
    var pa := AbbrevPrefix(prefix, prefixAbbrev);
    var sNew: Series<V> := [];
    var i := 0;
    while i < |s|
      invariant 0 <= i <= |s|
      invariant WithPrefix(s[..i], prefix, pa) == Ok(sNew)
    {
      assert s[..i + 1][..i] == s[..i];
      var (column, value) := s[i];
      var c := PrefixColumn(column, prefix, pa);
      if c.Err? {
        PrefixFailure(s, i, prefix, pa);
        return Err(c.error);
      }
      sNew := SetItem(sNew, c.value, value);
      i := i + 1;
    }
    assert s[..|s|] == s;
    return Ok(sNew);
  }

  /** An entry without an abbreviation makes the whole update fail. */
  lemma {:induction false} PrefixFailure<V>(s: Series<V>, i: nat, prefix: string, prefixAbbrev: string)
    requires i < |s| && s[i].0.abbrev.None? && WithPrefix(s[..i], prefix, prefixAbbrev).Ok?
    ensures WithPrefix(s, prefix, prefixAbbrev) == Err(TypeError)
    decreases |s|
  {
    var n := |s| - 1;
    if i == n {
      assert s[..n] == s[..i];
    } else {
      assert s[..n][..i] == s[..i];
      PrefixFailure(s[..n], i, prefix, prefixAbbrev);
    }
  }

  /**
   * For a series with distinct names whose columns all have an
   * abbreviation, the result keeps every entry in order: the name and
   * abbreviation prefixed, unit, tolerance and value unchanged.
   */
  lemma {:induction false} WithPrefixEntries<V>(s: Series<V>, prefix: string, prefixAbbrev: string)
    requires DistinctNames(s)
    requires forall i :: 0 <= i < |s| ==> s[i].0.abbrev.Some?
    ensures WithPrefix(s, prefix, prefixAbbrev).Ok?
    ensures var r := WithPrefix(s, prefix, prefixAbbrev).value;
      |r| == |s| && DistinctNames(r)
      && forall i :: 0 <= i < |s| ==> r[i] == (PrefixColumn(s[i].0, prefix, prefixAbbrev).value, s[i].1)
    decreases |s|
  {
    if s != [] {
      var n := |s| - 1;
      WithPrefixEntries(s[..n], prefix, prefixAbbrev);
      var init := WithPrefix(s[..n], prefix, prefixAbbrev).value;
      var c := PrefixColumn(s[n].0, prefix, prefixAbbrev).value;
      forall i | 0 <= i < |init|
        ensures !Equal(init[i].0, Col(c))
      {
        assert init[i].0.name == prefix + s[i].0.name;
        assert s[i].0.name != s[n].0.name;
        assert (prefix + s[i].0.name)[|prefix|..] == s[i].0.name;
        assert (prefix + s[n].0.name)[|prefix|..] == s[n].0.name;
      }
      assert WithPrefix(s, prefix, prefixAbbrev).value == init + [(c, s[n].1)];
    }
  }

  /** An object's Python class: its name and the names of its base classes. */
  datatype PyClass = PyClass(name: string, bases: seq<string>)

  /** `isinstance(obj, cls)`. */
  predicate IsInstance(t: PyClass, cls: string)
  {
    t.name == cls || cls in t.bases
  }

  /** `can_convert`: the object's class is exactly the handler's CLASS. */
  predicate CanConvert(handlerClass: string, t: PyClass)
  {
    t.name == handlerClass
  }

  /** Convertible objects are instances of CLASS, but an instance of a subclass is not convertible. */
  lemma CanConvertIsExact(handlerClass: string, t: PyClass)
    ensures CanConvert(handlerClass, t) ==> IsInstance(t, handlerClass)
    ensures t.name != handlerClass && handlerClass in t.bases ==> IsInstance(t, handlerClass) && !CanConvert(handlerClass, t)
  {
  }

  /**
   * `find_convert_serieshandler` as a value: the index of the first handler
   * (by its CLASS, in entry-point order) that can convert; ConvertError if
   * none can.
   */
  function FirstHandler(handlers: seq<string>, t: PyClass): (r: Result<nat>)
    ensures r.Ok? ==> r.value < |handlers| && CanConvert(handlers[r.value], t)
    ensures r.Ok? ==> forall j :: 0 <= j < r.value ==> !CanConvert(handlers[j], t)
    ensures r.Err? <==> forall j :: 0 <= j < |handlers| ==> !CanConvert(handlers[j], t)
    ensures r.Err? ==> r.error == ConvertError
    decreases |handlers|
  {
    if handlers == [] then Err(ConvertError)
    else if CanConvert(handlers[0], t) then Ok(0)
    else
      var rest := FirstHandler(handlers[1..], t);
      if rest.Err? then Err(ConvertError) else Ok(rest.value + 1)
  }

  /** `find_convert_serieshandler`: the loop over the handlers. */
  method FindConvertHandler(handlers: seq<string>, t: PyClass) returns (r: Result<nat>)
    ensures r == FirstHandler(handlers, t)
  {
    var i := 0;
    while i < |handlers|
      invariant 0 <= i <= |handlers|
      invariant forall j :: 0 <= j < i ==> !CanConvert(handlers[j], t)
    {
      if CanConvert(handlers[i], t) {
        FirstHandlerIsFirst(handlers, t, i);
        return Ok(i);
      }
      i := i + 1;
    }
    return Err(ConvertError);
  }

  /** The first convertible handler is the one found. */
  lemma FirstHandlerIsFirst(handlers: seq<string>, t: PyClass, i: nat)
    requires i < |handlers| && CanConvert(handlers[i], t)
    requires forall j :: 0 <= j < i ==> !CanConvert(handlers[j], t)
    ensures FirstHandler(handlers, t) == Ok(i)
  {
  }
}
