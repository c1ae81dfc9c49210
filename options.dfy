/**
 * The base simulation options: a name, a beam, a geometry and three
 * containers. Detectors are a dictionary by name; limits are keyed by their
 * class and models by their type, so each holds at most one item per key.
 */
module Options {
  import opened Wrappers

  /** `_Detectors`: a dictionary of detectors by name. */
  class Detectors<D> {
    var data: map<string, D>

    constructor Init()
      ensures data == map[]
    {
      data := map[];
    }

    /** `__setitem__`. */
    method SetItem(key: string, value: D)
      modifies this
      ensures data == old(data)[key := value]
    {
      data := data[key := value];
    }

    /** `__getitem__`: KeyError for an unknown name. */
    method GetItem(key: string) returns (r: Result<D>)
      ensures r.Ok? <==> key in data
      ensures r.Ok? ==> r.value == data[key]
      ensures r.Err? ==> r.error == KeyError
    {
      if key !in data {
        return Err(KeyError);
      }
      r := Ok(data[key]);
    }

    /** `__delitem__`: KeyError for an unknown name, leaving the dictionary unchanged. */
    method DelItem(key: string) returns (r: Result<()>)
      modifies this
      ensures r.Ok? <==> key in old(data)
      ensures r.Err? ==> r.error == KeyError
      ensures data == old(data) - {key}
    {
      if key !in data {
        return Err(KeyError);
      }
      data := data - {key};
      r := Ok(());
    }

    /** `findall(clasz)`: the entries whose detector is an instance of the class, given as a test. */
    function FindAll(isInstance: D -> bool): (r: map<string, D>)
      reads this
      ensures forall k :: k in r <==> k in data && isInstance(data[k])
      ensures forall k :: k in r ==> r[k] == data[k]
    {
      Select(data, isInstance)
    }
  }

  function Select<D>(data: map<string, D>, keep: D -> bool): (r: map<string, D>)
    ensures r.Keys <= data.Keys
  {
    map k | k in data && keep(data[k]) :: data[k]
  }

  /** The instances of a class and the others split the dictionary between them. */
  lemma SelectPartition<D>(data: map<string, D>, isInstance: D -> bool)
    ensures Select(data, isInstance).Keys !! Select(data, d => !isInstance(d)).Keys
    ensures Select(data, isInstance).Keys + Select(data, d => !isInstance(d)).Keys == data.Keys
    ensures Select(data, isInstance) + Select(data, d => !isInstance(d)) == data
  {
  }

  /** Every value is stored under its own key. */
  ghost predicate KeyedBy<K, T>(keyOf: T -> K, data: map<K, T>)
  {
    forall k :: k in data ==> keyOf(data[k]) == k
  }

  /** Membership by stored value is lookup under the item's key. */
  lemma ContainsIsLookup<K, T>(keyOf: T -> K, data: map<K, T>, item: T)
    requires KeyedBy(keyOf, data)
    ensures item in data.Values <==> keyOf(item) in data && data[keyOf(item)] == item
  {
    if item in data.Values {
      var k :| k in data && data[k] == item;
      assert keyOf(data[k]) == k;
    }
  }

  /** Distinct keys hold distinct items, so the length is also the number of stored items. */
  lemma {:induction false} LengthCountsItems<K, T>(keyOf: T -> K, data: map<K, T>)
    requires KeyedBy(keyOf, data)
    ensures |data.Values| == |data|
    decreases |data|
  {
    if data != map[] {
      var k :| k in data;
      var rest := data - {k};
      assert KeyedBy(keyOf, rest);
      LengthCountsItems(keyOf, rest);
      assert data[k] !in rest.Values;
      forall v | v in data.Values
        ensures v in rest.Values + {data[k]}
      {
        var j :| j in data && data[j] == v;
        if j != k {
          assert rest[j] == v;
        }
      }
      forall v | v in rest.Values
        ensures v in data.Values
      {
        var j :| j in rest && rest[j] == v;
        assert data[j] == v;
      }
      assert data.Values == rest.Values + {data[k]};
      assert data.Keys == rest.Keys + {k};
    }
  }

  /**
   * `_Limits` (keyed by the class of a limit) and `_Models` (keyed by the
   * type of a model): a dictionary from key to item.
   */
  class KeyedSet<K(==), T(==)> {
    const keyOf: T -> K
    var data: map<K, T>

    ghost predicate Valid()
      reads this
    {
      KeyedBy(keyOf, data)
    }

    constructor Init(keyOf: T -> K)
      ensures Valid() && this.keyOf == keyOf && data == map[]
    {
      this.keyOf := keyOf;
      data := map[];
    }

    /** `__len__`: the number of keys, which LengthCountsItems shows is the number of stored items. */
    function Length(): nat
      reads this
    {
      |data|
    }

    /** `__contains__`: the item is one of the stored values. */
    predicate Contains(item: T)
      reads this
    {
      item in data.Values
    }

    /** `add`: the item replaces whatever was stored under its key. */
    method Add(item: T)
      requires Valid()
      modifies this`data
      ensures Valid()
      ensures data == old(data)[keyOf(item) := item]
      ensures Contains(item) && Find(keyOf(item)) == Some(item)
    {
      data := data[keyOf(item) := item];
      assert data[keyOf(item)] in data.Values;
    }

    /**
     * `discard`: the entry under the item's key goes, even when another
     * item of that key is stored; KeyError when the key is absent.
     */
    method Discard(item: T) returns (r: Result<()>)
      requires Valid()
      modifies this`data
      ensures Valid()
      ensures r.Ok? <==> keyOf(item) in old(data)
      ensures r.Err? ==> r.error == KeyError
      ensures data == old(data) - {keyOf(item)}
      ensures Find(keyOf(item)) == None
    {
      if keyOf(item) !in data {
        return Err(KeyError);
      }
      data := data - {keyOf(item)};
      r := Ok(());
    }

    /** `find(key, default)`: the stored item of that key, None standing for the default. */
    function Find(key: K): (r: Option<T>)
      reads this
      ensures Valid() && r.Some? ==> keyOf(r.value) == key && Contains(r.value)
      ensures r.None? <==> key !in data
    {
      if key in data then Some(data[key]) else None
    }
  }

  /** After adding items one by one, each key holds the last item added with it. */
  lemma {:induction false} AddAllKeepsLast<K, T>(keyOf: T -> K, data: map<K, T>, items: seq<T>, k: K)
    requires KeyedBy(keyOf, data)
    ensures KeyedBy(keyOf, AddAll(keyOf, data, items))
    ensures k in AddAll(keyOf, data, items) <==> k in data || exists i :: 0 <= i < |items| && keyOf(items[i]) == k
    ensures forall i :: 0 <= i < |items| && keyOf(items[i]) == k
                        && (forall j :: i < j < |items| ==> keyOf(items[j]) != k)
                        ==> AddAll(keyOf, data, items)[k] == items[i]
    decreases |items|
  {
    if items != [] {
      var n := |items| - 1;
      AddAllKeepsLast(keyOf, data, items[..n], k);
      assert forall i :: 0 <= i < n ==> items[..n][i] == items[i];
    }
  }

  /** The dictionary after `add` of each item in turn. */
  function AddAll<K, T>(keyOf: T -> K, data: map<K, T>, items: seq<T>): map<K, T>
  {
    if items == [] then data
    else AddAll(keyOf, data, items[..|items| - 1])[keyOf(items[|items| - 1]) := items[|items| - 1]]
  }

  datatype Beam = GaussianBeam(energy: real, diameter: real)  // eV, m
  datatype Geometry = Substrate(atomicNumber: int)             // a substrate of a pure element
  datatype Detector = Detector(clasz: string)
  datatype Limit = Limit(clasz: string, value: real)
  datatype Model = Model(modelType: string, name: string)

  function LimitClass(l: Limit): string { l.clasz }
  function ModelType(m: Model): string { m.modelType }

  /** The options of one simulation. */
  class Options {
    var name: string
    var beam: Beam
    var geometry: Geometry
    const detectors: Detectors<Detector>
    const limits: KeyedSet<string, Limit>
    const models: KeyedSet<string, Model>

    /**
     * `Options(name)`: named 'Untitled' by default, a 1 keV Gaussian beam of
     * 10 nm, a gold substrate and no detector, limit or model.
     */
    constructor Init(name: Option<string>)
      ensures this.name == name.GetOr("Untitled")
      ensures beam == GaussianBeam(1000.0, 0.00000001) && geometry == Substrate(79)
      ensures fresh(detectors) && fresh(limits) && fresh(models)
      ensures detectors.data == map[] && limits.data == map[] && models.data == map[]
      ensures limits.Valid() && models.Valid() && limits.keyOf == LimitClass && models.keyOf == ModelType
    {
      this.name := name.GetOr("Untitled");
      beam := GaussianBeam(1000.0, 0.00000001);
      geometry := Substrate(79);
      detectors := new Detectors.Init();
      limits := new KeyedSet.Init(LimitClass);
      models := new KeyedSet.Init(ModelType);
    }
  }
}
