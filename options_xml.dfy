/**
 * Reading and writing simulation options as an XML element tree. The
 * element carries a version, the name and the uuid as attributes, and six
 * sub-elements (programs, beam, geometry, detectors, limits, models); each
 * beam, geometry, detector, limit and model is parsed or converted by a
 * handler chosen for its group. Both directions report progress before each
 * step and stop, returning nothing, when asked to cancel.
 */
module OptionsXml {
  import opened Wrappers
  import opened PySet

  /** An XML element: tag, attributes, text and children in document order. */
  datatype Element = Element(tag: string, attrib: map<string, string>, text: string, children: seq<Element>)

  const VERSION: string := "6"
  const OPTIONS_TAG: string := "{http://pymontecarlo.sf.net}options"
  const NIL_UUID: string := "xsi:nil"

  /** The handler groups (entry points) of the items. */
  datatype Group = BeamGroup | GeometryGroup | DetectorGroup | LimitGroup | ModelGroup

  /** The registered handlers: one parse and one convert per group. */
  datatype Handlers<!T> = Handlers(parse: (Group, Element) -> Result<T>, convert: (Group, T) -> Element)

  /** The element with its detector key attribute set. */
  function WithKey(e: Element, key: string): (r: Element)
    ensures r.attrib == e.attrib["_key" := key]
    ensures r.tag == e.tag && r.children == e.children
  {
    e.(attrib := e.attrib["_key" := key])
  }

  /**
   * Handlers that read back what they write, whatever key attribute a
   * detector element is given.
   */
  ghost predicate RoundTrips<T(!new)>(h: Handlers<T>)
  {
    (forall g, x :: h.parse(g, h.convert(g, x)) == Ok(x))
    && (forall x, k :: h.parse(DetectorGroup, WithKey(h.convert(DetectorGroup, x), k)) == Ok(x))
  }

  /** The options as this format stores them; aliases stand for the programs. */
  datatype OptionsValue<T> = OptionsValue(
    name: string, uuid: Option<string>, programs: set<string>,
    beams: seq<T>, geometries: seq<T>, detectors: map<string, seq<T>>,
    limits: set<T>, models: set<T>)

  /** `element.attrib[key]`: KeyError when absent. */
  function Attr(e: Element, key: string): (r: Result<string>)
    ensures r.Ok? <==> key in e.attrib
    ensures r.Ok? ==> r.value == e.attrib[key]
    ensures r.Err? ==> r.error == KeyError
  {
    if key in e.attrib then Ok(e.attrib[key]) else Err(KeyError)
  }

  /** `element.find(tag)`: the first child with that tag. */
  function FindChild(children: seq<Element>, tag: string): (r: Option<Element>)
    ensures r.Some? ==> r.value.tag == tag
    decreases |children|
  {
    if children == [] then None
    else if children[0].tag == tag then Some(children[0])
    else FindChild(children[1..], tag)
  }

  /** Nothing is found exactly when no child has the tag; what is found is the first such child. */
  lemma {:induction false} FindChildFirst(children: seq<Element>, tag: string)
    ensures FindChild(children, tag).None? <==> forall i :: 0 <= i < |children| ==> children[i].tag != tag
    ensures FindChild(children, tag).Some? ==>
      exists i :: 0 <= i < |children| && children[i] == FindChild(children, tag).value
        && forall j :: 0 <= j < i ==> children[j].tag != tag
    decreases |children|
  {
    if children != [] && children[0].tag != tag {
      FindChildFirst(children[1..], tag);
      if FindChild(children, tag).Some? {
        var i :| 0 <= i < |children[1..]| && children[1..][i] == FindChild(children, tag).value
          && forall j :: 0 <= j < i ==> children[1..][j].tag != tag;
        assert children[i + 1] == FindChild(children, tag).value;
        assert forall j :: 0 <= j < i + 1 ==> children[j].tag != tag by {
          forall j | 0 <= j < i + 1 ensures children[j].tag != tag {
            if j > 0 { assert children[j] == children[1..][j - 1]; }
          }
        }
      } else {
        assert forall i :: 0 <= i < |children| ==> children[i].tag != tag by {
          forall i | 0 <= i < |children| ensures children[i].tag != tag {
            if i > 0 { assert children[i] == children[1..][i - 1]; }
          }
        }
      }
    } else if children != [] {
      assert children[0] == FindChild(children, tag).value;
    }
  }

  /** The texts of the children, as a set. */
  function Texts(children: seq<Element>): (r: set<string>)
    ensures forall i :: 0 <= i < |children| ==> children[i].text in r
    ensures forall t :: t in r ==> exists i :: 0 <= i < |children| && children[i].text == t
  {
    set i | 0 <= i < |children| :: children[i].text
  }

  /** Each child parsed in order; the first failure stops the reading. */
  function ParseAll<T>(g: Group, children: seq<Element>, h: Handlers<T>): (r: Result<seq<T>>)
    ensures r.Ok? ==> |r.value| == |children|
    decreases |children|
  {
    if children == [] then Ok([])
    else
      var init :- ParseAll(g, children[..|children| - 1], h);
      var x :- h.parse(g, children[|children| - 1]);
      Ok(init + [x])
  }

  /** Each child parsed in order and added to a set. */
  function ParseSet<T(==)>(g: Group, children: seq<Element>, h: Handlers<T>): (r: Result<set<T>>)
    decreases |children|
  {
    if children == [] then Ok({})
    else
      var init :- ParseSet(g, children[..|children| - 1], h);
      var x :- h.parse(g, children[|children| - 1]);
      Ok(init + {x})
  }

  /** The list stored under a key, or none. */
  function ListAt<T>(m: map<string, seq<T>>, key: string): seq<T>
  {
    if key in m then m[key] else []
  }

  /**
   * Detectors grouped by their `_key` attribute, in document order within
   * each key: KeyError for a detector element without a key.
   */
  function GroupByKey<T>(children: seq<Element>, h: Handlers<T>): (r: Result<map<string, seq<T>>>)
    decreases |children|
  {
    if children == [] then Ok(map[])
    else
      var acc :- GroupByKey(children[..|children| - 1], h);
      var last := children[|children| - 1];
      var key :- Attr(last, "_key");
      var d :- h.parse(DetectorGroup, last);
      Ok(acc[key := ListAt(acc, key) + [d]])
  }

  /** Every key read has at least one detector. */
  lemma {:induction false} GroupByKeyNonEmpty<T>(children: seq<Element>, h: Handlers<T>)
    ensures GroupByKey(children, h).Ok? ==>
      forall k :: k in GroupByKey(children, h).value ==> |GroupByKey(children, h).value[k]| > 0
    decreases |children|
  {
    if children != [] {
      GroupByKeyNonEmpty(children[..|children| - 1], h);
    }
  }

  /** `_read_programs`: the texts of the programs sub-element, or none. */
  function ReadPrograms(e: Element): set<string>
  {
    match FindChild(e.children, "programs")
    case None => {}
    case Some(sub) => Texts(sub.children)
  }

  /** `_read_beams`/`_read_geometries`: the parsed children of the sub-element, or none. */
  function ReadList<T>(e: Element, tag: string, g: Group, h: Handlers<T>): Result<seq<T>>
  {
    match FindChild(e.children, tag)
    case None => Ok([])
    case Some(sub) => ParseAll(g, sub.children, h)
  }

  /** `_read_limits`/`_read_models`: the parsed children of the sub-element as a set, or none. */
  function ReadSet<T(==)>(e: Element, tag: string, g: Group, h: Handlers<T>): Result<set<T>>
  {
    match FindChild(e.children, tag)
    case None => Ok({})
    case Some(sub) => ParseSet(g, sub.children, h)
  }

  /** `_read_detectors`: the grouped detectors of the sub-element, or none. */
  function ReadDetectors<T>(e: Element, h: Handlers<T>): (r: Result<map<string, seq<T>>>)
    ensures r.Ok? ==> forall k :: k in r.value ==> |r.value[k]| > 0
  {
    match FindChild(e.children, "detectors")
    case None => Ok(map[])
    case Some(sub) =>
      GroupByKeyNonEmpty(sub.children, h);
      GroupByKey(sub.children, h)
  }

  /**
   * The reader's steps when it is not cancelled: version check (KeyError
   * when absent, ValueError when not "6"), then name, uuid, programs, beams,
   * geometries, detectors, limits and models; the first failure wins.
   */
  function ReadElement<T(==)>(e: Element, h: Handlers<T>): (r: Result<OptionsValue<T>>)
    ensures r.Ok? ==> "version" in e.attrib && e.attrib["version"] == VERSION
    ensures "version" in e.attrib && e.attrib["version"] != VERSION ==> r == Err(ValueError)
    ensures "version" !in e.attrib ==> r == Err(KeyError)
    ensures r.Ok? ==> "name" in e.attrib && "uuid" in e.attrib
    ensures r.Ok? ==> r.value.name == e.attrib["name"] && r.value.uuid == Some(e.attrib["uuid"])
    ensures r.Ok? && FindChild(e.children, "programs").None? ==> r.value.programs == {}
    ensures r.Ok? && FindChild(e.children, "beam").None? ==> r.value.beams == []
    ensures r.Ok? && FindChild(e.children, "geometry").None? ==> r.value.geometries == []
    ensures r.Ok? && FindChild(e.children, "detectors").None? ==> r.value.detectors == map[]
    ensures r.Ok? && FindChild(e.children, "limits").None? ==> r.value.limits == {}
    ensures r.Ok? && FindChild(e.children, "models").None? ==> r.value.models == {}
  {
    var version :- Attr(e, "version");
    if version != VERSION then Err(ValueError)
    else
      var name :- Attr(e, "name");
      var uuid :- Attr(e, "uuid");
      var programs := ReadPrograms(e);
      var beams :- ReadList(e, "beam", BeamGroup, h);
      var geometries :- ReadList(e, "geometry", GeometryGroup, h);
      var detectors :- ReadDetectors(e, h);
      var limits :- ReadSet(e, "limits", LimitGroup, h);
      var models :- ReadSet(e, "models", ModelGroup, h);
      Ok(OptionsValue(name, Some(uuid), programs, beams, geometries, detectors, limits, models))
  }

  /** `can_parse`: exactly the options tag. */
  predicate CanParse(e: Element)
  {
    e.tag == OPTIONS_TAG
  }

  /** The Python types a writer may be handed. */
  datatype PyType = OptionsType | OptionsSubclass | OtherType

  /** `can_convert`: exactly the type Options, not a subclass. */
  predicate CanConvert(t: PyType)
  {
    t == OptionsType
  }

  /** `options._uuid or 'xsi:nil'`: an unset or empty uuid is written as the nil literal. */
  function UuidText(uuid: Option<string>): (r: string)
    ensures uuid.None? ==> r == NIL_UUID
    ensures uuid.Some? && uuid.value != "" ==> r == uuid.value
    ensures r != ""
  {
    if uuid.None? || uuid.value == "" then NIL_UUID else uuid.value
  }

  /** The detectors that are written: keys with an empty list produce no element. */
  function WrittenDetectors<T>(detectors: map<string, seq<T>>): (r: map<string, seq<T>>)
    ensures forall k :: k in r <==> k in detectors && detectors[k] != []
    ensures forall k :: k in r ==> r[k] == detectors[k]
  {
    map k | k in detectors && detectors[k] != [] :: detectors[k]
  }

  /**
   * What reading a written element gives back: the uuid as the text that was
   * written (the nil literal read verbatim), and only the non-empty detector
   * lists.
   */
  function ReadBack<T>(o: OptionsValue<T>): (r: OptionsValue<T>)
    ensures r.uuid == Some(UuidText(o.uuid))
    ensures r.detectors == WrittenDetectors(o.detectors)
    ensures r.name == o.name && r.programs == o.programs && r.beams == o.beams
    ensures r.geometries == o.geometries && r.limits == o.limits && r.models == o.models
  {
    o.(uuid := Some(UuidText(o.uuid)), detectors := WrittenDetectors(o.detectors))
  }

  /** Reading back a read element's options writes nothing new: read-back is idempotent. */
  lemma ReadBackIdempotent<T>(o: OptionsValue<T>)
    ensures ReadBack(ReadBack(o)) == ReadBack(o)
  {
    assert WrittenDetectors(WrittenDetectors(o.detectors)) == WrittenDetectors(o.detectors);
  }

  /** The progress reported before each step; the same for reading and writing. */
  const STEPS: seq<real> := [0.1, 0.13, 0.16, 0.2, 0.3, 0.4, 0.6, 0.8, 0.9]

  predicate StrictlyIncreasing(s: seq<real>)
  {
    forall i, j :: 0 <= i < j < |s| ==> s[i] < s[j]
  }

  /** Progress strictly increases through the steps, so any prefix reported does too. */
  lemma StepsIncrease(n: nat)
    requires n <= |STEPS|
    ensures StrictlyIncreasing(STEPS[..n])
  {
    assert StrictlyIncreasing(STEPS);
  }

  /**
   * The monitoring part of a reader or writer thread: the progress values
   * reported so far, and the check, after the report of a given index, from
   * which on cancellation is seen.
   */
  class Monitor {
    var log: seq<real>
    var status: string
    const cancelAt: Option<nat>

    constructor (cancelAt: Option<nat>)
      ensures log == [] && this.cancelAt == cancelAt
    {
      log := [];
      status := "";
      this.cancelAt := cancelAt;
    }

    /** `_update_status`. */
    method UpdateStatus(progress: real, status: string)
      modifies this`log, this`status
      ensures log == old(log) + [progress] && this.status == status
    {
      log := log + [progress];
      this.status := status;
    }

    /** `is_cancelled`, asked right after the latest report. */
    predicate IsCancelled()
      reads this
    {
      cancelAt.Some? && |log| > cancelAt.value
    }
  }

  /** Reading the programs: the text of every child. */
  method ReadProgramsLoop(e: Element) returns (programs: set<string>)
    ensures programs == ReadPrograms(e)
  {
    var sub := FindChild(e.children, "programs");
    programs := {};
    if sub.None? {
      return;
    }
    var children := sub.value.children;
    var i := 0;
    while i < |children|
      invariant 0 <= i <= |children|
      invariant programs == Texts(children[..i])
    {
      assert children[..i + 1] == children[..i] + [children[i]];
      programs := programs + {children[i].text};
      i := i + 1;
    }
    assert children[..|children|] == children;
  }

  /** Parsing the children in order into a list. */
  method ParseAllLoop<T>(g: Group, children: seq<Element>, h: Handlers<T>) returns (r: Result<seq<T>>)
    ensures r == ParseAll(g, children, h)
  {
    var items: seq<T> := [];
    var i := 0;
    while i < |children|
      invariant 0 <= i <= |children|
      invariant ParseAll(g, children[..i], h) == Ok(items)
    {
      assert children[..i + 1][..i] == children[..i];
      var x := h.parse(g, children[i]);
      if x.Err? {
        PrefixFailure(g, children, h, i + 1);
        return Err(x.error);
      }
      items := items + [x.value];
      i := i + 1;
    }
    assert children[..|children|] == children;
    r := Ok(items);
  }

  /** A failure on a prefix is the failure of the whole list. */
  lemma {:induction false} PrefixFailure<T>(g: Group, children: seq<Element>, h: Handlers<T>, n: nat)
    requires n <= |children|
    requires ParseAll(g, children[..n], h).Err?
    ensures ParseAll(g, children, h) == ParseAll(g, children[..n], h)
    decreases |children| - n
  {
    if n < |children| {
      assert children[..n + 1][..n] == children[..n];
      PrefixFailure(g, children, h, n + 1);
    } else {
      assert children[..n] == children;
    }
  }

  /** Parsing the children in order into a set. */
  method ParseSetLoop<T(==)>(g: Group, children: seq<Element>, h: Handlers<T>) returns (r: Result<set<T>>)
    ensures r == ParseSet(g, children, h)
  {
    var items: set<T> := {};
    var i := 0;
    while i < |children|
      invariant 0 <= i <= |children|
      invariant ParseSet(g, children[..i], h) == Ok(items)
    {
      assert children[..i + 1][..i] == children[..i];
      var x := h.parse(g, children[i]);
      if x.Err? {
        SetPrefixFailure(g, children, h, i + 1);
        return Err(x.error);
      }
      items := items + {x.value};
      i := i + 1;
    }
    assert children[..|children|] == children;
    r := Ok(items);
  }

  lemma {:induction false} SetPrefixFailure<T>(g: Group, children: seq<Element>, h: Handlers<T>, n: nat)
    requires n <= |children|
    requires ParseSet(g, children[..n], h).Err?
    ensures ParseSet(g, children, h) == ParseSet(g, children[..n], h)
    decreases |children| - n
  {
    if n < |children| {
      assert children[..n + 1][..n] == children[..n];
      SetPrefixFailure(g, children, h, n + 1);
    } else {
      assert children[..n] == children;
    }
  }

  /** Grouping the detector children by key: `setdefault(key, []).append(detector)`. */
  method GroupByKeyLoop<T>(children: seq<Element>, h: Handlers<T>) returns (r: Result<map<string, seq<T>>>)
    ensures r == GroupByKey(children, h)
  {
    var detectors: map<string, seq<T>> := map[];
    var i := 0;
    while i < |children|
      invariant 0 <= i <= |children|
      invariant GroupByKey(children[..i], h) == Ok(detectors)
    {
      assert children[..i + 1][..i] == children[..i];
      var child := children[i];
      if "_key" !in child.attrib {
        GroupPrefixFailure(children, h, i + 1);
        return Err(KeyError);
      }
      var key := child.attrib["_key"];
      var d := h.parse(DetectorGroup, child);
      if d.Err? {
        GroupPrefixFailure(children, h, i + 1);
        return Err(d.error);
      }
      detectors := detectors[key := ListAt(detectors, key) + [d.value]];
      i := i + 1;
    }
    assert children[..|children|] == children;
    r := Ok(detectors);
  }

  lemma {:induction false} GroupPrefixFailure<T>(children: seq<Element>, h: Handlers<T>, n: nat)
    requires n <= |children|
    requires GroupByKey(children[..n], h).Err?
    ensures GroupByKey(children, h) == GroupByKey(children[..n], h)
    decreases |children| - n
  {
    if n < |children| {
      assert children[..n + 1][..n] == children[..n];
      GroupPrefixFailure(children, h, n + 1);
    } else {
      assert children[..n] == children;
    }
  }

  /** `_OptionsElementReaderThread`: a monitor and the handlers to parse with. */
  class OptionsReaderThread<T(==)> {
    const monitor: Monitor
    const handlers: Handlers<T>

    constructor (monitor: Monitor, handlers: Handlers<T>)
      ensures this.monitor == monitor && this.handlers == handlers
    {
      this.monitor := monitor;
      this.handlers := handlers;
    }

    /**
     * `_run`: a report before each of the nine steps, the reading of
     * `ReadElement` in between, and no options at all once cancelled.
     */
    method Run(e: Element) returns (r: Result<Option<OptionsValue<T>>>)
      requires monitor.log == []
      modifies monitor
      ensures 1 <= |monitor.log| <= |STEPS| && monitor.log == STEPS[..|monitor.log|]
      ensures r == Ok(None) ==> monitor.cancelAt == Some(|monitor.log| - 1)
      ensures monitor.cancelAt == Some(0) ==> r == Ok(None)
      ensures r.Err? ==> ReadElement(e, handlers).Err? && r.error == ReadElement(e, handlers).error
      ensures r.Ok? && r.value.Some? ==> monitor.log == STEPS && ReadElement(e, handlers) == Ok(r.value.value)
      ensures monitor.cancelAt.None? ==>
        (r.Err? <==> ReadElement(e, handlers).Err?) && (r.Ok? ==> r.value == Some(ReadElement(e, handlers).value))
    {
      monitor.UpdateStatus(0.1, "Check version");
      assert monitor.log == STEPS[..1];
      if monitor.IsCancelled() { return Ok(None); }
      var version :- Attr(e, "version");
      if version != VERSION {
        return Err(ValueError);
      }

      monitor.UpdateStatus(0.13, "Reading name");
      assert monitor.log == STEPS[..2];
      if monitor.IsCancelled() { return Ok(None); }
      var name :- Attr(e, "name");

      monitor.UpdateStatus(0.16, "Reading UUID");
      assert monitor.log == STEPS[..3];
      if monitor.IsCancelled() { return Ok(None); }
      var uuid :- Attr(e, "uuid");

      monitor.UpdateStatus(0.2, "Reading programs");
      assert monitor.log == STEPS[..4];
      if monitor.IsCancelled() { return Ok(None); }
      var programs := ReadProgramsLoop(e);

      r := ReadItems(e, name, uuid, programs);
    }

    /** The steps from the beams on. */
    method ReadItems(e: Element, name: string, uuid: string, programs: set<string>) returns (r: Result<Option<OptionsValue<T>>>)
      requires monitor.log == STEPS[..4]
      requires Attr(e, "version") == Ok(VERSION) && Attr(e, "name") == Ok(name) && Attr(e, "uuid") == Ok(uuid)
      requires programs == ReadPrograms(e)
      requires !monitor.IsCancelled()
      modifies monitor
      ensures 4 <= |monitor.log| <= |STEPS| && monitor.log == STEPS[..|monitor.log|]
      ensures r == Ok(None) ==> monitor.cancelAt == Some(|monitor.log| - 1)
      ensures r.Err? ==> ReadElement(e, handlers).Err? && r.error == ReadElement(e, handlers).error
      ensures r.Ok? && r.value.Some? ==> monitor.log == STEPS && ReadElement(e, handlers) == Ok(r.value.value)
      ensures monitor.cancelAt.None? ==>
        (r.Err? <==> ReadElement(e, handlers).Err?) && (r.Ok? ==> r.value == Some(ReadElement(e, handlers).value))
    {
      var beams, geometries, detectors;
      r, beams, geometries, detectors := ReadLists(e);
      if r.Err? || r == Ok(None) {
        return;
      }

      monitor.UpdateStatus(0.8, "Reading limits");
      assert monitor.log == STEPS[..8];
      if monitor.IsCancelled() { return Ok(None); }
      var limits: set<T> := {};
      var sub := FindChild(e.children, "limits");
      if sub.Some? {
        limits :- ParseSetLoop(LimitGroup, sub.value.children, handlers);
      }

      monitor.UpdateStatus(0.9, "Reading models");
      assert monitor.log == STEPS[..9];
      if monitor.IsCancelled() { return Ok(None); }
      var models: set<T> := {};
      sub := FindChild(e.children, "models");
      if sub.Some? {
        models :- ParseSetLoop(ModelGroup, sub.value.children, handlers);
      }

      assert monitor.log == STEPS;
      r := Ok(Some(OptionsValue(name, Some(uuid), programs, beams, geometries, detectors, limits, models)));
    }

    /** The beams, geometries and detectors steps; `r` is `Ok(Some(_))` when reading may go on. */
    method ReadLists(e: Element) returns (r: Result<Option<OptionsValue<T>>>, beams: seq<T>, geometries: seq<T>, detectors: map<string, seq<T>>)
      requires monitor.log == STEPS[..4]
      requires !monitor.IsCancelled()
      modifies monitor
      ensures 4 <= |monitor.log| <= 7 && monitor.log == STEPS[..|monitor.log|]
      ensures r == Ok(None) ==> monitor.cancelAt == Some(|monitor.log| - 1)
      ensures r.Err? ==>
        ((ReadList(e, "beam", BeamGroup, handlers).Err? && r.error == ReadList(e, "beam", BeamGroup, handlers).error)
         || (ReadList(e, "beam", BeamGroup, handlers).Ok? && ReadList(e, "geometry", GeometryGroup, handlers).Err?
             && r.error == ReadList(e, "geometry", GeometryGroup, handlers).error)
         || (ReadList(e, "beam", BeamGroup, handlers).Ok? && ReadList(e, "geometry", GeometryGroup, handlers).Ok?
             && ReadDetectors(e, handlers).Err? && r.error == ReadDetectors(e, handlers).error))
      ensures r.Ok? && r.value.Some? ==>
        (monitor.log == STEPS[..7] && !monitor.IsCancelled()
         && ReadList(e, "beam", BeamGroup, handlers) == Ok(beams)
         && ReadList(e, "geometry", GeometryGroup, handlers) == Ok(geometries)
         && ReadDetectors(e, handlers) == Ok(detectors))
      ensures monitor.cancelAt.None? ==> r != Ok(None)
    {
      beams, geometries, detectors := [], [], map[];
      monitor.UpdateStatus(0.3, "Reading beams");
      assert monitor.log == STEPS[..5];
      if monitor.IsCancelled() { return Ok(None), beams, geometries, detectors; }
      var sub := FindChild(e.children, "beam");
      if sub.Some? {
        var b := ParseAllLoop(BeamGroup, sub.value.children, handlers);
        if b.Err? { return Err(b.error), beams, geometries, detectors; }
        beams := b.value;
      }

      monitor.UpdateStatus(0.4, "Reading geometries");
      assert monitor.log == STEPS[..6];
      if monitor.IsCancelled() { return Ok(None), beams, geometries, detectors; }
      sub := FindChild(e.children, "geometry");
      if sub.Some? {
        var g := ParseAllLoop(GeometryGroup, sub.value.children, handlers);
        if g.Err? { return Err(g.error), beams, geometries, detectors; }
        geometries := g.value;
      }

      monitor.UpdateStatus(0.6, "Reading detectors");
      assert monitor.log == STEPS[..7];
      if monitor.IsCancelled() { return Ok(None), beams, geometries, detectors; }
      sub := FindChild(e.children, "detectors");
      if sub.Some? {
        var d := GroupByKeyLoop(sub.value.children, handlers);
        if d.Err? { return Err(d.error), beams, geometries, detectors; }
        detectors := d.value;
      }
      r := Ok(Some(OptionsValue("", None, {}, beams, geometries, detectors, {}, {})));
    }
  }

  /** The elements of a sequence, as a set. */
  function Elems<T(==)>(xs: seq<T>): set<T>
  {
    set x | x in xs
  }

  /** An iteration order of a set: every element once. */
  predicate Enumerates<T(==)>(xs: seq<T>, s: set<T>)
  {
    Distinct(xs) && Elems(xs) == s
  }

  /** The handler's elements for the items, in order. */
  function Converted<T>(g: Group, xs: seq<T>, h: Handlers<T>): (r: seq<Element>)
    ensures |r| == |xs|
  {
    seq(|xs|, i requires 0 <= i < |xs| => h.convert(g, xs[i]))
  }

  /** One `program` element per alias, its text the alias. */
  function ProgramElements(aliases: seq<string>): (r: seq<Element>)
    ensures |r| == |aliases|
  {
    seq(|aliases|, i requires 0 <= i < |aliases| => Element("program", map[], "", []).(text := aliases[i]))
  }

  /** The detectors stored under one key, each element tagged with the key. */
  function KeyedBlock<T>(key: string, ds: seq<T>, h: Handlers<T>): (r: seq<Element>)
    ensures |r| == |ds|
  {
    seq(|ds|, i requires 0 <= i < |ds| => WithKey(h.convert(DetectorGroup, ds[i]), key))
  }

  /** The detector elements, key after key in the given order. */
  function DetectorElements<T>(keys: seq<string>, detectors: map<string, seq<T>>, h: Handlers<T>): seq<Element>
    decreases |keys|
  {
    if keys == [] then []
    else
      var k := keys[|keys| - 1];
      DetectorElements(keys[..|keys| - 1], detectors, h) + KeyedBlock(k, ListAt(detectors, k), h)
  }

  /** An empty sub-element with the given tag and children. */
  function SubElement(tag: string, children: seq<Element>): Element
  {
    Element(tag, map[], "", children)
  }

  /**
   * The element the writer builds when the sets and the detector keys are
   * iterated in the given orders: the three attributes, then all six
   * sub-elements, empty ones included.
   */
  function WrittenElement<T>(o: OptionsValue<T>, h: Handlers<T>, programs: seq<string>, keys: seq<string>,
                             limits: seq<T>, models: seq<T>): Element
  {
    Element(OPTIONS_TAG, map["version" := VERSION, "name" := o.name, "uuid" := UuidText(o.uuid)], "",
      [SubElement("programs", ProgramElements(programs)),
       SubElement("beam", Converted(BeamGroup, o.beams, h)),
       SubElement("geometry", Converted(GeometryGroup, o.geometries, h)),
       SubElement("detectors", DetectorElements(keys, o.detectors, h)),
       SubElement("limits", Converted(LimitGroup, limits, h)),
       SubElement("models", Converted(ModelGroup, models, h))])
  }

  /** The element is what the writer builds for the options, in some iteration order of its sets. */
  ghost predicate IsWritten<T(!new)>(e: Element, o: OptionsValue<T>, h: Handlers<T>)
  {
    exists programs, keys, limits, models ::
      Enumerates(programs, o.programs) && Enumerates(keys, o.detectors.Keys)
      && Enumerates(limits, o.limits) && Enumerates(models, o.models)
      && e == WrittenElement(o, h, programs, keys, limits, models)
  }

  /** Parsing converted items gives the items back, in order. */
  lemma {:induction false} ParseConverted<T(!new)>(g: Group, xs: seq<T>, h: Handlers<T>)
    requires RoundTrips(h)
    ensures ParseAll(g, Converted(g, xs, h), h) == Ok(xs)
    decreases |xs|
  {
    if xs != [] {
      var n := |xs| - 1;
      assert Converted(g, xs, h)[..n] == Converted(g, xs[..n], h);
      ParseConverted(g, xs[..n], h);
      assert h.parse(g, h.convert(g, xs[n])) == Ok(xs[n]);
      assert xs[..n] + [xs[n]] == xs;
    }
  }

  /** Parsing converted items into a set gives the set of the items. */
  lemma {:induction false} ParseSetConverted<T(!new)>(g: Group, xs: seq<T>, h: Handlers<T>)
    requires RoundTrips(h)
    ensures ParseSet(g, Converted(g, xs, h), h) == Ok(Elems(xs))
    decreases |xs|
  {
    if xs != [] {
      var n := |xs| - 1;
      var c := Converted(g, xs, h);
      assert c[..n] == Converted(g, xs[..n], h);
      assert c[n] == h.convert(g, xs[n]);
      ParseSetConverted(g, xs[..n], h);
      assert h.parse(g, c[n]) == Ok(xs[n]);
      assert ParseSet(g, c, h) == Ok(Elems(xs[..n]) + {xs[n]});
      assert xs == xs[..n] + [xs[n]];
      assert Elems(xs) == Elems(xs[..n]) + {xs[n]} by {
        forall x ensures x in xs <==> x in xs[..n] || x == xs[n] {
          if x in xs {
            var i :| 0 <= i < |xs| && xs[i] == x;
            if i < n { assert xs[..n][i] == x; }
          }
        }
      }
    } else {
      assert Elems(xs) == {};
    }
  }

  /** The texts of the program elements are the aliases. */
  lemma ProgramTexts(aliases: seq<string>)
    ensures Texts(ProgramElements(aliases)) == Elems(aliases)
  {
    var c := ProgramElements(aliases);
    forall t | t in Elems(aliases) ensures t in Texts(c) {
      var i :| 0 <= i < |aliases| && aliases[i] == t;
      assert c[i].text == t;
    }
  }

  /** One more keyed detector is appended to the list under its key. */
  lemma GroupAppend<T>(cs: seq<Element>, e: Element, k: string, d: T, h: Handlers<T>)
    requires GroupByKey(cs, h).Ok?
    requires "_key" in e.attrib && e.attrib["_key"] == k && h.parse(DetectorGroup, e) == Ok(d)
    ensures GroupByKey(cs + [e], h) ==
      Ok(GroupByKey(cs, h).value[k := ListAt(GroupByKey(cs, h).value, k) + [d]])
  {
    assert (cs + [e])[..|cs|] == cs;
  }

  /** Reading a block of keyed detectors appends them to the list under their key. */
  lemma {:induction false} GroupBlock<T(!new)>(cs: seq<Element>, k: string, ds: seq<T>, h: Handlers<T>)
    requires RoundTrips(h)
    requires GroupByKey(cs, h).Ok?
    ensures ds == [] ==> GroupByKey(cs + KeyedBlock(k, ds, h), h) == GroupByKey(cs, h)
    ensures ds != [] ==>
      GroupByKey(cs + KeyedBlock(k, ds, h), h) == Ok(GroupByKey(cs, h).value[k := ListAt(GroupByKey(cs, h).value, k) + ds])
    decreases |ds|
  {
    var acc := GroupByKey(cs, h).value;
    if ds == [] {
      assert cs + KeyedBlock(k, ds, h) == cs;
    } else {
      var n := |ds| - 1;
      var front := cs + KeyedBlock(k, ds[..n], h);
      var last := WithKey(h.convert(DetectorGroup, ds[n]), k);
      assert cs + KeyedBlock(k, ds, h) == front + [last];
      GroupBlock(cs, k, ds[..n], h);
      GroupAppend(front, last, k, ds[n], h);
      BlockStep(acc, GroupByKey(front, h).value, k, ds);
    }
  }

  /** The list under k after one more detector, given the list after the block's first detectors. */
  lemma BlockStep<T>(acc: map<string, seq<T>>, prev: map<string, seq<T>>, k: string, ds: seq<T>)
    requires ds != []
    requires |ds| == 1 ==> prev == acc
    requires |ds| > 1 ==> prev == acc[k := ListAt(acc, k) + ds[..|ds| - 1]]
    ensures prev[k := ListAt(prev, k) + [ds[|ds| - 1]]] == acc[k := ListAt(acc, k) + ds]
  {
    var n := |ds| - 1;
    assert ListAt(prev, k) == ListAt(acc, k) + ds[..n];
    assert ds[..n] + [ds[n]] == ds;
    assert ListAt(prev, k) + [ds[n]] == ListAt(acc, k) + ds;
  }

  /** The non-empty detector lists of the given keys. */
  function NonEmptyLists<T>(keys: seq<string>, detectors: map<string, seq<T>>): (r: map<string, seq<T>>)
    ensures forall k :: k in r <==> k in keys && ListAt(detectors, k) != []
    ensures forall k :: k in r ==> r[k] == ListAt(detectors, k)
  {
    map k | k in keys && ListAt(detectors, k) != [] :: ListAt(detectors, k)
  }

  /** A new key adds its list when it is not empty. */
  lemma NonEmptyListsAppend<T>(keys: seq<string>, k: string, detectors: map<string, seq<T>>)
    ensures ListAt(detectors, k) == [] ==> NonEmptyLists(keys + [k], detectors) == NonEmptyLists(keys, detectors)
    ensures ListAt(detectors, k) != [] ==>
      NonEmptyLists(keys + [k], detectors) == NonEmptyLists(keys, detectors)[k := ListAt(detectors, k)]
  {
    assert forall k' :: k' in keys + [k] <==> k' in keys || k' == k;
  }

  /** The detector elements of distinct keys group back into the keys' non-empty lists. */
  lemma {:induction false} GroupDetectorElements<T(!new)>(keys: seq<string>, detectors: map<string, seq<T>>, h: Handlers<T>)
    requires RoundTrips(h)
    requires Distinct(keys)
    ensures GroupByKey(DetectorElements(keys, detectors, h), h) == Ok(NonEmptyLists(keys, detectors))
    decreases |keys|
  {
    if keys == [] {
      assert NonEmptyLists(keys, detectors) == map[];
    } else {
      var init := keys[..|keys| - 1];
      assert Distinct(init);
      GroupDetectorElements(init, detectors, h);
      GroupLastKey(keys, detectors, h);
    }
  }

  /** The block of the last key extends the grouping of the blocks before it. */
  lemma GroupLastKey<T(!new)>(keys: seq<string>, detectors: map<string, seq<T>>, h: Handlers<T>)
    requires RoundTrips(h)
    requires Distinct(keys) && keys != []
    requires GroupByKey(DetectorElements(keys[..|keys| - 1], detectors, h), h) == Ok(NonEmptyLists(keys[..|keys| - 1], detectors))
    ensures GroupByKey(DetectorElements(keys, detectors, h), h) == Ok(NonEmptyLists(keys, detectors))
  {
    var n := |keys| - 1;
    var before := DetectorElements(keys[..n], detectors, h);
    assert DetectorElements(keys, detectors, h) == before + KeyedBlock(keys[n], ListAt(detectors, keys[n]), h);
    LastKeyIsNew(keys);
    GroupNewKey(before, keys, detectors, h);
  }

  /** The last of distinct keys is not among the others. */
  lemma LastKeyIsNew(keys: seq<string>)
    requires Distinct(keys) && keys != []
    ensures keys[|keys| - 1] !in keys[..|keys| - 1]
  {
    var n := |keys| - 1;
    forall i | 0 <= i < n ensures keys[..n][i] != keys[n] {
      assert keys[i] != keys[n];
    }
  }

  /** The block of a new last key adds that key's list to the grouping, when it is not empty. */
  lemma GroupNewKey<T(!new)>(before: seq<Element>, keys: seq<string>, detectors: map<string, seq<T>>, h: Handlers<T>)
    requires RoundTrips(h)
    requires keys != [] && keys[|keys| - 1] !in keys[..|keys| - 1]
    requires GroupByKey(before, h) == Ok(NonEmptyLists(keys[..|keys| - 1], detectors))
    ensures var k := keys[|keys| - 1];
      GroupByKey(before + KeyedBlock(k, ListAt(detectors, k), h), h) == Ok(NonEmptyLists(keys, detectors))
  {
    var init := keys[..|keys| - 1];
    var k := keys[|keys| - 1];
    var ds := ListAt(detectors, k);
    var acc := NonEmptyLists(init, detectors);
    GroupBlock(before, k, ds, h);
    assert ListAt(acc, k) == [];
    NonEmptyListsAppend(init, k, detectors);
    assert keys == init + [k];
    if ds != [] {
      assert ListAt(acc, k) + ds == ds;
    }
  }

  /** The first child with a tag is found, whatever follows it. */
  lemma {:induction false} FindAt(c: seq<Element>, i: nat, tag: string)
    requires i < |c| && c[i].tag == tag
    requires forall j :: 0 <= j < i ==> c[j].tag != tag
    ensures FindChild(c, tag) == Some(c[i])
    decreases i
  {
    if i > 0 {
      FindAt(c[1..], i - 1, tag);
    }
  }

  /** The writer's sub-elements are found by their tags. */
  lemma WrittenChildren<T>(o: OptionsValue<T>, h: Handlers<T>, ps: seq<string>, ks: seq<string>, ls: seq<T>, ms: seq<T>)
    ensures var c := WrittenElement(o, h, ps, ks, ls, ms).children;
      FindChild(c, "programs") == Some(SubElement("programs", ProgramElements(ps)))
      && FindChild(c, "beam") == Some(SubElement("beam", Converted(BeamGroup, o.beams, h)))
      && FindChild(c, "geometry") == Some(SubElement("geometry", Converted(GeometryGroup, o.geometries, h)))
      && FindChild(c, "detectors") == Some(SubElement("detectors", DetectorElements(ks, o.detectors, h)))
      && FindChild(c, "limits") == Some(SubElement("limits", Converted(LimitGroup, ls, h)))
      && FindChild(c, "models") == Some(SubElement("models", Converted(ModelGroup, ms, h)))
  {
    var c := WrittenElement(o, h, ps, ks, ls, ms).children;
    assert c[0].tag == "programs" && c[1].tag == "beam" && c[2].tag == "geometry";
    assert c[3].tag == "detectors" && c[4].tag == "limits" && c[5].tag == "models";
    FindAt(c, 0, "programs");
    FindAt(c, 1, "beam");
    assert "programs" != "geometry" && "beam" != "geometry";
    FindAt(c, 2, "geometry");
    assert "programs" != "detectors" && "beam" != "detectors" && "geometry" != "detectors";
    FindAt(c, 3, "detectors");
    assert "programs" != "limits" && "beam" != "limits" && "geometry" != "limits" && "detectors" != "limits";
    FindAt(c, 4, "limits");
    assert "programs" != "models" && "beam" != "models" && "geometry" != "models" && "detectors" != "models";
    assert "limits"[0] != "models"[0];
    FindAt(c, 5, "models");
  }

  /**
   * Whatever order the writer iterates the sets in, reading what it wrote
   * gives back the options, with the uuid as written and only the
   * non-empty detector lists.
   */
  lemma WriteThenRead<T(!new)>(e: Element, o: OptionsValue<T>, h: Handlers<T>)
    requires RoundTrips(h)
    requires IsWritten(e, o, h)
    ensures CanParse(e)
    ensures ReadElement(e, h) == Ok(ReadBack(o))
  {
    var ps, ks, ls, ms :|
      Enumerates(ps, o.programs) && Enumerates(ks, o.detectors.Keys)
      && Enumerates(ls, o.limits) && Enumerates(ms, o.models)
      && e == WrittenElement(o, h, ps, ks, ls, ms);
    WrittenParts(o, h, ps, ks, ls, ms);
    assert Attr(e, "version") == Ok(VERSION);
    assert Attr(e, "name") == Ok(o.name);
    assert Attr(e, "uuid") == Ok(UuidText(o.uuid));
  }

  /** Each sub-element of a written element reads back as the part of the options it was written from. */
  lemma WrittenParts<T(!new)>(o: OptionsValue<T>, h: Handlers<T>, ps: seq<string>, ks: seq<string>, ls: seq<T>, ms: seq<T>)
    requires RoundTrips(h)
    requires Enumerates(ps, o.programs) && Enumerates(ks, o.detectors.Keys)
    requires Enumerates(ls, o.limits) && Enumerates(ms, o.models)
    ensures var e := WrittenElement(o, h, ps, ks, ls, ms);
      && ReadPrograms(e) == o.programs
      && ReadList(e, "beam", BeamGroup, h) == Ok(o.beams)
      && ReadList(e, "geometry", GeometryGroup, h) == Ok(o.geometries)
      && ReadDetectors(e, h) == Ok(WrittenDetectors(o.detectors))
      && ReadSet(e, "limits", LimitGroup, h) == Ok(o.limits)
      && ReadSet(e, "models", ModelGroup, h) == Ok(o.models)
  {
    var e := WrittenElement(o, h, ps, ks, ls, ms);
    WrittenChildren(o, h, ps, ks, ls, ms);
    ProgramTexts(ps);
    ParseConverted(BeamGroup, o.beams, h);
    ParseConverted(GeometryGroup, o.geometries, h);
    GroupDetectorElements(ks, o.detectors, h);
    assert NonEmptyLists(ks, o.detectors) == WrittenDetectors(o.detectors);
    ParseSetConverted(LimitGroup, ls, h);
    ParseSetConverted(ModelGroup, ms, h);
  }

  /**
   * Read options with a non-empty uuid are a fixed point of writing then
   * reading: their detector lists are never empty.
   */
  lemma ReadIsStable<T(!new)>(e: Element, h: Handlers<T>)
    requires ReadElement(e, h).Ok?
    requires "uuid" in e.attrib && e.attrib["uuid"] != ""
    ensures ReadBack(ReadElement(e, h).value) == ReadElement(e, h).value
  {
    var v := ReadElement(e, h).value;
    assert v.detectors == ReadDetectors(e, h).value;
    assert WrittenDetectors(v.detectors) == v.detectors;
  }

  /** Converting the items of a list in order (`np.array(items, ndmin=1)`). */
  method ConvertList<T>(g: Group, xs: seq<T>, h: Handlers<T>) returns (children: seq<Element>)
    ensures children == Converted(g, xs, h)
  {
    children := [];
    var i := 0;
    while i < |xs|
      invariant 0 <= i <= |xs|
      invariant children == Converted(g, xs[..i], h)
    {
      children := children + [h.convert(g, xs[i])];
      i := i + 1;
    }
    assert xs[..|xs|] == xs;
  }

  /** Converting the items of a set, in the order the iteration visits them. */
  method ConvertSet<T(==)>(g: Group, s: set<T>, h: Handlers<T>) returns (children: seq<Element>, ghost order: seq<T>)
    ensures Enumerates(order, s) && children == Converted(g, order, h)
  {
    children, order := [], [];
    var remaining := s;
    while remaining != {}
      invariant Distinct(order) && Elems(order) + remaining == s && Elems(order) !! remaining
      invariant children == Converted(g, order, h)
      decreases remaining
    {
      var x :| x in remaining;
      children := children + [h.convert(g, x)];
      order := order + [x];
      remaining := remaining - {x};
    }
  }

  /** One `program` element per alias, in the order the iteration visits them. */
  method ConvertPrograms(aliases: set<string>) returns (children: seq<Element>, ghost order: seq<string>)
    ensures Enumerates(order, aliases) && children == ProgramElements(order)
  {
    children, order := [], [];
    var remaining := aliases;
    while remaining != {}
      invariant Distinct(order) && Elems(order) + remaining == aliases && Elems(order) !! remaining
      invariant children == ProgramElements(order)
      decreases remaining
    {
      var alias :| alias in remaining;
      children := children + [Element("program", map[], "", []).(text := alias)];
      order := order + [alias];
      remaining := remaining - {alias};
    }
  }

  /** Every detector of every key converted and tagged with its key. */
  method ConvertDetectors<T>(detectors: map<string, seq<T>>, h: Handlers<T>)
    returns (children: seq<Element>, ghost keys: seq<string>)
    ensures Enumerates(keys, detectors.Keys) && children == DetectorElements(keys, detectors, h)
  {
    children, keys := [], [];
    var remaining := detectors.Keys;
    while remaining != {}
      invariant Distinct(keys) && Elems(keys) + remaining == detectors.Keys && Elems(keys) !! remaining
      invariant children == DetectorElements(keys, detectors, h)
      decreases remaining
    {
      var key :| key in remaining;
      var ds := detectors[key];
      ghost var before := children;
      var i := 0;
      while i < |ds|
        invariant 0 <= i <= |ds|
        invariant children == before + KeyedBlock(key, ds[..i], h)
      {
        var sub := h.convert(DetectorGroup, ds[i]);
        sub := WithKey(sub, key);
        children := children + [sub];
        i := i + 1;
      }
      assert ds[..|ds|] == ds;
      assert (keys + [key])[..|keys|] == keys;
      keys := keys + [key];
      remaining := remaining - {key};
    }
  }

  /** `_OptionsElementWriterThread`: a monitor and the handlers to convert with. */
  class OptionsWriterThread<T(==,!new)> {
    const monitor: Monitor
    const handlers: Handlers<T>

    constructor (monitor: Monitor, handlers: Handlers<T>)
      ensures this.monitor == monitor && this.handlers == handlers
    {
      this.monitor := monitor;
      this.handlers := handlers;
    }

    /**
     * `_run`: a report before each of the nine steps and the element built
     * up in between; nothing is returned once cancelled.
     */
    method Run(o: OptionsValue<T>) returns (r: Option<Element>)
      requires monitor.log == []
      modifies monitor
      ensures 1 <= |monitor.log| <= |STEPS| && monitor.log == STEPS[..|monitor.log|]
      ensures r.None? <==> monitor.cancelAt.Some? && monitor.cancelAt.value < |STEPS|
      ensures r.None? ==> monitor.cancelAt == Some(|monitor.log| - 1)
      ensures r.Some? ==> monitor.log == STEPS && CanParse(r.value) && IsWritten(r.value, o, handlers)
    {
      var element := Element(OPTIONS_TAG, map[], "", []);

      monitor.UpdateStatus(0.1, "Writing version");
      assert monitor.log == STEPS[..1];
      if monitor.IsCancelled() { return None; }
      element := element.(attrib := element.attrib["version" := VERSION]);

      monitor.UpdateStatus(0.13, "Writing name");
      assert monitor.log == STEPS[..2];
      if monitor.IsCancelled() { return None; }
      element := element.(attrib := element.attrib["name" := o.name]);

      monitor.UpdateStatus(0.16, "Writing UUID");
      assert monitor.log == STEPS[..3];
      if monitor.IsCancelled() { return None; }
      element := element.(attrib := element.attrib["uuid" := UuidText(o.uuid)]);

      monitor.UpdateStatus(0.2, "Writing programs");
      assert monitor.log == STEPS[..4];
      if monitor.IsCancelled() { return None; }
      var programs, ps := ConvertPrograms(o.programs);
      element := element.(children := element.children + [SubElement("programs", programs)]);

      monitor.UpdateStatus(0.3, "Writing beams");
      assert monitor.log == STEPS[..5];
      if monitor.IsCancelled() { return None; }
      var beams := ConvertList(BeamGroup, o.beams, handlers);
      element := element.(children := element.children + [SubElement("beam", beams)]);

      r := WriteRest(o, element, ps);
    }

    /** The geometries, detectors, limits and models steps. */
    method WriteRest(o: OptionsValue<T>, element: Element, ghost ps: seq<string>) returns (r: Option<Element>)
      requires monitor.log == STEPS[..5] && !monitor.IsCancelled()
      requires Enumerates(ps, o.programs)
      requires element == Element(OPTIONS_TAG, map["version" := VERSION, "name" := o.name, "uuid" := UuidText(o.uuid)], "",
        [SubElement("programs", ProgramElements(ps)), SubElement("beam", Converted(BeamGroup, o.beams, handlers))])
      modifies monitor
      ensures 5 <= |monitor.log| <= |STEPS| && monitor.log == STEPS[..|monitor.log|]
      ensures r.None? <==> monitor.cancelAt.Some? && monitor.cancelAt.value < |STEPS|
      ensures r.None? ==> monitor.cancelAt == Some(|monitor.log| - 1)
      ensures r.Some? ==> monitor.log == STEPS && CanParse(r.value) && IsWritten(r.value, o, handlers)
    {
      var m, ks := WriteGeometriesAndDetectors(o, element, ps);
      if m.None? { return None; }
      var last, ls, ms := WriteLimitsAndModels(o, m.value);
      if last.None? { return None; }
      r := last;
      assert r.value == WrittenElement(o, handlers, ps, ks, ls, ms);
      WrittenElementIsWritten(o, handlers, ps, ks, ls, ms);
    }

    /** The limits and models steps; `r` is the finished element when writing was not cancelled. */
    method WriteLimitsAndModels(o: OptionsValue<T>, element: Element)
      returns (r: Option<Element>, ghost ls: seq<T>, ghost ms: seq<T>)
      requires monitor.log == STEPS[..7] && !monitor.IsCancelled()
      modifies monitor
      ensures 7 <= |monitor.log| <= |STEPS| && monitor.log == STEPS[..|monitor.log|]
      ensures r.None? <==> monitor.cancelAt.Some? && monitor.cancelAt.value < |STEPS|
      ensures r.None? ==> monitor.cancelAt == Some(|monitor.log| - 1)
      ensures r.Some? ==>
        (monitor.log == STEPS && Enumerates(ls, o.limits) && Enumerates(ms, o.models)
         && r.value == element.(children := element.children +
              [SubElement("limits", Converted(LimitGroup, ls, handlers)),
               SubElement("models", Converted(ModelGroup, ms, handlers))]))
    {
      ls, ms := [], [];
      var e := element;

      monitor.UpdateStatus(0.8, "Writing limits");
      assert monitor.log == STEPS[..8];
      if monitor.IsCancelled() { return None, ls, ms; }
      var limits;
      limits, ls := ConvertSet(LimitGroup, o.limits, handlers);
      e := e.(children := e.children + [SubElement("limits", limits)]);

      monitor.UpdateStatus(0.9, "Writing models");
      assert monitor.log == STEPS[..9];
      if monitor.IsCancelled() { return None, ls, ms; }
      var models;
      models, ms := ConvertSet(ModelGroup, o.models, handlers);
      e := e.(children := e.children + [SubElement("models", models)]);

      assert monitor.log == STEPS;
      r := Some(e);
    }

    /** The geometries and detectors steps; `r` is the element so far when writing may go on. */
    method WriteGeometriesAndDetectors(o: OptionsValue<T>, element: Element, ghost ps: seq<string>)
      returns (r: Option<Element>, ghost ks: seq<string>)
      requires monitor.log == STEPS[..5] && !monitor.IsCancelled()
      requires element.tag == OPTIONS_TAG
      modifies monitor
      ensures 5 <= |monitor.log| <= 7 && monitor.log == STEPS[..|monitor.log|]
      ensures r.None? ==> monitor.cancelAt == Some(|monitor.log| - 1)
      ensures r.Some? ==>
        (monitor.log == STEPS[..7] && !monitor.IsCancelled() && Enumerates(ks, o.detectors.Keys)
         && r.value == element.(children := element.children +
              [SubElement("geometry", Converted(GeometryGroup, o.geometries, handlers)),
               SubElement("detectors", DetectorElements(ks, o.detectors, handlers))]))
    {
      ks := [];
      var e := element;

      monitor.UpdateStatus(0.4, "Writing geometries");
      assert monitor.log == STEPS[..6];
      if monitor.IsCancelled() { return None, ks; }
      var geometries := ConvertList(GeometryGroup, o.geometries, handlers);
      e := e.(children := e.children + [SubElement("geometry", geometries)]);

      monitor.UpdateStatus(0.6, "Writing detectors");
      assert monitor.log == STEPS[..7];
      if monitor.IsCancelled() { return None, ks; }
      var detectors;
      detectors, ks := ConvertDetectors(o.detectors, handlers);
      e := e.(children := e.children + [SubElement("detectors", detectors)]);
      r := Some(e);
    }
  }

  /** The element built for enumerations of the options' sets is one the writer may produce. */
  lemma WrittenElementIsWritten<T(!new)>(o: OptionsValue<T>, h: Handlers<T>, ps: seq<string>, ks: seq<string>,
                                         ls: seq<T>, ms: seq<T>)
    requires Enumerates(ps, o.programs) && Enumerates(ks, o.detectors.Keys)
    requires Enumerates(ls, o.limits) && Enumerates(ms, o.models)
    ensures CanParse(WrittenElement(o, h, ps, ks, ls, ms)) && IsWritten(WrittenElement(o, h, ps, ks, ls, ms), o, h)
  {
  }

  /** A completed writer run always produces an element the reader reads back. */
  lemma WriterOutputReads<T(!new)>(e: Element, o: OptionsValue<T>, h: Handlers<T>)
    requires RoundTrips(h) && IsWritten(e, o, h)
    ensures ReadElement(e, h).Ok? && ReadElement(e, h).value.name == o.name
  {
    WriteThenRead(e, o, h);
  }
}
