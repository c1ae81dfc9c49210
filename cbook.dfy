/**
 * `MultiplierAttribute`: a descriptor that shows a stored attribute scaled
 * by a constant (a tilt stored in radians and read in degrees, say).
 * Reading multiplies the stored value, writing divides by the multiplier.
 */
module Cbook {
  import opened Wrappers

  /** An object's attributes by name, as `getattr`/`setattr` see them. */
  class Instance {
    var attrs: map<string, real>

    constructor Init(attrs: map<string, real>)
      ensures this.attrs == attrs
    {
      this.attrs := attrs;
    }
  }

  /** What `__get__` hands back: the descriptor itself, or a value. */
  datatype Got = Descriptor | Value(value: real)

  /** `getattr(instance, name) * multiplier`: AttributeError when the attribute is unset. */
  function Scaled(attrs: map<string, real>, name: string, multiplier: real): (r: Result<real>)
    ensures r.Ok? <==> name in attrs
    ensures r.Err? ==> r.error == AttributeError
    ensures r.Ok? && multiplier != 0.0 ==> r.value / multiplier == attrs[name]
  {
    if name in attrs then Ok(attrs[name] * multiplier) else Err(AttributeError)
  }

  /** `value / multiplier`: ZeroDivisionError for a zero multiplier; otherwise scaling back gives the value. */
  function Stored(value: real, multiplier: real): (r: Result<real>)
    ensures r.Err? <==> multiplier == 0.0
    ensures r.Err? ==> r.error == ZeroDivisionError
    ensures r.Ok? ==> r.value * multiplier == value
  {
    if multiplier == 0.0 then Err(ZeroDivisionError) else Ok(value / multiplier)
  }

  /** For a non-zero multiplier, writing a value and reading it back gives that value. */
  lemma SetThenGet(attrs: map<string, real>, name: string, multiplier: real, value: real)
    requires multiplier != 0.0
    ensures Stored(value, multiplier).Ok?
    ensures Scaled(attrs[name := Stored(value, multiplier).value], name, multiplier) == Ok(value)
  {
    var stored := Stored(value, multiplier).value;
    var attrs' := attrs[name := stored];
    assert stored * multiplier == value;
    assert name in attrs';
    assert attrs'[name] == stored;
    assert Scaled(attrs', name, multiplier).value == stored * multiplier;
  }

  /** The stored value is recovered when it is read and written back. */
  lemma GetThenSet(attrs: map<string, real>, name: string, multiplier: real)
    requires multiplier != 0.0 && name in attrs
    ensures Stored(Scaled(attrs, name, multiplier).value, multiplier) == Ok(attrs[name])
  {
  }

  /** `del` on the target attribute: AttributeError when it is unset. */
  function Deleted(attrs: map<string, real>, name: string): (r: Result<map<string, real>>)
    ensures r.Ok? <==> name in attrs
    ensures r.Err? ==> r.error == AttributeError
    ensures r.Ok? ==> name !in r.value && forall k :: k in attrs && k != name ==> k in r.value && r.value[k] == attrs[k]
  {
    if name in attrs then Ok(attrs - {name}) else Err(AttributeError)
  }

  /**
   * Deleting through the descriptor as written: the class defines `__del__`
   * (the finaliser) rather than `__delete__`, so Python finds no deleter and
   * raises AttributeError, leaving the attribute in place.
   */
  function DeleteAsWritten(attrs: map<string, real>, name: string): (r: Result<map<string, real>>)
    ensures r.Err?
  {
    Err(AttributeError)
  }

  /** With the attribute set, the deletion as written fails where the intended one succeeds. */
  lemma DeleteAsWrittenKeepsAttribute()
    ensures DeleteAsWritten(map["tilt_rad" := 0.5], "tilt_rad") == Err(AttributeError)
    ensures Deleted(map["tilt_rad" := 0.5], "tilt_rad") == Ok(map[])
  {
    assert map["tilt_rad" := 0.5] - {"tilt_rad"} == map[];
  }

  class MultiplierAttribute {
    const attrname: string
    const multiplier: real

    constructor (attrname: string, multiplier: real)
      ensures this.attrname == attrname && this.multiplier == multiplier
    {
      this.attrname := attrname;
      this.multiplier := multiplier;
    }

    /** `__get__`: on the class (no instance) the descriptor itself, on an instance the scaled attribute. */
    function Get(instance: Option<Instance>): (r: Result<Got>)
      reads if instance.Some? then {instance.value} else {}
      ensures instance.None? ==> r == Ok(Descriptor)
      ensures instance.Some? ==> (r.Ok? <==> attrname in instance.value.attrs)
      ensures instance.Some? && r.Ok? ==> r.value.Value? && r.value.value == instance.value.attrs[attrname] * multiplier
      ensures r.Err? ==> r.error == AttributeError
    {
      match instance
      case None => Ok(Descriptor)
      case Some(obj) =>
        var v :- Scaled(obj.attrs, attrname, multiplier);
        Ok(Value(v))
    }

    /** `__set__`: stores `value / multiplier`, so reading gives `value` back. */
    method Set(instance: Instance, value: real) returns (r: Result<()>)
      modifies instance
      ensures r.Err? <==> multiplier == 0.0
      ensures r.Err? ==> r.error == ZeroDivisionError && instance.attrs == old(instance.attrs)
      ensures r.Ok? ==> instance.attrs == old(instance.attrs)[attrname := value / multiplier]
      ensures r.Ok? ==> Get(Some(instance)) == Ok(Value(value))
    {
      var stored := Stored(value, multiplier);
      if stored.Err? {
        return Err(stored.error);
      }
      SetThenGet(instance.attrs, attrname, multiplier, value);
      instance.attrs := instance.attrs[attrname := stored.value];
      r := Ok(());
    }

    /** The intended `__delete__`: removes the target attribute. */
    method Delete(instance: Instance) returns (r: Result<()>)
      modifies instance
      ensures r.Ok? <==> attrname in old(instance.attrs)
      ensures r.Err? ==> r.error == AttributeError && instance.attrs == old(instance.attrs)
      ensures r.Ok? ==> instance.attrs == old(instance.attrs) - {attrname}
      ensures Get(Some(instance)) == Err(AttributeError)
    {
      var d := Deleted(instance.attrs, attrname);
      if d.Err? {
        return Err(d.error);
      }
      instance.attrs := d.value;
      r := Ok(());
    }
  }
}
