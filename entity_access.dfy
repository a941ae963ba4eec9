/** `EntityAccess`: an entity whose properties are written once, through array access or
    on construction, and read through property or array access. Its dynamic properties are
    a map from name to value; a property set to null counts as unset, as PHP's `isset` has it. */
module Entities {
  import opened Php

  /** The dynamic properties of an entity object. */
  type Props = map<string, Value>

  /** `isset($this->$k)`: the property exists and is not null. */
  predicate IsSetProp(props: Props, k: string)
  {
    k in props && props[k] != Null
  }

  /** `isset($this->$k) ? $this->$k : null`. */
  function PropGet(props: Props, k: string): Value
  {
    if IsSetProp(props, k) then props[k] else Null
  }

  /** `offsetSet($k, $v)` on the properties: a set property is never overwritten; the empty
      name is no property at all (PHP stops with a fatal error). */
  function SetProp(props: Props, k: string, v: Value): (r: Result<Props>)
    ensures r.Thrown? <==> k == "" || IsSetProp(props, k)
    ensures r.Ok? ==> r.value == props[k := v]
    ensures r.Ok? && "" !in props ==> "" !in r.value
  {
    if IsSetProp(props, k) then Thrown(Exception(InvalidArgumentException, "Cannot modify property in Entity object"))
    else if k == "" then Thrown(Exception(FatalError, "Cannot access empty property"))
    else Ok(props[k := v])
  }

  /** A write fails exactly on the empty name or a set property; otherwise it reads back,
      changes no other property and removes none. */
  lemma SetThenGet(props: Props, k: string, v: Value)
    ensures SetProp(props, k, v).Thrown? <==> k == "" || IsSetProp(props, k)
    ensures SetProp(props, k, v).Ok? ==>
              var p := SetProp(props, k, v).value;
              && PropGet(p, k) == v
              && (IsSetProp(p, k) <==> v != Null)
              && (forall x :: x != k ==> PropGet(p, x) == PropGet(props, x))
              && props.Keys <= p.Keys
  {
  }

  /** Properties are write-once: after a non-null value is stored, writing the name again
      throws; after a null is stored, the name is still free and the next write stores. */
  lemma WriteOnce(props: Props, k: string, v: Value, w: Value)
    requires SetProp(props, k, v).Ok?
    ensures v != Null ==> SetProp(SetProp(props, k, v).value, k, w)
                          == Thrown(Exception(InvalidArgumentException, "Cannot modify property in Entity object"))
    ensures v == Null ==> SetProp(SetProp(props, k, v).value, k, w) == Ok(props[k := w])
  {
    if v == Null {
      assert SetProp(props, k, v).value[k := w] == props[k := w];
    }
  }

  /** `assign($data)` on the properties: each entry of the data in order, stopping at the
      first write that throws; the properties so far and the exception, if any. */
  function Assigned(props: Props, keys: seq<string>, data: Row): (r: (Props, Option<Exception>))
    // no property disappears, and a property that was set keeps its value
    ensures props.Keys <= r.0.Keys
    ensures forall k :: IsSetProp(props, k) ==> r.0[k] == props[k]
    decreases |keys|
  {
    if keys == [] then (props, None)
    else match SetProp(props, keys[0], Get(data, keys[0]))
      case Thrown(e) => (props, Some(e))
      case Ok(p) => Assigned(p, keys[1..], data)
  }

  /** Assigning distinct, non-empty names none of which is set succeeds and stores each
      entry's value; every other property stays as it was. */
  lemma {:induction false} AssignFresh(props: Props, keys: seq<string>, data: Row)
    requires Distinct(keys) && "" !in keys
    requires forall k :: k in keys ==> !IsSetProp(props, k)
    ensures Assigned(props, keys, data).1 == None
    decreases |keys|
    ensures var p := Assigned(props, keys, data).0;
      && (forall k :: k in keys ==> k in p && p[k] == Get(data, k))
      && (forall k :: k !in keys ==> (k in p <==> k in props) && (k in props ==> p[k] == props[k]))
  {
    if keys != [] {
      var p := props[keys[0] := Get(data, keys[0])];
      forall k | k in keys[1..] ensures k != keys[0] && !IsSetProp(p, k) {
        var j :| 0 <= j < |keys[1..]| && keys[1..][j] == k;
        assert keys[j + 1] == k;
        assert k in keys && k != keys[0];
        assert k in p ==> p[k] == props[k];
      }
      assert Distinct(keys[1..]);
      AssignFresh(p, keys[1..], data);
    }
  }

  /** Assigning throws only where some name is empty or already set once its turn comes:
      a failure is always caused by one of the assigned names. */
  lemma {:induction false} AssignFails(props: Props, keys: seq<string>, data: Row)
    requires Assigned(props, keys, data).1.Some?
    ensures exists k :: k in keys && (k == "" || IsSetProp(Assigned(props, keys, data).0, k))
    decreases |keys|
  {
    var k := keys[0];
    match SetProp(props, k, Get(data, k))
    case Thrown(e) =>
      assert k in keys && (k == "" || IsSetProp(props, k));
    case Ok(p) =>
      AssignFails(p, keys[1..], data);
      var j :| j in keys[1..] && (j == "" || IsSetProp(Assigned(p, keys[1..], data).0, j));
      assert j in keys;
  }

  /** `offsetGet` as written reads `$this->$name`, a variable that does not exist, so the
      property read is the one named by null, that is "": never set. */
  function OffsetGetAsWritten(props: Props, offset: string): (v: Value)
    // whatever the offset, the value read is that of the property named ""
    ensures "" !in props ==> v == Null
    ensures v != Null ==> IsSetProp(props, "")
  {
    PropGet(props, "")
  }

  /** As written, `offsetGet` on properties without an empty name (which writes never
      create) returns null for every offset, even one whose property holds a value. */
  lemma OffsetGetAsWrittenAlwaysNull(props: Props, offset: string)
    requires "" !in props
    ensures OffsetGetAsWritten(props, offset) == Null
    ensures IsSetProp(props, offset) ==> OffsetGetAsWritten(props, offset) != PropGet(props, offset)
  {
  }

  /** As written, `offsetGet` returns null for a property that holds a value. */
  lemma OffsetGetAsWrittenLosesValue()
    ensures var props := map["name" := Str("Alice")];
      OffsetGetAsWritten(props, "name") == Null && PropGet(props, "name") == Str("Alice")
  {
    assert !IsSetProp(map["name" := Str("Alice")], "");
  }

  class EntityAccess {
    var props: Props

    /** `new EntityAccess($data)`: every entry of the data becomes a property. An empty key
        would stop PHP with a fatal error and is excluded. */
    constructor (data: Row)
      requires WellFormed(data) && "" !in data.vals
      ensures props == data.vals
    {
      props := map[];
      new;
      var thrown := Assign(data);
      AssignFresh(map[], data.keys, data);
      assert thrown == None;
    }

    /** `assign($data)`: offsetSet for each entry in order; the first exception propagates. */
    method Assign(data: Row) returns (thrown: Option<Exception>)
      modifies this
      ensures (props, thrown) == Assigned(old(props), data.keys, data)
    {
      var i := 0;
      while i < |data.keys|
        invariant 0 <= i <= |data.keys|
        invariant Assigned(old(props), data.keys, data) == Assigned(props, data.keys[i..], data)
      {
        assert data.keys[i..][1..] == data.keys[i + 1..];
        thrown := OffsetSet(data.keys[i], Php.Get(data, data.keys[i]));
        if thrown.Some? {
          return;
        }
        i := i + 1;
      }
      thrown := None;
    }

    /** `__get($name)`: the property's value, or null when it is unset. */
    function Get(name: string): (v: Value)
      reads this
      ensures v != Null ==> name in props && props[name] == v
      ensures name in props ==> v == props[name]
    {
      PropGet(props, name)
    }

    /** `offsetExists($offset)`. */
    function OffsetExists(offset: string): (b: bool)
      reads this
      ensures b <==> Get(offset) != Null
      ensures b ==> offset in props
    {
      IsSetProp(props, offset)
    }

    /** `offsetGet($offset)` as intended: reads the same value as `__get`, which is not null
        exactly when `offsetExists` holds. */
    function OffsetGet(offset: string): (v: Value)
      reads this
      ensures v == Get(offset)
      ensures v != Null <==> OffsetExists(offset)
    {
      PropGet(props, offset)
    }

    /** `offsetSet($offset, $value)`: stores the value unless the property is set or the
        name is empty; then it throws and nothing changes. */
    method OffsetSet(offset: string, value: Value) returns (thrown: Option<Exception>)
      modifies this
      ensures SetProp(old(props), offset, value).Ok? ==>
                thrown == None && props == SetProp(old(props), offset, value).value
      ensures SetProp(old(props), offset, value).Thrown? ==>
                thrown == Some(SetProp(old(props), offset, value).error) && props == old(props)
    {
      if IsSetProp(props, offset) {
        thrown := Some(Exception(InvalidArgumentException, "Cannot modify property in Entity object"));
      } else if offset == "" {
        thrown := Some(Exception(FatalError, "Cannot access empty property"));
      } else {
        props := props[offset := value];
        thrown := None;
      }
    }

    /** `offsetUnset($offset)`: always throws; a property is never removed. */
    method OffsetUnset(offset: string) returns (thrown: Exception)
      ensures thrown.kind == InvalidArgumentException
      ensures thrown.message == "Cannot unset property in Entity object"
    {
      thrown := Exception(InvalidArgumentException, "Cannot unset property in Entity object");
    }
  }
}
