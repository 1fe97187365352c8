/** `addTypenames` as the source runs it: the object's properties are folded
    into a fresh accumulator that starts as `{__typename: type.name}`, and each
    array property is mapped element by element. */
module AnnotatorLoop {
  import opened Values
  import opened Schemas
  import opened Failures
  import opened Annotator

  /** Computes exactly what the specification `AddTypenames` gives. */
  method Annotate(s: Schema, item: Value, parent: Option<string>, prop: Option<string>) returns (r: Result<Value>)
    requires Valid(s)
    ensures r == AddTypenames(s, item, parent, prop)
    decreases item, 2
  {
    match item {
      case Arr(_) =>
        r := Err(ArrayGiven);
      case Obj(props) =>
        var verdict := Resolve(s, props, parent, prop);
        match verdict {
          case Err(e) =>
            r := Err(e);
          case Ok(Untouched) =>
            r := Ok(item);
          case Ok(Stamp(typeName)) =>
            r := Reduce(s, props, typeName);
        }
      case _ =>
        r := Ok(item);
    }
  }

  /** The `_reduce` over the object's keys, starting from
      `{__typename: typeName}`. */
  method Reduce(s: Schema, props: Props, typeName: string) returns (r: Result<Value>)
    requires Valid(s)
    ensures r == StampProps(s, props, 0, [(TypenameKey, Str(typeName))], typeName)
    decreases Obj(props), 1
  {
    var acc := [(TypenameKey, Str(typeName))];
    var i := 0;
    while i < |props|
      invariant i <= |props|
      invariant StampProps(s, props, i, acc, typeName) == StampProps(s, props, 0, [(TypenameKey, Str(typeName))], typeName)
    {
      var key := props[i].0;
      var c := AnnotateProperty(s, props[i].1, typeName, key);
      if c.Err? {
        return Err(c.error);
      }
      assert StampProps(s, props, i, acc, typeName) == StampProps(s, props, i + 1, Put(acc, key, c.value), typeName);
      acc := Put(acc, key, c.value);
      i := i + 1;
    }
    return Ok(Obj(acc));
  }

  /** The reducer's body for one property: an array is mapped, anything else
      annotated directly, with context (typeName, key). */
  method AnnotateProperty(s: Schema, child: Value, typeName: string, key: string) returns (c: Result<Value>)
    requires Valid(s)
    ensures c == AnnotateChild(s, child, typeName, key)
    decreases child, 3
  {
    if child.Arr? {
      c := AnnotateArray(s, child.elems, typeName, key);
    } else {
      c := Annotate(s, child, Some(typeName), Some(key));
    }
  }

  /** The `_map` over an array property: every element annotated with the
      owning object's type and the property's key as context. */
  method AnnotateArray(s: Schema, elems: seq<Value>, typeName: string, key: string) returns (r: Result<Value>)
    requires Valid(s)
    ensures r == AnnotateChild(s, Arr(elems), typeName, key)
    decreases Arr(elems), 1
  {
    var done := [];
    var j := 0;
    while j < |elems|
      invariant j == |done| <= |elems|
      invariant AnnotateElems(s, elems, j, done, typeName, key) == AnnotateChild(s, Arr(elems), typeName, key)
    {
      var e := Annotate(s, elems[j], Some(typeName), Some(key));
      if e.Err? {
        return Err(e.error);
      }
      done := done + [e.value];
      j := j + 1;
    }
    return Ok(Arr(done));
  }
}
