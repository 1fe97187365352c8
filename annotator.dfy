/** `addTypenames`: find the GraphQL type of an object (from its own
    `__typename`, from the field of its parent it sits in, or from its shape),
    then copy it with `__typename` set and annotate every property with this
    object's type as the children's parent type. */
module Annotator {
  import opened Values
  import opened Schemas
  import opened Failures
  import opened Candidates

  /** How a resolved object is treated: handed back as it is (a custom scalar
      type), or stamped with the name of an object type. */
  datatype Verdict = Untouched | Stamp(typeName: string)

  /** An optional string argument is present when it is truthy. */
  predicate Given(o: Option<string>) {
    o.Some? && o.value != ""
  }

  /** `item.__typename` is truthy. */
  predicate Tagged(props: Props) {
    Get(props, TypenameKey).Some? && Truthy(Get(props, TypenameKey).value)
  }

  function Names(types: seq<NamedType>): (names: seq<string>)
    ensures |names| == |types|
    ensures forall i :: 0 <= i < |types| ==> names[i] == types[i].name
  {
    seq(|types|, i requires 0 <= i < |types| => types[i].name)
  }

  /** The named type of an object: its own tag if truthy, else the declared
      type of the parent's field, else the single candidate type. */
  function PickNamedType(s: Schema, props: Props, parent: Option<string>, prop: Option<string>): (r: Result<NamedType>)
    requires Valid(s)
    ensures r.Ok? ==> r.value in s.types
  {
    if Tagged(props) then
      var tag := Get(props, TypenameKey).value;
      if tag.Str? && GetType(s, tag.s).Some? then Ok(GetType(s, tag.s).value)
      else Err(UnknownTypename(tag))
    else if Given(parent) then
      if !Given(prop) then Err(MissingPropertyOfParent)
      else match GetType(s, parent.value)
        case None => Err(UnknownParentType(parent.value))
        case Some(parentType) =>
          if !parentType.ObjectType? then Err(ParentNotObjectType(parent.value))
          else match FieldOf(parentType.fields, prop.value)
            case None => Err(UnknownField(parent.value, prop.value))
            case Some(field) => Ok(GetType(s, field.typeName).value)
    else if Given(prop) then Err(MissingParentTypeName)
    else
      var candidates := GetCandidateTypes(s, Obj(props)).value;
      if |candidates| == 0 then Err(NoViableType)
      else if |candidates| == 1 then Ok(candidates[0])
      else Err(AmbiguousType(Names(candidates)))
  }

  /** A name handed back by a `resolveType` callback must name an object type
      of the schema. */
  function ResolvedByName(s: Schema, abstractType: string, name: string): (r: Result<Verdict>)
    ensures r.Ok? <==> GetType(s, name).Some? && GetType(s, name).value.ObjectType?
    ensures r.Ok? ==> r.value == Stamp(name)
    ensures r.Err? ==> r.error == UnknownResolvedType(abstractType)
  {
    match GetType(s, name)
    case Some(resolved) =>
      if resolved.ObjectType? then Ok(Stamp(resolved.name)) else Err(UnknownResolvedType(abstractType))
    case None => Err(UnknownResolvedType(abstractType))
  }

  /** Dispatch through an abstract type's `resolveType`. A type object that is
      not an object type is looked up by its name, as a JavaScript property
      read on the type map does. */
  function ResolveAbstract(s: Schema, item: Value, abstractType: string, hasResolver: bool): (r: Result<Verdict>)
    ensures r.Ok? ==> hasResolver && r.value.Stamp?
    ensures r.Ok? && !s.resolveType(abstractType, item).TypeRef? ==>
      GetType(s, r.value.typeName).Some? && GetType(s, r.value.typeName).value.ObjectType?
  {
    if !hasResolver then Err(MissingResolver(abstractType))
    else match s.resolveType(abstractType, item)
      case Unresolved => Err(UnresolvedAbstractType(abstractType))
      case TypeName(name) =>
        if name == "" then Err(UnresolvedAbstractType(abstractType))
        else ResolvedByName(s, abstractType, name)
      case Pending => Err(AsyncResolverUnsupported(abstractType))
      case TypeRef(t) =>
        if t.ObjectType? then Ok(Stamp(t.name)) else ResolvedByName(s, abstractType, t.name)
  }

  /** Object types are stamped, scalar types leave the object alone, abstract
      types defer to their resolver; anything else is unexpected. */
  function ClassifyType(s: Schema, item: Value, t: NamedType): (r: Result<Verdict>)
    ensures r == Ok(Untouched) <==> t.ScalarType?
    ensures r.Ok? ==> t.ObjectType? || t.ScalarType? || t.IsAbstract()
    ensures t.ObjectType? ==> r == Ok(Stamp(t.name))
  {
    match t
    case ObjectType(name, _, _) => Ok(Stamp(name))
    case ScalarType(_) => Ok(Untouched)
    case InterfaceType(name, _, _, hasResolver) => ResolveAbstract(s, item, name, hasResolver)
    case UnionType(name, hasResolver) => ResolveAbstract(s, item, name, hasResolver)
    case _ => Err(UnexpectedType(t.name))
  }

  /** The verdict for an object: pick its named type, then classify it. */
  function Resolve(s: Schema, props: Props, parent: Option<string>, prop: Option<string>): (r: Result<Verdict>)
    requires Valid(s)
    ensures r.Ok? ==> PickNamedType(s, props, parent, prop).Ok?
    ensures r == Ok(Untouched) <==>
      PickNamedType(s, props, parent, prop).Ok? && PickNamedType(s, props, parent, prop).value.ScalarType?
    ensures PickNamedType(s, props, parent, prop).Ok? && PickNamedType(s, props, parent, prop).value.ObjectType? ==>
      r == Ok(Stamp(PickNamedType(s, props, parent, prop).value.name))
  {
    match PickNamedType(s, props, parent, prop)
    case Err(e) => Err(e)
    case Ok(t) => ClassifyType(s, Obj(props), t)
  }

  /** `addTypenames({item, schema, parentTypeName, propertyOfParent})`. */
  function AddTypenames(s: Schema, item: Value, parent: Option<string>, prop: Option<string>): (r: Result<Value>)
    requires Valid(s)
    ensures item.Arr? ==> r == Err(ArrayGiven)
    ensures IsLeaf(item) ==> r == Ok(item)
    ensures r.Ok? ==> r.value.Obj? == item.Obj?
    decreases item, 2, 0
  {
    match item
    case Arr(_) => Err(ArrayGiven)
    case Obj(props) =>
      (match Resolve(s, props, parent, prop)
       case Err(e) => Err(e)
       case Ok(Untouched) => Ok(item)
       case Ok(Stamp(name)) => StampProps(s, props, 0, [(TypenameKey, Str(name))], name))
    case _ => Ok(item)
  }

  /** Some property from index `i` on has key `k`. */
  ghost predicate KeyFrom(props: Props, i: nat, k: string) {
    exists j :: i <= j < |props| && props[j].0 == k
  }

  /** The keys of `out` are those of `acc` plus the keys of `props` from
      index `i` on. */
  ghost predicate KeysAfterFold(out: Props, acc: Props, props: Props, i: nat) {
    forall k :: k in Keys(out) <==> k in Keys(acc) || KeyFrom(props, i, k)
  }

  /** The `_reduce` over the keys from `i` on, with accumulator `acc`: each
      property is assigned its annotated value, in key order; the first
      failure aborts. */
  function StampProps(s: Schema, props: Props, i: nat, acc: Props, typeName: string): (r: Result<Value>)
    requires Valid(s)
    requires i <= |props|
    ensures r.Ok? ==> r.value.Obj?
    ensures r.Ok? && DistinctKeys(acc) ==> DistinctKeys(r.value.props)
    ensures r.Ok? ==> KeysAfterFold(r.value.props, acc, props, i)
    decreases Obj(props), 1, |props| - i
  {
    if i == |props| then Ok(Obj(acc))
    else
      match AnnotateChild(s, props[i].1, typeName, props[i].0)
      case Err(e) => Err(e)
      case Ok(v) =>
        PutKeepsDistinct(acc, props[i].0, v);
        StampProps(s, props, i + 1, Put(acc, props[i].0, v), typeName)
  }

  /** The reducer's body for one property: an array is mapped element by
      element, anything else annotated directly, both with this object's type
      and the property's key as context. */
  function AnnotateChild(s: Schema, child: Value, typeName: string, key: string): (r: Result<Value>)
    requires Valid(s)
    ensures child.Arr? ==> (r.Ok? <==> forall m :: 0 <= m < |child.elems| ==>
      AddTypenames(s, child.elems[m], Some(typeName), Some(key)).Ok?)
    ensures r.Ok? && child.Arr? ==> r.value.Arr? && |r.value.elems| == |child.elems|
    ensures r.Ok? && child.Arr? ==> forall m :: 0 <= m < |child.elems| ==>
      AddTypenames(s, child.elems[m], Some(typeName), Some(key)) == Ok(r.value.elems[m])
    ensures !child.Arr? ==> r == AddTypenames(s, child, Some(typeName), Some(key))
    decreases child, 3, 0
  {
    match child
    case Arr(elems) => AnnotateElems(s, elems, 0, [], typeName, key)
    case _ => AddTypenames(s, child, Some(typeName), Some(key))
  }

  /** `_map` over the elements from `j` on, after `done` = the first `j`
      annotated elements. */
  function AnnotateElems(s: Schema, elems: seq<Value>, j: nat, done: seq<Value>, typeName: string, key: string): (r: Result<Value>)
    requires Valid(s)
    requires j == |done| <= |elems|
    ensures r.Ok? <==> forall m :: j <= m < |elems| ==> AddTypenames(s, elems[m], Some(typeName), Some(key)).Ok?
    ensures r.Ok? ==> r.value.Arr? && |r.value.elems| == |elems| && r.value.elems[..j] == done
    ensures r.Ok? ==> forall m :: j <= m < |elems| ==>
      AddTypenames(s, elems[m], Some(typeName), Some(key)) == Ok(r.value.elems[m])
    decreases Arr(elems), 1, |elems| - j
  {
    if j == |elems| then Ok(Arr(done))
    else
      match AddTypenames(s, elems[j], Some(typeName), Some(key))
      case Err(e) => Err(e)
      case Ok(v) =>
        var r := AnnotateElems(s, elems, j + 1, done + [v], typeName, key);
        assert r.Ok? ==> r.value.elems[j] == r.value.elems[..j + 1][j] == v;
        r
  }
}
