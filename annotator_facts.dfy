/** What `addTypenames` promises: which arguments it looks at, the order in
    which it fails, and the shape of the object it builds. */
module AnnotatorFacts {
  import opened Values
  import opened Schemas
  import opened Failures
  import opened Candidates
  import opened Annotator

  /** A truthy `__typename` decides the type on its own: the context arguments
      are never looked at. */
  lemma TagOverridesContext(s: Schema, props: Props, parent: Option<string>, prop: Option<string>,
                            otherParent: Option<string>, otherProp: Option<string>)
    requires Valid(s) && Tagged(props)
    ensures AddTypenames(s, Obj(props), parent, prop) == AddTypenames(s, Obj(props), otherParent, otherProp)
  {
  }

  /** A truthy `__typename` that is not a string naming a schema type fails. */
  lemma UnknownTagFails(s: Schema, props: Props, parent: Option<string>, prop: Option<string>)
    requires Valid(s) && Tagged(props)
    requires var tag := Get(props, TypenameKey).value; !tag.Str? || GetType(s, tag.s).None?
    ensures AddTypenames(s, Obj(props), parent, prop) == Err(UnknownTypename(Get(props, TypenameKey).value))
  {
  }

  /** Without a tag, the context pair decides: one half alone is refused, and
      with both halves the parent must be a known object type declaring the
      property, whose unwrapped type is then the object's named type. */
  lemma ContextRules(s: Schema, props: Props, parent: Option<string>, prop: Option<string>)
    requires Valid(s) && !Tagged(props)
    ensures Given(parent) && !Given(prop) ==>
      AddTypenames(s, Obj(props), parent, prop) == Err(MissingPropertyOfParent)
    ensures !Given(parent) && Given(prop) ==>
      AddTypenames(s, Obj(props), parent, prop) == Err(MissingParentTypeName)
    ensures Given(parent) && Given(prop) && GetType(s, parent.value).None? ==>
      AddTypenames(s, Obj(props), parent, prop) == Err(UnknownParentType(parent.value))
    ensures Given(parent) && Given(prop) && GetType(s, parent.value).Some? && !GetType(s, parent.value).value.ObjectType? ==>
      AddTypenames(s, Obj(props), parent, prop) == Err(ParentNotObjectType(parent.value))
    ensures Given(parent) && Given(prop) && GetType(s, parent.value).Some? && GetType(s, parent.value).value.ObjectType? ==>
      var fields := GetType(s, parent.value).value.fields;
      if FieldOf(fields, prop.value).None? then
        AddTypenames(s, Obj(props), parent, prop) == Err(UnknownField(parent.value, prop.value))
      else
        GetType(s, FieldOf(fields, prop.value).value.typeName).Some? &&
        Resolve(s, props, parent, prop) ==
          ClassifyType(s, Obj(props), GetType(s, FieldOf(fields, prop.value).value.typeName).value)
  {
  }

  /** Without a tag and without context, the candidate list decides: none is
      an error, one is the named type, several is an error naming them all. */
  lemma HeuristicRules(s: Schema, props: Props, parent: Option<string>, prop: Option<string>)
    requires Valid(s) && !Tagged(props) && !Given(parent) && !Given(prop)
    ensures var candidates := GetCandidateTypes(s, Obj(props)).value;
      && (|candidates| == 0 ==> AddTypenames(s, Obj(props), parent, prop) == Err(NoViableType))
      && (|candidates| == 1 ==> Resolve(s, props, parent, prop) == ClassifyType(s, Obj(props), candidates[0]))
      && (|candidates| >= 2 ==>
            && AddTypenames(s, Obj(props), parent, prop).Err?
            && AddTypenames(s, Obj(props), parent, prop).error.AmbiguousType?
            && |AddTypenames(s, Obj(props), parent, prop).error.candidates| == |candidates|
            && forall t :: t in candidates ==> t.name in AddTypenames(s, Obj(props), parent, prop).error.candidates)
  {
    var candidates := GetCandidateTypes(s, Obj(props)).value;
    if |candidates| >= 2 {
      forall t | t in candidates ensures t.name in Names(candidates) {
        var i :| 0 <= i < |candidates| && candidates[i] == t;
        assert Names(candidates)[i] == t.name;
      }
    }
  }

  /** A custom scalar type hands the object back untouched: no tag, no
      recursion into its properties. */
  lemma ScalarTypeLeavesObjectAlone(s: Schema, props: Props, parent: Option<string>, prop: Option<string>)
    requires Valid(s)
    requires PickNamedType(s, props, parent, prop).Ok? && PickNamedType(s, props, parent, prop).value.ScalarType?
    ensures AddTypenames(s, Obj(props), parent, prop) == Ok(Obj(props))
  {
  }

  /** An abstract type fails, in this order, for a missing resolver, a falsy
      result, a promise, and a name that is not an object type of the schema;
      a type object that is an object type is used as it is, and any other
      type object is looked up by its name. */
  lemma AbstractTypeRules(s: Schema, props: Props, parent: Option<string>, prop: Option<string>)
    requires Valid(s)
    requires PickNamedType(s, props, parent, prop).Ok? && PickNamedType(s, props, parent, prop).value.IsAbstract()
    ensures var t := PickNamedType(s, props, parent, prop).value;
      var answer := s.resolveType(t.name, Obj(props));
      var r := AddTypenames(s, Obj(props), parent, prop);
      && (!t.hasResolver ==> r == Err(MissingResolver(t.name)))
      && (t.hasResolver && (answer.Unresolved? || answer == TypeName("")) ==> r == Err(UnresolvedAbstractType(t.name)))
      && (t.hasResolver && answer.Pending? ==> r == Err(AsyncResolverUnsupported(t.name)))
      && (t.hasResolver && answer.TypeRef? && answer.namedType.ObjectType? ==>
            Resolve(s, props, parent, prop) == Ok(Stamp(answer.namedType.name)))
      && (t.hasResolver && answer.TypeRef? && !answer.namedType.ObjectType? ==>
            var name := answer.namedType.name;
            if GetType(s, name).Some? && GetType(s, name).value.ObjectType?
            then Resolve(s, props, parent, prop) == Ok(Stamp(name))
            else r == Err(UnknownResolvedType(t.name)))
      && (t.hasResolver && answer.TypeName? && answer.typeName != "" ==>
            if GetType(s, answer.typeName).Some? && GetType(s, answer.typeName).value.ObjectType?
            then Resolve(s, props, parent, prop) == Ok(Stamp(answer.typeName))
            else r == Err(UnknownResolvedType(t.name)))
  {
  }

  /** Enum and input object types cannot type an object. */
  lemma OtherKindsAreUnexpected(s: Schema, props: Props, parent: Option<string>, prop: Option<string>)
    requires Valid(s)
    requires PickNamedType(s, props, parent, prop).Ok?
    requires var t := PickNamedType(s, props, parent, prop).value; t.EnumType? || t.InputObjectType?
    ensures AddTypenames(s, Obj(props), parent, prop) == Err(UnexpectedType(PickNamedType(s, props, parent, prop).value.name))
  {
  }

  /** Keys the `_reduce` does not reach keep the accumulator's value. */
  lemma {:induction false} StampPropsUntouched(s: Schema, props: Props, i: nat, acc: Props, typeName: string, k: string)
    requires Valid(s) && i <= |props| && !KeyFrom(props, i, k)
    requires StampProps(s, props, i, acc, typeName).Ok?
    ensures Get(StampProps(s, props, i, acc, typeName).value.props, k) == Get(acc, k)
    decreases |props| - i
  {
    if i < |props| {
      var key := props[i].0;
      var child := AnnotateChild(s, props[i].1, typeName, key).value;
      assert key != k;
      StampPropsUntouched(s, props, i + 1, Put(acc, key, child), typeName, k);
    }
  }

  /** Every key the `_reduce` reaches holds its annotated child. */
  lemma {:induction false} StampPropsChild(s: Schema, props: Props, i: nat, acc: Props, typeName: string, j: nat)
    requires Valid(s) && i <= j < |props| && DistinctKeys(props)
    requires StampProps(s, props, i, acc, typeName).Ok?
    ensures AnnotateChild(s, props[j].1, typeName, props[j].0).Ok?
    ensures Get(StampProps(s, props, i, acc, typeName).value.props, props[j].0) ==
      Some(AnnotateChild(s, props[j].1, typeName, props[j].0).value)
    decreases |props| - i
  {
    var key := props[i].0;
    var child := AnnotateChild(s, props[i].1, typeName, key).value;
    if i < j {
      StampPropsChild(s, props, i + 1, Put(acc, key, child), typeName, j);
    } else {
      StampPropsUntouched(s, props, i + 1, Put(acc, key, child), typeName, key);
    }
  }

  /** With distinct keys, the value `Get` finds is the one at the key's index. */
  lemma GetAt(props: Props, j: nat)
    requires DistinctKeys(props) && j < |props|
    ensures Get(props, props[j].0) == Some(props[j].1)
  {
    var r := Get(props, props[j].0);
    var j' :| 0 <= j' < |props| && props[j'] == (props[j].0, r.value);
    assert j' == j;
  }

  /** Once the object is to be stamped with `typeName`, `addTypenames` is the
      `_reduce` started from `{__typename: typeName}`. */
  lemma StampEntry(s: Schema, props: Props, parent: Option<string>, prop: Option<string>, typeName: string)
    requires Valid(s)
    requires Resolve(s, props, parent, prop) == Ok(Stamp(typeName))
    ensures AddTypenames(s, Obj(props), parent, prop) == StampProps(s, props, 0, [(TypenameKey, Str(typeName))], typeName)
  {
  }

  /** A stamped object is built exactly when every property's annotation
      succeeds. */
  lemma StampedObjectSucceeds(s: Schema, props: Props, parent: Option<string>, prop: Option<string>, typeName: string)
    requires Valid(s) && DistinctKeys(props)
    requires Resolve(s, props, parent, prop) == Ok(Stamp(typeName))
    ensures AddTypenames(s, Obj(props), parent, prop).Ok? <==>
      forall j :: 0 <= j < |props| ==> AnnotateChild(s, props[j].1, typeName, props[j].0).Ok?
  {
    var init := [(TypenameKey, Str(typeName))];
    StampEntry(s, props, parent, prop, typeName);
    if StampProps(s, props, 0, init, typeName).Ok? {
      forall j | 0 <= j < |props| ensures AnnotateChild(s, props[j].1, typeName, props[j].0).Ok? {
        StampPropsChild(s, props, 0, init, typeName, j);
      }
    } else if forall j :: 0 <= j < |props| ==> AnnotateChild(s, props[j].1, typeName, props[j].0).Ok? {
      StampPropsAllOk(s, props, 0, init, typeName);
    }
  }

  /** A stamped object has exactly the item's keys plus `__typename`, each
      once. */
  lemma StampedObjectKeys(s: Schema, props: Props, parent: Option<string>, prop: Option<string>, typeName: string)
    requires Valid(s)
    requires Resolve(s, props, parent, prop) == Ok(Stamp(typeName))
    requires AddTypenames(s, Obj(props), parent, prop).Ok?
    ensures var out := AddTypenames(s, Obj(props), parent, prop).value.props;
      && DistinctKeys(out)
      && forall k :: k in Keys(out) <==> k == TypenameKey || k in Keys(props)
  {
    var init := [(TypenameKey, Str(typeName))];
    StampEntry(s, props, parent, prop, typeName);
    assert DistinctKeys(init);
    forall k ensures KeyFrom(props, 0, k) <==> k in Keys(props) {
      if k in Keys(props) {
        var j :| 0 <= j < |props| && Keys(props)[j] == k;
      }
    }
  }

  /** Every key of the item other than `__typename` holds its child annotated
      with context (typeName, key). */
  lemma StampedObjectChildren(s: Schema, props: Props, parent: Option<string>, prop: Option<string>, typeName: string)
    requires Valid(s) && DistinctKeys(props)
    requires Resolve(s, props, parent, prop) == Ok(Stamp(typeName))
    requires AddTypenames(s, Obj(props), parent, prop).Ok?
    ensures forall j :: 0 <= j < |props| ==>
      && AnnotateChild(s, props[j].1, typeName, props[j].0).Ok?
      && Get(AddTypenames(s, Obj(props), parent, prop).value.props, props[j].0) ==
           Some(AnnotateChild(s, props[j].1, typeName, props[j].0).value)
  {
    StampEntry(s, props, parent, prop, typeName);
    forall j | 0 <= j < |props|
      ensures AnnotateChild(s, props[j].1, typeName, props[j].0).Ok?
      ensures Get(AddTypenames(s, Obj(props), parent, prop).value.props, props[j].0) ==
           Some(AnnotateChild(s, props[j].1, typeName, props[j].0).value)
    {
      StampPropsChild(s, props, 0, [(TypenameKey, Str(typeName))], typeName, j);
    }
  }

  /** An object that gets a type at all carries either no `__typename`, a
      falsy one, or a string: never an object or array. */
  lemma TagIsLeaf(s: Schema, props: Props, parent: Option<string>, prop: Option<string>)
    requires Valid(s)
    requires PickNamedType(s, props, parent, prop).Ok?
    requires Get(props, TypenameKey).Some?
    ensures IsLeaf(Get(props, TypenameKey).value)
  {
  }

  /** The `__typename` of a stamped object is the resolved type's name, unless
      the item carried a `__typename` of its own: that one is kept, whatever
      type was resolved from it. */
  lemma StampedObjectTag(s: Schema, props: Props, parent: Option<string>, prop: Option<string>, typeName: string)
    requires Valid(s) && DistinctKeys(props)
    requires Resolve(s, props, parent, prop) == Ok(Stamp(typeName))
    requires AddTypenames(s, Obj(props), parent, prop).Ok?
    ensures Get(AddTypenames(s, Obj(props), parent, prop).value.props, TypenameKey) ==
      if TypenameKey in Keys(props) then Get(props, TypenameKey) else Some(Str(typeName))
  {
    var init := [(TypenameKey, Str(typeName))];
    StampEntry(s, props, parent, prop, typeName);
    if TypenameKey in Keys(props) {
      var j :| 0 <= j < |props| && props[j].0 == TypenameKey;
      GetAt(props, j);
      TagIsLeaf(s, props, parent, prop);
      assert AnnotateChild(s, props[j].1, typeName, TypenameKey) == Ok(props[j].1);
      StampPropsChild(s, props, 0, init, typeName, j);
    } else {
      StampPropsUntouched(s, props, 0, init, typeName, TypenameKey);
    }
  }

  lemma {:induction false} StampPropsAllOk(s: Schema, props: Props, i: nat, acc: Props, typeName: string)
    requires Valid(s) && i <= |props|
    requires forall j :: i <= j < |props| ==> AnnotateChild(s, props[j].1, typeName, props[j].0).Ok?
    ensures StampProps(s, props, i, acc, typeName).Ok?
    decreases |props| - i
  {
    if i < |props| {
      var r := AnnotateChild(s, props[i].1, typeName, props[i].0);
      StampPropsAllOk(s, props, i + 1, Put(acc, props[i].0, r.value), typeName);
    }
  }

  /** A string tag naming a schema type picks that type. */
  lemma TagPicksItsType(s: Schema, props: Props, parent: Option<string>, prop: Option<string>, name: string)
    requires Valid(s)
    requires name != "" && Get(props, TypenameKey) == Some(Str(name))
    requires GetType(s, name).Some?
    ensures PickNamedType(s, props, parent, prop) == Ok(GetType(s, name).value)
  {
  }

  /** An item already tagged with an object type keeps exactly that tag, and
      its properties are annotated with that type as their parent. */
  lemma TaggedObjectKeepsTag(s: Schema, props: Props, parent: Option<string>, prop: Option<string>, name: string)
    requires Valid(s) && DistinctKeys(props)
    requires name != "" && Get(props, TypenameKey) == Some(Str(name))
    requires GetType(s, name).Some? && GetType(s, name).value.ObjectType?
    requires AddTypenames(s, Obj(props), parent, prop).Ok?
    ensures Get(AddTypenames(s, Obj(props), parent, prop).value.props, TypenameKey) == Some(Str(name))
    ensures forall j :: 0 <= j < |props| ==>
      && AnnotateChild(s, props[j].1, name, props[j].0).Ok?
      && Get(AddTypenames(s, Obj(props), parent, prop).value.props, props[j].0) ==
           Some(AnnotateChild(s, props[j].1, name, props[j].0).value)
  {
    TagPicksItsType(s, props, parent, prop, name);
    StampedObjectTag(s, props, parent, prop, name);
    StampedObjectChildren(s, props, parent, prop, name);
  }

  /** An item tagged with an interface keeps the interface's name as its tag,
      while its properties get the concrete type chosen by the resolver as
      their parent. */
  lemma InterfaceTagIsKept(s: Schema, props: Props, parent: Option<string>, prop: Option<string>, name: string, concrete: string)
    requires Valid(s) && DistinctKeys(props)
    requires name != "" && Get(props, TypenameKey) == Some(Str(name))
    requires GetType(s, name).Some? && GetType(s, name).value.InterfaceType? && GetType(s, name).value.hasResolver
    requires s.resolveType(name, Obj(props)) == TypeName(concrete)
    requires GetType(s, concrete).Some? && GetType(s, concrete).value.ObjectType?
    requires AddTypenames(s, Obj(props), parent, prop).Ok?
    ensures Get(AddTypenames(s, Obj(props), parent, prop).value.props, TypenameKey) == Some(Str(name))
    ensures forall j :: 0 <= j < |props| ==>
      && AnnotateChild(s, props[j].1, concrete, props[j].0).Ok?
      && Get(AddTypenames(s, Obj(props), parent, prop).value.props, props[j].0) ==
           Some(AnnotateChild(s, props[j].1, concrete, props[j].0).value)
  {
    TagPicksItsType(s, props, parent, prop, name);
    assert concrete != "";
    StampedObjectTag(s, props, parent, prop, concrete);
    StampedObjectChildren(s, props, parent, prop, concrete);
  }

  /** An untagged object sitting in a field whose type is abstract is tagged
      with the object type its resolver names, e.g. a `Building` in a field of
      union type `Asset`. */
  lemma AbstractFieldChildGetsResolvedTag(s: Schema, props: Props, parentName: string, key: string, concrete: string)
    requires Valid(s) && DistinctKeys(props) && TypenameKey !in Keys(props)
    requires parentName != "" && key != ""
    requires GetType(s, parentName).Some? && GetType(s, parentName).value.ObjectType?
    requires FieldOf(GetType(s, parentName).value.fields, key).Some?
    requires var abstractName := FieldOf(GetType(s, parentName).value.fields, key).value.typeName;
      && GetType(s, abstractName).Some?
      && GetType(s, abstractName).value.IsAbstract()
      && GetType(s, abstractName).value.hasResolver
      && s.resolveType(abstractName, Obj(props)) == TypeName(concrete)
    requires GetType(s, concrete).Some? && GetType(s, concrete).value.ObjectType?
    requires AddTypenames(s, Obj(props), Some(parentName), Some(key)).Ok?
    ensures Get(AddTypenames(s, Obj(props), Some(parentName), Some(key)).value.props, TypenameKey) == Some(Str(concrete))
  {
    assert !Tagged(props);
    var abstractName := FieldOf(GetType(s, parentName).value.fields, key).value.typeName;
    assert PickNamedType(s, props, Some(parentName), Some(key)) == Ok(GetType(s, abstractName).value);
    assert concrete != "";
    assert Resolve(s, props, Some(parentName), Some(key)) == Ok(Stamp(concrete));
    StampedObjectTag(s, props, Some(parentName), Some(key), concrete);
  }

  /** With no tag and no context, an object whose keys fit exactly one object
      type is tagged with that type's name. */
  lemma SingleCandidateIsUsed(s: Schema, props: Props)
    requires Valid(s) && DistinctKeys(props) && TypenameKey !in Keys(props)
    requires var candidates := GetCandidateTypes(s, Obj(props)).value;
      |candidates| == 1 && candidates[0].ObjectType?
    requires AddTypenames(s, Obj(props), None, None).Ok?
    ensures Get(AddTypenames(s, Obj(props), None, None).value.props, TypenameKey) ==
      Some(Str(GetCandidateTypes(s, Obj(props)).value[0].name))
  {
    var candidates := GetCandidateTypes(s, Obj(props)).value;
    assert !Tagged(props);
    assert Resolve(s, props, None, None) == Ok(Stamp(candidates[0].name));
    StampedObjectTag(s, props, None, None, candidates[0].name);
  }

  /** An array directly inside an array property is refused, like an array
      handed to `addTypenames` itself. */
  lemma NestedArrayFails(s: Schema, elems: seq<Value>, typeName: string, key: string, m: nat)
    requires Valid(s) && m < |elems| && elems[m].Arr?
    ensures AnnotateChild(s, Arr(elems), typeName, key).Err?
  {
    assert AddTypenames(s, elems[m], Some(typeName), Some(key)) == Err(ArrayGiven);
  }
}
