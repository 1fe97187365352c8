/** The read-only view of a GraphQL schema that the annotator queries: the type
    map in enumeration order, each named type's kind, its field declarations,
    whether it was declared in the source document (has an `astNode`), and the
    `resolveType` callbacks of the abstract types. */
module Schemas {
  import opened Values

  /** A field declaration; `typeName` is the field's named type, that is its
      type with list and non-null wrappers stripped (`getNamedType`). */
  datatype Field = Field(name: string, typeName: string)

  /** The kinds of named type the annotator distinguishes. `fromSource` is
      "has an `astNode`": false for built-in scalars and introspection types. */
  datatype NamedType =
    | ObjectType(name: string, fields: seq<Field>, fromSource: bool)
    | InterfaceType(name: string, fields: seq<Field>, fromSource: bool, hasResolver: bool)
    | UnionType(name: string, hasResolver: bool)
    | ScalarType(name: string)
    | EnumType(name: string)
    | InputObjectType(name: string, fields: seq<Field>)
  {
    predicate IsAbstract() {
      InterfaceType? || UnionType?
    }
  }

  /** What a `resolveType` callback can hand back: nothing (any falsy value),
      a type name, a type object, or a promise. */
  datatype Resolution =
    | Unresolved
    | TypeName(typeName: string)
    | TypeRef(namedType: NamedType)
    | Pending

  /** `types` is `getTypeMap()` in enumeration order. `resolveType(a, v)` is the
      callback registered on the abstract type named `a`, applied to `v`; it is
      consulted only for abstract types whose `hasResolver` is set. */
  datatype Schema = Schema(types: seq<NamedType>, resolveType: (string, Value) -> Resolution)

  /** What a constructed GraphQLSchema guarantees: type names are unique, and
      every field of an object type has a named type that is in the type map. */
  predicate Valid(s: Schema) {
    && (forall i, j :: 0 <= i < j < |s.types| ==> s.types[i].name != s.types[j].name)
    && (forall t, f :: t in s.types && t.ObjectType? && f in t.fields ==> GetType(s, f.typeName).Some?)
  }

  /** `schema.getType(name)`; `None` stands for `undefined`. */
  function GetType(s: Schema, name: string): (r: Option<NamedType>)
    ensures r.Some? ==> r.value in s.types && r.value.name == name
    ensures r.None? <==> forall t :: t in s.types ==> t.name != name
  {
    Find(s.types, name)
  }

  function Find(types: seq<NamedType>, name: string): (r: Option<NamedType>)
    ensures r.Some? ==> r.value in types && r.value.name == name
    ensures r.None? <==> forall t :: t in types ==> t.name != name
  {
    if types == [] then None
    else if types[0].name == name then Some(types[0])
    else Find(types[1..], name)
  }

  /** `fields[name]` on a field map; `None` stands for `undefined`. */
  function FieldOf(fields: seq<Field>, name: string): (r: Option<Field>)
    ensures r.Some? ==> r.value in fields && r.value.name == name
    ensures r.None? <==> forall f :: f in fields ==> f.name != name
  {
    if fields == [] then None
    else if fields[0].name == name then Some(fields[0])
    else FieldOf(fields[1..], name)
  }

  /** The field map `toConfig().fields`, for the kinds that have one. */
  function FieldMap(t: NamedType): Option<seq<Field>> {
    match t
    case ObjectType(_, fields, _) => Some(fields)
    case InterfaceType(_, fields, _, _) => Some(fields)
    case InputObjectType(_, fields) => Some(fields)
    case _ => None
  }

  /** `toConfig().astNode` is set. Input objects are filtered out before this
      is asked, and unions, scalars and enums have no field map, so for them
      the answer never matters. */
  predicate FromSource(t: NamedType) {
    (t.ObjectType? || t.InterfaceType?) && t.fromSource
  }
}
