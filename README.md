# addTypenames in Dafny

This project models `src/addTypenames.ts`, a helper that takes plain data,
such as a mocked GraphQL response, and stamps every object in it with
`__typename`, the name of the GraphQL schema type the object stands for. It
has two entry points:

- `getCandidateTypes` lists the schema types that could describe an object.
  These are the types that are not input types, were declared in the schema
  document, and declare a field for every own key of the object.
- `addTypenames` picks an object's named type in one of three ways: from its
  own truthy `__typename`; otherwise from the pair (parent type name,
  property of the parent) that says which field the object sits in;
  otherwise from a single candidate type. Then it classifies that type:
  - an object type is used;
  - a scalar type hands the object back untouched;
  - an abstract type (interface or union) asks its `resolveType` callback;
  - any other kind is an error.

  Finally it rebuilds the object from `{__typename: type.name}`, recursing
  into every property with that type's name and the property's key as
  context. Array properties are annotated element by element.

Files:

- `values.dfy` (`Values`): JavaScript data as a `Value` datatype. Objects are
  sequences of (key, value) pairs, read with `Get` and assigned with `Put`.
  The module also defines truthiness.
- `schema.dfy` (`Schemas`): the read-only schema view. It holds the type map
  in enumeration order, the kinds of named type, field declarations, and
  `astNode` presence. A single `resolveType` function stands for the
  resolver callbacks of the abstract types.
- `failures.dfy` (`Failures`): one error kind per `throw`, plus the crash on an
  unknown `__typename`, and the `Result` type. `ArrayGiven` stands for two
  throws: the array refusal of `getCandidateTypes` (line 33) and that of
  `addTypenames` (line 63).
- `candidates.dfy` (`Candidates`): `getCandidateTypes` and its properties.
- `annotator.dfy` (`Annotator`): `addTypenames` as pure functions. Type
  picking, type classification, the `_reduce` over keys and the `_map` over
  array elements are separate functions.
- `annotator_facts.dfy` (`AnnotatorFacts`): what `addTypenames` promises,
  proved about those functions.
- `annotator_loop.dfy` (`AnnotatorLoop`): the same algorithm as the source
  runs it. An accumulator is assigned key by key in a loop, and an array is
  built element by element. Each method is proved to compute the functions
  above.
- `farm_example.dfy` (`FarmExample`): the union scenario of the test suite,
  worked through on a small stand-in schema. In it, `Farm.assets` has union
  type `Asset`, which is resolved by the presence of `brand` or
  `description`.

The test at `src/__tests__/addTypenames.test.ts:186-200` expects `{id}` in
`Farm.equipment` to become an `Equipment`; the stand-in schema follows the
test.

## Model

| member | source | states |
|---|---|---|
| Values.Get | src/addTypenames.ts:72 | reading a key finds a value exactly when the key is among the object's own keys, and the value found is that key's |
| Values.Put | src/addTypenames.ts:163-179 | assigning `newObj[key]` makes `key` read back the new value, leaves every other key's value as it was, and grows the object only for a new key |
| Values.Keys | src/addTypenames.ts:159 | `_keys(item)` lists the own keys in order, one per property |
| Values.Truthy | src/addTypenames.ts:72-93 | JavaScript truthiness: every object, array and `Date` is truthy, a string exactly when non-empty, `null` never |
| Values.PutKeepsDistinct | src/addTypenames.ts:163-179 | assignment never duplicates a key; the keys afterwards are the old keys plus the assigned one |
| Schemas.GetType | src/addTypenames.ts:73 | `schema.getType(name)` gives a type of the schema carrying that name, and gives nothing exactly when no type has that name |
| Schemas.FieldOf | src/addTypenames.ts:88 | `getFields()[prop]` gives the declared field of that name, and gives nothing exactly when none is declared |
| Candidates.Eligible | src/addTypenames.ts:41-50 | only source-defined object and interface types pass the `_filter` predicate, and with no keys every one of them passes |
| Candidates.Filter | src/addTypenames.ts:40-51 | a type is kept exactly when it is in the type map and eligible (not an input type, has an `astNode`, has fields, declares every key); the kept types keep type-map order |
| Candidates.GetCandidateTypes | src/addTypenames.ts:31-54 | an array is refused with an error and nothing else is; null, `Date` and scalars give no candidates; an object gives exactly the eligible types for its own keys, in type-map order |
| Candidates.MoreKeysFewerCandidates | src/addTypenames.ts:49 | filtering on a superset of keys keeps an ordered subsequence of the types kept for the smaller set |
| Candidates.MoreKeysShrinkCandidates | src/addTypenames.ts:39-51 | adding properties to an object can only drop candidates, never add or reorder them |
| Candidates.EmptyObjectFitsEveryType | src/addTypenames.ts:44-50 | the empty object's candidates are exactly the source-defined object and interface types |
| Annotator.PickNamedType | src/addTypenames.ts:70-118 | the named type picked, when there is one, is a type of the schema |
| Annotator.ResolvedByName | src/addTypenames.ts:143-149 | a resolver's name succeeds exactly when it names an object type of the schema, which is then stamped; otherwise the error names the abstract type |
| Annotator.ResolveAbstract | src/addTypenames.ts:126-150 | success needs a resolver and always stamps; unless the answer was a type object, the stamped name is an object type of the schema |
| Annotator.ClassifyType | src/addTypenames.ts:120-156 | an object type is stamped with its name; the object is left untouched exactly for a scalar type; only object, scalar and abstract types succeed |
| Annotator.Resolve | src/addTypenames.ts:70-156 | a verdict needs a picked type; the object is left untouched exactly when the picked type is a scalar, and a picked object type is stamped with its name |
| Annotator.AddTypenames | src/addTypenames.ts:56-185 | an array is refused; null, `Date`, strings, numbers and booleans come back unchanged whatever the context; a successful result is an object exactly when the input is |
| Annotator.StampProps | src/addTypenames.ts:158-184 | a successful `_reduce` yields an object whose keys are the accumulator's plus the item's remaining keys, and it keeps keys distinct |
| Annotator.AnnotateChild | src/addTypenames.ts:161-178 | an array property succeeds exactly when every element's annotation does, and becomes an array of the same length whose every element is that element annotated with context (type, key); any other property is annotated directly with that context |
| Annotator.AnnotateElems | src/addTypenames.ts:163-170 | the element-wise `_map` succeeds exactly when every element's annotation does; it keeps the length, the elements already done, and the order |
| AnnotatorFacts.TagOverridesContext | src/addTypenames.ts:72-73 | when the item has a truthy `__typename`, the context arguments do not affect the result |
| AnnotatorFacts.UnknownTagFails | src/addTypenames.ts:72-73 | a truthy `__typename` naming no schema type is an error |
| AnnotatorFacts.ContextRules | src/addTypenames.ts:75-94 | without a tag: a parent name alone or a property alone is an error; with both, an unknown parent, a non-object parent and an undeclared field are errors in that order; otherwise the field's named type decides |
| AnnotatorFacts.HeuristicRules | src/addTypenames.ts:95-116 | with no tag and no context: zero candidates is an error, one candidate is the named type, and several are an error listing every candidate's name |
| AnnotatorFacts.ScalarTypeLeavesObjectAlone | src/addTypenames.ts:123-124 | a scalar named type returns the object unchanged, untagged and not recursed into |
| AnnotatorFacts.AbstractTypeRules | src/addTypenames.ts:126-150 | an abstract type fails in this order: no resolver, a falsy answer, a promise, and a name that is not an object type; an answer naming or being an object type stamps that type; any other type object is looked up by its name, and must name an object type |
| AnnotatorFacts.OtherKindsAreUnexpected | src/addTypenames.ts:151-155 | an enum or input object named type is an error |
| AnnotatorFacts.StampPropsUntouched | src/addTypenames.ts:158-184 | a key the `_reduce` does not reach keeps the accumulator's value |
| AnnotatorFacts.StampPropsChild | src/addTypenames.ts:158-184 | every key the `_reduce` reaches holds its annotated child in the output |
| AnnotatorFacts.StampPropsAllOk | src/addTypenames.ts:158-184 | the `_reduce` succeeds when every remaining property's annotation succeeds |
| AnnotatorFacts.GetAt | src/addTypenames.ts:161 | with distinct keys, `item[key]` is the value stored beside that key |
| AnnotatorFacts.StampEntry | src/addTypenames.ts:158-184 | once a type is resolved, the result is the `_reduce` started from `{__typename: type.name}` |
| AnnotatorFacts.StampedObjectSucceeds | src/addTypenames.ts:158-184 | a resolved object is rebuilt successfully exactly when every property's annotation succeeds |
| AnnotatorFacts.StampedObjectKeys | src/addTypenames.ts:158-184 | the rebuilt object has exactly the item's keys plus `__typename`, each once |
| AnnotatorFacts.StampedObjectChildren | src/addTypenames.ts:160-178 | every key of the item holds its value annotated with context (resolved type's name, key) |
| AnnotatorFacts.TagIsLeaf | src/addTypenames.ts:72-73 | an item whose type is picked never carries an object or array as `__typename` |
| AnnotatorFacts.StampedObjectTag | src/addTypenames.ts:158-184 | the output `__typename` is the resolved type's name unless the item carried one, in which case the item's value is kept |
| AnnotatorFacts.TagPicksItsType | src/addTypenames.ts:72-73 | a string tag naming a schema type picks exactly that type |
| AnnotatorFacts.TaggedObjectKeepsTag | src/addTypenames.ts:158-184 | an item tagged with an object type keeps that tag, and its properties are annotated with that type as parent |
| AnnotatorFacts.InterfaceTagIsKept | src/addTypenames.ts:126-184 | an item tagged with an interface keeps the interface's name as tag, while its properties get the resolver's concrete type as parent |
| AnnotatorFacts.AbstractFieldChildGetsResolvedTag | src/addTypenames.ts:79-150 | an untagged object in a field of abstract type is tagged with the object type its resolver names |
| AnnotatorFacts.SingleCandidateIsUsed | src/addTypenames.ts:102-107 | an untagged object with no context and a single object-type candidate is tagged with that candidate's name |
| AnnotatorFacts.NestedArrayFails | src/addTypenames.ts:163-170 | an array directly inside an array property makes the annotation fail |
| AnnotatorLoop.Annotate | src/addTypenames.ts:56-185 | the imperative annotation computes exactly `AddTypenames` |
| AnnotatorLoop.Reduce | src/addTypenames.ts:158-184 | the accumulator loop over the keys computes exactly the `_reduce` started from `{__typename: typeName}` |
| AnnotatorLoop.AnnotateProperty | src/addTypenames.ts:161-178 | the reducer's body for one property computes exactly `AnnotateChild` |
| AnnotatorLoop.AnnotateArray | src/addTypenames.ts:163-170 | the element loop computes exactly the array annotation `AnnotateChild` |
| FarmExample.FarmSchemaIsValid | src/__tests__/addTypenames.test.ts:62-77 | the stand-in farm schema has distinct type names and all field types declared |
| FarmExample.ContextTypesObject | src/__tests__/addTypenames.test.ts:186-200 | `{id}` given as `Farm.equipment` becomes `{__typename: "Equipment", id}` |
| FarmExample.HouseResolves | src/__tests__/addTypenames.test.ts:62-72 | the `Asset` resolver types an untagged house in `Farm.assets` as `Building` |
| FarmExample.HouseInAssetsIsBuilding | src/__tests__/addTypenames.test.ts:159-182 | the house in `Farm.assets` comes out tagged `Building` with its other properties unchanged |
| FarmExample.UnionListIsResolved | src/__tests__/addTypenames.test.ts:159-182 | a farm tagged `Farm` keeps its tag, and the house in its `assets` list is tagged `Building` |

## Left out

- Schema construction and the graphql-js API (`makeExecutableSchema`, `getTypeMap`, `toConfig`, `getNamedType`, the kind tests). These are library code. The schema is a given datatype whose field declarations already hold unwrapped named types.
- The schema is required to be `Valid`: type names are unique, and every object type's field types are in the schema. A constructed GraphQLSchema guarantees both.
- The `resolveType` callbacks are user code. They are one function of (abstract type name, value); the callback's other arguments (context, info) are not modelled.
- A promise answer is the `Pending` outcome; the `isPromise` test itself is not modelled.
- A truthy answer that is neither a string nor a type object is not modelled.
- Error message text (`JSON.stringify` hints, `inspect()` listings) is not modelled. Each error is a kind carrying the names it mentions.
- The `UnknownTypename` error stands for a crash. The source does not throw here: it fails with a TypeError when it reads `namedType.name` of `undefined`.
- JavaScript key coercion of a non-string `__typename` is not modelled. For example, the array `["Farm"]` would be looked up as `"Farm"`. The model treats every truthy non-string tag as unknown.
- `undefined` is not modelled: a missing property and `null` are both `Null`/`None`, and the source treats both as falsy.
- Numbers are reals: NaN (which is falsy), infinities and -0 are not modelled.
- Key order is insertion order. JavaScript's ordering of integer-like keys first is not modelled, and neither are prototype-chain lookups such as a field named `constructor`.
- Cyclic values cannot be built from a Dafny datatype and are left out.
- The input object is never changed because values are immutable. The source's unused spread copy `newObject` (line 69) has nothing to model.
- The test suite's schema document is not part of this model. `FarmExample` uses a small stand-in schema that carries only the fields the scenarios need.
