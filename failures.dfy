/** The ways `getCandidateTypes` and `addTypenames` abort: one kind per `throw`
    (and one for the crash on an unknown `__typename`), carrying the names the
    thrown message mentions. The two array refusals share `ArrayGiven`. */
module Failures {
  import opened Values

  datatype Error =
    | ArrayGiven                                     // an array where an object was expected
    | UnknownTypename(tag: Value)                    // the `__typename` names no type
    | MissingPropertyOfParent                        // parentTypeName without propertyOfParent
    | MissingParentTypeName                          // propertyOfParent without parentTypeName
    | UnknownParentType(parent: string)
    | ParentNotObjectType(parent: string)
    | UnknownField(parent: string, field: string)
    | NoViableType                                   // no candidate type
    | AmbiguousType(candidates: seq<string>)         // several candidate types
    | MissingResolver(abstractType: string)
    | UnresolvedAbstractType(abstractType: string)  // the resolver returned a falsy value
    | AsyncResolverUnsupported(abstractType: string)
    | UnknownResolvedType(abstractType: string)     // the resolver named no object type
    | UnexpectedType(typeName: string)              // an enum or input type

  datatype Result<+T> = Ok(value: T) | Err(error: Error)
}
