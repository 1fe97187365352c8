/** `getCandidateTypes`: the schema types whose field map holds every own key of
    an object, in type-map order. */
module Candidates {
  import opened Values
  import opened Schemas
  import opened Failures

  /** The `_filter` predicate: not an input type, declared in the source
      document, has a field map, and every given key names one of its fields. */
  predicate Eligible(t: NamedType, keys: seq<string>): (b: bool)
    ensures b ==> (t.ObjectType? || t.InterfaceType?) && t.fromSource
    ensures keys == [] ==> (b <==> (t.ObjectType? || t.InterfaceType?) && t.fromSource)
  {
    && !t.InputObjectType?
    && FromSource(t)
    && FieldMap(t).Some?
    && forall k :: k in keys ==> FieldOf(FieldMap(t).value, k).Some?
  }

  /** `a` is `b` with some elements left out, the rest in the same order. */
  predicate IsSubsequence<T(==)>(a: seq<T>, b: seq<T>)
    decreases |b|
  {
    if b == [] then a == []
    else (a != [] && a[0] == b[0] && IsSubsequence(a[1..], b[1..])) || IsSubsequence(a, b[1..])
  }

  /** The `_filter` over the type map. */
  function Filter(types: seq<NamedType>, keys: seq<string>): (r: seq<NamedType>)
    ensures forall t :: t in r <==> t in types && Eligible(t, keys)
    ensures IsSubsequence(r, types)
  {
    if types == [] then []
    else if Eligible(types[0], keys) then [types[0]] + Filter(types[1..], keys)
    else Filter(types[1..], keys)
  }

  /** `getCandidateTypes({item, schema})`: an array is refused; null, `Date`
      and every other non-object gives no candidates; an object gives exactly
      the eligible types for its own keys, in type-map order. */
  function GetCandidateTypes(s: Schema, item: Value): (r: Result<seq<NamedType>>)
    ensures r.Err? <==> item.Arr?
    ensures r.Err? ==> r.error == ArrayGiven
    ensures IsLeaf(item) ==> r == Ok([])
    ensures item.Obj? ==> r.Ok?
    ensures item.Obj? ==> forall t :: t in r.value <==> t in s.types && Eligible(t, Keys(item.props))
    ensures item.Obj? ==> IsSubsequence(r.value, s.types)
  {
    match item
    case Arr(_) => Err(ArrayGiven)
    case Obj(props) => Ok(Filter(s.types, Keys(props)))
    case _ => Ok([])
  }

  lemma SubsequenceOfLonger<T>(a: seq<T>, x: T, b: seq<T>)
    requires IsSubsequence(a, b)
    ensures IsSubsequence(a, [x] + b)
  {
    assert ([x] + b)[1..] == b;
  }

  /** Giving an object more keys can only drop candidates, never add or
      reorder them. */
  lemma {:induction false} MoreKeysFewerCandidates(types: seq<NamedType>, fewer: seq<string>, more: seq<string>)
    requires forall k :: k in fewer ==> k in more
    ensures IsSubsequence(Filter(types, more), Filter(types, fewer))
  {
    if types != [] {
      MoreKeysFewerCandidates(types[1..], fewer, more);
      var t := types[0];
      var rest := Filter(types[1..], fewer);
      if Eligible(t, more) {
        assert Eligible(t, fewer);
        assert ([t] + Filter(types[1..], more))[1..] == Filter(types[1..], more);
        assert ([t] + rest)[1..] == rest;
      } else if Eligible(t, fewer) {
        SubsequenceOfLonger(Filter(types[1..], more), t, rest);
      }
    }
  }

  /** The empty object fits every source-defined object and interface type. */
  lemma EmptyObjectFitsEveryType(s: Schema)
    ensures GetCandidateTypes(s, Obj([])).Ok?
    ensures forall t :: t in GetCandidateTypes(s, Obj([])).value <==>
      t in s.types && (t.ObjectType? || t.InterfaceType?) && t.fromSource
  {
    assert Keys([]) == [];
  }

  /** Adding keys to an object shrinks its candidate list. */
  lemma MoreKeysShrinkCandidates(s: Schema, props: Props, extra: Props)
    ensures IsSubsequence(GetCandidateTypes(s, Obj(props + extra)).value, GetCandidateTypes(s, Obj(props)).value)
  {
    var ks := Keys(props + extra);
    forall k | k in Keys(props) ensures k in ks {
      var i :| 0 <= i < |props| && Keys(props)[i] == k;
      assert ks[i] == k;
    }
    MoreKeysFewerCandidates(s.types, Keys(props), ks);
  }
}
