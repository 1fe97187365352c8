/** Plain JavaScript data as the annotator sees it: scalars, `Date`s, arrays and
    objects whose own keys are kept in insertion order. */
module Values {

  datatype Option<+T> = None | Some(value: T)

  datatype Value =
    | Null
    | Str(s: string)
    | Num(n: real)
    | Bool(b: bool)
    | Date(millis: int)
    | Arr(elems: seq<Value>)
    | Obj(props: seq<(string, Value)>)

  /** The own properties of an object, in key order. */
  type Props = seq<(string, Value)>

  /** The property that carries an object's GraphQL type name. */
  const TypenameKey: string := "__typename"

  /** JavaScript truthiness: `null`, `""`, `0` and `false` are falsy, everything
      else (including every object, array and `Date`) is truthy. */
  predicate Truthy(v: Value): (b: bool)
    ensures v.Arr? || v.Obj? || v.Date? ==> b
    ensures v.Str? ==> (b <==> v.s != "")
    ensures v.Null? ==> !b
  {
    match v
    case Null => false
    case Str(s) => s != ""
    case Num(n) => n != 0.0
    case Bool(b) => b
    case _ => true
  }

  /** A value that `typeof v === 'object'` would not accept, or that is `null` or
      a `Date`: the annotator hands it back as it is. */
  predicate IsLeaf(v: Value) {
    !v.Arr? && !v.Obj?
  }

  /** `Object.keys`: the own keys, in order. */
  function Keys(props: Props): (ks: seq<string>)
    ensures |ks| == |props|
    ensures forall i :: 0 <= i < |props| ==> ks[i] == props[i].0
  {
    if props == [] then [] else [props[0].0] + Keys(props[1..])
  }

  /** A JavaScript object never holds the same own key twice. */
  predicate DistinctKeys(props: Props) {
    forall i, j :: 0 <= i < j < |props| ==> props[i].0 != props[j].0
  }

  /** Property read `obj[k]`; `None` stands for `undefined`. */
  function Get(props: Props, k: string): (r: Option<Value>)
    ensures r.Some? <==> k in Keys(props)
    ensures r.Some? ==> (k, r.value) in props
    ensures r.None? ==> forall i :: 0 <= i < |props| ==> props[i].0 != k
  {
    if props == [] then None
    else if props[0].0 == k then Some(props[0].1)
    else Get(props[1..], k)
  }

  /** Property assignment `obj[k] = v`: an existing key keeps its place and gets
      the new value, a new key is appended at the end. */
  function Put(props: Props, k: string, v: Value): (r: Props)
    ensures Get(r, k) == Some(v)
    ensures forall k' :: k' != k ==> Get(r, k') == Get(props, k')
    ensures k in Keys(props) ==> |r| == |props|
    ensures k !in Keys(props) ==> |r| == |props| + 1
  {
    if props == [] then [(k, v)]
    else if props[0].0 == k then [(k, v)] + props[1..]
    else [props[0]] + Put(props[1..], k, v)
  }

  /** Assignment never creates a second copy of a key, and the keys afterwards
      are the old keys plus the assigned one. */
  lemma {:induction false} PutKeepsDistinct(props: Props, k: string, v: Value)
    ensures DistinctKeys(props) ==> DistinctKeys(Put(props, k, v))
    ensures forall k' :: k' in Keys(Put(props, k, v)) <==> k' == k || k' in Keys(props)
  {
    if props != [] && props[0].0 != k {
      PutKeepsDistinct(props[1..], k, v);
      var r := Put(props, k, v);
      assert r == [props[0]] + Put(props[1..], k, v);
      assert Keys(r) == [props[0].0] + Keys(Put(props[1..], k, v));
      if DistinctKeys(props) {
        DistinctKeysTail(props);
        forall i, j | 0 <= i < j < |r| ensures r[i].0 != r[j].0 {
          if i == 0 {
            assert r[j].0 in Keys(Put(props[1..], k, v));
          }
        }
      }
    } else if props != [] {
      var r := Put(props, k, v);
      assert Keys(r) == [k] + Keys(props[1..]);
    }
  }

  lemma DistinctKeysTail(props: Props)
    requires props != [] && DistinctKeys(props)
    ensures DistinctKeys(props[1..])
    ensures props[0].0 !in Keys(props[1..])
  {
  }
}
