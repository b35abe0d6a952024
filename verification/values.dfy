/**
 * JSON-like documents and query values as the store and the selector engine see them,
 * the error kinds the referential-integrity layer raises, and a small Result wrapper.
 */
module Values {

  /** A document, a field value or a filter query. `Id` is a store-generated object id:
      an object (field access on it yields Undefined) but not a plain object. */
  datatype Value =
    | Undefined
    | Null
    | Bool(b: bool)
    | Num(n: int)
    | Str(s: string)
    | Id(id: nat)
    | Arr(items: seq<Value>)
    | Obj(props: seq<Prop>)

  datatype Prop = Prop(key: string, val: Value)

  /** One segment of the traversal position: a field name or an array index. */
  datatype StackItem = Key(name: string) | Pos(index: nat)
  type Stack = seq<StackItem>

  datatype Error =
    | FieldOfPrimitive(field: string)
    | IndexOfNonArray(index: nat)
    | MapOfNonArray
    | FlatMapOfNonArray
    | FilterOfNonLazy
    | PredicateOfNonArray
    | ObjectOfPrimitive
    | InvalidMembership(foreignKey: string, collection: string)
    | VerificationFailed(collection: string)
    | Unacknowledged(collection: string)
    | DuplicateId(collection: string)
    | NotADocument(collection: string)
    | ImmutableId(collection: string)
    | DeleteRejected(collection: string)
    | WriteFailed(collection: string)

  datatype Result<+T> = Ok(value: T) | Err(error: Error) {
    predicate IsFailure() { Err? }
    function PropagateFailure<U>(): Result<U>
      requires Err?
    {
      Err(error)
    }
    function Extract(): T
      requires Ok?
    {
      value
    }
  }

  datatype Option<+T> = None | Some(value: T) {
    function GetOr(default: T): T {
      if Some? then value else default
    }
  }

  // ---- structural helpers -------------------------------------------------

  /** lodash `isPlainObject`. */
  predicate IsPlainObject(v: Value) { v.Obj? }

  /** lodash `isObject`: plain objects, arrays and object ids (but not strings or numbers). */
  predicate IsObjectLike(v: Value) { v.Obj? || v.Arr? || v.Id? }

  /** `value[field]`: the first property with that name, Undefined when absent. */
  function Lookup(v: Value, field: string): (r: Value)
    ensures !v.Obj? ==> r == Undefined
    ensures v.Obj? && r != Undefined ==> exists i :: 0 <= i < |v.props| && v.props[i].key == field && v.props[i].val == r
  {
    if v.Obj? then LookupProps(v.props, field) else Undefined
  }

  function LookupProps(props: seq<Prop>, field: string): (r: Value)
    ensures r != Undefined ==> exists i :: 0 <= i < |props| && props[i].key == field && props[i].val == r
    ensures (forall i :: 0 <= i < |props| ==> props[i].key != field) ==> r == Undefined
  {
    if props == [] then Undefined
    else if props[0].key == field then props[0].val
    else LookupProps(props[1..], field)
  }

  /** lodash `keys`: the own keys of an object in insertion order; none for anything else. */
  function KeysOf(v: Value): (r: seq<string>)
    ensures v.Obj? ==> |r| == |v.props| && forall i :: 0 <= i < |r| ==> r[i] == v.props[i].key
    ensures !v.Obj? ==> r == []
  {
    if v.Obj? then PropKeys(v.props) else []
  }

  function PropKeys(props: seq<Prop>): (r: seq<string>)
    ensures |r| == |props| && forall i :: 0 <= i < |r| ==> r[i] == props[i].key
  {
    if props == [] then [] else [props[0].key] + PropKeys(props[1..])
  }

  /** `result[field] = val` on a JS object: overwrite in place when present, append otherwise. */
  function Put(props: seq<Prop>, field: string, val: Value): (r: seq<Prop>)
    ensures field in PropKeys(r)
    ensures forall k :: k in PropKeys(r) <==> k in PropKeys(props) || k == field
    ensures field in PropKeys(props) ==> |r| == |props|
    ensures field !in PropKeys(props) ==> r == props + [Prop(field, val)]
    ensures LookupProps(r, field) == val
    ensures forall k | k != field :: LookupProps(r, k) == LookupProps(props, k)
  {
    if props == [] then
      LookupPropsCons(Prop(field, val), []);
      [Prop(field, val)]
    else
      assert props == [props[0]] + props[1..];
      PropKeysCons(props[0], props[1..]);
      LookupPropsCons(props[0], props[1..]);
      if props[0].key == field then
        PropKeysCons(Prop(field, val), props[1..]);
        LookupPropsCons(Prop(field, val), props[1..]);
        [Prop(field, val)] + props[1..]
      else
        var rest := Put(props[1..], field, val);
        PropKeysCons(props[0], rest);
        LookupPropsCons(props[0], rest);
        ConsSnoc(props[0], props[1..], Prop(field, val));
        [props[0]] + rest
  }

  /** Looking a field up past a first property that does not have it. */
  lemma LookupPropsCons(p: Prop, ps: seq<Prop>)
    ensures forall f :: LookupProps([p] + ps, f) == if p.key == f then p.val else LookupProps(ps, f)
  {
    assert ([p] + ps)[1..] == ps;
  }

  lemma ConsSnoc(p: Prop, ps: seq<Prop>, q: Prop)
    ensures [p] + (ps + [q]) == ([p] + ps) + [q]
  {
  }

  lemma PropKeysCons(p: Prop, ps: seq<Prop>)
    ensures PropKeys([p] + ps) == [p.key] + PropKeys(ps)
  {
    assert ([p] + ps)[1..] == ps;
  }

  /** lodash `castArray`. */
  function CastArray(v: Value): (r: seq<Value>)
    ensures v.Arr? ==> r == v.items
    ensures !v.Arr? ==> r == [v]
  {
    if v.Arr? then v.items else [v]
  }

  /** lodash `flatten`: splice one level of nested arrays. */
  function Flatten(vs: seq<Value>): (r: seq<Value>)
    ensures (forall i :: 0 <= i < |vs| ==> !vs[i].Arr?) ==> r == vs
  {
    if vs == [] then [] else CastArray(vs[0]) + Flatten(vs[1..])
  }

  // ---- sizes, for termination of the mutually recursive walks ---------------

  function Size(v: Value): (n: nat)
    ensures n >= 1
  {
    match v
    case Arr(items) => 1 + ItemsSize(items)
    case Obj(props) => 1 + PropsSize(props)
    case _ => 1
  }

  function ItemsSize(items: seq<Value>): (n: nat)
    ensures items != [] ==> Size(items[0]) < n + 1 && ItemsSize(items[1..]) < n
  {
    if items == [] then 0 else Size(items[0]) + ItemsSize(items[1..])
  }

  function PropsSize(props: seq<Prop>): (n: nat)
    ensures props != [] ==> Size(props[0].val) < n + 1 && PropsSize(props[1..]) < n
  {
    if props == [] then 0 else Size(props[0].val) + PropsSize(props[1..])
  }

  lemma {:induction false} ItemSizeBound(items: seq<Value>, i: nat)
    requires i < |items|
    ensures Size(items[i]) <= ItemsSize(items)
  {
    if i > 0 {
      ItemSizeBound(items[1..], i - 1);
    }
  }

  lemma {:induction false} PropSizeBound(props: seq<Prop>, i: nat)
    requires i < |props|
    ensures Size(props[i].val) <= PropsSize(props)
  {
    if i > 0 {
      PropSizeBound(props[1..], i - 1);
    }
  }
}
