/**
 * The selector interpreter (src/internal/selector/definition.ts). A selector is a small program
 * that walks a document, follows foreign keys into other collections and assembles a result.
 * Selection starts from a lazy set over a whole collection (`In`), so chains of filters reach
 * the store as one query; anything that needs every element fetches the set first.
 *
 * The `select` methods are sequential here: `Promise.all` joins its results in input order, so
 * a left-to-right evaluation that stops at the first failure gives the same successful results.
 */
module Selectors {
  import opened Values
  import opened Graph
  import opened Store
  import opened FilterQuery
  import opened LazyDocuments

  /** The object-selector entry that stands for "every other field of the value". */
  const OtherFields: string := "*"

  datatype Selector =
    | Identity
    | Field(field: string, next: Selector)
    | Index(index: nat, next: Selector)
    | Map(next: Selector)
    | FlatMap(next: Selector)
    | Filter(query: Value, next: Selector)
    | Predicate(pred: (Value, nat, seq<Value>) -> bool, next: Selector)
    | Tuple(selectors: seq<Selector>)
    | Object(entries: seq<Entry>)

  datatype Entry = Entry(field: string, sel: Selector)

  /** What a selector is applied to: an ordinary value or a not-yet-fetched set of documents. */
  datatype Input = Plain(v: Value) | Lazy(docs: LazySet)

  // ---- termination measures ----------------------------------------------------

  function SelSize(sel: Selector): (n: nat)
    ensures n >= 1
  {
    match sel
    case Identity => 1
    case Field(_, next) => 1 + SelSize(next)
    case Index(_, next) => 1 + SelSize(next)
    case Map(next) => 1 + SelSize(next)
    case FlatMap(next) => 1 + SelSize(next)
    case Filter(_, next) => 1 + SelSize(next)
    case Predicate(_, next) => 1 + SelSize(next)
    case Tuple(sels) => 1 + SelsSize(sels)
    case Object(entries) => 1 + EntriesSize(entries)
  }

  function SelsSize(sels: seq<Selector>): (n: nat)
    ensures sels != [] ==> SelSize(sels[0]) < n && SelsSize(sels[1..]) < n
  {
    if sels == [] then 0 else SelSize(sels[0]) + 1 + SelsSize(sels[1..])
  }

  function EntriesSize(entries: seq<Entry>): (n: nat)
    ensures entries != [] ==> SelSize(entries[0].sel) + 2 <= n && EntriesSize(entries[1..]) < n
  {
    if entries == [] then 0 else SelSize(entries[0].sel) + 2 + EntriesSize(entries[1..])
  }

  function Rank(input: Input): nat {
    if input.Lazy? then 1 else 0
  }

  function Weight(input: Input): nat {
    if input.Plain? then 2 * Size(input.v) else 0
  }

  // ---- the interpreter ---------------------------------------------------------

  /** The elements an array-consuming selector works on: a lazy set is fetched, an array is
      taken as it is, anything else is refused with `err`. */
  function Items(env: Env, input: Input, err: Error): (r: Result<seq<Value>>)
    ensures input.Lazy? ==> r == Fetch(env, input.docs)
    ensures input.Plain? && input.v.Arr? ==> r == Ok(input.v.items)
    ensures input.Plain? && !input.v.Arr? ==> r == Err(err)
  {
    if input.Lazy? then Fetch(env, input.docs)
    else if input.v.Arr? then Ok(input.v.items)
    else Err(err)
  }

  /** `selector.select(value, collection, stack)`. */
  function Select(env: Env, sel: Selector, input: Input, c: string, stack: Stack): Result<Value>
    decreases SelSize(sel), Rank(input), Weight(input), 1
  {
    match sel
    case Identity =>
      if input.Lazy? then
        var docs :- Fetch(env, input.docs);
        Ok(Arr(docs))
      else Ok(input.v)
    case Field(f, next) =>
      if input.Lazy? || input.v.Arr? then
        var items :- Items(env, input, MapOfNonArray);
        var rs :- SelectEach(env, sel, items, c, stack, 0);
        Ok(Arr(rs))
      else if !IsObjectLike(input.v) then Err(FieldOfPrimitive(f))
      else
        var x := Lookup(input.v, f);
        var st := stack + [Key(f)];
        var key := env.hooks.stackToKey(st);
        var fks := ConfigOf(env.graph, c).foreignKeys;
        if key !in fks then Select(env, next, Plain(x), c, st)
        else
          var fk := fks[key];
          if (fk.optional && x == Undefined) || (fk.nullable && x == Null) then Ok(x)
          else
            var target := fk.collection;
            var pk := ConfigOf(env.graph, target).key;
            if !x.Arr? then
              var doc :- FindOne(env, target, ByKey(pk, x));
              Select(env, next, Plain(doc), target, [])
            else
              Select(env, next, Lazy(LazySet(target, [ByKeys(pk, x)])), target, [])
    case Index(i, next) =>
      if input.Plain? && input.v.Arr? then
        var x := if i < |input.v.items| then input.v.items[i] else Undefined;
        Select(env, next, Plain(x), c, stack + [Pos(i)])
      else if input.Lazy? then
        var x :- FetchOne(env, input.docs, i);
        Select(env, next, Plain(x), c, stack + [Pos(i)])
      else Err(IndexOfNonArray(i))
    case Map(next) =>
      var items :- Items(env, input, MapOfNonArray);
      var rs :- SelectEach(env, next, items, c, stack, 0);
      Ok(Arr(rs))
    case FlatMap(next) =>
      var items :- Items(env, input, FlatMapOfNonArray);
      var rs :- SelectEach(env, next, items, c, stack, 0);
      Ok(Arr(Flatten(rs)))
    case Filter(q, next) =>
      if input.Lazy? then Select(env, next, Lazy(Extend(input.docs, q)), c, stack)
      else Err(FilterOfNonLazy)
    case Predicate(p, next) =>
      var items :- Items(env, input, PredicateOfNonArray);
      Select(env, next, Plain(Arr(Kept(p, items, |items|))), c, stack)
    case Tuple(sels) =>
      var rs :- SelectAll(env, sels, input, c, stack);
      Ok(Arr(rs))
    case Object(entries) =>
      if input.Lazy? || input.v.Arr? then
        var items :- Items(env, input, MapOfNonArray);
        var rs :- SelectEach(env, sel, items, c, stack, 0);
        Ok(Arr(rs))
      else if !IsObjectLike(input.v) then Err(ObjectOfPrimitive)
      else
        var props :- Assemble(env, entries, Fields(entries), input.v, c, stack, []);
        Ok(Obj(props))
  }

  /** The mapping step: item `offset + k` is selected with the position appended to the stack. */
  function SelectEach(env: Env, sel: Selector, items: seq<Value>, c: string, stack: Stack, offset: nat): Result<seq<Value>>
    decreases SelSize(sel), 0, 2 * ItemsSize(items) + 1, 0
  {
    if items == [] then Ok([])
    else
      var x :- Select(env, sel, Plain(items[0]), c, stack + [Pos(offset)]);
      var rest :- SelectEach(env, sel, items[1..], c, stack, offset + 1);
      Ok([x] + rest)
  }

  /** The tuple step: every selector applied to the same input. */
  function SelectAll(env: Env, sels: seq<Selector>, input: Input, c: string, stack: Stack): Result<seq<Value>>
    decreases SelsSize(sels), Rank(input), Weight(input), 0
  {
    if sels == [] then Ok([])
    else
      var x :- Select(env, sels[0], input, c, stack);
      var rest :- SelectAll(env, sels[1..], input, c, stack);
      Ok([x] + rest)
  }

  /** The fields an object selector lists, `*` included. */
  function Fields(entries: seq<Entry>): (r: set<string>)
    ensures forall f :: f in r <==> exists i :: 0 <= i < |entries| && entries[i].field == f
  {
    if entries == [] then {} else {entries[0].field} + Fields(entries[1..])
  }

  /** The object selector's loop over its entries, extending the partial result `acc`. */
  function Assemble(env: Env, entries: seq<Entry>, listed: set<string>, v: Value, c: string, stack: Stack, acc: seq<Prop>): Result<seq<Prop>>
    decreases EntriesSize(entries), 1, 0, 0
  {
    if entries == [] then Ok(acc)
    else
      var e := entries[0];
      if e.field != OtherFields then
        var x :- Select(env, Field(e.field, e.sel), Plain(v), c, stack);
        Assemble(env, entries[1..], listed, v, c, stack, Put(acc, e.field, x))
      else
        var acc' :- FillOthers(env, KeysOf(v), listed, e.sel, v, c, stack, acc);
        Assemble(env, entries[1..], listed, v, c, stack, acc')
  }

  /** The `*` entry: every key of the value that no entry lists, in the value's key order. */
  function FillOthers(env: Env, keys: seq<string>, listed: set<string>, sel: Selector, v: Value, c: string, stack: Stack, acc: seq<Prop>): Result<seq<Prop>>
    decreases SelSize(sel) + 2, 0, |keys|, 0
  {
    if keys == [] then Ok(acc)
    else if keys[0] in listed then FillOthers(env, keys[1..], listed, sel, v, c, stack, acc)
    else
      var x :- Select(env, Field(keys[0], sel), Plain(v), c, stack);
      FillOthers(env, keys[1..], listed, sel, v, c, stack, Put(acc, keys[0], x))
  }

  /** The predicate filter's fold over the first `n` items, `all` being the whole array. */
  function Kept(p: (Value, nat, seq<Value>) -> bool, all: seq<Value>, n: nat): seq<Value>
    requires n <= |all|
  {
    if n == 0 then []
    else Kept(p, all, n - 1) + (if p(all[n - 1], n - 1, all) then [all[n - 1]] else [])
  }

  /** `selector.in(collection)`: start from the lazy set of the whole collection, empty stack. */
  function In(env: Env, sel: Selector, c: string): Result<Value> {
    Select(env, sel, Lazy(LazySet(c, [])), c, [])
  }
}
