/**
 * Deferred foreign documents (src/internal/selector/lazyDocuments.ts): a collection together
 * with a list of filter fragments. Nothing is read until `Fetch`/`FetchOne`; `Extend` adds one
 * more fragment, so a chain of selections becomes one conjunctive query on the store.
 */
module LazyDocuments {
  import opened Values
  import opened Store
  import opened FilterQuery

  datatype LazySet = LazySet(collection: string, queries: seq<Value>)

  /** The conjunctive query: `{}` for no fragment, `{$and: [..fragments]}` otherwise. */
  function Query(l: LazySet): (q: Value)
    ensures l.queries == [] ==> q == Obj([])
    ensures l.queries != [] ==> IsConjunction(q) && q.props[0].val.items == l.queries
  {
    if l.queries == [] then Obj([]) else Obj([Prop("$and", Arr(l.queries))])
  }

  /** A new set with one more fragment; the receiver is left as it is. */
  function Extend(l: LazySet, q: Value): (r: LazySet)
    ensures r.collection == l.collection && r.queries == l.queries + [q]
  {
    LazySet(l.collection, l.queries + [q])
  }

  /** `collection.find(this.query)`. */
  function Fetch(env: Env, l: LazySet): Result<seq<Value>> {
    Find(env, l.collection, Query(l))
  }

  /** `collection.find(this.query, {skip: index, limit: 1})`, then the first element or undefined. */
  function FetchOne(env: Env, l: LazySet, index: nat): Result<Value> {
    var docs :- Find(env, l.collection, Query(l));
    var page := Page(docs, index, 1);
    Ok(if page == [] then Undefined else page[0])
  }

  /** Fetching one element is indexing into the full fetch, undefined past its end. */
  lemma FetchOneIsIndex(env: Env, l: LazySet, index: nat)
    ensures Fetch(env, l).Err? ==> FetchOne(env, l, index) == Err(Fetch(env, l).error)
    ensures Fetch(env, l).Ok? ==>
      FetchOne(env, l, index) ==
        Ok(if index < |Fetch(env, l).value| then Fetch(env, l).value[index] else Undefined)
  {
    if Fetch(env, l).Ok? {
      var docs := Fetch(env, l).value;
      var page := Page(docs, index, 1);
      if index < |docs| {
        assert |page| == 1 && page[0] == docs[index];
      }
    }
  }

  /** The walk over a conjunction's operand, as the normaliser performs it. */
  lemma NormalizeConjunction(env: Env, c: string, qs: seq<Value>)
    ensures Normalize(env, c, Obj([Prop("$and", Arr(qs))]), false) ==
      (match DescendItems(env, c, qs, [Key("$and")], 0)
       case Err(e) => Err(e)
       case Ok(xs) => Ok(Obj([Prop("$and", Arr(xs))])))
  {
    var props := [Prop("$and", Arr(qs))];
    var stack: Stack := [];
    assert props[1..] == [] && stack + [Key("$and")] == [Key("$and")];
    OtherSegmentsNotRewritten(env, c, Arr(qs), [Key("$and")]);
    assert DescendProps(env, c, props[1..], []) == Ok([]);
    assert props[0].key == "$and" && props[0].val == Arr(qs);
    assert DescendProps(env, c, props, []) == (
      match Visit(env, c, Arr(qs), [Key("$and")])
      case Err(e) => Err(e)
      case Ok(x) => Ok([Prop("$and", x)] + []));
    assert Descend(env, c, Obj(props), []) == (
      match Visit(env, c, Arr(qs), [Key("$and")])
      case Err(e) => Err(e)
      case Ok(x) => Ok(Obj([Prop("$and", x)] + [])));
    var r := DescendItems(env, c, qs, [Key("$and")], 0);
    if r.Ok? {
      assert [Prop("$and", Arr(r.value))] + [] == [Prop("$and", Arr(r.value))];
    }
  }

  /** Walking a sequence with one more element walks the prefix the same way. */
  lemma {:induction false} DescendItemsSnoc(env: Env, c: string, xs: seq<Value>, y: Value, stack: Stack, offset: nat)
    requires DescendItems(env, c, xs + [y], stack, offset).Ok?
    ensures DescendItems(env, c, xs, stack, offset).Ok?
    ensures Visit(env, c, y, stack + [Pos(offset + |xs|)]).Ok?
    ensures DescendItems(env, c, xs + [y], stack, offset).value ==
      DescendItems(env, c, xs, stack, offset).value + [Visit(env, c, y, stack + [Pos(offset + |xs|)]).value]
    decreases |xs|
  {
    if xs == [] {
      assert ([] + [y])[1..] == [];
    } else {
      var ys := xs + [y];
      assert ys[0] == xs[0] && ys[1..] == xs[1..] + [y];
      DescendItemsSnoc(env, c, xs[1..], y, stack, offset + 1);
      var h := Visit(env, c, xs[0], stack + [Pos(offset)]).value;
      var t := DescendItems(env, c, xs[1..], stack, offset + 1).value;
      var v := Visit(env, c, y, stack + [Pos(offset + |xs|)]).value;
      assert [h] + (t + [v]) == ([h] + t) + [v];
    }
  }

  /** Extending narrows: the extension fetches exactly the documents of the original fetch that
      also match the new fragment, normalised at its place in the conjunction. */
  lemma ExtendNarrows(env: Env, l: LazySet, q: Value, d: Value)
    requires Fetch(env, Extend(l, q)).Ok?
    ensures Fetch(env, l).Ok?
    ensures Visit(env, l.collection, q, [Key("$and"), Pos(|l.queries|)]).Ok?
    ensures d in Fetch(env, Extend(l, q)).value <==>
      d in Fetch(env, l).value
      && Matches(env.hooks.matches, d, Visit(env, l.collection, q, [Key("$and"), Pos(|l.queries|)]).value)
  {
    var c := l.collection;
    var qs := l.queries;
    var m := env.hooks.matches;
    NormalizeConjunction(env, c, qs + [q]);
    DescendItemsSnoc(env, c, qs, q, [Key("$and")], 0);
    assert [Key("$and")] + [Pos(0 + |qs|)] == [Key("$and"), Pos(|qs|)];
    var xs := DescendItems(env, c, qs, [Key("$and")], 0).value;
    var y := Visit(env, c, q, [Key("$and"), Pos(|qs|)]).value;
    ConjunctionSnoc(m, d, xs, y);
    if qs == [] {
      assert xs == [];
      assert Normalize(env, c, Obj([]), false) == Ok(Obj([]));
      var all := Matches(m, d, Obj([Prop("$and", Arr([]))]));
      assert all;
    } else {
      NormalizeConjunction(env, c, qs);
    }
  }
}
