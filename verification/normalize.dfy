/**
 * Augmented filter normalisation (src/internal/normalizeFilterQuery.ts): a filter may hold,
 * under `$in`/`$nin` at a foreign-key position, sub-queries on the foreign collection; they
 * are replaced by the primary keys of the foreign documents they match. `Find` is the
 * collection-level `find`, which normalises its query before it reaches the store.
 *
 * The deep walk (`mapDeep`, whose source is not part of this model) is read as: the callback
 * sees every proper descendant of the query with its position; an answer replaces that node,
 * no answer (undefined) descends into arrays and plain objects and keeps anything else.
 */
module FilterQuery {
  import opened Values
  import opened Graph
  import opened Store

  /** Everything a read needs: the compiled graph, the collaborators, the store's contents. */
  datatype Env = Env(graph: Graph, hooks: Hooks, db: Db)

  predicate IsMembership(k: string) { k == "$in" || k == "$nin" }

  function LastKey(stack: Stack): Option<string> {
    if stack != [] && stack[|stack| - 1].Key? then Some(stack[|stack| - 1].name) else None
  }

  /** The callback of the deep walk: `Some(x)` replaces the node by `x`, `None` leaves it to the walk. */
  function Customize(env: Env, c: string, v: Value, stack: Stack): Result<Option<Value>>
    decreases Size(v), 4
  {
    var last := LastKey(stack);
    if last == Some("$expr") then Ok(Some(v))
    else if last.Some? && IsMembership(last.value) then
      var key := env.hooks.stackToKey(stack);
      var cfg := ConfigOf(env.graph, c);
      if key !in cfg.foreignKeys then Ok(None)
      else
        var foreign := cfg.foreignKeys[key].collection;
        if IsPlainObject(v) then
          var keys :- PrimaryKeys(env, foreign, v);
          Ok(Some(Arr(keys)))
        else if v.Arr? then
          var items :- ResolveItems(env, foreign, v.items);
          Ok(Some(Arr(items)))
        else Err(InvalidMembership(key, c))
    else Ok(None)
  }

  /** `$in`/`$nin` array operand: literals kept, each sub-query spliced out into its key list. */
  function ResolveItems(env: Env, foreign: string, items: seq<Value>): Result<seq<Value>>
    decreases ItemsSize(items), 4
  {
    if items == [] then Ok([])
    else
      var head :- if IsPlainObject(items[0]) then PrimaryKeys(env, foreign, items[0]) else Ok([items[0]]);
      var rest :- ResolveItems(env, foreign, items[1..]);
      Ok(head + rest)
  }

  /** `foreignCol.find(query).select(foreignCol.key)`. */
  function PrimaryKeys(env: Env, foreign: string, q: Value): Result<seq<Value>>
    decreases Size(q), 3
  {
    var docs :- Find(env, foreign, q);
    Ok(KeyValues(docs, ConfigOf(env.graph, foreign).key))
  }

  function KeyValues(docs: seq<Value>, key: string): (r: seq<Value>)
    ensures |r| == |docs| && forall i | 0 <= i < |docs| :: r[i] == Lookup(docs[i], key)
  {
    if docs == [] then [] else [Lookup(docs[0], key)] + KeyValues(docs[1..], key)
  }

  /** `collection.find(query)`: normalise, then match in the store. */
  function Find(env: Env, c: string, q: Value): Result<seq<Value>>
    decreases Size(q), 2
  {
    var nq :- Normalize(env, c, q, false);
    Ok(RawFind(env.hooks.matches, env.db, c, nq))
  }

  /** `collection.findOne(query)`: the first normalised match, or null. */
  function FindOne(env: Env, c: string, q: Value): Result<Value>
    decreases Size(q), 2
  {
    var docs :- Find(env, c, q);
    Ok(FirstOrNull(docs))
  }

  /** `normalizeFilterQuery(collection, query, {baseQuery})`. */
  function Normalize(env: Env, c: string, q: Value, baseQuery: bool): Result<Value>
    decreases Size(q), 1
  {
    if baseQuery then Ok(q) else Descend(env, c, q, [])
  }

  function Visit(env: Env, c: string, v: Value, stack: Stack): Result<Value>
    decreases Size(v), 5
  {
    var answer :- Customize(env, c, v, stack);
    if answer.Some? then Ok(answer.value) else Descend(env, c, v, stack)
  }

  function Descend(env: Env, c: string, v: Value, stack: Stack): Result<Value>
    decreases Size(v), 0
  {
    match v
    case Obj(props) =>
      var ps :- DescendProps(env, c, props, stack);
      Ok(Obj(ps))
    case Arr(items) =>
      var xs :- DescendItems(env, c, items, stack, 0);
      Ok(Arr(xs))
    case _ => Ok(v)
  }

  function DescendProps(env: Env, c: string, props: seq<Prop>, stack: Stack): Result<seq<Prop>>
    decreases PropsSize(props), 6
  {
    if props == [] then Ok([])
    else
      var x :- Visit(env, c, props[0].val, stack + [Key(props[0].key)]);
      var rest :- DescendProps(env, c, props[1..], stack);
      Ok([Prop(props[0].key, x)] + rest)
  }

  function DescendItems(env: Env, c: string, items: seq<Value>, stack: Stack, offset: nat): Result<seq<Value>>
    decreases ItemsSize(items), 6
  {
    if items == [] then Ok([])
    else
      var x :- Visit(env, c, items[0], stack + [Pos(offset)]);
      var rest :- DescendItems(env, c, items[1..], stack, offset + 1);
      Ok([x] + rest)
  }

  // ---- properties of the rewrite rule -------------------------------------

  /** With `baseQuery` the query is handed on verbatim. */
  lemma BaseQueryVerbatim(env: Env, c: string, q: Value)
    ensures Normalize(env, c, q, true) == Ok(q)
  {
  }

  /** A subtree under `$expr` is kept as it is and not walked into. */
  lemma ExprUntouched(env: Env, c: string, v: Value, stack: Stack)
    requires LastKey(stack) == Some("$expr")
    ensures Visit(env, c, v, stack) == Ok(v)
  {
  }

  /** Positions whose last segment is not `$expr`, `$in` or `$nin` are left to the walk. */
  lemma OtherSegmentsNotRewritten(env: Env, c: string, v: Value, stack: Stack)
    requires LastKey(stack) != Some("$expr")
    requires LastKey(stack).Some? ==> !IsMembership(LastKey(stack).value)
    ensures Customize(env, c, v, stack) == Ok(None)
    ensures Visit(env, c, v, stack) == Descend(env, c, v, stack)
  {
  }

  /** `$in`/`$nin` away from a foreign key is left to the walk. */
  lemma MembershipOffForeignKeyNotRewritten(env: Env, c: string, v: Value, stack: Stack)
    requires LastKey(stack).Some? && IsMembership(LastKey(stack).value)
    requires env.hooks.stackToKey(stack) !in ConfigOf(env.graph, c).foreignKeys
    ensures Customize(env, c, v, stack) == Ok(None)
  {
  }

  /** A sub-query operand at a foreign key becomes the key list of the foreign documents it selects. */
  lemma ForeignSubQueryResolved(env: Env, c: string, v: Value, stack: Stack)
    requires LastKey(stack).Some? && IsMembership(LastKey(stack).value)
    requires env.hooks.stackToKey(stack) in ConfigOf(env.graph, c).foreignKeys
    requires IsPlainObject(v)
    ensures var foreign := ConfigOf(env.graph, c).foreignKeys[env.hooks.stackToKey(stack)].collection;
      var keys := PrimaryKeys(env, foreign, v);
      && (keys.Ok? ==> Customize(env, c, v, stack) == Ok(Some(Arr(keys.value))))
      && (keys.Err? ==> Customize(env, c, v, stack) == Err(keys.error))
  {
  }

  /** Any operand that is neither a sub-query nor an array is refused, naming key and collection. */
  lemma MisshapedOperandRefused(env: Env, c: string, v: Value, stack: Stack)
    requires LastKey(stack).Some? && IsMembership(LastKey(stack).value)
    requires env.hooks.stackToKey(stack) in ConfigOf(env.graph, c).foreignKeys
    requires !v.Obj? && !v.Arr?
    ensures Customize(env, c, v, stack) == Err(InvalidMembership(env.hooks.stackToKey(stack), c))
  {
  }

  lemma {:induction false} KeyValuesMembers(docs: seq<Value>, key: string, k: Value)
    ensures k in KeyValues(docs, key) <==> exists d :: d in docs && Lookup(d, key) == k
  {
    var ks := KeyValues(docs, key);
    if k in ks {
      var i :| 0 <= i < |ks| && ks[i] == k;
      assert docs[i] in docs;
    }
    if exists d :: d in docs && Lookup(d, key) == k {
      var d :| d in docs && Lookup(d, key) == k;
      var i :| 0 <= i < |docs| && docs[i] == d;
      assert ks[i] == k;
    }
  }

  /** The keys a sub-query resolves to are exactly the keys of the foreign documents matching
      the (itself normalised) sub-query. */
  lemma PrimaryKeysMeaning(env: Env, foreign: string, q: Value, k: Value)
    requires PrimaryKeys(env, foreign, q).Ok?
    ensures Normalize(env, foreign, q, false).Ok?
    ensures var nq := Normalize(env, foreign, q, false).value;
      k in PrimaryKeys(env, foreign, q).value <==>
        exists d :: d in DocsOf(env.db, foreign) && Matches(env.hooks.matches, d, nq)
          && Lookup(d, ConfigOf(env.graph, foreign).key) == k
  {
    var nq := Normalize(env, foreign, q, false).value;
    var docs := RawFind(env.hooks.matches, env.db, foreign, nq);
    KeyValuesMembers(docs, ConfigOf(env.graph, foreign).key, k);
  }

  /** The array operand is resolved item by item, results concatenated in item order. */
  lemma {:induction false} ResolveItemsAppend(env: Env, foreign: string, xs: seq<Value>, ys: seq<Value>)
    ensures ResolveItems(env, foreign, xs + ys) ==
      (match ResolveItems(env, foreign, xs)
       case Err(e) => Err(e)
       case Ok(a) => (match ResolveItems(env, foreign, ys)
                      case Err(e) => Err(e)
                      case Ok(b) => Ok(a + b)))
  {
    if xs == [] {
      assert xs + ys == ys;
      var rys := ResolveItems(env, foreign, ys);
      if rys.Ok? {
        assert [] + rys.value == rys.value;
      }
    } else {
      assert (xs + ys)[0] == xs[0];
      assert (xs + ys)[1..] == xs[1..] + ys;
      ResolveItemsAppend(env, foreign, xs[1..], ys);
      var head := if IsPlainObject(xs[0]) then PrimaryKeys(env, foreign, xs[0]) else Ok([xs[0]]);
      var tail := ResolveItems(env, foreign, xs[1..]);
      var rys := ResolveItems(env, foreign, ys);
      if head.Ok? && tail.Ok? && rys.Ok? {
        ConcatAssoc(head.value, tail.value, rys.value);
      }
    }
  }

  lemma ConcatAssoc(a: seq<Value>, b: seq<Value>, c: seq<Value>)
    ensures a + (b + c) == (a + b) + c
  {
  }

  /** One item: a sub-query becomes its key list, a literal stays itself. */
  lemma ResolveOneItem(env: Env, foreign: string, x: Value)
    ensures ResolveItems(env, foreign, [x]) ==
      if IsPlainObject(x) then PrimaryKeys(env, foreign, x) else Ok([x])
  {
    assert [x][1..] == [];
    var head := if IsPlainObject(x) then PrimaryKeys(env, foreign, x) else Ok([x]);
    if head.Ok? {
      assert head.value + [] == head.value;
    }
  }

  /** Every literal item of the operand survives the rewrite. */
  lemma {:induction false} ResolveItemsKeepsLiterals(env: Env, foreign: string, items: seq<Value>, i: nat)
    requires i < |items| && !IsPlainObject(items[i])
    requires ResolveItems(env, foreign, items).Ok?
    ensures items[i] in ResolveItems(env, foreign, items).value
  {
    if i > 0 {
      ResolveItemsKeepsLiterals(env, foreign, items[1..], i - 1);
    }
  }

  /** An all-literal operand comes back equal. */
  lemma {:induction false} LiteralOperandUnchanged(env: Env, foreign: string, items: seq<Value>)
    requires forall i | 0 <= i < |items| :: !IsPlainObject(items[i])
    ensures ResolveItems(env, foreign, items) == Ok(items)
  {
    if items != [] {
      LiteralOperandUnchanged(env, foreign, items[1..]);
      assert [items[0]] + items[1..] == items;
    }
  }

  // ---- a plain query is a fixed point ----------------------------------------

  /** A literal `$in`/`$nin` operand: an array with no sub-query item. */
  predicate LiteralOperand(v: Value) {
    v.Arr? && forall i | 0 <= i < |v.items| :: !IsPlainObject(v.items[i])
  }

  /** A query with no foreign sub-query anywhere: every `$in`/`$nin` operand is literal. */
  predicate PlainQuery(v: Value)
    decreases v
  {
    match v
    case Obj(props) =>
      forall i | 0 <= i < |props| ::
        (IsMembership(props[i].key) ==> LiteralOperand(props[i].val)) && PlainQuery(props[i].val)
    case Arr(items) => forall i | 0 <= i < |items| :: PlainQuery(items[i])
    case _ => true
  }

  /** Normalising a plain query returns it unchanged. */
  lemma PlainQueryUnchanged(env: Env, c: string, q: Value)
    requires PlainQuery(q)
    ensures Normalize(env, c, q, false) == Ok(q)
  {
    DescendPlain(env, c, q, []);
  }

  lemma {:induction false} VisitPlain(env: Env, c: string, v: Value, stack: Stack)
    requires PlainQuery(v)
    requires LastKey(stack).Some? && IsMembership(LastKey(stack).value) ==> LiteralOperand(v)
    ensures Visit(env, c, v, stack) == Ok(v)
    decreases Size(v), 1
  {
    var last := LastKey(stack);
    if last == Some("$expr") {
    } else if last.Some? && IsMembership(last.value) {
      var key := env.hooks.stackToKey(stack);
      if key in ConfigOf(env.graph, c).foreignKeys {
        LiteralOperandUnchanged(env, c, v.items);
        LiteralOperandUnchanged(env, ConfigOf(env.graph, c).foreignKeys[key].collection, v.items);
      } else {
        DescendPlain(env, c, v, stack);
      }
    } else {
      DescendPlain(env, c, v, stack);
    }
  }

  lemma {:induction false} DescendPlain(env: Env, c: string, v: Value, stack: Stack)
    requires PlainQuery(v)
    ensures Descend(env, c, v, stack) == Ok(v)
    decreases Size(v), 0
  {
    match v
    case Obj(props) => PropsPlain(env, c, props, stack);
    case Arr(items) => ItemsPlain(env, c, items, stack, 0);
    case _ =>
  }

  lemma {:induction false} PropsPlain(env: Env, c: string, props: seq<Prop>, stack: Stack)
    requires forall i | 0 <= i < |props| ::
      (IsMembership(props[i].key) ==> LiteralOperand(props[i].val)) && PlainQuery(props[i].val)
    ensures DescendProps(env, c, props, stack) == Ok(props)
    decreases PropsSize(props), 2
  {
    if props != [] {
      VisitPlain(env, c, props[0].val, stack + [Key(props[0].key)]);
      PropsPlain(env, c, props[1..], stack);
      assert [Prop(props[0].key, props[0].val)] + props[1..] == props;
    }
  }

  lemma {:induction false} ItemsPlain(env: Env, c: string, items: seq<Value>, stack: Stack, offset: nat)
    requires forall i | 0 <= i < |items| :: PlainQuery(items[i])
    ensures DescendItems(env, c, items, stack, offset) == Ok(items)
    decreases ItemsSize(items), 2
  {
    if items != [] {
      VisitPlain(env, c, items[0], stack + [Pos(offset)]);
      ItemsPlain(env, c, items[1..], stack, offset + 1);
      assert [items[0]] + items[1..] == items;
    }
  }
}
