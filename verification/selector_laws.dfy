/**
 * What each selector does, stated against the interpreter in `Selectors`
 * (src/internal/selector/definition.ts), and the two loops of the source (the predicate
 * filter's fold and the object selector's field loop) as methods proved equal to the folds
 * the interpreter uses.
 */
module SelectorLaws {
  import opened Values
  import opened Graph
  import opened Store
  import opened FilterQuery
  import opened LazyDocuments
  import opened Selectors

  // ---- Identity -----------------------------------------------------------------

  /** Identity returns an ordinary value unchanged and replaces a lazy set by its fetch. */
  lemma IdentitySelects(env: Env, input: Input, c: string, stack: Stack)
    ensures input.Plain? ==> Select(env, Identity, input, c, stack) == Ok(input.v)
    ensures input.Lazy? && Fetch(env, input.docs).Ok? ==>
      Select(env, Identity, input, c, stack) == Ok(Arr(Fetch(env, input.docs).value))
    ensures input.Lazy? && Fetch(env, input.docs).Err? ==>
      Select(env, Identity, input, c, stack) == Err(Fetch(env, input.docs).error)
  {
  }

  /** Selection from a collection starts from all of its documents, in stored order. */
  lemma InIdentityFetchesAll(env: Env, c: string)
    ensures In(env, Identity, c) == Ok(Arr(DocsOf(env.db, c)))
  {
    var l := LazySet(c, []);
    assert Query(l) == Obj([]);
    assert DescendProps(env, c, [], []) == Ok([]);
    assert Normalize(env, c, Obj([]), false) == Ok(Obj([]));
    FilteredKeepsAll(env.hooks.matches, DocsOf(env.db, c), Obj([]));
  }

  // ---- Map and FlatMap ----------------------------------------------------------

  lemma SelectEachPointwise(env: Env, sel: Selector, items: seq<Value>, c: string, stack: Stack, offset: nat)
    ensures SelectEach(env, sel, items, c, stack, offset).Ok? <==>
      forall i | 0 <= i < |items| :: Select(env, sel, Plain(items[i]), c, stack + [Pos(offset + i)]).Ok?
    ensures SelectEach(env, sel, items, c, stack, offset).Ok? ==>
      && |SelectEach(env, sel, items, c, stack, offset).value| == |items|
      && forall i | 0 <= i < |items| ::
           SelectEach(env, sel, items, c, stack, offset).value[i] ==
             Select(env, sel, Plain(items[i]), c, stack + [Pos(offset + i)]).value
  {
    if SelectEach(env, sel, items, c, stack, offset).Ok? {
      SelectEachValues(env, sel, items, c, stack, offset);
    } else if forall i | 0 <= i < |items| :: Select(env, sel, Plain(items[i]), c, stack + [Pos(offset + i)]).Ok? {
      SelectEachOk(env, sel, items, c, stack, offset);
    }
  }

  lemma {:induction false} SelectEachOk(env: Env, sel: Selector, items: seq<Value>, c: string, stack: Stack, offset: nat)
    requires forall i | 0 <= i < |items| :: Select(env, sel, Plain(items[i]), c, stack + [Pos(offset + i)]).Ok?
    ensures SelectEach(env, sel, items, c, stack, offset).Ok?
    decreases |items|
  {
    if items != [] {
      assert Select(env, sel, Plain(items[0]), c, stack + [Pos(offset + 0)]).Ok?;
      forall k | 0 <= k < |items[1..]|
        ensures Select(env, sel, Plain(items[1..][k]), c, stack + [Pos(offset + 1 + k)]).Ok?
      {
        assert items[1..][k] == items[k + 1] && offset + 1 + k == offset + (k + 1);
      }
      SelectEachOk(env, sel, items[1..], c, stack, offset + 1);
    }
  }

  lemma {:induction false} SelectEachValues(env: Env, sel: Selector, items: seq<Value>, c: string, stack: Stack, offset: nat)
    requires SelectEach(env, sel, items, c, stack, offset).Ok?
    ensures |SelectEach(env, sel, items, c, stack, offset).value| == |items|
    ensures forall i | 0 <= i < |items| ::
      && Select(env, sel, Plain(items[i]), c, stack + [Pos(offset + i)]).Ok?
      && SelectEach(env, sel, items, c, stack, offset).value[i] == Select(env, sel, Plain(items[i]), c, stack + [Pos(offset + i)]).value
    decreases |items|
  {
    if items != [] {
      var r := SelectEach(env, sel, items, c, stack, offset);
      var h := Select(env, sel, Plain(items[0]), c, stack + [Pos(offset)]);
      var t := SelectEach(env, sel, items[1..], c, stack, offset + 1);
      SelectEachValues(env, sel, items[1..], c, stack, offset + 1);
      assert r.value == [h.value] + t.value;
      assert offset + 0 == offset;
      forall i | 0 <= i < |items|
        ensures Select(env, sel, Plain(items[i]), c, stack + [Pos(offset + i)]).Ok?
        ensures r.value[i] == Select(env, sel, Plain(items[i]), c, stack + [Pos(offset + i)]).value
      {
        if i > 0 {
          assert items[1..][i - 1] == items[i] && offset + 1 + (i - 1) == offset + i;
        }
      }
    }
  }

  /** The mapping step over a whole array: positions are counted from 0. */
  lemma SelectEachFromStart(env: Env, sel: Selector, items: seq<Value>, c: string, stack: Stack)
    ensures SelectEach(env, sel, items, c, stack, 0).Ok? <==>
      forall i | 0 <= i < |items| :: Select(env, sel, Plain(items[i]), c, stack + [Pos(i)]).Ok?
    ensures SelectEach(env, sel, items, c, stack, 0).Ok? ==>
      && |SelectEach(env, sel, items, c, stack, 0).value| == |items|
      && forall i | 0 <= i < |items| ::
           SelectEach(env, sel, items, c, stack, 0).value[i] == Select(env, sel, Plain(items[i]), c, stack + [Pos(i)]).value
  {
    SelectEachPointwise(env, sel, items, c, stack, 0);
    var r := SelectEach(env, sel, items, c, stack, 0);
    forall i | 0 <= i < |items|
      ensures Select(env, sel, Plain(items[i]), c, stack + [Pos(i)]) == Select(env, sel, Plain(items[i]), c, stack + [Pos(0 + i)])
    {
    }
  }

  /** Map fetches a lazy set, refuses a non-array, and otherwise yields one result per item,
      item `i` being selected with `i` appended to the stack; it fails exactly when one of
      those selections fails. */
  lemma MapSelectsEachItem(env: Env, next: Selector, input: Input, c: string, stack: Stack)
    ensures Items(env, input, MapOfNonArray).Err? ==>
      Select(env, Map(next), input, c, stack) == Err(Items(env, input, MapOfNonArray).error)
    ensures Items(env, input, MapOfNonArray).Ok? ==>
      var items := Items(env, input, MapOfNonArray).value;
      var r := Select(env, Map(next), input, c, stack);
      && (r.Ok? <==> forall i | 0 <= i < |items| :: Select(env, next, Plain(items[i]), c, stack + [Pos(i)]).Ok?)
      && (r.Ok? ==>
            && r.value.Arr? && |r.value.items| == |items|
            && forall i | 0 <= i < |items| ::
                 r.value.items[i] == Select(env, next, Plain(items[i]), c, stack + [Pos(i)]).value)
  {
    if Items(env, input, MapOfNonArray).Ok? {
      var items := Items(env, input, MapOfNonArray).value;
      var rs := SelectEach(env, next, items, c, stack, 0);
      assert Select(env, Map(next), input, c, stack) == if rs.Err? then Err(rs.error) else Ok(Arr(rs.value));
      SelectEachFromStart(env, next, items, c, stack);
    }
  }

  /** FlatMap on an array or a lazy set is Map followed by a one-level flatten; it refuses
      anything else with its own error. */
  lemma FlatMapFlattensMap(env: Env, next: Selector, input: Input, c: string, stack: Stack)
    ensures input.Lazy? || input.v.Arr? ==>
      Select(env, FlatMap(next), input, c, stack) ==
        match Select(env, Map(next), input, c, stack)
        case Ok(r) => Ok(Arr(Flatten(r.items)))
        case Err(e) => Err(e)
    ensures input.Plain? && !input.v.Arr? ==> Select(env, FlatMap(next), input, c, stack) == Err(FlatMapOfNonArray)
  {
  }

  // ---- Field ------------------------------------------------------------------------

  /** Field on an array or a lazy set is the Map of itself; on a primitive it fails. */
  lemma FieldOnCollections(env: Env, f: string, next: Selector, input: Input, c: string, stack: Stack)
    ensures input.Lazy? || input.v.Arr? ==>
      Select(env, Field(f, next), input, c, stack) == Select(env, Map(Field(f, next)), input, c, stack)
    ensures input.Plain? && !IsObjectLike(input.v) ==>
      Select(env, Field(f, next), input, c, stack) == Err(FieldOfPrimitive(f))
  {
  }

  /** The foreign-key configuration a field selection meets, if any. */
  function ForeignKeyAt(env: Env, c: string, stack: Stack, f: string): Option<ForeignKeyConfig> {
    var key := env.hooks.stackToKey(stack + [Key(f)]);
    var fks := ConfigOf(env.graph, c).foreignKeys;
    if key in fks then Some(fks[key]) else None
  }

  /** Off a foreign key, the field's value is selected further in the same collection. */
  lemma OrdinaryFieldDescends(env: Env, f: string, next: Selector, v: Value, c: string, stack: Stack)
    requires IsObjectLike(v) && !v.Arr?
    requires ForeignKeyAt(env, c, stack, f).None?
    ensures Select(env, Field(f, next), Plain(v), c, stack) ==
      Select(env, next, Plain(Lookup(v, f)), c, stack + [Key(f)])
  {
  }

  /** An undefined optional or a null nullable foreign key is returned as it is: no switch of
      collection and no further selection. */
  lemma ForeignNullishReturned(env: Env, f: string, next: Selector, v: Value, c: string, stack: Stack)
    requires IsObjectLike(v) && !v.Arr?
    requires ForeignKeyAt(env, c, stack, f).Some?
    requires var fk := ForeignKeyAt(env, c, stack, f).value;
      (fk.optional && Lookup(v, f) == Undefined) || (fk.nullable && Lookup(v, f) == Null)
    ensures Select(env, Field(f, next), Plain(v), c, stack) == Ok(Lookup(v, f))
  {
  }

  /** A single foreign key is replaced by the first document of the target collection with that
      primary key (null when none), and selection goes on there from an empty stack. The lookup
      query reaches the store unchanged. */
  lemma ForeignScalarFetched(env: Env, f: string, next: Selector, v: Value, c: string, stack: Stack)
    requires IsObjectLike(v) && !v.Arr?
    requires ForeignKeyAt(env, c, stack, f).Some?
    requires var fk := ForeignKeyAt(env, c, stack, f).value;
      !((fk.optional && Lookup(v, f) == Undefined) || (fk.nullable && Lookup(v, f) == Null))
    requires !Lookup(v, f).Arr? && !Lookup(v, f).Obj?
    requires !IsMembership(ConfigOf(env.graph, ForeignKeyAt(env, c, stack, f).value.collection).key)
    ensures var target := ForeignKeyAt(env, c, stack, f).value.collection;
      var q := ByKey(ConfigOf(env.graph, target).key, Lookup(v, f));
      && FindOne(env, target, q) == Ok(FirstOrNull(RawFind(env.hooks.matches, env.db, target, q)))
      && Select(env, Field(f, next), Plain(v), c, stack) ==
           Select(env, next, Plain(FirstOrNull(RawFind(env.hooks.matches, env.db, target, q))), target, [])
  {
    var target := ForeignKeyAt(env, c, stack, f).value.collection;
    var q := ByKey(ConfigOf(env.graph, target).key, Lookup(v, f));
    assert PlainQuery(q);
    PlainQueryUnchanged(env, target, q);
  }

  /** An array of foreign keys becomes, without any read, the lazy set of the target collection
      with the single fragment `{pk: {$in: keys}}`; selection goes on from an empty stack. */
  lemma ForeignArrayDeferred(env: Env, f: string, next: Selector, v: Value, c: string, stack: Stack)
    requires IsObjectLike(v) && !v.Arr?
    requires ForeignKeyAt(env, c, stack, f).Some?
    requires var fk := ForeignKeyAt(env, c, stack, f).value;
      !((fk.optional && Lookup(v, f) == Undefined) || (fk.nullable && Lookup(v, f) == Null))
    requires Lookup(v, f).Arr?
    ensures var target := ForeignKeyAt(env, c, stack, f).value.collection;
      Select(env, Field(f, next), Plain(v), c, stack) ==
        Select(env, next, Lazy(LazySet(target, [ByKeys(ConfigOf(env.graph, target).key, Lookup(v, f))])), target, [])
  {
  }

  // ---- Index --------------------------------------------------------------------------

  /** Index picks element `i` of an array (undefined past its end), refuses a non-array, and
      continues with `i` appended to the stack. */
  lemma IndexOnValues(env: Env, i: nat, next: Selector, v: Value, c: string, stack: Stack)
    ensures v.Arr? ==>
      Select(env, Index(i, next), Plain(v), c, stack) ==
      Select(env, next, Plain(if i < |v.items| then v.items[i] else Undefined), c, stack + [Pos(i)])
    ensures !v.Arr? ==> Select(env, Index(i, next), Plain(v), c, stack) == Err(IndexOfNonArray(i))
  {
  }

  /** On a lazy set, Index reads only element `i`, with the same outcome as indexing the full fetch. */
  lemma IndexOnLazyAsOnFetch(env: Env, i: nat, next: Selector, l: LazySet, c: string, stack: Stack)
    ensures Fetch(env, l).Err? ==> Select(env, Index(i, next), Lazy(l), c, stack) == Err(Fetch(env, l).error)
    ensures Fetch(env, l).Ok? ==>
      Select(env, Index(i, next), Lazy(l), c, stack) ==
      Select(env, Index(i, next), Plain(Arr(Fetch(env, l).value)), c, stack)
  {
    FetchOneIsIndex(env, l, i);
  }

  // ---- Filter and Predicate ---------------------------------------------------------

  /** Filter only accepts a lazy set, to which it appends its query without reading. */
  lemma FilterExtendsLazy(env: Env, q: Value, next: Selector, input: Input, c: string, stack: Stack)
    ensures input.Lazy? ==>
      Select(env, Filter(q, next), input, c, stack) == Select(env, next, Lazy(Extend(input.docs, q)), c, stack)
    ensures input.Plain? ==> Select(env, Filter(q, next), input, c, stack) == Err(FilterOfNonLazy)
  {
  }

  /** A filtered set fetches no document the unfiltered set would not. */
  lemma FilterNarrows(env: Env, q: Value, l: LazySet, c: string, stack: Stack)
    requires Select(env, Filter(q, Identity), Lazy(l), c, stack).Ok?
    ensures Select(env, Identity, Lazy(l), c, stack).Ok?
    ensures var r := Select(env, Filter(q, Identity), Lazy(l), c, stack).value;
      r.Arr? && forall d | d in r.items :: d in Select(env, Identity, Lazy(l), c, stack).value.items
  {
    var r := Select(env, Filter(q, Identity), Lazy(l), c, stack).value;
    assert Fetch(env, Extend(l, q)).Ok?;
    ExtendNarrows(env, l, q, Null);
    forall d | d in r.items ensures d in Fetch(env, l).value {
      ExtendNarrows(env, l, q, d);
    }
  }

  /** The positions whose item the predicate keeps, in increasing order. */
  function KeptPositions(p: (Value, nat, seq<Value>) -> bool, all: seq<Value>, n: nat): seq<nat>
    requires n <= |all|
  {
    if n == 0 then []
    else KeptPositions(p, all, n - 1) + (if p(all[n - 1], n - 1, all) then [n - 1] else [])
  }

  /** The predicate filter keeps exactly the items whose predicate holds (called with the item,
      its position and the whole array), in their original relative order. */
  lemma KeptExactly(p: (Value, nat, seq<Value>) -> bool, all: seq<Value>, n: nat)
    requires n <= |all|
    ensures var ks := Kept(p, all, n); var ps := KeptPositions(p, all, n);
      && |ks| == |ps|
      && (forall j | 0 <= j < |ps| :: ps[j] < n && ks[j] == all[ps[j]])
      && (forall j, k | 0 <= j < k < |ps| :: ps[j] < ps[k])
      && (forall i | 0 <= i < n :: p(all[i], i, all) <==> i in ps)
  {
    KeptAligned(p, all, n);
    KeptPositionsExact(p, all, n);
  }

  /** Each kept item is the item at its recorded position, and positions are below `n`. */
  lemma {:induction false} KeptAligned(p: (Value, nat, seq<Value>) -> bool, all: seq<Value>, n: nat)
    requires n <= |all|
    ensures |Kept(p, all, n)| == |KeptPositions(p, all, n)|
    ensures forall j | 0 <= j < |KeptPositions(p, all, n)| ::
      KeptPositions(p, all, n)[j] < n && Kept(p, all, n)[j] == all[KeptPositions(p, all, n)[j]]
  {
    if n > 0 {
      KeptAligned(p, all, n - 1);
      var ks, ps := Kept(p, all, n - 1), KeptPositions(p, all, n - 1);
      if p(all[n - 1], n - 1, all) {
        assert Kept(p, all, n) == ks + [all[n - 1]];
        assert KeptPositions(p, all, n) == ps + [n - 1];
      } else {
        assert Kept(p, all, n) == ks && KeptPositions(p, all, n) == ps;
      }
    }
  }

  /** The recorded positions rise strictly and are exactly those where the predicate holds. */
  lemma {:induction false} KeptPositionsExact(p: (Value, nat, seq<Value>) -> bool, all: seq<Value>, n: nat)
    requires n <= |all|
    ensures forall j | 0 <= j < |KeptPositions(p, all, n)| :: KeptPositions(p, all, n)[j] < n
    ensures forall j, k | 0 <= j < k < |KeptPositions(p, all, n)| :: KeptPositions(p, all, n)[j] < KeptPositions(p, all, n)[k]
    ensures forall i | 0 <= i < n :: p(all[i], i, all) <==> i in KeptPositions(p, all, n)
  {
    if n > 0 {
      KeptPositionsExact(p, all, n - 1);
      var ps := KeptPositions(p, all, n - 1);
      if p(all[n - 1], n - 1, all) {
        assert KeptPositions(p, all, n) == ps + [n - 1];
      } else {
        assert KeptPositions(p, all, n) == ps;
      }
    }
  }

  /** Predicate materialises its input like Map, then selects further from the kept items. */
  lemma PredicateSelectsKept(env: Env, p: (Value, nat, seq<Value>) -> bool, next: Selector, input: Input, c: string, stack: Stack)
    ensures Items(env, input, PredicateOfNonArray).Err? ==>
      Select(env, Predicate(p, next), input, c, stack) == Err(Items(env, input, PredicateOfNonArray).error)
    ensures Items(env, input, PredicateOfNonArray).Ok? ==>
      var items := Items(env, input, PredicateOfNonArray).value;
      Select(env, Predicate(p, next), input, c, stack) == Select(env, next, Plain(Arr(Kept(p, items, |items|))), c, stack)
  {
  }

  /** The asynchronous fold of the predicate filter, as a loop over the items. */
  method KeepMatching(p: (Value, nat, seq<Value>) -> bool, all: seq<Value>) returns (kept: seq<Value>)
    ensures kept == Kept(p, all, |all|)
  {
    kept := [];
    var i := 0;
    while i < |all|
      invariant 0 <= i <= |all|
      invariant kept == Kept(p, all, i)
    {
      if p(all[i], i, all) {
        kept := kept + [all[i]];
      }
      i := i + 1;
    }
  }

  // ---- Tuple --------------------------------------------------------------------------

  lemma {:induction false} SelectAllPointwise(env: Env, sels: seq<Selector>, input: Input, c: string, stack: Stack)
    ensures SelectAll(env, sels, input, c, stack).Ok? <==>
      forall i | 0 <= i < |sels| :: Select(env, sels[i], input, c, stack).Ok?
    ensures SelectAll(env, sels, input, c, stack).Ok? ==>
      && |SelectAll(env, sels, input, c, stack).value| == |sels|
      && forall i | 0 <= i < |sels| ::
           SelectAll(env, sels, input, c, stack).value[i] == Select(env, sels[i], input, c, stack).value
    decreases |sels|
  {
    if sels != [] {
      SelectAllPointwise(env, sels[1..], input, c, stack);
      assert forall i | 1 <= i < |sels| :: sels[1..][i - 1] == sels[i];
    }
  }

  /** A tuple yields one result per selector, in declaration order, each from the same input. */
  lemma TupleSelectsEach(env: Env, sels: seq<Selector>, input: Input, c: string, stack: Stack)
    ensures Select(env, Tuple(sels), input, c, stack).Ok? <==>
      forall i | 0 <= i < |sels| :: Select(env, sels[i], input, c, stack).Ok?
    ensures Select(env, Tuple(sels), input, c, stack).Ok? ==>
      var r := Select(env, Tuple(sels), input, c, stack).value;
      && r.Arr? && |r.items| == |sels|
      && forall i | 0 <= i < |sels| :: r.items[i] == Select(env, sels[i], input, c, stack).value
  {
    SelectAllPointwise(env, sels, input, c, stack);
  }

  // ---- Object ------------------------------------------------------------------------

  /** Object on an array or a lazy set is the Map of itself; on a primitive it fails. */
  lemma ObjectOnCollections(env: Env, entries: seq<Entry>, input: Input, c: string, stack: Stack)
    ensures input.Lazy? || input.v.Arr? ==>
      Select(env, Object(entries), input, c, stack) == Select(env, Map(Object(entries)), input, c, stack)
    ensures input.Plain? && !IsObjectLike(input.v) ==>
      Select(env, Object(entries), input, c, stack) == Err(ObjectOfPrimitive)
  {
  }

  /** A key the object selector produces: a listed field other than `*`, or, when `*` is
      listed, a key of the value that no entry lists. */
  predicate ProducedKey(entries: seq<Entry>, v: Value, k: string) {
    || (k in Fields(entries) && k != OtherFields)
    || (OtherFields in Fields(entries) && k in KeysOf(v) && k !in Fields(entries))
  }

  lemma {:induction false} FillOthersKeys(env: Env, keys: seq<string>, listed: set<string>, sel: Selector, v: Value, c: string, stack: Stack, acc: seq<Prop>)
    requires FillOthers(env, keys, listed, sel, v, c, stack, acc).Ok?
    ensures forall k :: k in PropKeys(FillOthers(env, keys, listed, sel, v, c, stack, acc).value) <==>
      k in PropKeys(acc) || (k in keys && k !in listed)
    decreases |keys|
  {
    if keys != [] {
      var acc' := if keys[0] in listed then acc
        else Put(acc, keys[0], Select(env, Field(keys[0], sel), Plain(v), c, stack).value);
      FillOthersKeys(env, keys[1..], listed, sel, v, c, stack, acc');
      assert forall k :: k in keys <==> k == keys[0] || k in keys[1..];
    }
  }

  lemma {:induction false} AssembleKeys(env: Env, entries: seq<Entry>, listed: set<string>, v: Value, c: string, stack: Stack, acc: seq<Prop>)
    requires Assemble(env, entries, listed, v, c, stack, acc).Ok?
    ensures forall k :: k in PropKeys(Assemble(env, entries, listed, v, c, stack, acc).value) <==>
      || k in PropKeys(acc)
      || (k in Fields(entries) && k != OtherFields)
      || (OtherFields in Fields(entries) && k in KeysOf(v) && k !in listed)
    decreases |entries|
  {
    if entries != [] {
      var e := entries[0];
      var acc' := if e.field != OtherFields
        then Put(acc, e.field, Select(env, Field(e.field, e.sel), Plain(v), c, stack).value)
        else FillOthers(env, KeysOf(v), listed, e.sel, v, c, stack, acc).value;
      if e.field == OtherFields {
        FillOthersKeys(env, KeysOf(v), listed, e.sel, v, c, stack, acc);
      }
      AssembleKeys(env, entries[1..], listed, v, c, stack, acc');
      assert forall f :: f in Fields(entries) <==> f == e.field || f in Fields(entries[1..]);
    }
  }

  /** On an object, the result's keys are exactly the listed fields other than `*`, plus, when
      `*` is listed, every key of the value no entry lists. */
  lemma ObjectKeys(env: Env, entries: seq<Entry>, v: Value, c: string, stack: Stack)
    requires IsObjectLike(v) && !v.Arr?
    requires Select(env, Object(entries), Plain(v), c, stack).Ok?
    ensures var r := Select(env, Object(entries), Plain(v), c, stack).value;
      r.Obj? && forall k :: k in KeysOf(r) <==> ProducedKey(entries, v, k)
  {
    var a := Assemble(env, entries, Fields(entries), v, c, stack, []);
    assert a.Ok? && Select(env, Object(entries), Plain(v), c, stack) == Ok(Obj(a.value));
    AssembleKeys(env, entries, Fields(entries), v, c, stack, []);
    assert PropKeys([]) == [];
  }

  /** The selector of the last entry that lists `f`: the one whose result the object keeps. */
  ghost function LastEntry(entries: seq<Entry>, f: string): (sel: Selector)
    requires f in Fields(entries)
    ensures exists i :: 0 <= i < |entries| && entries[i].field == f && entries[i].sel == sel
  {
    if f in Fields(entries[1..]) then
      var sel := LastEntry(entries[1..], f);
      assert exists i :: 0 <= i < |entries[1..]| && entries[1..][i].field == f && entries[1..][i].sel == sel;
      var i :| 0 <= i < |entries[1..]| && entries[1..][i].field == f && entries[1..][i].sel == sel;
      assert entries[i + 1] == entries[1..][i];
      sel
    else
      entries[0].sel
  }

  /** The `*` loop stores, under each unlisted key of `keys`, the field selection of that key;
      every other key keeps its value in `acc`. */
  lemma {:induction false} FillOthersValues(env: Env, keys: seq<string>, listed: set<string>, sel: Selector, v: Value, c: string, stack: Stack, acc: seq<Prop>)
    requires FillOthers(env, keys, listed, sel, v, c, stack, acc).Ok?
    ensures var r := FillOthers(env, keys, listed, sel, v, c, stack, acc).value;
      forall k ::
        && (k in keys && k !in listed ==>
              Select(env, Field(k, sel), Plain(v), c, stack).Ok? &&
              LookupProps(r, k) == Select(env, Field(k, sel), Plain(v), c, stack).value)
        && (!(k in keys && k !in listed) ==> LookupProps(r, k) == LookupProps(acc, k))
    decreases |keys|
  {
    if keys != [] {
      var acc' := if keys[0] in listed then acc
        else Put(acc, keys[0], Select(env, Field(keys[0], sel), Plain(v), c, stack).value);
      FillOthersValues(env, keys[1..], listed, sel, v, c, stack, acc');
      assert forall k :: k in keys <==> k == keys[0] || k in keys[1..];
    }
  }

  /** The entry loop: a field listed by a remaining entry holds the selection of the last entry
      listing it; an unlisted key of the value holds the selection of the last `*` entry; every
      other key keeps its value in `acc`. */
  lemma {:induction false} AssembleValues(env: Env, entries: seq<Entry>, listed: set<string>, v: Value, c: string, stack: Stack, acc: seq<Prop>)
    requires forall f | f in Fields(entries) :: f in listed
    requires Assemble(env, entries, listed, v, c, stack, acc).Ok?
    ensures var r := Assemble(env, entries, listed, v, c, stack, acc).value;
      forall k ::
        && (k in Fields(entries) && k != OtherFields ==>
              Select(env, Field(k, LastEntry(entries, k)), Plain(v), c, stack).Ok? &&
              LookupProps(r, k) == Select(env, Field(k, LastEntry(entries, k)), Plain(v), c, stack).value)
        && (OtherFields in Fields(entries) && k in KeysOf(v) && k !in listed ==>
              Select(env, Field(k, LastEntry(entries, OtherFields)), Plain(v), c, stack).Ok? &&
              LookupProps(r, k) == Select(env, Field(k, LastEntry(entries, OtherFields)), Plain(v), c, stack).value)
        && (!(k in Fields(entries) && k != OtherFields) && !(OtherFields in Fields(entries) && k in KeysOf(v) && k !in listed) ==>
              LookupProps(r, k) == LookupProps(acc, k))
    decreases |entries|
  {
    if entries != [] {
      var e := entries[0];
      assert forall f :: f in Fields(entries) <==> f == e.field || f in Fields(entries[1..]);
      var acc' := if e.field != OtherFields
        then Put(acc, e.field, Select(env, Field(e.field, e.sel), Plain(v), c, stack).value)
        else FillOthers(env, KeysOf(v), listed, e.sel, v, c, stack, acc).value;
      if e.field == OtherFields {
        FillOthersValues(env, KeysOf(v), listed, e.sel, v, c, stack, acc);
      }
      AssembleValues(env, entries[1..], listed, v, c, stack, acc');
    }
  }

  /** On an object, the value the object selector stores under each key it produces: a listed
      field holds the field selection of the last entry listing it, and an unlisted key of the
      value holds the field selection of the last `*` entry. */
  lemma ObjectValues(env: Env, entries: seq<Entry>, v: Value, c: string, stack: Stack)
    requires IsObjectLike(v) && !v.Arr?
    requires Select(env, Object(entries), Plain(v), c, stack).Ok?
    ensures var r := Select(env, Object(entries), Plain(v), c, stack).value;
      && r.Obj?
      && (forall k | k in Fields(entries) && k != OtherFields ::
            Select(env, Field(k, LastEntry(entries, k)), Plain(v), c, stack) == Ok(Lookup(r, k)))
      && (forall k | OtherFields in Fields(entries) && k in KeysOf(v) && k !in Fields(entries) ::
            Select(env, Field(k, LastEntry(entries, OtherFields)), Plain(v), c, stack) == Ok(Lookup(r, k)))
  {
    var a := Assemble(env, entries, Fields(entries), v, c, stack, []);
    assert a.Ok? && Select(env, Object(entries), Plain(v), c, stack) == Ok(Obj(a.value));
    AssembleValues(env, entries, Fields(entries), v, c, stack, []);
  }

  /** The object selector's field loop: each listed field, or for `*` each unlisted key of the
      value, is selected with a field selector and stored into the result. */
  method BuildObject(env: Env, entries: seq<Entry>, v: Value, c: string, stack: Stack) returns (r: Result<seq<Prop>>)
    ensures r == Assemble(env, entries, Fields(entries), v, c, stack, [])
  {
    var listed := Fields(entries);
    var result: seq<Prop> := [];
    var i := 0;
    while i < |entries|
      invariant 0 <= i <= |entries|
      invariant Assemble(env, entries, listed, v, c, stack, []) == Assemble(env, entries[i..], listed, v, c, stack, result)
    {
      var e := entries[i];
      assert entries[i..][0] == e && entries[i..][1..] == entries[i + 1..];
      if e.field != OtherFields {
        var x := Select(env, Field(e.field, e.sel), Plain(v), c, stack);
        if x.Err? {
          return Err(x.error);
        }
        result := Put(result, e.field, x.value);
      } else {
        var filled := FillUnlisted(env, KeysOf(v), listed, e.sel, v, c, stack, result);
        if filled.Err? {
          return Err(filled.error);
        }
        result := filled.value;
      }
      i := i + 1;
    }
    assert entries[i..] == [];
    return Ok(result);
  }

  /** One step of the `*` loop, at position `j` of the keys. */
  lemma FillOthersStep(env: Env, keys: seq<string>, j: nat, listed: set<string>, sel: Selector, v: Value, c: string,
                       stack: Stack, acc: seq<Prop>)
    requires j < |keys|
    ensures keys[j] in listed ==>
      FillOthers(env, keys[j..], listed, sel, v, c, stack, acc) == FillOthers(env, keys[j + 1..], listed, sel, v, c, stack, acc)
    ensures keys[j] !in listed ==>
      var x := Select(env, Field(keys[j], sel), Plain(v), c, stack);
      FillOthers(env, keys[j..], listed, sel, v, c, stack, acc) ==
        if x.Err? then Err(x.error) else FillOthers(env, keys[j + 1..], listed, sel, v, c, stack, Put(acc, keys[j], x.value))
  {
    assert keys[j..][0] == keys[j] && keys[j..][1..] == keys[j + 1..];
  }

  /** The `*` entry's loop: every key of the value that no entry lists is selected and stored. */
  method FillUnlisted(env: Env, keys: seq<string>, listed: set<string>, sel: Selector, v: Value, c: string, stack: Stack,
                      acc: seq<Prop>) returns (r: Result<seq<Prop>>)
    ensures r == FillOthers(env, keys, listed, sel, v, c, stack, acc)
  {
    var result := acc;
    var j := 0;
    while j < |keys|
      invariant 0 <= j <= |keys|
      invariant FillOthers(env, keys, listed, sel, v, c, stack, acc) ==
                FillOthers(env, keys[j..], listed, sel, v, c, stack, result)
    {
      FillOthersStep(env, keys, j, listed, sel, v, c, stack, result);
      if keys[j] !in listed {
        var x := Select(env, Field(keys[j], sel), Plain(v), c, stack);
        if x.Err? {
          return Err(x.error);
        }
        result := Put(result, keys[j], x.value);
      }
      j := j + 1;
    }
    assert keys[j..] == [];
    return Ok(result);
  }

  // ---- the foreign lookup as written ---------------------------------------------------

  /** The by-key query as the source builds it at a foreign key: it reads `primaryKey` from the
      collection handle, which has no such property (the handle's primary key is `key`), so the
      computed property name is the string "undefined". */
  function ByKeyAsWritten(x: Value): Value {
    ByKey("undefined", x)
  }

  /** The store's own matching for a one-field equality filter. */
  function EqualityMatch(d: Value, q: Value): bool {
    q.Obj? && |q.props| == 1 && Lookup(d, q.props[0].key) == q.props[0].val
  }

  const AuthorDoc: Value := Obj([Prop("_id", Id(7))])
  const BookDoc: Value := Obj([Prop("_id", Id(1)), Prop("author", Id(7))])
  const AuthorKey: ForeignKeyConfig := ForeignKeyConfig(["author"], None, "Author", false, false, Verify, Remove)

  /** A book whose `author` foreign key points at an existing author. */
  function ExampleEnv(): Env {
    Env(
      map["Book" := CollectionConfig("_id", map["author" := AuthorKey], map[]),
          "Author" := CollectionConfig("_id", map[], map["Book" := map["author" := AuthorKey]])],
      Hooks(
        (s: Stack) => if |s| == 1 && s[0].Key? then s[0].name else "",
        EqualityMatch,
        (g: Graph, c: string, d: Value, db: Db) => true,
        (g: Graph, db: Db, c: string, q: Value, single: bool, propagate: Option<bool>) => Err(DeleteRejected(c))),
      map["Book" := [BookDoc], "Author" := [AuthorDoc]])
  }

  /** The lookup as written finds no author for a key that exists, where the lookup by the
      target's configured key finds it, and the field selection returns it. */
  lemma AsWrittenLookupMisses()
    ensures FindOne(ExampleEnv(), "Author", ByKeyAsWritten(Id(7))) == Ok(Null)
    ensures FindOne(ExampleEnv(), "Author", ByKey(ConfigOf(ExampleEnv().graph, "Author").key, Id(7))) == Ok(AuthorDoc)
    ensures Select(ExampleEnv(), Field("author", Identity), Plain(BookDoc), "Book", []) == Ok(AuthorDoc)
  {
    ExampleWrongKeyMisses();
    ExampleRightKeyFinds();
    ExampleAuthorSelected();
  }

  lemma ExampleWrongKeyMisses()
    ensures FindOne(ExampleEnv(), "Author", ByKeyAsWritten(Id(7))) == Ok(Null)
  {
    var env := ExampleEnv();
    var wrong := ByKeyAsWritten(Id(7));
    assert PlainQuery(wrong);
    PlainQueryUnchanged(env, "Author", wrong);
    assert Lookup(AuthorDoc, "undefined") == Undefined;
    assert !Matches(env.hooks.matches, AuthorDoc, wrong);
    assert Filtered(env.hooks.matches, [AuthorDoc], wrong) == [];
  }

  lemma ExampleRightKeyFinds()
    ensures FindOne(ExampleEnv(), "Author", ByKey(ConfigOf(ExampleEnv().graph, "Author").key, Id(7))) == Ok(AuthorDoc)
  {
    var env := ExampleEnv();
    var right := ByKey("_id", Id(7));
    assert PlainQuery(right);
    PlainQueryUnchanged(env, "Author", right);
    assert Lookup(AuthorDoc, "_id") == Id(7);
    assert Matches(env.hooks.matches, AuthorDoc, right);
    assert Filtered(env.hooks.matches, [AuthorDoc], right) == [AuthorDoc];
  }

  lemma ExampleAuthorSelected()
    ensures Select(ExampleEnv(), Field("author", Identity), Plain(BookDoc), "Book", []) == Ok(AuthorDoc)
  {
    var env := ExampleEnv();
    ExampleRightKeyFinds();
    assert Lookup(BookDoc, "author") == Id(7);
    assert env.hooks.stackToKey([] + [Key("author")]) == "author";
    ForeignScalarFetched(env, "author", Identity, BookDoc, "Book", []);
  }
}
