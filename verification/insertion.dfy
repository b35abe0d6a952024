/**
 * Nested inserts (src/internal/insertion/insertSafely.ts and normalizeInsertionDoc.ts).
 * A document to insert may embed, at a foreign-key position, a whole document of the target
 * collection instead of its key. That document is inserted first (recursively, with the same
 * rules), and replaced by its primary key. Every key generated on the way is recorded in a
 * `DependencyCollector`, so that a failed insert can be rolled back by deleting them.
 *
 * The deep walk is sequential here, in document order: children of an object in key order,
 * items of an array by position.
 */
module Insertion {
  import opened Values
  import opened Graph
  import opened Store
  import opened Database
  import opened FilterQuery
  import Samples

  /** Recorded primary keys per collection name. */
  type Keys = map<string, seq<Value>>

  function RecordedIn(k: Keys, c: string): seq<Value> {
    if c in k then k[c] else []
  }

  /** The query that deletes the recorded documents of one collection. */
  function Cleanup(g: Graph, c: string, keys: seq<Value>): Write {
    DeleteMany(c, ByKeys(ConfigOf(g, c).key, Arr(keys)))
  }

  /** One cleanup per recorded collection, in recording order. */
  function Cleanups(g: Graph, order: seq<string>, deps: Keys): (ws: seq<Write>)
    requires forall i | 0 <= i < |order| :: order[i] in deps
    ensures |ws| == |order|
    ensures forall i | 0 <= i < |ws| :: ws[i].DeleteMany? && ws[i].collection == order[i]
  {
    seq(|order|, i requires 0 <= i < |order| => Cleanup(g, order[i], deps[order[i]]))
  }

  /** After the cleanups, a recorded collection keeps exactly its documents that match none of
      its recorded keys, and every other collection is as it was. */
  lemma {:induction false} CleanupsRemoveRecorded(g: Graph, m: (Value, Value) -> bool, db: Db, order: seq<string>, deps: Keys)
    requires forall i | 0 <= i < |order| :: order[i] in deps
    requires forall i, j | 0 <= i < j < |order| :: order[i] != order[j]
    ensures var after := Replay(m, db, Cleanups(g, order, deps)).value;
      && (forall c | c !in order :: DocsOf(after, c) == DocsOf(db, c))
      && (forall c, d | c in order ::
            d in DocsOf(after, c) <==>
              d in DocsOf(db, c) && !Matches(m, d, ByKeys(ConfigOf(g, c).key, Arr(deps[c]))))
  {
    var ws := Cleanups(g, order, deps);
    if order != [] {
      var n := |order| - 1;
      var front := order[..n];
      assert forall i | 0 <= i < |front| :: front[i] == order[i];
      CleanupsRemoveRecorded(g, m, db, front, deps);
      assert ws[..n] == Cleanups(g, front, deps);
      ReplaySnoc(m, db, ws, n);
      assert ws[..n + 1] == ws;
      assert order[n] !in front;
      CleanupStep(g, m, db, Replay(m, db, ws[..n]).value, order, deps);
    }
  }

  /** One more cleanup, for a collection not cleaned before, on top of the earlier ones. */
  lemma CleanupStep(g: Graph, m: (Value, Value) -> bool, db: Db, prev: Db, order: seq<string>, deps: Keys)
    requires order != [] && forall i | 0 <= i < |order| :: order[i] in deps
    requires order[|order| - 1] !in order[..|order| - 1]
    requires forall c | c !in order[..|order| - 1] :: DocsOf(prev, c) == DocsOf(db, c)
    requires forall c, d | c in order[..|order| - 1] ::
      d in DocsOf(prev, c) <==> d in DocsOf(db, c) && !Matches(m, d, ByKeys(ConfigOf(g, c).key, Arr(deps[c])))
    ensures var last := order[|order| - 1];
      var after := Perform(m, prev, Cleanup(g, last, deps[last])).value.db;
      && (forall c | c !in order :: DocsOf(after, c) == DocsOf(db, c))
      && (forall c, d | c in order ::
            d in DocsOf(after, c) <==>
              d in DocsOf(db, c) && !Matches(m, d, ByKeys(ConfigOf(g, c).key, Arr(deps[c]))))
  {
    var n := |order| - 1;
    var front, last := order[..n], order[n];
    var q := ByKeys(ConfigOf(g, last).key, Arr(deps[last]));
    DeleteManyRemoves(m, prev, last, q);
    var after := Perform(m, prev, DeleteMany(last, q)).value.db;
    assert forall c | c != last :: DocsOf(after, c) == DocsOf(prev, c);
    forall c | c !in order
      ensures DocsOf(after, c) == DocsOf(db, c)
    {
      assert c != last && c !in front;
    }
    forall c, d | c in order
      ensures d in DocsOf(after, c) <==> d in DocsOf(db, c) && !Matches(m, d, ByKeys(ConfigOf(g, c).key, Arr(deps[c])))
    {
      if c != last {
        var i :| 0 <= i < |order| && order[i] == c;
        assert front[i] == c;
      }
    }
  }

  // ---- the collector -------------------------------------------------------------------

  /** The per-insert table of generated keys. */
  class DependencyCollector {
    var deps: Keys
    /** The recorded collections once each, in first-recorded order (the iteration order of the
        source's string-keyed dictionary). */
    var order: seq<string>

    ghost predicate Valid()
      reads this
    {
      && (forall c :: c in deps <==> c in order)
      && (forall i, j | 0 <= i < j < |order| :: order[i] != order[j])
    }

    constructor ()
      ensures Valid() && deps == map[] && order == []
    {
      deps := map[];
      order := [];
    }

    /** Appends the keys (a single key counts as one) to the collection's list, creating it if absent. */
    method Add(c: string, keys: Value)
      requires Valid()
      modifies this
      ensures Valid()
      ensures deps == old(deps)[c := RecordedIn(old(deps), c) + CastArray(keys)]
      ensures order == if c in old(deps) then old(order) else old(order) + [c]
    {
      if c !in deps {
        deps := deps[c := []];
        order := order + [c];
      }
      deps := deps[c := deps[c] + CastArray(keys)];
    }

    /** Deletes, collection by collection, every recorded document, then forgets them all. A
        failing `deleteMany` ends the cleanup with its error, and nothing is forgotten. */
    method Delete(g: Graph, m: (Value, Value) -> bool, store: DocumentStore) returns (r: Result<()>)
      requires Valid()
      modifies this, store
      ensures Valid()
      ensures forall i | 0 <= i < |old(order)| :: old(order)[i] in old(deps)
      ensures Ran(store.refuses, m, old(store.docs), old(store.log), Cleanups(g, old(order), old(deps)),
                  store.docs, store.log, r)
      ensures r.Ok? ==> deps == map[] && order == []
      ensures r.Err? ==> deps == old(deps) && order == old(order)
      ensures store.nextId == old(store.nextId)
    {
      assert forall i | 0 <= i < |order| :: order[i] in deps;
      r := store.ApplyAll(m, Cleanups(g, order, deps));
      if r.Ok? {
        deps := map[];
        order := [];
      }
    }
  }

  // ---- invariants of the nested insert ------------------------------------------------

  /** Every collection's documents before are a prefix of its documents after. */
  predicate Grows(db0: Db, db1: Db) {
    forall c | c in db0 :: c in db1 && db0[c] <= db1[c]
  }

  /** Every collection's recorded keys before are a prefix of its recorded keys after. */
  predicate KeysGrow(k0: Keys, k1: Keys) {
    forall c | c in k0 :: c in k1 && k0[c] <= k1[c]
  }

  /** A primary-key value is recorded: itself, or, for an array value, each of its items. */
  predicate KeyRecorded(keys: seq<Value>, v: Value) {
    v in keys || (v.Arr? && forall x | x in v.items :: x in keys)
  }

  /** Every document stored since `db0` has its primary key recorded under its collection. */
  predicate Tracked(g: Graph, db0: Db, db1: Db, k: Keys) {
    forall c | c in db1 ::
      forall i | |DocsOf(db0, c)| <= i < |db1[c]| ::
        KeyRecorded(RecordedIn(k, c), Lookup(db1[c][i], ConfigOf(g, c).key))
  }

  /** `w` is the primary key of a document stored in collection `t`. */
  predicate StoredKey(g: Graph, db: Db, t: string, w: Value) {
    t in db && exists i | 0 <= i < |db[t]| :: Lookup(db[t][i], ConfigOf(g, t).key) == w
  }

  /** What the normaliser makes of the value `v` at position `stack` of a document of `c`: a
      plain object at a foreign-key position becomes the recorded key of a document stored in
      the target collection; anything else is `Descended`. */
  ghost predicate Rewritten(g: Graph, h: Hooks, c: string, stack: Stack, v: Value, w: Value, db: Db, k: Keys)
    decreases v, 1
  {
    if v.Obj? && h.stackToKey(stack) in ConfigOf(g, c).foreignKeys then
      var t := ConfigOf(g, c).foreignKeys[h.stackToKey(stack)].collection;
      StoredKey(g, db, t, w) && KeyRecorded(RecordedIn(k, t), w)
    else
      Descended(g, h, c, stack, v, w, db, k)
  }

  /** An object keeps its keys in order with each value `Rewritten` under its key, an array
      keeps its length with each item `Rewritten` at its position, and anything else is kept. */
  ghost predicate Descended(g: Graph, h: Hooks, c: string, stack: Stack, v: Value, w: Value, db: Db, k: Keys)
    decreases v, 0
  {
    if v.Obj? then
      && w.Obj? && |w.props| == |v.props|
      && forall j | 0 <= j < |v.props| ::
           && w.props[j].key == v.props[j].key
           && Rewritten(g, h, c, stack + [Key(v.props[j].key)], v.props[j].val, w.props[j].val, db, k)
    else if v.Arr? then
      && w.Arr? && |w.items| == |v.items|
      && forall j | 0 <= j < |v.items| :: Rewritten(g, h, c, stack + [Pos(j)], v.items[j], w.items[j], db, k)
    else
      w == v
  }

  /** The first `|vals|` values of an object's properties are rewritten into `vals`. */
  ghost predicate PropsRewritten(g: Graph, h: Hooks, c: string, stack: Stack, props: seq<Prop>, vals: seq<Value>, db: Db, k: Keys) {
    && |vals| <= |props|
    && forall j | 0 <= j < |vals| :: Rewritten(g, h, c, stack + [Key(props[j].key)], props[j].val, vals[j], db, k)
  }

  /** The first `|out|` items of an array are rewritten into `out`. */
  ghost predicate ItemsRewritten(g: Graph, h: Hooks, c: string, stack: Stack, items: seq<Value>, out: seq<Value>, db: Db, k: Keys) {
    && |out| <= |items|
    && forall j | 0 <= j < |out| :: Rewritten(g, h, c, stack + [Pos(j)], items[j], out[j], db, k)
  }

  /** One more property value rewritten, after the store and the recorded keys grew. */
  lemma PropsStep(g: Graph, h: Hooks, c: string, stack: Stack, props: seq<Prop>, vals: seq<Value>, x: Value,
                  db1: Db, db2: Db, k1: Keys, k2: Keys)
    requires Grows(db1, db2) && KeysGrow(k1, k2) && |vals| < |props|
    requires PropsRewritten(g, h, c, stack, props, vals, db1, k1)
    requires Rewritten(g, h, c, stack + [Key(props[|vals|].key)], props[|vals|].val, x, db2, k2)
    ensures PropsRewritten(g, h, c, stack, props, vals + [x], db2, k2)
  {
    forall j | 0 <= j < |vals|
      ensures Rewritten(g, h, c, stack + [Key(props[j].key)], props[j].val, vals[j], db2, k2)
    {
      RewrittenGrows(g, h, c, stack + [Key(props[j].key)], props[j].val, vals[j], db1, db2, k1, k2);
    }
  }

  /** One more item rewritten, after the store and the recorded keys grew. */
  lemma ItemsStep(g: Graph, h: Hooks, c: string, stack: Stack, items: seq<Value>, out: seq<Value>, x: Value,
                  db1: Db, db2: Db, k1: Keys, k2: Keys)
    requires Grows(db1, db2) && KeysGrow(k1, k2) && |out| < |items|
    requires ItemsRewritten(g, h, c, stack, items, out, db1, k1)
    requires Rewritten(g, h, c, stack + [Pos(|out|)], items[|out|], x, db2, k2)
    ensures ItemsRewritten(g, h, c, stack, items, out + [x], db2, k2)
  {
    forall j | 0 <= j < |out|
      ensures Rewritten(g, h, c, stack + [Pos(j)], items[j], out[j], db2, k2)
    {
      RewrittenGrows(g, h, c, stack + [Pos(j)], items[j], out[j], db1, db2, k1, k2);
    }
  }

  /** Every property value rewritten: the object with those values is `Descended`. */
  lemma PropsDescended(g: Graph, h: Hooks, c: string, stack: Stack, v: Value, vals: seq<Value>, db: Db, k: Keys)
    requires v.Obj? && |vals| == |v.props|
    requires PropsRewritten(g, h, c, stack, v.props, vals, db, k)
    ensures Descended(g, h, c, stack, v, Obj(WithValues(v.props, vals)), db, k)
  {
  }

  /** Every item rewritten: the array of them is `Descended`. */
  lemma ItemsDescended(g: Graph, h: Hooks, c: string, stack: Stack, v: Value, out: seq<Value>, db: Db, k: Keys)
    requires v.Arr? && |out| == |v.items|
    requires ItemsRewritten(g, h, c, stack, v.items, out, db, k)
    ensures Descended(g, h, c, stack, v, Arr(out), db, k)
  {
  }

  /** Storing and recording more keeps every rewrite valid. */
  lemma {:induction false} RewrittenGrows(g: Graph, h: Hooks, c: string, stack: Stack, v: Value, w: Value,
                                          db0: Db, db1: Db, k0: Keys, k1: Keys)
    requires Grows(db0, db1) && KeysGrow(k0, k1)
    requires Rewritten(g, h, c, stack, v, w, db0, k0)
    ensures Rewritten(g, h, c, stack, v, w, db1, k1)
    decreases v, 1
  {
    if v.Obj? && h.stackToKey(stack) in ConfigOf(g, c).foreignKeys {
      var t := ConfigOf(g, c).foreignKeys[h.stackToKey(stack)].collection;
      var i :| 0 <= i < |db0[t]| && Lookup(db0[t][i], ConfigOf(g, t).key) == w;
      assert db1[t][i] == db0[t][i];
      assert RecordedIn(k0, t) <= RecordedIn(k1, t);
      KeyRecordedGrows(RecordedIn(k0, t), RecordedIn(k1, t), w);
    } else {
      DescendedGrows(g, h, c, stack, v, w, db0, db1, k0, k1);
    }
  }

  lemma {:induction false} DescendedGrows(g: Graph, h: Hooks, c: string, stack: Stack, v: Value, w: Value,
                                          db0: Db, db1: Db, k0: Keys, k1: Keys)
    requires Grows(db0, db1) && KeysGrow(k0, k1)
    requires Descended(g, h, c, stack, v, w, db0, k0)
    ensures Descended(g, h, c, stack, v, w, db1, k1)
    decreases v, 0
  {
    if v.Obj? {
      forall j | 0 <= j < |v.props|
        ensures Rewritten(g, h, c, stack + [Key(v.props[j].key)], v.props[j].val, w.props[j].val, db1, k1)
      {
        RewrittenGrows(g, h, c, stack + [Key(v.props[j].key)], v.props[j].val, w.props[j].val, db0, db1, k0, k1);
      }
    } else if v.Arr? {
      forall j | 0 <= j < |v.items|
        ensures Rewritten(g, h, c, stack + [Pos(j)], v.items[j], w.items[j], db1, k1)
      {
        RewrittenGrows(g, h, c, stack + [Pos(j)], v.items[j], w.items[j], db0, db1, k0, k1);
      }
    }
  }

  /** Appending to one collection keeps every collection's documents as a prefix. */
  lemma AppendGrows(db: Db, c: string, added: seq<Value>)
    ensures Grows(db, db[c := DocsOf(db, c) + added])
  {
    var db1 := db[c := DocsOf(db, c) + added];
    forall d | d in db ensures d in db1 && db[d] <= db1[d] {
      if d == c {
        assert db[d] == DocsOf(db, c);
      }
    }
  }

  /** Recording keys for one collection keeps every collection's recorded keys as a prefix. */
  lemma RecordGrows(k: Keys, c: string, keys: Value)
    ensures KeysGrow(k, k[c := RecordedIn(k, c) + CastArray(keys)])
  {
    var k1 := k[c := RecordedIn(k, c) + CastArray(keys)];
    forall d | d in k ensures d in k1 && k[d] <= k1[d] {
      if d == c {
        assert k[d] == RecordedIn(k, c);
      }
    }
  }

  lemma KeyRecordedGrows(keys0: seq<Value>, keys1: seq<Value>, v: Value)
    requires keys0 <= keys1 && KeyRecorded(keys0, v)
    ensures KeyRecorded(keys1, v)
  {
    assert forall x | x in keys0 :: x in keys1;
  }

  /** Two steps that each keep every new document's key recorded compose into one. */
  lemma Compose(g: Graph, db0: Db, db1: Db, db2: Db, k0: Keys, k1: Keys, k2: Keys)
    requires Grows(db0, db1) && Grows(db1, db2) && KeysGrow(k0, k1) && KeysGrow(k1, k2)
    requires Tracked(g, db0, db1, k1) && Tracked(g, db1, db2, k2)
    ensures Grows(db0, db2) && KeysGrow(k0, k2) && Tracked(g, db0, db2, k2)
  {
    forall c | c in db2
      ensures forall i | |DocsOf(db0, c)| <= i < |db2[c]| ::
        KeyRecorded(RecordedIn(k2, c), Lookup(db2[c][i], ConfigOf(g, c).key))
    {
      forall i | |DocsOf(db0, c)| <= i < |db2[c]|
        ensures KeyRecorded(RecordedIn(k2, c), Lookup(db2[c][i], ConfigOf(g, c).key))
      {
        if c in db1 && i < |db1[c]| {
          assert db2[c][i] == db1[c][i];
          assert RecordedIn(k1, c) <= RecordedIn(k2, c);
          KeyRecordedGrows(RecordedIn(k1, c), RecordedIn(k2, c), Lookup(db1[c][i], ConfigOf(g, c).key));
        }
      }
    }
  }

  /** The read-back of a fresh batch is the batch, in order. */
  lemma ReadBackOfFreshBatch(existing: seq<Value>, stored: seq<Value>)
    requires FreshBatch(existing, stored)
    ensures WithIdIn(existing + stored, IdsOf(stored)) == stored
  {
    var ids := IdsOf(stored);
    forall i | 0 <= i < |existing| ensures IdOf(existing[i]) !in ids {
      if IdOf(existing[i]) in ids {
        var j :| 0 <= j < |ids| && ids[j] == IdOf(existing[i]);
        assert HasId(existing, IdOf(stored[j]));
      }
    }
    forall i | 0 <= i < |stored| ensures IdOf(stored[i]) in ids {
      assert ids[i] == IdOf(stored[i]);
    }
    WithIdInTail(existing, stored, ids);
  }

  // ---- what a rollback achieves -------------------------------------------------------

  /** A key value listed in `xs`: itself, or, for a non-empty array value, its first item. */
  predicate KeyListed(v: Value, xs: seq<Value>) {
    v in xs || (v.Arr? && |v.items| > 0 && v.items[0] in xs)
  }

  /** What the rollback relies on from the store's matcher: a document whose key value is listed
      matches `{key: {$in: xs}}`. */
  ghost predicate MatchesListedKeys(m: (Value, Value) -> bool) {
    forall d, k, xs | KeyListed(Lookup(d, k), xs) :: m(d, ByKeys(k, Arr(xs)))
  }

  /** No document stored since `db0` has the empty array as its primary-key value (such a key
      records nothing, and `$in` cannot match it). */
  predicate NoEmptyKeys(g: Graph, db0: Db, db1: Db) {
    forall c | c in db1 ::
      forall i | |DocsOf(db0, c)| <= i < |db1[c]| :: Lookup(db1[c][i], ConfigOf(g, c).key) != Arr([])
  }

  /** Rolling back a nested insert leaves no document that was not in the store before it: every
      document stored since `db0` has its key recorded, so its collection's cleanup deletes it. */
  lemma RollbackRemovesInserted(g: Graph, m: (Value, Value) -> bool, db0: Db, mid: Db, k: Keys, order: seq<string>)
    requires Grows(db0, mid) && Tracked(g, db0, mid, k)
    requires forall i | 0 <= i < |order| :: order[i] in k
    requires forall c | c in k :: c in order
    requires forall i, j | 0 <= i < j < |order| :: order[i] != order[j]
    requires MatchesListedKeys(m) && NoEmptyKeys(g, db0, mid)
    ensures forall c, d | d in DocsOf(Replay(m, mid, Cleanups(g, order, k)).value, c) :: d in DocsOf(db0, c)
  {
    CleanupsRemoveRecorded(g, m, mid, order, k);
    var after := Replay(m, mid, Cleanups(g, order, k)).value;
    forall c, d | d in DocsOf(after, c)
      ensures d in DocsOf(db0, c)
    {
      var key := ConfigOf(g, c).key;
      assert d in DocsOf(mid, c);
      var i :| 0 <= i < |DocsOf(mid, c)| && DocsOf(mid, c)[i] == d;
      if i >= |DocsOf(db0, c)| {
        var xs := RecordedIn(k, c);
        assert KeyRecorded(xs, Lookup(d, key));
        assert KeyListed(Lookup(d, key), xs);
        assert false;
      }
    }
  }

  // ---- insertSafely and normalizeInsertionDoc ----------------------------------------

  /** `collection.from(documents).select(key)` on read-back documents: the key field of the
      document, or of each document of an array. */
  function SelectKey(documents: Value, key: string): (r: Result<Value>)
    ensures documents.Obj? ==> r == Ok(Lookup(documents, key))
    ensures documents.Arr? && (forall i | 0 <= i < |documents.items| :: documents.items[i].Obj?) ==>
      r == Ok(Arr(KeyValues(documents.items, key)))
  {
    if documents.Arr? then
      if forall i | 0 <= i < |documents.items| :: IsObjectLike(documents.items[i])
      then Ok(Arr(KeyValues(documents.items, key)))
      else Err(FieldOfPrimitive(key))
    else if IsObjectLike(documents) then Ok(Lookup(documents, key))
    else Err(FieldOfPrimitive(key))
  }

  /** The shape the walk keeps: same keys in the same order for an object, same length for an
      array, anything else unchanged. */
  predicate SameShape(v: Value, w: Value) {
    if v.Obj? then w.Obj? && PropKeys(w.props) == PropKeys(v.props)
    else if v.Arr? then w.Arr? && |w.items| == |v.items|
    else w == v
  }

  /** The insert itself and the read-back (`insertOne` then `findOne` by the returned id, or
      `insertMany` then `find` by the returned ids): the answer is what was appended. When a
      batch fails part-way, `stored` is the read-back of the documents it did store, by the
      ids the failure reports; otherwise it is the answer. */
  method InsertAndReadBack(store: DocumentStore, c: string, normalized: Value)
    returns (r: Result<Value>, stored: Value, ghost added: seq<Value>)
    modifies store
    ensures store.log == old(store.log)
    ensures r.Ok? || added != [] ==> store.docs == old(store.docs)[c := DocsOf(old(store.docs), c) + added]
    ensures r.Err? && added == [] ==> store.docs == old(store.docs)
    ensures forall i | 0 <= i < |added| :: added[i].Obj?
    ensures r.Ok? ==> stored == r.value
    ensures r.Err? ==> stored == Arr(added)
    ensures !normalized.Arr? ==> if r.Ok? then added == [r.value] else added == []
    ensures !normalized.Arr? && r.Ok? ==> normalized.Obj? && added == [Stamped(normalized, old(store.nextId))]
    ensures normalized.Arr? && (forall i | 0 <= i < |normalized.items| :: normalized.items[i].Obj?) ==>
      var batch := StampAll(normalized.items, old(store.nextId));
      && added == FreshPrefix(DocsOf(old(store.docs), c), batch)
      && store.docs == old(store.docs)[c := DocsOf(old(store.docs), c) + added]
      && r == if FreshBatch(DocsOf(old(store.docs), c), batch) then Ok(Arr(added)) else Err(DuplicateId(c))
    ensures r.Ok? && normalized.Arr? ==> r == Ok(Arr(added)) && |added| == |normalized.items|
  {
    ghost var n0 := store.nextId;
    ghost var existing := DocsOf(store.docs, c);
    added := [];
    stored := Arr([]);
    if !normalized.Arr? {
      var id := store.InsertOne(c, normalized);
      if id.Err? {
        return Err(id.error), stored, added;
      }
      ghost var doc := Stamped(normalized, n0);
      StampedId(normalized, n0);
      FirstByIdOfAppended(existing, doc);
      assert DocsOf(store.docs, c) == existing + [doc];
      added := [doc];
      r := Ok(FindById(store.docs, c, id.value));
      stored := r.value;
    } else {
      var ids, written := store.InsertMany(c, normalized.items);
      if ids.Err? && written == [] {
        if forall i | 0 <= i < |normalized.items| :: normalized.items[i].Obj? {
          EmptyPrefixKeepsDocs(old(store.docs), c, StampAll(normalized.items, n0));
        }
        return Err(ids.error), stored, added;
      }
      ghost var batch := StampAll(normalized.items, n0);
      ghost var kept := FreshPrefix(existing, batch);
      FreshPrefixFresh(existing, batch);
      FreshPrefixWhole(existing, batch);
      ReadBackOfFreshBatch(existing, kept);
      assert DocsOf(store.docs, c) == existing + kept;
      added := kept;
      var back := FindByIds(store.docs, c, written);
      if ids.Err? {
        return Err(ids.error), Arr(back), added;
      }
      r := Ok(Arr(back));
      stored := r.value;
    }
  }

  /** A batch that stores nothing and fails clashes with a document already stored, so its
      collection exists and is left as it was. */
  lemma EmptyPrefixKeepsDocs(db: Db, c: string, batch: seq<Value>)
    requires FreshPrefix(DocsOf(db, c), batch) == [] && !FreshBatch(DocsOf(db, c), batch)
    ensures db[c := DocsOf(db, c) + []] == db
  {
    assert DocsOf(db, c) != [];
    assert DocsOf(db, c) + [] == db[c];
  }

  /** Recording the selected keys of the appended documents tracks every one of them. */
  lemma RecordingTracks(g: Graph, db: Db, c: string, added: seq<Value>, documents: Value, keys: Value, k: Keys)
    requires forall i | 0 <= i < |added| :: added[i].Obj?
    requires documents == Arr(added) || [documents] == added
    requires SelectKey(documents, ConfigOf(g, c).key) == Ok(keys)
    ensures Tracked(g, db, db[c := DocsOf(db, c) + added], k[c := RecordedIn(k, c) + CastArray(keys)])
  {
    var key := ConfigOf(g, c).key;
    forall j | 0 <= j < |added|
      ensures KeyRecorded(RecordedIn(k, c) + CastArray(keys), Lookup(added[j], key))
    {
      SelectedKeyAt(RecordedIn(k, c), added, documents, key, keys, j);
    }
    TrackedAppend(g, db, c, added, k, CastArray(keys));
  }

  /** Appending documents whose keys are all among the newly recorded ones keeps them tracked. */
  lemma TrackedAppend(g: Graph, db: Db, c: string, added: seq<Value>, k: Keys, more: seq<Value>)
    requires forall j | 0 <= j < |added| :: KeyRecorded(RecordedIn(k, c) + more, Lookup(added[j], ConfigOf(g, c).key))
    ensures Tracked(g, db, db[c := DocsOf(db, c) + added], k[c := RecordedIn(k, c) + more])
  {
    var db2 := db[c := DocsOf(db, c) + added];
    var k2 := k[c := RecordedIn(k, c) + more];
    assert RecordedIn(k2, c) == RecordedIn(k, c) + more;
    forall d | d in db2
      ensures forall i | |DocsOf(db, d)| <= i < |db2[d]| :: KeyRecorded(RecordedIn(k2, d), Lookup(db2[d][i], ConfigOf(g, d).key))
    {
      if d == c {
        forall i | |DocsOf(db, c)| <= i < |db2[c]|
          ensures KeyRecorded(RecordedIn(k2, c), Lookup(db2[c][i], ConfigOf(g, c).key))
        {
          assert db2[c][i] == added[i - |DocsOf(db, c)|];
        }
      } else {
        assert db2[d] == DocsOf(db, d);
      }
    }
  }

  /** The key selected from the read-back documents lists the key of each of them. */
  lemma SelectedKeyAt(prev: seq<Value>, added: seq<Value>, documents: Value, key: string, keys: Value, j: nat)
    requires forall i | 0 <= i < |added| :: added[i].Obj?
    requires documents == Arr(added) || [documents] == added
    requires SelectKey(documents, key) == Ok(keys) && j < |added|
    ensures KeyRecorded(prev + CastArray(keys), Lookup(added[j], key))
  {
    var all := prev + CastArray(keys);
    if documents == Arr(added) {
      assert CastArray(keys) == KeyValues(added, key);
      assert all[|prev| + j] == Lookup(added[j], key);
    } else {
      assert documents == added[0] && j == 0;
      assert keys == Lookup(documents, key);
      forall x | x in CastArray(keys) ensures x in all {
        var i :| 0 <= i < |CastArray(keys)| && CastArray(keys)[i] == x;
        assert all[|prev| + i] == x;
      }
    }
  }

  /** The part of `insertSafely` after verification: insert, read back, record the new keys,
      then report an unacknowledged write (whose keys are recorded all the same). The keys of
      the documents a failing batch did store are recorded before its error is passed on. */
  method InsertVerified(g: Graph, store: DocumentStore, deps: DependencyCollector, c: string, normalized: Value)
    returns (r: Result<Value>)
    requires deps.Valid()
    modifies store, deps
    ensures deps.Valid()
    ensures store.log == old(store.log)
    ensures Grows(old(store.docs), store.docs) && KeysGrow(old(deps.deps), deps.deps)
    ensures Tracked(g, old(store.docs), store.docs, deps.deps)
    ensures r.Ok? ==> store.acknowledged
    ensures r.Ok? && !normalized.Arr? ==>
      && c in store.docs && |store.docs[c]| == |DocsOf(old(store.docs), c)| + 1
      && r.value.Obj? && r.value == store.docs[c][|store.docs[c]| - 1]
    ensures r.Ok? && normalized.Arr? ==>
      && r.value.Arr? && c in store.docs && |store.docs[c]| == |DocsOf(old(store.docs), c)| + |normalized.items|
      && r.value.items == store.docs[c][|DocsOf(old(store.docs), c)|..]
  {
    var documents, stored, added := InsertAndReadBack(store, c, normalized);
    if documents.Err? && stored == Arr([]) {
      return Err(documents.error);
    }
    // read-back documents are documents, so selecting their key cannot fail
    assert stored == Arr(added) || [stored] == added;
    if stored != Arr(added) {
      assert stored == added[0];
    }
    var keys := SelectKey(stored, ConfigOf(g, c).key).value;
    deps.Add(c, keys);
    AppendGrows(old(store.docs), c, added);
    RecordGrows(old(deps.deps), c, keys);
    RecordingTracks(g, old(store.docs), c, added, stored, keys, old(deps.deps));
    if documents.Err? {
      return Err(documents.error);
    }
    if !store.acknowledged {
      return Err(Unacknowledged(c));
    }
    assert store.docs[c] == DocsOf(old(store.docs), c) + added;
    if normalized.Arr? {
      assert store.docs[c][|DocsOf(old(store.docs), c)|..] == added;
    } else {
      assert added[0] == documents.value && added[0].Obj?;
    }
    return Ok(documents.value);
  }

  /** The same step as written: a failing insert throws before the keys are recorded, so the
      documents a batch stored before its failing one are in no collector entry. */
  method InsertVerifiedAsWritten(g: Graph, store: DocumentStore, deps: DependencyCollector, c: string, normalized: Value)
    returns (r: Result<Value>)
    requires deps.Valid()
    modifies store, deps
    ensures deps.Valid()
    ensures store.log == old(store.log)
    ensures normalized.Arr? && (forall i | 0 <= i < |normalized.items| :: normalized.items[i].Obj?) ==>
      var existing, batch := DocsOf(old(store.docs), c), StampAll(normalized.items, old(store.nextId));
      !FreshBatch(existing, batch) ==>
        && r == Err(DuplicateId(c)) && deps.deps == old(deps.deps)
        && store.docs == old(store.docs)[c := existing + FreshPrefix(existing, batch)]
  {
    var documents, stored, added := InsertAndReadBack(store, c, normalized);
    if documents.Err? {
      return Err(documents.error);
    }
    if !normalized.Arr? {
      assert added[0] == documents.value;
    }
    var keys := SelectKey(documents.value, ConfigOf(g, c).key).value;
    deps.Add(c, keys);
    if !store.acknowledged {
      return Err(Unacknowledged(c));
    }
    return Ok(documents.value);
  }

  /** A stored Book: key 1, pointing at the Author stored for it with the generated id 0. */
  const BookOne: Value := Obj([Prop("_id", Num(1)), Prop("author", Id(0))])

  /** Inserting the batch `[{_id: 1, author: {..}}, {_id: 1}]` into an empty Book collection, as
      written: the nested Author is stored and recorded, the batch stores the first Book and
      fails on the second, and nothing records the first Book. It is untracked, and the
      cleanups of what was recorded leave it in place. */
  lemma BatchPrefixUnrecorded(m: (Value, Value) -> bool)
    ensures var batch := StampAll([BookOne, Obj([Prop("_id", Num(1))])], 0);
      && !FreshBatch([], batch) && FreshPrefix([], batch) == [BookOne]
      && var db := map["Author" := [Obj([Prop("_id", Id(0))])], "Book" := [BookOne]];
         var k := map["Author" := [Id(0)]];
         && !Tracked(Samples.SampleGraph, map[], db, k)
         && BookOne in DocsOf(Replay(m, db, Cleanups(Samples.SampleGraph, ["Author"], k)).value, "Book")
  {
    var batch := StampAll([BookOne, Obj([Prop("_id", Num(1))])], 0);
    assert batch == [BookOne, Obj([Prop("_id", Num(1))])];
    assert IdOf(batch[0]) == IdOf(batch[1]) == Num(1);
    assert FreshPrefix([], batch) == [BookOne] by {
      assert ([] + [batch[0]])[0] == batch[0];
      assert HasId([] + [batch[0]], IdOf(batch[1..][0]));
    }
    var db := map["Author" := [Obj([Prop("_id", Id(0))])], "Book" := [BookOne]];
    var k := map["Author" := [Id(0)]];
    assert ConfigOf(Samples.SampleGraph, "Book").key == "_id";
    assert !KeyRecorded(RecordedIn(k, "Book"), Lookup(db["Book"][0], "_id"));
    CleanupsRemoveRecorded(Samples.SampleGraph, m, db, ["Author"], k);
  }

  /** The result of inserting `doc` into `c` is what now ends the collection, which grew: for a
      single document the stored document, for an array the stored documents in order. */
  predicate InsertedAtEnd(db0: Db, db1: Db, c: string, doc: Value, rv: Value) {
    && c in db1
    && (!doc.Arr? ==>
          && |db1[c]| > |DocsOf(db0, c)|
          && rv.Obj? && rv == db1[c][|db1[c]| - 1])
    && (doc.Arr? ==>
          && rv.Arr? && |rv.items| == |doc.items| <= |db1[c]|
          && rv.items == db1[c][|db1[c]| - |doc.items|..])
  }

  /** Where the inserted documents sit, seen from before normalisation: the normalised
      document has the shape of the original, and normalisation only appended documents. */
  lemma InsertedPlacement(db0: Db, db1: Db, db2: Db, c: string, doc: Value, normalized: Value, rv: Value)
    requires Grows(db0, db1) && SameShape(doc, normalized)
    requires !normalized.Arr? ==>
      && c in db2 && |db2[c]| == |DocsOf(db1, c)| + 1
      && rv.Obj? && rv == db2[c][|db2[c]| - 1]
    requires normalized.Arr? ==>
      && rv.Arr? && c in db2 && |db2[c]| == |DocsOf(db1, c)| + |normalized.items|
      && rv.items == db2[c][|DocsOf(db1, c)|..]
    ensures InsertedAtEnd(db0, db2, c, doc, rv)
  {
    assert |DocsOf(db0, c)| <= |DocsOf(db1, c)| by {
      assert DocsOf(db0, c) <= DocsOf(db1, c);
    }
    if doc.Arr? {
      assert normalized.Arr? && |normalized.items| == |doc.items|;
      assert |db2[c]| - |doc.items| == |DocsOf(db1, c)|;
    }
  }

  /** `insertSafely`: normalise (inserting embedded foreign documents), verify, then insert.
      `normalized` is the normaliser's answer and `mid` the documents once it has run: the
      dangling-key check sees `mid`, and nothing is inserted at this level unless it passes. */
  method InsertSafely(g: Graph, h: Hooks, store: DocumentStore, deps: DependencyCollector,
                      c: string, doc: Value, baseDocument: bool)
    returns (r: Result<Value>, ghost normalized: Result<Value>, ghost mid: Db)
    requires deps.Valid()
    modifies store, deps
    ensures deps.Valid()
    ensures store.log == old(store.log)
    ensures Grows(old(store.docs), store.docs) && KeysGrow(old(deps.deps), deps.deps)
    ensures Tracked(g, old(store.docs), store.docs, deps.deps)
    ensures Grows(old(store.docs), mid) && Grows(mid, store.docs)
    ensures baseDocument ==> normalized == Ok(doc) && mid == old(store.docs)
    ensures normalized.Ok? ==> SameShape(doc, normalized.value)
    ensures normalized.Ok? && !baseDocument ==> Descended(g, h, c, [], doc, normalized.value, store.docs, deps.deps)
    ensures normalized.Err? ==> r == Err(normalized.error) && store.docs == mid
    ensures normalized.Ok? && !h.verify(g, c, normalized.value, mid) ==>
      r == Err(VerificationFailed(c)) && store.docs == mid
    ensures r.Ok? ==> normalized.Ok? && h.verify(g, c, normalized.value, mid)
    ensures r.Ok? ==> store.acknowledged
    ensures r.Ok? ==> InsertedAtEnd(old(store.docs), store.docs, c, doc, r.value)
    decreases Size(doc), 3
  {
    var answer := NormalizeInsertionDoc(g, h, store, deps, c, doc, baseDocument);
    normalized, mid := answer, store.docs;
    if answer.Err? {
      return Err(answer.error), normalized, mid;
    }
    var nd := answer.value;
    if !h.verify(g, c, nd, store.docs) {
      return Err(VerificationFailed(c)), normalized, mid;
    }
    ghost var db1, k1 := store.docs, deps.deps;
    r := InsertVerified(g, store, deps, c, nd);
    Compose(g, old(store.docs), db1, store.docs, old(deps.deps), k1, deps.deps);
    if !baseDocument {
      DescendedGrows(g, h, c, [], doc, nd, db1, store.docs, k1, deps.deps);
    }
    if r.Ok? {
      InsertedPlacement(old(store.docs), db1, store.docs, c, doc, nd, r.value);
    }
  }

  /** `normalizeInsertionDoc`: with `baseDocument` the document is taken as it is; otherwise
      every embedded foreign document is inserted and replaced by its key. */
  method NormalizeInsertionDoc(g: Graph, h: Hooks, store: DocumentStore, deps: DependencyCollector,
                               c: string, doc: Value, baseDocument: bool) returns (r: Result<Value>)
    requires deps.Valid()
    modifies store, deps
    ensures deps.Valid()
    ensures store.log == old(store.log)
    ensures Grows(old(store.docs), store.docs) && KeysGrow(old(deps.deps), deps.deps)
    ensures Tracked(g, old(store.docs), store.docs, deps.deps)
    ensures baseDocument ==> r == Ok(doc) && store.docs == old(store.docs) && deps.deps == old(deps.deps)
    ensures r.Ok? ==> SameShape(doc, r.value)
    ensures r.Ok? && !baseDocument ==> Descended(g, h, c, [], doc, r.value, store.docs, deps.deps)
    decreases Size(doc), 2
  {
    if baseDocument {
      return Ok(doc);
    }
    r := DescendInsert(g, h, store, deps, c, doc, []);
  }

  /** The walk's callback at one position: a plain object at a foreign key is inserted into the
      target collection and replaced by its primary key; anything else is walked into. */
  method VisitInsert(g: Graph, h: Hooks, store: DocumentStore, deps: DependencyCollector,
                     c: string, v: Value, stack: Stack) returns (r: Result<Value>)
    requires deps.Valid()
    modifies store, deps
    ensures deps.Valid()
    ensures store.log == old(store.log)
    ensures Grows(old(store.docs), store.docs) && KeysGrow(old(deps.deps), deps.deps)
    ensures Tracked(g, old(store.docs), store.docs, deps.deps)
    ensures !v.Obj? && !v.Arr? ==> r == Ok(v) && store.docs == old(store.docs) && deps.deps == old(deps.deps)
    ensures r.Ok? && !(v.Obj? && h.stackToKey(stack) in ConfigOf(g, c).foreignKeys) ==> SameShape(v, r.value)
    ensures r.Ok? && v.Obj? && h.stackToKey(stack) in ConfigOf(g, c).foreignKeys ==>
      var t := ConfigOf(g, c).foreignKeys[h.stackToKey(stack)].collection;
      && t in store.docs && |store.docs[t]| > |DocsOf(old(store.docs), t)|
      && r.value == Lookup(store.docs[t][|store.docs[t]| - 1], ConfigOf(g, t).key)
      && KeyRecorded(RecordedIn(deps.deps, t), r.value)
    ensures r.Ok? ==> Rewritten(g, h, c, stack, v, r.value, store.docs, deps.deps)
    decreases Size(v), 4
  {
    if !IsPlainObject(v) {
      r := DescendInsert(g, h, store, deps, c, v, stack);
      return;
    }
    var key := h.stackToKey(stack);
    var fks := ConfigOf(g, c).foreignKeys;
    if key !in fks {
      r := DescendInsert(g, h, store, deps, c, v, stack);
      return;
    }
    var target := fks[key].collection;
    var nested, _, _ :- InsertSafely(g, h, store, deps, target, v, false);
    r := SelectKey(nested, ConfigOf(g, target).key);
    assert |DocsOf(old(store.docs), target)| <= |store.docs[target]| - 1;
    if r.Ok? {
      assert Lookup(store.docs[target][|store.docs[target]| - 1], ConfigOf(g, target).key) == r.value;
    }
  }

  /** The walk into the children of a value, in order, each at its extended position. */
  method DescendInsert(g: Graph, h: Hooks, store: DocumentStore, deps: DependencyCollector,
                       c: string, v: Value, stack: Stack) returns (r: Result<Value>)
    requires deps.Valid()
    modifies store, deps
    ensures deps.Valid()
    ensures store.log == old(store.log)
    ensures Grows(old(store.docs), store.docs) && KeysGrow(old(deps.deps), deps.deps)
    ensures Tracked(g, old(store.docs), store.docs, deps.deps)
    ensures !v.Obj? && !v.Arr? ==> r == Ok(v) && store.docs == old(store.docs) && deps.deps == old(deps.deps)
    ensures r.Ok? ==> SameShape(v, r.value)
    ensures r.Ok? ==> Descended(g, h, c, stack, v, r.value, store.docs, deps.deps)
    decreases Size(v), 1
  {
    if v.Obj? {
      var props := DescendProps(g, h, store, deps, c, v, stack);
      if props.Err? {
        return Err(props.error);
      }
      return Ok(Obj(props.value));
    } else if v.Arr? {
      var items := DescendItems(g, h, store, deps, c, v, stack);
      if items.Err? {
        return Err(items.error);
      }
      return Ok(Arr(items.value));
    } else {
      return Ok(v);
    }
  }

  /** The walk into an object's properties: each value is visited under its key, keys kept. */
  method DescendProps(g: Graph, h: Hooks, store: DocumentStore, deps: DependencyCollector,
                      c: string, v: Value, stack: Stack) returns (r: Result<seq<Prop>>)
    requires v.Obj?
    requires deps.Valid()
    modifies store, deps
    ensures deps.Valid()
    ensures store.log == old(store.log)
    ensures Grows(old(store.docs), store.docs) && KeysGrow(old(deps.deps), deps.deps)
    ensures Tracked(g, old(store.docs), store.docs, deps.deps)
    ensures r.Ok? ==> PropKeys(r.value) == PropKeys(v.props)
    ensures r.Ok? ==> Descended(g, h, c, stack, v, Obj(r.value), store.docs, deps.deps)
    decreases Size(v), 0
  {
    var vals: seq<Value> := [];
    var i := 0;
    while i < |v.props|
      invariant 0 <= i <= |v.props| && |vals| == i
      invariant deps.Valid() && store.log == old(store.log)
      invariant Grows(old(store.docs), store.docs) && KeysGrow(old(deps.deps), deps.deps)
      invariant Tracked(g, old(store.docs), store.docs, deps.deps)
      invariant PropsRewritten(g, h, c, stack, v.props, vals, store.docs, deps.deps)
    {
      PropSizeBound(v.props, i);
      ghost var db1, k1 := store.docs, deps.deps;
      var x := VisitInsert(g, h, store, deps, c, v.props[i].val, stack + [Key(v.props[i].key)]);
      Compose(g, old(store.docs), db1, store.docs, old(deps.deps), k1, deps.deps);
      if x.Err? {
        return Err(x.error);
      }
      PropsStep(g, h, c, stack, v.props, vals, x.value, db1, store.docs, k1, deps.deps);
      vals := vals + [x.value];
      i := i + 1;
    }
    var out := WithValues(v.props, vals);
    SameKeys(out, v.props);
    PropsDescended(g, h, c, stack, v, vals, store.docs, deps.deps);
    return Ok(out);
  }

  /** The properties with their values replaced, in order. */
  function WithValues(props: seq<Prop>, vals: seq<Value>): (r: seq<Prop>)
    requires |vals| == |props|
    ensures |r| == |props| && forall j | 0 <= j < |r| :: r[j].key == props[j].key && r[j].val == vals[j]
  {
    seq(|props|, j requires 0 <= j < |props| => Prop(props[j].key, vals[j]))
  }

  lemma SameKeys(a: seq<Prop>, b: seq<Prop>)
    requires |a| == |b| && forall j | 0 <= j < |a| :: a[j].key == b[j].key
    ensures PropKeys(a) == PropKeys(b)
  {
  }

  /** The walk into an array's items: each is visited at its position, the length kept. */
  method DescendItems(g: Graph, h: Hooks, store: DocumentStore, deps: DependencyCollector,
                      c: string, v: Value, stack: Stack) returns (r: Result<seq<Value>>)
    requires v.Arr?
    requires deps.Valid()
    modifies store, deps
    ensures deps.Valid()
    ensures store.log == old(store.log)
    ensures Grows(old(store.docs), store.docs) && KeysGrow(old(deps.deps), deps.deps)
    ensures Tracked(g, old(store.docs), store.docs, deps.deps)
    ensures r.Ok? ==> |r.value| == |v.items|
    ensures r.Ok? ==> Descended(g, h, c, stack, v, Arr(r.value), store.docs, deps.deps)
    decreases Size(v), 0
  {
    var out: seq<Value> := [];
    var i := 0;
    while i < |v.items|
      invariant 0 <= i <= |v.items| && |out| == i
      invariant deps.Valid() && store.log == old(store.log)
      invariant Grows(old(store.docs), store.docs) && KeysGrow(old(deps.deps), deps.deps)
      invariant Tracked(g, old(store.docs), store.docs, deps.deps)
      invariant ItemsRewritten(g, h, c, stack, v.items, out, store.docs, deps.deps)
    {
      ItemSizeBound(v.items, i);
      ghost var db1, k1 := store.docs, deps.deps;
      var x := VisitInsert(g, h, store, deps, c, v.items[i], stack + [Pos(i)]);
      Compose(g, old(store.docs), db1, store.docs, old(deps.deps), k1, deps.deps);
      if x.Err? {
        return Err(x.error);
      }
      ItemsStep(g, h, c, stack, v.items, out, x.value, db1, store.docs, k1, deps.deps);
      out := out + [x.value];
      i := i + 1;
    }
    ItemsDescended(g, h, c, stack, v, out, store.docs, deps.deps);
    return Ok(out);
  }
}
