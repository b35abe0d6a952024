/**
 * The collection handle (src/collection.ts): key-based query builders, counting, updates, the
 * plan-then-commit delete, and the nested-insert entry points with their rollback.
 *
 * The reads are functions of an `Env` (graph, collaborators, store contents) and a collection
 * name. The handle itself is a class over the shared `Rongo` state, because constructing one
 * registers the collection in the shared graph and its writes change the shared store.
 */
module Collections {
  import opened Values
  import opened Graph
  import opened Store
  import opened Database
  import opened FilterQuery
  import opened Insertion

  // ---- key-based queries --------------------------------------------------------------

  /** `{[key]: k}` for the collection's primary key. */
  function KeyQuery(env: Env, c: string, k: Value): Value {
    ByKey(ConfigOf(env.graph, c).key, k)
  }

  /** `{[key]: {$in: keys}}` for the collection's primary key. */
  function KeysQuery(env: Env, c: string, keys: seq<Value>): Value {
    ByKeys(ConfigOf(env.graph, c).key, Arr(keys))
  }

  /** `find(query, {baseQuery})`. */
  function FindWith(env: Env, c: string, q: Value, baseQuery: bool): Result<seq<Value>> {
    var nq :- Normalize(env, c, q, baseQuery);
    Ok(RawFind(env.hooks.matches, env.db, c, nq))
  }

  /** `findOne(query, {baseQuery})`: the first match, or null. */
  function FindOneWith(env: Env, c: string, q: Value, baseQuery: bool): Result<Value> {
    var docs :- FindWith(env, c, q, baseQuery);
    Ok(FirstOrNull(docs))
  }

  /** `count(query, {baseQuery, limit})`: the number of matches, capped by `limit` unless it is 0. */
  function Count(env: Env, c: string, q: Value, baseQuery: bool, limit: nat): Result<nat> {
    var docs :- FindWith(env, c, q, baseQuery);
    Ok(|Page(docs, 0, limit)|)
  }

  function FindByKey(env: Env, c: string, k: Value): Result<Value> {
    FindOneWith(env, c, KeyQuery(env, c, k), true)
  }

  function FindByKeys(env: Env, c: string, keys: seq<Value>): Result<seq<Value>> {
    FindWith(env, c, KeysQuery(env, c, keys), true)
  }

  function CountByKeys(env: Env, c: string, keys: seq<Value>): Result<nat> {
    Count(env, c, KeysQuery(env, c, keys), true, 0)
  }

  /** `has(query)`: a count capped at one, read as a boolean. */
  function Has(env: Env, c: string, q: Value, baseQuery: bool): Result<bool> {
    var n :- Count(env, c, q, baseQuery, 1);
    Ok(n != 0)
  }

  function HasKey(env: Env, c: string, k: Value): Result<bool> {
    Has(env, c, KeyQuery(env, c, k), true)
  }

  /** `hasKeys(keys, {some})`: the key query's count (capped at one with `some`) compared with
      one (with `some`) or with the number of keys given. */
  function HasKeys(env: Env, c: string, keys: seq<Value>, some: bool): Result<bool> {
    var n :- Count(env, c, KeysQuery(env, c, keys), true, if some then 1 else 0);
    Ok(n == if some then 1 else |keys|)
  }

  /** A capped count is the number of matches, up to the cap. */
  lemma CountCapped(env: Env, c: string, q: Value, baseQuery: bool, limit: nat)
    ensures Count(env, c, q, baseQuery, limit).Ok? <==> Normalize(env, c, q, baseQuery).Ok?
    ensures Count(env, c, q, baseQuery, limit).Ok? ==>
      var hits := RawFind(env.hooks.matches, env.db, c, Normalize(env, c, q, baseQuery).value);
      && Count(env, c, q, baseQuery, limit).value <= |hits|
      && (limit == 0 ==> Count(env, c, q, baseQuery, limit).value == |hits|)
      && (limit > 0 ==> Count(env, c, q, baseQuery, limit).value == if |hits| < limit then |hits| else limit)
  {
  }

  /** The key helpers hand the store their literal key query: it is never normalised, even where
      the key is itself a foreign key. */
  lemma KeyHelpersAreBaseQueries(env: Env, c: string, k: Value, keys: seq<Value>)
    ensures FindByKey(env, c, k) == Ok(FirstOrNull(RawFind(env.hooks.matches, env.db, c, KeyQuery(env, c, k))))
    ensures FindByKeys(env, c, keys) == Ok(RawFind(env.hooks.matches, env.db, c, KeysQuery(env, c, keys)))
    ensures CountByKeys(env, c, keys) == Ok(|RawFind(env.hooks.matches, env.db, c, KeysQuery(env, c, keys))|)
  {
    CountCapped(env, c, KeysQuery(env, c, keys), true, 0);
  }

  /** `has` holds exactly when some document of the collection matches the normalised query. */
  lemma HasIffSomeMatch(env: Env, c: string, q: Value, baseQuery: bool)
    ensures Has(env, c, q, baseQuery).Ok? <==> Normalize(env, c, q, baseQuery).Ok?
    ensures Has(env, c, q, baseQuery).Ok? ==>
      (Has(env, c, q, baseQuery).value <==>
        exists d :: d in DocsOf(env.db, c) && Matches(env.hooks.matches, d, Normalize(env, c, q, baseQuery).value))
  {
    CountCapped(env, c, q, baseQuery, 1);
    if Normalize(env, c, q, baseQuery).Ok? {
      var hits := RawFind(env.hooks.matches, env.db, c, Normalize(env, c, q, baseQuery).value);
      if hits != [] {
        assert hits[0] in hits;
      }
    }
  }

  /** `hasKeys` with `some` holds exactly when some document matches the key query; without it,
      exactly when the number of matching documents equals the number of keys given. */
  lemma HasKeysCounts(env: Env, c: string, keys: seq<Value>, some: bool)
    ensures HasKeys(env, c, keys, some).Ok?
    ensures var hits := RawFind(env.hooks.matches, env.db, c, KeysQuery(env, c, keys));
      && (some ==> (HasKeys(env, c, keys, some).value <==> exists d :: d in DocsOf(env.db, c) && Matches(env.hooks.matches, d, KeysQuery(env, c, keys))))
      && (!some ==> (HasKeys(env, c, keys, some).value <==> |hits| == |keys|))
  {
    var hits := RawFind(env.hooks.matches, env.db, c, KeysQuery(env, c, keys));
    CountCapped(env, c, KeysQuery(env, c, keys), true, if some then 1 else 0);
    if hits != [] {
      assert hits[0] in hits;
    }
  }

  /** A found key document is a stored document matching the key query; null means none matches
      (the collection holding no null). */
  lemma FindByKeyMeaning(env: Env, c: string, k: Value)
    requires Null !in DocsOf(env.db, c)
    ensures FindByKey(env, c, k).Ok?
    ensures FindByKey(env, c, k).value == Null <==>
      forall d | d in DocsOf(env.db, c) :: !Matches(env.hooks.matches, d, KeyQuery(env, c, k))
    ensures FindByKey(env, c, k).value != Null ==>
      FindByKey(env, c, k).value in DocsOf(env.db, c) && Matches(env.hooks.matches, FindByKey(env, c, k).value, KeyQuery(env, c, k))
  {
    var hits := RawFind(env.hooks.matches, env.db, c, KeyQuery(env, c, k));
    if hits != [] {
      assert hits[0] in hits;
    }
  }

  // ---- hasKeys with repeated keys ------------------------------------------------------

  /** The store's matcher reads `{key: {$in: xs}}` as "the document's key is one of `xs`". */
  ghost predicate KeyInMatcher(m: (Value, Value) -> bool, key: string) {
    forall d, xs :: m(d, ByKeys(key, Arr(xs))) <==> Lookup(d, key) in xs
  }

  /** No two documents share a primary key value, as the store's unique key index ensures. */
  predicate UniqueKeys(docs: seq<Value>, key: string) {
    forall i, j | 0 <= i < j < |docs| :: Lookup(docs[i], key) != Lookup(docs[j], key)
  }

  /** `hasKeys` compared against the number of distinct keys asked for, so that a key given
      twice is still found by its one document. */
  function HasKeysDistinct(env: Env, c: string, keys: seq<Value>, some: bool): Result<bool> {
    var n :- Count(env, c, KeysQuery(env, c, keys), true, if some then 1 else 0);
    Ok(n == if some then 1 else |set x | x in keys|)
  }

  lemma {:induction false} DistinctCard(s: seq<Value>)
    requires forall i, j | 0 <= i < j < |s| :: s[i] != s[j]
    ensures |set x | x in s| == |s|
  {
    if s != [] {
      DistinctCard(s[1..]);
      assert (set x | x in s) == {s[0]} + (set x | x in s[1..]);
      assert s[0] !in (set x | x in s[1..]);
    }
  }

  lemma {:induction false} FilteredKeepsUniqueKeys(m: (Value, Value) -> bool, docs: seq<Value>, q: Value, key: string)
    requires UniqueKeys(docs, key)
    ensures UniqueKeys(Filtered(m, docs, q), key)
  {
    if docs != [] {
      var rest := docs[1..];
      assert UniqueKeys(rest, key) by {
        forall i, j | 0 <= i < j < |rest| ensures Lookup(rest[i], key) != Lookup(rest[j], key) {
          assert rest[i] == docs[i + 1] && rest[j] == docs[j + 1];
        }
      }
      FilteredKeepsUniqueKeys(m, rest, q, key);
      var tail := Filtered(m, rest, q);
      if Matches(m, docs[0], q) {
        forall d | d in tail ensures Lookup(d, key) != Lookup(docs[0], key) {
          var k :| 0 <= k < |rest| && rest[k] == d;
          assert docs[k + 1] == d;
        }
        ConsUniqueKeys(docs[0], tail, key);
      }
    }
  }

  /** A document whose key no other document has can be put in front. */
  lemma ConsUniqueKeys(x: Value, tail: seq<Value>, key: string)
    requires UniqueKeys(tail, key)
    requires forall d | d in tail :: Lookup(d, key) != Lookup(x, key)
    ensures UniqueKeys([x] + tail, key)
  {
    var r := [x] + tail;
    forall i, j | 0 <= i < j < |r| ensures Lookup(r[i], key) != Lookup(r[j], key) {
      assert r[j] == tail[j - 1];
      if i > 0 {
        assert r[i] == tail[i - 1];
      }
    }
  }

  /** The keys of the matches of a membership query are among the keys asked for, and are all
      of them exactly when every key asked for is the key of some document. */
  lemma MatchedKeys(docs: seq<Value>, key: string, keys: seq<Value>, hits: seq<Value>)
    requires forall d :: d in hits <==> d in docs && Lookup(d, key) in keys
    ensures (set x | x in KeyValues(hits, key)) <= (set x | x in keys)
    ensures (set x | x in KeyValues(hits, key)) == (set x | x in keys) <==>
      forall x | x in keys :: exists d :: d in docs && Lookup(d, key) == x
  {
    var found := KeyValues(hits, key);
    forall x | x in found ensures x in keys {
      var i :| 0 <= i < |found| && found[i] == x;
      assert hits[i] in hits;
    }
    if forall x | x in keys :: exists d :: d in docs && Lookup(d, key) == x {
      forall x | x in keys ensures x in found {
        KeyOfMatch(docs, key, keys, hits, x);
      }
    } else {
      var x :| x in keys && forall d | d in docs :: Lookup(d, key) != x;
      MissingKeyUnmatched(docs, key, keys, hits, x);
      var asked := set y | y in keys;
      assert x in asked;
      assert (set y | y in found) != asked;
    }
  }

  lemma KeyOfMatch(docs: seq<Value>, key: string, keys: seq<Value>, hits: seq<Value>, x: Value)
    requires forall d :: d in hits <==> d in docs && Lookup(d, key) in keys
    requires x in keys && exists d :: d in docs && Lookup(d, key) == x
    ensures x in KeyValues(hits, key)
  {
    var d :| d in docs && Lookup(d, key) == x;
    assert d in hits;
    var i :| 0 <= i < |hits| && hits[i] == d;
    assert KeyValues(hits, key)[i] == x;
  }

  lemma MissingKeyUnmatched(docs: seq<Value>, key: string, keys: seq<Value>, hits: seq<Value>, x: Value)
    requires forall d :: d in hits <==> d in docs && Lookup(d, key) in keys
    requires forall d | d in docs :: Lookup(d, key) != x
    ensures x !in (set y | y in KeyValues(hits, key))
  {
  }

  /** The matches of a membership query over unique keys are as many as the distinct keys asked
      for exactly when every one of them is the key of some document. */
  lemma CountedKeysAllFound(docs: seq<Value>, key: string, keys: seq<Value>, hits: seq<Value>)
    requires UniqueKeys(hits, key)
    requires forall d :: d in hits <==> d in docs && Lookup(d, key) in keys
    ensures |hits| == |set x | x in keys| <==>
      forall x | x in keys :: exists d :: d in docs && Lookup(d, key) == x
  {
    var found := KeyValues(hits, key);
    DistinctCard(found);
    MatchedKeys(docs, key, keys, hits);
    SubsetOfSameSize(set x | x in found, set x | x in keys);
  }

  lemma SubsetOfSameSize(a: set<Value>, b: set<Value>)
    ensures a <= b ==> (|a| == |b| <==> a == b)
  {
    if a <= b && a != b {
      var x :| x in b && x !in a;
      assert |b - a| + |a| == |b|;
      assert x in b - a;
    }
  }

  /** With a membership-reading matcher and unique primary keys, the corrected `hasKeys`
      without `some` holds exactly when every key asked for belongs to a stored document, and
      with `some` exactly when one of them does. */
  lemma HasKeysDistinctMeaning(env: Env, c: string, keys: seq<Value>, some: bool)
    requires KeyInMatcher(env.hooks.matches, ConfigOf(env.graph, c).key)
    requires UniqueKeys(DocsOf(env.db, c), ConfigOf(env.graph, c).key)
    ensures HasKeysDistinct(env, c, keys, some).Ok?
    ensures !some ==> (HasKeysDistinct(env, c, keys, some).value <==>
      forall x | x in keys :: exists d :: d in DocsOf(env.db, c) && Lookup(d, ConfigOf(env.graph, c).key) == x)
    ensures some ==> (HasKeysDistinct(env, c, keys, some).value <==>
      exists d :: d in DocsOf(env.db, c) && Lookup(d, ConfigOf(env.graph, c).key) in keys)
  {
    var m := env.hooks.matches;
    var key := ConfigOf(env.graph, c).key;
    var q := KeysQuery(env, c, keys);
    var docs := DocsOf(env.db, c);
    var hits := RawFind(m, env.db, c, q);
    assert !IsConjunction(q) && q != Obj([]);
    assert forall d :: Matches(m, d, q) <==> Lookup(d, key) in keys;
    CountCapped(env, c, q, true, if some then 1 else 0);
    if some {
      if hits != [] {
        assert hits[0] in hits;
      }
    } else {
      FilteredKeepsUniqueKeys(m, docs, q, key);
      CountedKeysAllFound(docs, key, keys, hits);
    }
  }

  /** A membership matcher for `{key: {$in: xs}}` filters. */
  function InMatch(d: Value, q: Value): bool {
    && q.Obj? && |q.props| == 1 && q.props[0].val.Obj? && |q.props[0].val.props| == 1
    && q.props[0].val.props[0].key == "$in" && q.props[0].val.props[0].val.Arr?
    && Lookup(d, q.props[0].key) in q.props[0].val.props[0].val.items
  }

  const OnlyAuthor: Value := Obj([Prop("_id", Id(7))])

  /** One `Author` document with key 7, read by a membership matcher. */
  function OneAuthorEnv(): Env {
    Env(
      map["Author" := CollectionConfig("_id", map[], map[])],
      Hooks(
        (s: Stack) => "",
        InMatch,
        (g: Graph, c: string, d: Value, db: Db) => true,
        (g: Graph, db: Db, c: string, q: Value, single: bool, propagate: Option<bool>) => Err(DeleteRejected(c))),
      map["Author" := [OnlyAuthor]])
  }

  /** Asking for key 7 twice: the key exists, the store's one match is counted against two keys,
      and `hasKeys` answers false; counting distinct keys answers true. */
  lemma HasKeysMissesRepeatedKey()
    ensures KeyInMatcher(OneAuthorEnv().hooks.matches, "_id")
    ensures UniqueKeys(DocsOf(OneAuthorEnv().db, "Author"), "_id")
    ensures OnlyAuthor in DocsOf(OneAuthorEnv().db, "Author") && Lookup(OnlyAuthor, "_id") == Id(7)
    ensures HasKeys(OneAuthorEnv(), "Author", [Id(7), Id(7)], false) == Ok(false)
    ensures HasKeysDistinct(OneAuthorEnv(), "Author", [Id(7), Id(7)], false) == Ok(true)
  {
    var env := OneAuthorEnv();
    var keys := [Id(7), Id(7)];
    assert ConfigOf(env.graph, "Author").key == "_id";
    assert Lookup(OnlyAuthor, "_id") == Id(7);
    HasKeysCounts(env, "Author", keys, false);
    var hits := RawFind(env.hooks.matches, env.db, "Author", KeysQuery(env, "Author", keys));
    assert InMatch(OnlyAuthor, KeysQuery(env, "Author", keys));
    assert OnlyAuthor in hits;
    assert |hits| <= 1;
    HasKeysDistinctMeaning(env, "Author", keys, false);
    assert (set x | x in keys) == {Id(7)};
  }

  /** What `delete` asks the cascade planner for: the plan for the normalised query. */
  function PlanFor(env: Env, c: string, q: Value, single: bool, baseQuery: bool, propagate: Option<bool>): Result<DeletePlan> {
    var nq :- Normalize(env, c, q, baseQuery);
    env.hooks.propagate(env.graph, env.db, c, nq, single, propagate)
  }

  /** The outcome of committing a delete plan: no write when planning fails; otherwise the
      cascade tasks in schedule order and then the base remover, each awaited, stopping at the
      first failure; on success the answer is the remover's. */
  predicate Committed(refuses: (Db, Write) -> bool, m: (Value, Value) -> bool, db0: Db, log0: seq<Write>,
                      plan: Result<DeletePlan>, db1: Db, log1: seq<Write>, r: Result<Value>)
  {
    if plan.Err? then r == Err(plan.error) && db1 == db0 && log1 == log0
    else
      && Ran(refuses, m, db0, log0, plan.value.tasks + [plan.value.remover], db1, log1, r)
      && (r.Ok? ==>
            && Run(refuses, m, db0, plan.value.tasks).Ok?
            && Attempt(refuses, m, Run(refuses, m, db0, plan.value.tasks).value, plan.value.remover) == Ok(Outcome(db1, r.value)))
  }

  /** The error a `catch` that awaits the cleanup passes on: the cleanup's own when it fails,
      in place of the one caught. */
  function Rethrown<T>(e: Error, cleanup: Result<()>): Result<T> {
    if cleanup.Err? then Err(cleanup.error) else Err(e)
  }

  /** What a failed nested write leaves after its rollback: the documents stored up to the failure
      (`mid`) have their keys in the collector, and the collector's cleanups were then run, up to
      the first that failed. */
  ghost predicate RolledBack(g: Graph, refuses: (Db, Write) -> bool, m: (Value, Value) -> bool, db0: Db, log0: seq<Write>,
                             mid: Db, k: Keys, order: seq<string>, cleanup: Result<()>, db1: Db, log1: seq<Write>)
  {
    && Grows(db0, mid) && Tracked(g, db0, mid, k)
    && (forall i | 0 <= i < |order| :: order[i] in k)
    && (forall c | c in k :: c in order)
    && (forall i, j | 0 <= i < j < |order| :: order[i] != order[j])
    && Ran(refuses, m, mid, log0, Cleanups(g, order, k), db1, log1, cleanup)
  }

  /** A rollback whose cleanups all succeed leaves no document that was not in the store before
      the write. */
  lemma RolledBackLeavesNothing(g: Graph, refuses: (Db, Write) -> bool, m: (Value, Value) -> bool, db0: Db, log0: seq<Write>,
                                mid: Db, k: Keys, order: seq<string>, cleanup: Result<()>, db1: Db, log1: seq<Write>)
    requires RolledBack(g, refuses, m, db0, log0, mid, k, order, cleanup, db1, log1) && cleanup.Ok?
    requires MatchesListedKeys(m) && NoEmptyKeys(g, db0, mid)
    ensures forall c, d | d in DocsOf(db1, c) :: d in DocsOf(db0, c)
  {
    RollbackRemovesInserted(g, m, db0, mid, k, order);
  }

  /** The outcome of a replace whose query normalised to `nq`. The replacement is normalised
      first (its nested inserts reaching `mid`); if that fails it is rolled back, nothing is
      replaced, and the normaliser's error is passed on unless the cleanup fails. Otherwise
      the normalised replacement (`doc` itself with `baseDocument`) is sent as one replace;
      when that fails, it is rolled back only if `rollbackOnWrite`. */
  ghost predicate ReplaceCommitted(g: Graph, refuses: (Db, Write) -> bool, m: (Value, Value) -> bool, c: string, nq: Value,
                                   doc: Value, baseDocument: bool, db0: Db, log0: seq<Write>, normalized: Result<Value>,
                                   mid: Db, k: Keys, order: seq<string>, cleanup: Result<()>,
                                   db1: Db, log1: seq<Write>, r: Result<Value>, rollbackOnWrite: bool)
  {
    && Grows(db0, mid) && Tracked(g, db0, mid, k)
    && (baseDocument ==> normalized == Ok(doc) && mid == db0)
    && (normalized.Err? ==>
          && RolledBack(g, refuses, m, db0, log0, mid, k, order, cleanup, db1, log1)
          && r == Rethrown(normalized.error, cleanup))
    && (normalized.Ok? ==>
          var w := ReplaceOne(c, nq, normalized.value);
          var out := Attempt(refuses, m, mid, w);
          && (out.Ok? ==> r == Ok(out.value.matched) && db1 == out.value.db && log1 == log0 + [w])
          && (out.Err? && rollbackOnWrite ==>
                && RolledBack(g, refuses, m, db0, log0, mid, k, order, cleanup, db1, log1)
                && r == Rethrown(out.error, cleanup))
          && (out.Err? && !rollbackOnWrite ==> r == Err(out.error) && db1 == mid && log1 == log0))
  }

  // ---- the shared state and the handle ---------------------------------------------------

  /** The database handle: the compiled graph every collection reads and registers into, the
      store, and the collaborators. */
  class Rongo {
    var graph: Graph
    const store: DocumentStore
    const hooks: Hooks

    constructor (graph: Graph, store: DocumentStore, hooks: Hooks)
      ensures this.graph == graph && this.store == store && this.hooks == hooks
    {
      this.graph := graph;
      this.store := store;
      this.hooks := hooks;
    }
  }

  class Collection {
    const name: string
    const rongo: Rongo

    /** Registers a default configuration for a name the graph does not know; a known
        configuration is left as it is. */
    constructor (rongo: Rongo, name: string)
      modifies rongo
      ensures this.name == name && this.rongo == rongo
      ensures rongo.graph == Register(old(rongo.graph), name)
    {
      this.name := name;
      this.rongo := rongo;
      new;
      if name !in rongo.graph {
        rongo.graph := rongo.graph[name := DefaultConfig()];
      }
    }

    /** What the collection's reads see. */
    function Context(): Env
      reads rongo, rongo.store
    {
      Env(rongo.graph, rongo.hooks, rongo.store.docs)
    }

    // ---- updates ----

    /** `update`: updateMany with `multi`, updateOne otherwise, on the normalised query. */
    method Update(q: Value, u: Value, multi: bool, baseQuery: bool) returns (r: Result<Value>)
      modifies rongo.store
      ensures var nq := old(Normalize(Context(), name, q, baseQuery));
        && (nq.Err? ==> r == Err(nq.error) && unchanged(rongo.store))
        && (nq.Ok? ==> Updated(old(rongo.store.docs), old(rongo.store.log), UpdateWrite(nq.value, u, multi), r))
    {
      var nq := Normalize(Context(), name, q, baseQuery);
      if nq.Err? {
        return Err(nq.error);
      }
      r := UpdateNormalized(nq.value, u, multi);
    }

    function UpdateWrite(nq: Value, u: Value, multi: bool): Write {
      if multi then UpdateMany(name, nq, u) else UpdateOne(name, nq, u)
    }

    /** An update sent from `docs0`: refused, it fails and changes nothing; accepted, it is
        logged, answers, and leaves the documents as they are. */
    ghost predicate Updated(docs0: Db, log0: seq<Write>, w: Write, r: Result<Value>)
      reads rongo, rongo.store
    {
      && (rongo.store.refuses(docs0, w) ==>
            r == Err(WriteFailed(name)) && rongo.store.docs == docs0 && rongo.store.log == log0)
      && (!rongo.store.refuses(docs0, w) ==>
            r.Ok? && rongo.store.docs == docs0 && rongo.store.log == log0 + [w])
    }

    /** The update sent for an already normalised query. */
    method UpdateNormalized(nq: Value, u: Value, multi: bool) returns (r: Result<Value>)
      modifies rongo.store
      ensures Updated(old(rongo.store.docs), old(rongo.store.log), UpdateWrite(nq, u, multi), r)
    {
      ghost var w := UpdateWrite(nq, u, multi);
      UpdateKeepsDocs(rongo.hooks.matches, rongo.store.docs, w);
      r := rongo.store.Apply(rongo.hooks.matches, UpdateWrite(nq, u, multi));
    }

    method UpdateByKey(k: Value, u: Value) returns (r: Result<Value>)
      modifies rongo.store
      ensures Updated(old(rongo.store.docs), old(rongo.store.log), UpdateOne(name, old(KeyQuery(Context(), name, k)), u), r)
    {
      r := Update(KeyQuery(Context(), name, k), u, false, true);
    }

    method UpdateByKeys(keys: seq<Value>, u: Value) returns (r: Result<Value>)
      modifies rongo.store
      ensures Updated(old(rongo.store.docs), old(rongo.store.log), UpdateMany(name, old(KeysQuery(Context(), name, keys)), u), r)
    {
      r := Update(KeysQuery(Context(), name, keys), u, true, true);
    }

    /** `findOneAndUpdate`: the matched document, with "none" answered as null. */
    method FindOneAndUpdate(q: Value, u: Value, baseQuery: bool) returns (r: Result<Value>)
      modifies rongo.store
      ensures r.Ok? ==> r.value != Undefined
      ensures var nq := old(Normalize(Context(), name, q, baseQuery));
        && (nq.Err? ==> r == Err(nq.error) && unchanged(rongo.store))
        && (nq.Ok? ==> FoundAndUpdated(old(rongo.store.docs), old(rongo.store.log), nq.value, u, r))
    {
      var nq := Normalize(Context(), name, q, baseQuery);
      if nq.Err? {
        return Err(nq.error);
      }
      r := FindOneAndUpdateNormalized(nq.value, u);
    }

    /** `findOneAndUpdate` sent from `docs0`: refused, it fails and changes nothing; accepted, it
        is logged, leaves the documents as they are, and answers the first match or null. */
    ghost predicate FoundAndUpdated(docs0: Db, log0: seq<Write>, nq: Value, u: Value, r: Result<Value>)
      reads rongo, rongo.store
    {
      var w := UpdateOne(name, nq, u);
      && (rongo.store.refuses(docs0, w) ==>
            r == Err(WriteFailed(name)) && rongo.store.docs == docs0 && rongo.store.log == log0)
      && (!rongo.store.refuses(docs0, w) ==>
            && rongo.store.docs == docs0 && rongo.store.log == log0 + [w]
            && var hits := RawFind(rongo.hooks.matches, docs0, name, nq);
               && (hits == [] ==> r == Ok(Null))
               && (hits != [] && hits[0] != Undefined ==> r == Ok(hits[0])))
    }

    /** `findOneAndUpdate` for an already normalised query. */
    method FindOneAndUpdateNormalized(nq: Value, u: Value) returns (r: Result<Value>)
      modifies rongo.store
      ensures r.Ok? ==> r.value != Undefined
      ensures FoundAndUpdated(old(rongo.store.docs), old(rongo.store.log), nq, u, r)
    {
      var answer := rongo.store.Apply(rongo.hooks.matches, UpdateOne(name, nq, u));
      if answer.Err? {
        return Err(answer.error);
      }
      var value := answer.value;
      return Ok(if value == Undefined then Null else value);
    }

    // ---- deletes ----

    /** `delete`: plan the cascade for the normalised query, run every scheduled task in order,
        then the base remover. `propagate` is the caller's option, handed to the planner. */
    method Delete(q: Value := Obj([]), single: bool := false, baseQuery: bool := false, propagate: Option<bool> := None)
      returns (r: Result<Value>)
      modifies rongo.store
      ensures rongo.store.nextId == old(rongo.store.nextId)
      ensures Committed(rongo.store.refuses, rongo.hooks.matches, old(rongo.store.docs), old(rongo.store.log),
                        old(PlanFor(Context(), name, q, single, baseQuery, propagate)),
                        rongo.store.docs, rongo.store.log, r)
    {
      var plan := PlanFor(Context(), name, q, single, baseQuery, propagate);
      if plan.Err? {
        return Err(plan.error);
      }
      r := Commit(plan.value);
    }

    /** Commits a planned cascade: every scheduled task in order, then the base remover. */
    method Commit(plan: DeletePlan) returns (r: Result<Value>)
      modifies rongo.store
      ensures rongo.store.nextId == old(rongo.store.nextId)
      ensures Committed(rongo.store.refuses, rongo.hooks.matches, old(rongo.store.docs), old(rongo.store.log), Ok(plan),
                        rongo.store.docs, rongo.store.log, r)
    {
      var m := rongo.hooks.matches;
      var store := rongo.store;
      ghost var ws := plan.tasks + [plan.remover];
      ghost var n := |plan.tasks|;
      assert ws[..n] == plan.tasks && ws[n] == plan.remover;
      var done := store.ApplyAll(m, plan.tasks);
      if done.Err? {
        ghost var i :| 0 <= i < n && store.log == old(store.log) + plan.tasks[..i]
          && Run(store.refuses, m, old(store.docs), plan.tasks[..i]) == Ok(store.docs)
          && Attempt(store.refuses, m, store.docs, plan.tasks[i]) == Err(done.error);
        assert ws[..i] == plan.tasks[..i] && ws[i] == plan.tasks[i];
        return Err(done.error);
      }
      ghost var before := store.docs;
      r := store.Apply(m, plan.remover);
      RunSnoc(store.refuses, m, old(store.docs), ws, n);
      assert ws[..n + 1] == ws;
      if r.Err? {
        assert Attempt(store.refuses, m, before, ws[n]) == Err(r.error);
      }
    }

    /** `deleteByKey`: the literal key query, planned with `single` set. */
    method DeleteByKey(k: Value, propagate: Option<bool> := None) returns (r: Result<Value>)
      modifies rongo.store
      ensures Committed(rongo.store.refuses, rongo.hooks.matches, old(rongo.store.docs), old(rongo.store.log),
                        old(rongo.hooks.propagate(rongo.graph, rongo.store.docs, name, KeyQuery(Context(), name, k), true, propagate)),
                        rongo.store.docs, rongo.store.log, r)
    {
      r := Delete(KeyQuery(Context(), name, k), true, true, propagate);
    }

    /** `deleteByKeys`: the literal keys query, planned with `single` unset. */
    method DeleteByKeys(keys: seq<Value>, propagate: Option<bool> := None) returns (r: Result<Value>)
      modifies rongo.store
      ensures Committed(rongo.store.refuses, rongo.hooks.matches, old(rongo.store.docs), old(rongo.store.log),
                        old(rongo.hooks.propagate(rongo.graph, rongo.store.docs, name, KeysQuery(Context(), name, keys), false, propagate)),
                        rongo.store.docs, rongo.store.log, r)
    {
      r := Delete(KeysQuery(Context(), name, keys), baseQuery := true, propagate := propagate);
    }

    // ---- inserts ----

    /** `insert` as written: the nested insert's failure arrives as a rejected promise, which the
        surrounding `try` does not catch, so no cleanup runs and every document stored before
        the failure stays. */
    method Insert(doc: Value, baseDocument: bool) returns (r: Result<Value>)
      modifies rongo.store
      ensures rongo.store.log == old(rongo.store.log)
      ensures Grows(old(rongo.store.docs), rongo.store.docs)
      ensures r.Ok? ==> rongo.store.acknowledged
    {
      var deps := new DependencyCollector();
      ghost var normalized: Result<Value>, normalizedDocs: Db;
      r, normalized, normalizedDocs := InsertSafely(rongo.graph, rongo.hooks, rongo.store, deps, name, doc, baseDocument);
    }

    /** `insert` with the failure awaited inside the `try`: on failure every recorded document is
        deleted before the error is passed on (the cleanup's own error when it fails).
        `attempt` is the nested insert's answer. */
    method InsertWithRollback(doc: Value, baseDocument: bool)
      returns (r: Result<Value>, ghost attempt: Result<Value>, ghost mid: Db, ghost k: Keys, ghost order: seq<string>,
               ghost cleanup: Result<()>)
      modifies rongo.store
      ensures attempt.Ok? ==>
        && r == attempt && rongo.store.log == old(rongo.store.log) && rongo.store.acknowledged
        && Grows(old(rongo.store.docs), rongo.store.docs)
        && Tracked(rongo.graph, old(rongo.store.docs), rongo.store.docs, k)
      ensures attempt.Err? ==>
        && r == Rethrown(attempt.error, cleanup)
        && RolledBack(rongo.graph, rongo.store.refuses, rongo.hooks.matches, old(rongo.store.docs), old(rongo.store.log),
                      mid, k, order, cleanup, rongo.store.docs, rongo.store.log)
    {
      var store := rongo.store;
      var deps := new DependencyCollector();
      ghost var normalized: Result<Value>, normalizedDocs: Db;
      r, normalized, normalizedDocs := InsertSafely(rongo.graph, rongo.hooks, store, deps, name, doc, baseDocument);
      attempt, mid, k, order, cleanup := r, store.docs, deps.deps, deps.order, Ok(());
      if r.Err? {
        var done := deps.Delete(rongo.graph, rongo.hooks.matches, store);
        cleanup := done;
        if done.Err? {
          return Err(done.error), attempt, mid, k, order, cleanup;
        }
      }
    }

    // ---- replaces ----

    /** `replaceOne` as written: a failed normalisation of the replacement is rolled back, but
        the replace itself is returned un-awaited from the `try`, so its failure escapes without
        a rollback. `normalized` is the normaliser's answer (the replacement sent, if any). */
    method ReplaceOne(q: Value, doc: Value, baseQuery: bool, baseDocument: bool)
      returns (r: Result<Value>, ghost normalized: Result<Value>, ghost mid: Db, ghost k: Keys, ghost order: seq<string>,
               ghost cleanup: Result<()>)
      modifies rongo.store
      ensures var nq := old(Normalize(Context(), name, q, baseQuery));
        && (nq.Err? ==> r == Err(nq.error) && unchanged(rongo.store))
        && (nq.Ok? ==> ReplaceCommitted(rongo.graph, rongo.store.refuses, rongo.hooks.matches, name, nq.value, doc, baseDocument,
                                        old(rongo.store.docs), old(rongo.store.log), normalized, mid, k, order, cleanup,
                                        rongo.store.docs, rongo.store.log, r, false))
    {
      normalized, mid, k, order, cleanup := Ok(doc), rongo.store.docs, map[], [], Ok(());
      var nq := Normalize(Context(), name, q, baseQuery);
      if nq.Err? {
        return Err(nq.error), normalized, mid, k, order, cleanup;
      }
      r, normalized, mid, k, order, cleanup := ReplaceNormalized(nq.value, doc, baseDocument, false);
    }

    /** `replaceOne` with the replace awaited inside the `try`: its failure is rolled back too. */
    method ReplaceOneWithRollback(q: Value, doc: Value, baseQuery: bool, baseDocument: bool)
      returns (r: Result<Value>, ghost normalized: Result<Value>, ghost mid: Db, ghost k: Keys, ghost order: seq<string>,
               ghost cleanup: Result<()>)
      modifies rongo.store
      ensures var nq := old(Normalize(Context(), name, q, baseQuery));
        && (nq.Err? ==> r == Err(nq.error) && unchanged(rongo.store))
        && (nq.Ok? ==> ReplaceCommitted(rongo.graph, rongo.store.refuses, rongo.hooks.matches, name, nq.value, doc, baseDocument,
                                        old(rongo.store.docs), old(rongo.store.log), normalized, mid, k, order, cleanup,
                                        rongo.store.docs, rongo.store.log, r, true))
    {
      normalized, mid, k, order, cleanup := Ok(doc), rongo.store.docs, map[], [], Ok(());
      var nq := Normalize(Context(), name, q, baseQuery);
      if nq.Err? {
        return Err(nq.error), normalized, mid, k, order, cleanup;
      }
      r, normalized, mid, k, order, cleanup := ReplaceNormalized(nq.value, doc, baseDocument, true);
    }

    /** The replace for an already normalised query: the replacement's nested inserts first
        (rolled back if they fail), then one replace, rolled back on failure when
        `rollbackOnWrite`. */
    method ReplaceNormalized(nq: Value, doc: Value, baseDocument: bool, rollbackOnWrite: bool)
      returns (r: Result<Value>, ghost normalized: Result<Value>, ghost mid: Db, ghost k: Keys, ghost order: seq<string>,
               ghost cleanup: Result<()>)
      modifies rongo.store
      ensures ReplaceCommitted(rongo.graph, rongo.store.refuses, rongo.hooks.matches, name, nq, doc, baseDocument,
                               old(rongo.store.docs), old(rongo.store.log), normalized, mid, k, order, cleanup,
                               rongo.store.docs, rongo.store.log, r, rollbackOnWrite)
    {
      var store := rongo.store;
      var deps := new DependencyCollector();
      var nd := NormalizeInsertionDoc(rongo.graph, rongo.hooks, store, deps, name, doc, baseDocument);
      normalized, mid, k, order, cleanup := nd, store.docs, deps.deps, deps.order, Ok(());
      if nd.Err? {
        var done := deps.Delete(rongo.graph, rongo.hooks.matches, store);
        cleanup := done;
        return Rethrown(nd.error, done), normalized, mid, k, order, cleanup;
      }
      r := store.Apply(rongo.hooks.matches, Write.ReplaceOne(name, nq, nd.value));
      if r.Err? && rollbackOnWrite {
        var done := deps.Delete(rongo.graph, rongo.hooks.matches, store);
        cleanup := done;
        r := Rethrown(r.error, done);
      }
    }

    /** `replaceByKey`: `replaceOne` on the literal key query. */
    method ReplaceByKey(key: Value, doc: Value, baseDocument: bool)
      returns (r: Result<Value>, ghost normalized: Result<Value>, ghost mid: Db, ghost k: Keys, ghost order: seq<string>,
               ghost cleanup: Result<()>)
      modifies rongo.store
      ensures ReplaceCommitted(rongo.graph, rongo.store.refuses, rongo.hooks.matches, name, old(KeyQuery(Context(), name, key)),
                               doc, baseDocument, old(rongo.store.docs), old(rongo.store.log), normalized, mid, k, order, cleanup,
                               rongo.store.docs, rongo.store.log, r, false)
    {
      r, normalized, mid, k, order, cleanup := ReplaceOne(KeyQuery(Context(), name, key), doc, true, baseDocument);
    }

    /** `findOneAndReplace`: the replace is awaited inside the `try`, so any failure after the
        query is normalised is rolled back; "none matched" is answered as null. */
    method FindOneAndReplace(q: Value, doc: Value, baseQuery: bool, baseDocument: bool)
      returns (r: Result<Value>, ghost answer: Result<Value>, ghost normalized: Result<Value>, ghost mid: Db, ghost k: Keys,
               ghost order: seq<string>, ghost cleanup: Result<()>)
      modifies rongo.store
      ensures r == if answer == Ok(Undefined) then Ok(Null) else answer
      ensures var nq := old(Normalize(Context(), name, q, baseQuery));
        && (nq.Err? ==> r == Err(nq.error) && unchanged(rongo.store))
        && (nq.Ok? ==> ReplaceCommitted(rongo.graph, rongo.store.refuses, rongo.hooks.matches, name, nq.value, doc, baseDocument,
                                        old(rongo.store.docs), old(rongo.store.log), normalized, mid, k, order, cleanup,
                                        rongo.store.docs, rongo.store.log, answer, true))
    {
      normalized, mid, k, order, cleanup := Ok(doc), rongo.store.docs, map[], [], Ok(());
      var nq := Normalize(Context(), name, q, baseQuery);
      if nq.Err? {
        return Err(nq.error), Err(nq.error), normalized, mid, k, order, cleanup;
      }
      var out;
      out, normalized, mid, k, order, cleanup := ReplaceNormalized(nq.value, doc, baseDocument, true);
      answer := out;
      r := if out == Ok(Undefined) then Ok(Null) else out;
    }
  }
}
