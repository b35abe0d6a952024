/**
 * An in-memory stand-in for the document store the layer drives: collections of documents,
 * filter matching, and the writes the layer issues (inserts with generated ids, deletes,
 * updates, replaces). The parts of the layer that are not modelled here (the key path
 * encoder, insertion verification, the cascade planner, the store's own matching of
 * ordinary filters) are supplied as `Hooks`.
 */
module Store {
  import opened Values
  import opened Graph

  type Db = map<string, seq<Value>>

  /** A write the layer sends to the store. */
  datatype Write =
    | DeleteMany(collection: string, query: Value)
    | DeleteOne(collection: string, query: Value)
    | UpdateOne(collection: string, query: Value, update: Value)
    | UpdateMany(collection: string, query: Value, update: Value)
    | ReplaceOne(collection: string, query: Value, doc: Value)

  /** What the cascade planner hands back: the cascade tasks in schedule order, then the
      base remover. */
  datatype DeletePlan = DeletePlan(tasks: seq<Write>, remover: Write)

  /** Collaborators whose source is not part of this model. `stackToKey` maps a traversal
      position to a foreign-key name; `matches` is the store's own test of a document against
      an ordinary filter; `verify` is the insert-time dangling-key check; `propagate` is the
      cascade-delete planner (given the collection, the base query, the `single` flag and the
      caller's `propagate` option, None when not given). */
  datatype Hooks = Hooks(
    stackToKey: Stack -> string,
    matches: (Value, Value) -> bool,
    verify: (Graph, string, Value, Db) -> bool,
    propagate: (Graph, Db, string, Value, bool, Option<bool>) -> Result<DeletePlan>)

  function DocsOf(db: Db, c: string): seq<Value> {
    if c in db then db[c] else []
  }

  /** `{}` matches every document and `{$and: [f1, ..]}` every document matching all of the
      `fi`; any other filter is left to the store's own matcher. */
  predicate Matches(m: (Value, Value) -> bool, doc: Value, q: Value)
    decreases q
  {
    if q == Obj([]) then true
    else if IsConjunction(q) then
      forall i | 0 <= i < |q.props[0].val.items| :: Matches(m, doc, q.props[0].val.items[i])
    else m(doc, q)
  }

  predicate IsConjunction(q: Value) {
    q.Obj? && |q.props| == 1 && q.props[0].key == "$and" && q.props[0].val.Arr?
  }

  /** A conjunction with one more conjunct matches exactly the documents matching both the
      shorter conjunction and the new conjunct. */
  lemma ConjunctionSnoc(m: (Value, Value) -> bool, doc: Value, fs: seq<Value>, f: Value)
    ensures Matches(m, doc, Obj([Prop("$and", Arr(fs + [f]))])) <==>
      Matches(m, doc, Obj([Prop("$and", Arr(fs))])) && Matches(m, doc, f)
  {
    var q := Obj([Prop("$and", Arr(fs + [f]))]);
    var q' := Obj([Prop("$and", Arr(fs))]);
    assert IsConjunction(q) && q.props[0].val.items == fs + [f];
    assert IsConjunction(q') && q'.props[0].val.items == fs;
    assert (fs + [f])[|fs|] == f;
    assert forall i | 0 <= i < |fs| :: (fs + [f])[i] == fs[i];
    if Matches(m, doc, q') && Matches(m, doc, f) {
      forall i | 0 <= i < |fs + [f]| ensures Matches(m, doc, (fs + [f])[i]) {
        if i < |fs| {
          assert Matches(m, doc, fs[i]);
        }
      }
    }
  }

  /** The documents of a sequence that match a filter, in their stored order. */
  function Filtered(m: (Value, Value) -> bool, docs: seq<Value>, q: Value): (r: seq<Value>)
    ensures |r| <= |docs|
    ensures forall d :: d in r <==> d in docs && Matches(m, d, q)
  {
    if docs == [] then []
    else (if Matches(m, docs[0], q) then [docs[0]] else []) + Filtered(m, docs[1..], q)
  }

  /** A filter every document matches keeps the sequence as it is, order included. */
  lemma {:induction false} FilteredKeepsAll(m: (Value, Value) -> bool, docs: seq<Value>, q: Value)
    requires forall i | 0 <= i < |docs| :: Matches(m, docs[i], q)
    ensures Filtered(m, docs, q) == docs
  {
    if docs != [] {
      FilteredKeepsAll(m, docs[1..], q);
      assert [docs[0]] + docs[1..] == docs;
    }
  }

  /** The `skip`/`limit` window of a result, `limit == 0` meaning no limit. */
  function Page(docs: seq<Value>, skip: nat, limit: nat): (r: seq<Value>)
    ensures skip >= |docs| ==> r == []
    ensures skip < |docs| ==> |r| == (if limit == 0 || skip + limit > |docs| then |docs| - skip else limit)
    ensures forall i | 0 <= i < |r| :: skip + i < |docs| && r[i] == docs[skip + i]
  {
    if skip >= |docs| then []
    else if limit == 0 || skip + limit > |docs| then docs[skip..]
    else docs[skip..skip + limit]
  }

  /** A plain `find(query).toArray()` on the store. */
  function RawFind(m: (Value, Value) -> bool, db: Db, c: string, q: Value): (r: seq<Value>)
    ensures forall d :: d in r <==> d in DocsOf(db, c) && Matches(m, d, q)
  {
    Filtered(m, DocsOf(db, c), q)
  }

  /** A filter whose matches are all matches of another finds no document the other misses. */
  lemma FilteredMonotone(m: (Value, Value) -> bool, docs: seq<Value>, q1: Value, q2: Value)
    requires forall d :: d in docs && Matches(m, d, q2) ==> Matches(m, d, q1)
    ensures forall d :: d in Filtered(m, docs, q2) ==> d in Filtered(m, docs, q1)
  {
  }

  /** `findOne` semantics on an already materialised result: the first, or null. */
  function FirstOrNull(docs: seq<Value>): (r: Value)
    ensures docs == [] <==> r == Null && Null !in docs
    ensures docs != [] ==> r == docs[0]
  {
    if docs == [] then Null else docs[0]
  }

  /** The `_id` of a stored document. */
  function IdOf(d: Value): Value {
    Lookup(d, "_id")
  }

  predicate HasId(docs: seq<Value>, id: Value) {
    exists i :: 0 <= i < |docs| && IdOf(docs[i]) == id
  }

  /** Read-back by `_id`: the first stored document with that id, or null. */
  function FindById(db: Db, c: string, id: Value): (r: Value)
    ensures r != Null ==> r in DocsOf(db, c) && IdOf(r) == id
    ensures !HasId(DocsOf(db, c), id) ==> r == Null
  {
    FirstById(DocsOf(db, c), id)
  }

  function FirstById(docs: seq<Value>, id: Value): (r: Value)
    ensures r != Null ==> r in docs && IdOf(r) == id
    ensures !HasId(docs, id) ==> r == Null
  {
    if docs == [] then Null
    else if IdOf(docs[0]) == id && docs[0] != Null then docs[0]
    else FirstById(docs[1..], id)
  }

  /** Read-back by `{_id: {$in: ids}}`: the stored documents whose id is listed, in stored order. */
  function FindByIds(db: Db, c: string, ids: seq<Value>): (r: seq<Value>)
    ensures forall d :: d in r <==> d in DocsOf(db, c) && IdOf(d) in ids
  {
    WithIdIn(DocsOf(db, c), ids)
  }

  function WithIdIn(docs: seq<Value>, ids: seq<Value>): (r: seq<Value>)
    ensures forall d :: d in r <==> d in docs && IdOf(d) in ids
  {
    if docs == [] then []
    else (if IdOf(docs[0]) in ids then [docs[0]] else []) + WithIdIn(docs[1..], ids)
  }

  lemma {:induction false} WithIdInAppend(a: seq<Value>, b: seq<Value>, ids: seq<Value>)
    ensures WithIdIn(a + b, ids) == WithIdIn(a, ids) + WithIdIn(b, ids)
  {
    if a != [] {
      assert (a + b)[0] == a[0] && (a + b)[1..] == a[1..] + b;
      WithIdInAppend(a[1..], b, ids);
    } else {
      assert a + b == b;
    }
  }

  /** Reading back by the ids of a freshly stored tail returns exactly that tail when no earlier
      document carries one of its ids. */
  lemma {:induction false} WithIdInTail(existing: seq<Value>, stored: seq<Value>, ids: seq<Value>)
    requires forall i | 0 <= i < |existing| :: IdOf(existing[i]) !in ids
    requires forall i | 0 <= i < |stored| :: IdOf(stored[i]) in ids
    ensures WithIdIn(existing + stored, ids) == stored
  {
    WithIdInAppend(existing, stored, ids);
    NoneListed(existing, ids);
    assert WithIdIn(stored, ids) == stored by {
      AllListed(stored, ids);
    }
  }

  lemma {:induction false} NoneListed(docs: seq<Value>, ids: seq<Value>)
    requires forall i | 0 <= i < |docs| :: IdOf(docs[i]) !in ids
    ensures WithIdIn(docs, ids) == []
  {
    if docs != [] {
      NoneListed(docs[1..], ids);
    }
  }

  lemma {:induction false} AllListed(docs: seq<Value>, ids: seq<Value>)
    requires forall i | 0 <= i < |docs| :: IdOf(docs[i]) in ids
    ensures WithIdIn(docs, ids) == docs
  {
    if docs != [] {
      AllListed(docs[1..], ids);
      assert [docs[0]] + docs[1..] == docs;
    }
  }

  /** Reading back by id right after appending a document whose id was new returns that document. */
  lemma {:induction false} FirstByIdOfAppended(existing: seq<Value>, stored: Value)
    requires !HasId(existing, IdOf(stored)) && stored != Null
    ensures FirstById(existing + [stored], IdOf(stored)) == stored
  {
    if existing != [] {
      assert (existing + [stored])[1..] == existing[1..] + [stored];
      assert IdOf(existing[0]) != IdOf(stored);
      FirstByIdOfAppended(existing[1..], stored);
    } else {
      assert existing + [stored] == [stored];
    }
  }

  /** The query that selects documents by primary key: `{pk: x}`. */
  function ByKey(pk: string, x: Value): Value {
    Obj([Prop(pk, x)])
  }

  /** The query that selects several documents by primary key: `{pk: {$in: xs}}`. */
  function ByKeys(pk: string, xs: Value): Value {
    Obj([Prop(pk, Obj([Prop("$in", xs)]))])
  }

  /** The document as stored: a generated id goes first when the document has none. */
  function Stamped(d: Value, nextId: nat): (r: Value)
    requires d.Obj?
    ensures r.Obj?
    ensures IdOf(d) != Undefined ==> r == d
    ensures IdOf(d) == Undefined ==> IdOf(r) == Id(nextId) && r.props == [Prop("_id", Id(nextId))] + d.props
  {
    if IdOf(d) != Undefined then d else Obj([Prop("_id", Id(nextId))] + d.props)
  }

  /** Stamping keeps a non-null document non-null, and its id is the declared or the nextId one. */
  lemma StampedId(d: Value, nextId: nat)
    requires d.Obj?
    ensures IdOf(Stamped(d, nextId)) == (if IdOf(d) != Undefined then IdOf(d) else Id(nextId))
    ensures Stamped(d, nextId) != Null
  {
  }

  /** What a delete, update or replace that the server accepts does to the documents, and the
      document it matched first (Undefined when none). Updates are recorded but their operator
      language is not interpreted. A replace that would change the matched document's `_id`
      fails. Failures from outside the documents (the connection, the write concern) are the
      store's `refuses` oracle, consulted by `Attempt`. */
  datatype Outcome = Outcome(db: Db, matched: Value)

  function Perform(m: (Value, Value) -> bool, db: Db, w: Write): (r: Result<Outcome>)
    ensures r.Err? ==> w.ReplaceOne?
    ensures w.UpdateOne? || w.UpdateMany? ==>
      r == Ok(Outcome(db, FirstOrUndefined(RawFind(m, db, w.collection, w.query))))
  {
    match w
    case DeleteMany(c, q) =>
      Ok(Outcome(db[c := Unmatched(m, DocsOf(db, c), q)], FirstOrUndefined(RawFind(m, db, c, q))))
    case DeleteOne(c, q) =>
      Ok(Outcome(db[c := RemoveFirst(m, DocsOf(db, c), q)], FirstOrUndefined(RawFind(m, db, c, q))))
    case UpdateOne(c, q, u) => Ok(Outcome(db, FirstOrUndefined(RawFind(m, db, c, q))))
    case UpdateMany(c, q, u) => Ok(Outcome(db, FirstOrUndefined(RawFind(m, db, c, q))))
    case ReplaceOne(c, q, d) =>
      var hits := RawFind(m, db, c, q);
      if hits == [] then Ok(Outcome(db, Undefined))
      else if IdOf(d) != Undefined && IdOf(d) != IdOf(hits[0]) then Err(ImmutableId(c))
      else Ok(Outcome(db[c := ReplaceFirst(m, DocsOf(db, c), q, WithIdOf(d, hits[0]))], hits[0]))
  }

  /** An accepted `deleteMany` leaves exactly the documents of the collection that do not match. */
  lemma DeleteManyRemoves(m: (Value, Value) -> bool, db: Db, c: string, q: Value)
    ensures Perform(m, db, DeleteMany(c, q)).Ok?
    ensures forall d :: d in DocsOf(Perform(m, db, DeleteMany(c, q)).value.db, c) <==> d in DocsOf(db, c) && !Matches(m, d, q)
  {
  }

  /** An accepted update leaves the documents as they are: its matching raises no error. */
  lemma UpdateKeepsDocs(m: (Value, Value) -> bool, db: Db, w: Write)
    requires w.UpdateOne? || w.UpdateMany?
    ensures Perform(m, db, w).Ok? && Perform(m, db, w).value.db == db
  {
  }

  /** The store's documents after a sequence of accepted writes applied in order; the first
      failing write fails the whole sequence. Only a replace can fail on the documents. */
  function Replay(m: (Value, Value) -> bool, db: Db, ws: seq<Write>): (r: Result<Db>)
    ensures (forall i | 0 <= i < |ws| :: !ws[i].ReplaceOne?) ==> r.Ok?
  {
    if ws == [] then Ok(db)
    else
      var prev :- Replay(m, db, ws[..|ws| - 1]);
      var out :- Perform(m, prev, ws[|ws| - 1]);
      Ok(out.db)
  }

  /** Replaying one more write is performing it after the replay of the prefix. */
  lemma ReplaySnoc(m: (Value, Value) -> bool, db: Db, ws: seq<Write>, i: nat)
    requires i < |ws| && Replay(m, db, ws[..i]).Ok?
    ensures Perform(m, Replay(m, db, ws[..i]).value, ws[i]).Ok? ==>
      Replay(m, db, ws[..i + 1]) == Ok(Perform(m, Replay(m, db, ws[..i]).value, ws[i]).value.db)
    ensures Perform(m, Replay(m, db, ws[..i]).value, ws[i]).Err? ==> Replay(m, db, ws[..i + 1]).Err?
  {
    assert ws[..i + 1][..i] == ws[..i];
  }

  /** A log that has performed the first `i` of a sequence of writes lies between the log before
      them and the log after all of them, strictly before the end while one is left. */
  lemma LogPrefixes(log0: seq<Write>, ws: seq<Write>, i: nat)
    requires i < |ws|
    ensures log0 <= log0 + ws[..i] <= log0 + ws
    ensures |log0 + ws[..i]| < |log0 + ws|
    ensures log0 + ws[..i] + [ws[i]] == log0 + ws[..i + 1]
  {
    assert ws == ws[..i] + ws[i..];
    assert ws[..i + 1] == ws[..i] + [ws[i]];
  }

  /** What the store does with one write: the server may refuse it (`refuses` stands for every
      cause outside the documents: the connection, the write concern, server-side validation);
      otherwise it has the effect `Perform` gives it. */
  function Attempt(refuses: (Db, Write) -> bool, m: (Value, Value) -> bool, db: Db, w: Write): Result<Outcome> {
    if refuses(db, w) then Err(WriteFailed(w.collection)) else Perform(m, db, w)
  }

  /** The writes sent one after another, each awaited, stopping at the first that fails. When
      they all succeed the store ends where the replay of accepted writes ends. */
  function Run(refuses: (Db, Write) -> bool, m: (Value, Value) -> bool, db: Db, ws: seq<Write>): (r: Result<Db>)
    ensures r.Ok? ==> r == Replay(m, db, ws)
  {
    if ws == [] then Ok(db)
    else
      var prev :- Run(refuses, m, db, ws[..|ws| - 1]);
      var out :- Attempt(refuses, m, prev, ws[|ws| - 1]);
      Ok(out.db)
  }

  /** Running one more write is attempting it after the run of the prefix. */
  lemma RunSnoc(refuses: (Db, Write) -> bool, m: (Value, Value) -> bool, db: Db, ws: seq<Write>, i: nat)
    requires i < |ws| && Run(refuses, m, db, ws[..i]).Ok?
    ensures var out := Attempt(refuses, m, Run(refuses, m, db, ws[..i]).value, ws[i]);
      Run(refuses, m, db, ws[..i + 1]) == if out.Ok? then Ok(out.value.db) else Err(out.error)
  {
    assert ws[..i + 1][..i] == ws[..i];
  }

  /** Once a prefix fails, the whole sequence fails with the same error. */
  lemma {:induction false} FailureSticks(refuses: (Db, Write) -> bool, m: (Value, Value) -> bool, db: Db, ws: seq<Write>, i: nat)
    requires i <= |ws| && Run(refuses, m, db, ws[..i]).Err?
    ensures Run(refuses, m, db, ws) == Run(refuses, m, db, ws[..i])
    decreases |ws| - i
  {
    if i < |ws| {
      assert ws[..i + 1][..i] == ws[..i];
      FailureSticks(refuses, m, db, ws, i + 1);
    } else {
      assert ws[..i] == ws;
    }
  }

  /** What sending `ws` one after another from `db0` (with log `log0`) left: on success every
      write performed and logged; on failure the writes before the first failing one performed
      and logged, and that write's error as the answer. */
  predicate Ran<T>(refuses: (Db, Write) -> bool, m: (Value, Value) -> bool, db0: Db, log0: seq<Write>,
                   ws: seq<Write>, db1: Db, log1: seq<Write>, r: Result<T>)
  {
    && (r.Ok? ==> Run(refuses, m, db0, ws) == Ok(db1) && log1 == log0 + ws)
    && (r.Err? ==> exists i | 0 <= i < |ws| ::
          && log1 == log0 + ws[..i] && Run(refuses, m, db0, ws[..i]) == Ok(db1)
          && Attempt(refuses, m, db1, ws[i]) == Err(r.error))
  }

  /** A sequence ran to success exactly when its run succeeds, and a failure is the run's. */
  lemma RanAgreesWithRun<T>(refuses: (Db, Write) -> bool, m: (Value, Value) -> bool, db0: Db, log0: seq<Write>,
                            ws: seq<Write>, db1: Db, log1: seq<Write>, r: Result<T>)
    requires Ran(refuses, m, db0, log0, ws, db1, log1, r)
    ensures r.Ok? <==> Run(refuses, m, db0, ws).Ok?
    ensures r.Err? ==> Run(refuses, m, db0, ws) == Err(r.error)
  {
    if r.Err? {
      var i :| 0 <= i < |ws| && log1 == log0 + ws[..i] && Run(refuses, m, db0, ws[..i]) == Ok(db1)
        && Attempt(refuses, m, db1, ws[i]) == Err(r.error);
      RunSnoc(refuses, m, db0, ws, i);
      FailureSticks(refuses, m, db0, ws, i + 1);
    }
  }

  function FirstOrUndefined(docs: seq<Value>): Value {
    if docs == [] then Undefined else docs[0]
  }

  function Unmatched(m: (Value, Value) -> bool, docs: seq<Value>, q: Value): (r: seq<Value>)
    ensures forall d :: d in r <==> d in docs && !Matches(m, d, q)
  {
    if docs == [] then []
    else (if Matches(m, docs[0], q) then [] else [docs[0]]) + Unmatched(m, docs[1..], q)
  }

  function RemoveFirst(m: (Value, Value) -> bool, docs: seq<Value>, q: Value): seq<Value> {
    if docs == [] then []
    else if Matches(m, docs[0], q) then docs[1..]
    else [docs[0]] + RemoveFirst(m, docs[1..], q)
  }

  function ReplaceFirst(m: (Value, Value) -> bool, docs: seq<Value>, q: Value, d: Value): seq<Value> {
    if docs == [] then []
    else if Matches(m, docs[0], q) then [d] + docs[1..]
    else [docs[0]] + ReplaceFirst(m, docs[1..], q, d)
  }

  /** The replacement as stored: it keeps the matched document's id. */
  function WithIdOf(d: Value, matched: Value): Value {
    if d.Obj? && IdOf(d) == Undefined then Obj([Prop("_id", IdOf(matched))] + d.props) else d
  }
}

/** The store as mutable state: its collections, its id counter, and the log of the deletes,
    updates and replaces it has performed. `acknowledged` is the write concern's answer. */
module Database {
  import opened Values
  import opened Store

  /** The documents of a batch as stored, the i-th stamped with id `base + i` when it has none. */
  function StampAll(ds: seq<Value>, base: nat): (r: seq<Value>)
    requires forall i | 0 <= i < |ds| :: ds[i].Obj?
    ensures |r| == |ds|
    ensures forall i | 0 <= i < |ds| :: r[i].Obj? && IdOf(r[i]) != Undefined
  {
    seq(|ds|, i requires 0 <= i < |ds| => Stamped(ds[i], base + i))
  }

  function IdsOf(docs: seq<Value>): (r: seq<Value>)
    ensures |r| == |docs| && forall i | 0 <= i < |docs| :: r[i] == IdOf(docs[i])
  {
    if docs == [] then [] else [IdOf(docs[0])] + IdsOf(docs[1..])
  }

  /** A batch can be stored when its ids are pairwise distinct and new to the collection. */
  predicate FreshBatch(existing: seq<Value>, stored: seq<Value>) {
    && (forall i | 0 <= i < |stored| :: !HasId(existing, IdOf(stored[i])))
    && (forall i, j | 0 <= i < j < |stored| :: IdOf(stored[i]) != IdOf(stored[j]))
  }

  lemma HasIdSnoc(existing: seq<Value>, d: Value, id: Value)
    ensures HasId(existing + [d], id) <==> HasId(existing, id) || IdOf(d) == id
  {
    var all := existing + [d];
    if HasId(all, id) {
      var i :| 0 <= i < |all| && IdOf(all[i]) == id;
      if i < |existing| {
        assert all[i] == existing[i];
      }
    }
    if HasId(existing, id) {
      var i :| 0 <= i < |existing| && IdOf(existing[i]) == id;
      assert all[i] == existing[i];
    }
    if IdOf(d) == id {
      assert all[|existing|] == d;
    }
  }

  /** A batch is fresh exactly when its first document is, and the rest is fresh once that
      document is stored. */
  lemma FreshCons(existing: seq<Value>, d: Value, rest: seq<Value>)
    ensures FreshBatch(existing, [d] + rest) <==> !HasId(existing, IdOf(d)) && FreshBatch(existing + [d], rest)
  {
    var all := [d] + rest;
    forall i | 0 <= i < |rest| ensures all[i + 1] == rest[i] {
    }
    forall i | 0 <= i < |rest| ensures HasId(existing + [d], IdOf(rest[i])) <==> HasId(existing, IdOf(rest[i])) || IdOf(d) == IdOf(rest[i]) {
      HasIdSnoc(existing, d, IdOf(rest[i]));
    }
    if FreshBatch(existing, all) {
      assert !HasId(existing, IdOf(all[0]));
      forall i, j | 0 <= i < j < |rest| ensures IdOf(rest[i]) != IdOf(rest[j]) {
        assert IdOf(all[i + 1]) != IdOf(all[j + 1]);
      }
      forall i | 0 <= i < |rest| ensures !HasId(existing + [d], IdOf(rest[i])) {
        assert IdOf(all[0]) != IdOf(all[i + 1]);
        assert !HasId(existing, IdOf(all[i + 1]));
      }
    }
    if !HasId(existing, IdOf(d)) && FreshBatch(existing + [d], rest) {
      forall i, j | 0 <= i < j < |all| ensures IdOf(all[i]) != IdOf(all[j]) {
        if i > 0 {
          assert IdOf(rest[i - 1]) != IdOf(rest[j - 1]);
        } else {
          assert !HasId(existing + [d], IdOf(rest[j - 1]));
        }
      }
      forall i | 0 <= i < |all| ensures !HasId(existing, IdOf(all[i])) {
        if i > 0 {
          assert !HasId(existing + [d], IdOf(rest[i - 1]));
        }
      }
    }
  }

  /** What an ordered batch insert stores: the documents before the first whose id is already
      in the collection or earlier in the batch. */
  function FreshPrefix(existing: seq<Value>, stored: seq<Value>): (r: seq<Value>)
    ensures r <= stored
    decreases |stored|
  {
    if stored == [] || HasId(existing, IdOf(stored[0])) then []
    else [stored[0]] + FreshPrefix(existing + [stored[0]], stored[1..])
  }

  /** The stored prefix is fresh. */
  lemma {:induction false} FreshPrefixFresh(existing: seq<Value>, stored: seq<Value>)
    ensures FreshBatch(existing, FreshPrefix(existing, stored))
    decreases |stored|
  {
    if stored != [] && !HasId(existing, IdOf(stored[0])) {
      var d := stored[0];
      var rest := FreshPrefix(existing + [d], stored[1..]);
      FreshPrefixFresh(existing + [d], stored[1..]);
      FreshCons(existing, d, rest);
    }
  }

  /** The stored prefix stops at the first document that would not be fresh. */
  lemma {:induction false} FreshPrefixStops(existing: seq<Value>, stored: seq<Value>)
    ensures var n := |FreshPrefix(existing, stored)|;
      n < |stored| ==> !FreshBatch(existing, stored[..n + 1])
    decreases |stored|
  {
    if stored == [] {
    } else if HasId(existing, IdOf(stored[0])) {
      assert stored[..1] == [stored[0]];
    } else {
      var d, tail := stored[0], stored[1..];
      var rest := FreshPrefix(existing + [d], tail);
      assert FreshPrefix(existing, stored) == [d] + rest;
      FreshPrefixStops(existing + [d], tail);
      if |rest| < |tail| {
        var longer := tail[..|rest| + 1];
        assert stored[..|rest| + 2] == [d] + longer;
        FreshCons(existing, d, longer);
      }
    }
  }

  /** The whole batch is stored exactly when it is fresh. */
  lemma {:induction false} FreshPrefixWhole(existing: seq<Value>, stored: seq<Value>)
    ensures FreshPrefix(existing, stored) == stored <==> FreshBatch(existing, stored)
    decreases |stored|
  {
    FreshPrefixFresh(existing, stored);
    if stored != [] && FreshBatch(existing, stored) {
      assert stored == [stored[0]] + stored[1..];
      FreshCons(existing, stored[0], stored[1..]);
      FreshPrefixWhole(existing + [stored[0]], stored[1..]);
    }
  }

  class DocumentStore {
    var docs: Db
    var nextId: nat
    var log: seq<Write>
    const acknowledged: bool
    /** Which writes the server refuses, in a given state of the documents. */
    const refuses: (Db, Write) -> bool

    constructor (acknowledged: bool, refuses: (Db, Write) -> bool)
      ensures docs == map[] && nextId == 0 && log == []
      ensures this.acknowledged == acknowledged && this.refuses == refuses
    {
      docs := map[];
      nextId := 0;
      log := [];
      this.acknowledged := acknowledged;
      this.refuses := refuses;
    }

    /** `insertOne`: stores the document (stamped with a generated id when it has none) and
        answers its id; a non-document or an id already present is refused. */
    method InsertOne(c: string, d: Value) returns (r: Result<Value>)
      modifies this
      ensures log == old(log) && nextId >= old(nextId)
      ensures !d.Obj? ==> r == Err(NotADocument(c)) && docs == old(docs)
      ensures d.Obj? ==>
        var stored := Stamped(d, old(nextId));
        if HasId(DocsOf(old(docs), c), IdOf(stored)) then r == Err(DuplicateId(c)) && docs == old(docs)
        else r == Ok(IdOf(stored)) && docs == old(docs)[c := DocsOf(old(docs), c) + [stored]]
    {
      if !d.Obj? {
        return Err(NotADocument(c));
      }
      var stored := Stamped(d, nextId);
      nextId := nextId + 1;
      if HasId(DocsOf(docs, c), IdOf(stored)) {
        return Err(DuplicateId(c));
      }
      docs := docs[c := DocsOf(docs, c) + [stored]];
      r := Ok(IdOf(stored));
    }

    /** `insertMany`, ordered: a batch holding a non-document is refused whole; otherwise the
        documents are stored in order up to the first whose id is taken, which fails the
        batch. `written` lists the ids of the documents stored, on failure too. */
    method InsertMany(c: string, ds: seq<Value>) returns (r: Result<seq<Value>>, written: seq<Value>)
      modifies this
      ensures log == old(log) && nextId >= old(nextId)
      ensures (exists i | 0 <= i < |ds| :: !ds[i].Obj?) ==>
        r == Err(NotADocument(c)) && written == [] && docs == old(docs)
      ensures (forall i | 0 <= i < |ds| :: ds[i].Obj?) ==>
        var stored := StampAll(ds, old(nextId));
        var kept := FreshPrefix(DocsOf(old(docs), c), stored);
        && docs == old(docs)[c := DocsOf(old(docs), c) + kept]
        && written == IdsOf(kept)
        && r == if FreshBatch(DocsOf(old(docs), c), stored) then Ok(IdsOf(stored)) else Err(DuplicateId(c))
    {
      if exists i | 0 <= i < |ds| :: !ds[i].Obj? {
        return Err(NotADocument(c)), [];
      }
      var existing := DocsOf(docs, c);
      var stored := StampAll(ds, nextId);
      nextId := nextId + |ds|;
      var kept := FreshPrefix(existing, stored);
      docs := docs[c := existing + kept];
      written := IdsOf(kept);
      FreshPrefixWhole(existing, stored);
      if kept != stored {
        return Err(DuplicateId(c)), written;
      }
      r := Ok(written);
    }

    /** A delete, update or replace, with the effect `Attempt` gives it; it is logged when it
        succeeds. */
    method Apply(m: (Value, Value) -> bool, w: Write) returns (r: Result<Value>)
      modifies this
      ensures nextId == old(nextId)
      ensures var out := Attempt(refuses, m, old(docs), w);
        && (out.Ok? ==> r == Ok(out.value.matched) && docs == out.value.db && log == old(log) + [w])
        && (out.Err? ==> r == Err(out.error) && docs == old(docs) && log == old(log))
    {
      var out := Attempt(refuses, m, docs, w);
      if out.Err? {
        return Err(out.error);
      }
      docs := out.value.db;
      log := log + [w];
      r := Ok(out.value.matched);
    }

    /** The writes one after another, each awaited, stopping at the first that fails. */
    method ApplyAll(m: (Value, Value) -> bool, ws: seq<Write>) returns (r: Result<()>)
      modifies this
      ensures nextId == old(nextId)
      ensures Ran(refuses, m, old(docs), old(log), ws, docs, log, r)
    {
      var i := 0;
      while i < |ws|
        invariant 0 <= i <= |ws|
        invariant log == old(log) + ws[..i]
        invariant Run(refuses, m, old(docs), ws[..i]) == Ok(docs)
        invariant nextId == old(nextId)
      {
        RunSnoc(refuses, m, old(docs), ws, i);
        LogPrefixes(old(log), ws, i);
        ghost var before := docs;
        var answer := Apply(m, ws[i]);
        if answer.Err? {
          assert Attempt(refuses, m, before, ws[i]) == Err(answer.error);
          return Err(answer.error);
        }
        i := i + 1;
      }
      assert ws[..i] == ws;
      return Ok(());
    }
  }
}
