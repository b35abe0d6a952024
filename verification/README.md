# rongo's referential-integrity layer, modelled in Dafny

rongo layers foreign keys over a document store. Every collection has a primary key, a set of
foreign keys (dotted paths that hold keys of documents in other collections), and the mirrored
set of references that other collections hold to it. On top of that graph the layer provides:

- **selectors**: small programs that walk a document, follow foreign keys into the target
  collections, and assemble a result. A set of foreign documents stays *lazy*, as a
  collection plus a list of filter fragments, until something needs its elements;
- **augmented filters**: a `$in`/`$nin` operand at a foreign-key position may hold
  sub-queries on the target collection, which are replaced by the keys of the documents they
  match;
- **nested inserts**: a document may embed, at a foreign-key position, a whole document of
  the target collection. That document is inserted first and replaced by its key. A
  dependency collector records every key generated on the way, so a failed insert can be
  rolled back;
- **the collection handle**: key-based query helpers, counting, updates, the
  plan-then-commit cascade delete, and the insert and replace entry points with their
  rollback.

The model works over an in-memory store, which a class with a generated-id counter, a log
of performed writes and a `refuses` parameter (which writes the server turns down) stands in for. These collaborators are parameters (the `Hooks` datatype):

- the key-path encoder;
- the store's own matching of ordinary filters (`{}` and `{$and: …}` are interpreted);
- the insert-time dangling-key check;
- the cascade-delete planner.

The modules, in dependency order:

| file | module | models |
|---|---|---|
| values.dfy | `Values` | documents, errors, `Result`/`Option`, lodash helpers |
| graph.dfy | `Graph` | `src/types.ts`: graph, configs, policies, the validity and symmetry predicates, registration |
| store.dfy | `Store`, `Database` | the document store: matching, reads, writes, replay of a write sequence, the mutable store |
| normalize.dfy | `FilterQuery` | `src/internal/normalizeFilterQuery.ts`, and `find`/`findOne` as used by the other modules |
| lazy.dfy | `LazyDocuments` | `src/internal/selector/lazyDocuments.ts` |
| selector.dfy | `Selectors` | `src/internal/selector/definition.ts`: the nine selectors as one datatype and one evaluator |
| selector_laws.dfy | `SelectorLaws` | what each selector does, as lemmas; the object and predicate loops as methods |
| insertion.dfy | `Insertion` | `src/internal/insertion/insertSafely.ts` and `normalizeInsertionDoc.ts` |
| collection.dfy | `Collections` | `src/collection.ts` |
| samples.dfy | `Samples` | the test fixture `src/test/samples.ts` |

Where the sources disagree with each other, the model follows the code that runs:

- A collection's primary key is `key`, as `src/collection.ts:64-66` and the fixture use it. The
  type at `src/types.ts:10` names it `primaryKey`.
- A foreign key's `path` is a sequence of segments with an `updater` beside it, as in the
  fixture at `src/test/samples.ts:62-63`. The type at `src/types.ts:22` says `path: string`.
- The fixture's delete policy `Delete` (`src/test/samples.ts:49`, `76`, `89`) does not exist in
  the enum at `src/types.ts:56-63`; it is read as `Remove`.
- The fixture's schema lists its declarations under `foreignKeys` (`src/test/samples.ts:38`,
  `46`), while the `Schema` type at `src/types.ts:35` calls the field `foreign`. The model uses
  the type's shape.
- The fixture's compiled graph omits `nullable` and `optional`; they are taken as false.
- `src/internal/selector/definition.ts:94` and `:97` read `collection.primaryKey`, which a
  collection handle does not have. This is Finding 1 below.

## Model

| member | source | states |
|---|---|---|
| Values.Lookup | src/internal/selector/definition.ts:77 | field access gives undefined on anything but an object; a defined result is the value of a property of that name |
| Values.KeysOf | src/internal/selector/definition.ts:284 | an object's own keys in insertion order; none for other values |
| Values.Put | src/internal/selector/definition.ts:277-290 | assigning `result[field]` makes the field hold the new value and leaves every other field's value as it was; it adds no other key, an existing field keeps the length, and a new one is appended last |
| Values.CastArray | src/internal/insertion/insertSafely.ts:83 | `castArray`: an array's items, any other value as a one-element list |
| Values.Flatten | src/internal/selector/definition.ts:169-175 | a list with no array in it is flattened to itself |
| Graph.DefaultConfig | src/collection.ts:59 | the default configuration: key `_id`, no foreign keys, no references |
| Graph.ConfigOf | src/collection.ts:64-74 | a handle reads its registered configuration, or the default one for an unregistered name |
| Graph.Register | src/collection.ts:59 | after registration the name is known with its previous or the default configuration; every other configuration is unchanged and no other name is added |
| Graph.RegisterKeepsConfigs | src/collection.ts:59 | registering any name changes nothing a handle of any collection reads |
| Graph.RegisterKeepsValid | src/collection.ts:59 | registering keeps a symmetric graph with legal policies symmetric and legal |
| Store.ConjunctionSnoc | src/internal/selector/lazyDocuments.ts:17-26 | a conjunction with one more fragment matches exactly the documents matching the shorter conjunction and the fragment |
| Store.Filtered | src/collection.ts:135 | the matches are at most the documents, and a document is a match exactly when it is stored and matches |
| Store.FilteredKeepsAll | src/collection.ts:135 | a filter every document matches returns the documents in stored order |
| Store.RawFind | src/collection.ts:133-136 | `find` returns exactly the stored documents of the collection that match |
| Store.FilteredMonotone | src/internal/selector/lazyDocuments.ts:24-26 | a filter whose matches all match another finds nothing the other misses |
| Store.Page | src/internal/selector/lazyDocuments.ts:32-36 | `skip`/`limit` select the window starting at `skip`, with at most `limit` items (0 meaning no limit), in order |
| Store.FirstOrNull | src/collection.ts:146 | `findOne` answers the first match, and null exactly when there is none |
| Store.FindById | src/internal/insertion/insertSafely.ts:42 | a non-null read-back by id is a stored document with that id, and an id no stored document has reads back null |
| Store.FindByIds | src/internal/insertion/insertSafely.ts:52-54 | the read-back by ids holds exactly the stored documents whose id is listed |
| Store.WithIdInTail | src/internal/insertion/insertSafely.ts:52-54 | reading back the ids of a freshly appended tail returns that tail, in order |
| Store.FirstByIdOfAppended | src/internal/insertion/insertSafely.ts:42 | reading back by the id of a document just appended with a new id returns that document |
| Store.Stamped | src/internal/insertion/insertSafely.ts:37-41 | a stored document keeps its own `_id`, or gets the generated one as its first field |
| Store.StampedId | src/internal/insertion/insertSafely.ts:37-42 | the id a document is stored under is its declared id or the generated one |
| Store.Perform | src/collection.ts:249-251 | what the server does with a write it accepts: only a replace can still fail; an update changes no document and answers the first match |
| Store.DeleteManyRemoves | src/internal/insertion/insertSafely.ts:90 | a `deleteMany` the server accepts leaves in its collection exactly the documents that do not match |
| Store.UpdateKeepsDocs | src/collection.ts:321-327 | an `updateOne` or `updateMany` the server accepts leaves every document as it was |
| Store.Replay | src/collection.ts:412-413 | accepted deletes and updates in sequence never fail |
| Store.ReplaySnoc | src/collection.ts:412 | replaying one more write performs it on the replay of the prefix, and fails when it fails |
| Store.Run | src/collection.ts:412-413 | writes awaited one after another, each refused by the store or performed; a run that succeeds is the replay of its writes |
| Store.RunSnoc | src/internal/insertion/insertSafely.ts:87-91 | a run one write longer attempts that write on the prefix's result and fails exactly when the attempt fails |
| Store.FailureSticks | src/collection.ts:412-413 | once a prefix of the writes fails, the whole run fails with the same error: nothing after the first failure happens |
| Store.RanAgreesWithRun | src/internal/insertion/insertSafely.ts:87-91 | an awaited sequence reports success exactly when its run succeeds, and otherwise reports the run's first error |
| Database.StampAll | src/internal/insertion/insertSafely.ts:44-51 | a stored batch has one document per item, each of them with a defined id |
| Database.HasIdSnoc | src/internal/insertion/insertSafely.ts:44-51 | after appending one document an id is taken exactly when it was taken before or is that document's |
| Database.FreshCons | src/internal/insertion/insertSafely.ts:44-51 | a batch is fresh exactly when its first id is free and the rest is fresh after that document is stored |
| Database.FreshPrefixFresh | src/internal/insertion/insertSafely.ts:44-51 | the part of a batch an ordered insert stores has free, distinct ids |
| Database.FreshPrefixStops | src/internal/insertion/insertSafely.ts:44-51 | the stored part stops at the first document whose id clashes: one more document would not be fresh |
| Database.FreshPrefixWhole | src/internal/insertion/insertSafely.ts:44-51 | the whole batch is stored exactly when the batch is fresh |
| Database.DocumentStore.InsertOne | src/internal/insertion/insertSafely.ts:37-41 | a document is appended under its id and the id answered; a non-document or a taken id is refused and nothing is stored |
| Database.DocumentStore.InsertMany | src/internal/insertion/insertSafely.ts:44-51 | an ordered insert: a non-document stores nothing; otherwise the documents up to the first taken or repeated id are appended and their ids reported, and the ids of the whole batch are answered only when none is taken |
| Database.DocumentStore.Apply | src/collection.ts:321-327 | a delete, update or replace the store refuses fails with `WriteFailed` and changes nothing; otherwise it has the effect `Perform` gives it and is logged exactly when it succeeds; the id counter is untouched |
| Database.DocumentStore.ApplyAll | src/internal/insertion/insertSafely.ts:87-91 | the writes are awaited one after another, stopping at the first failure: the log grows by the writes attempted before it, the documents are their run, and the failure is that write's error |
| FilterQuery.KeyValues | src/internal/normalizeFilterQuery.ts:33-34 | selecting the key of found documents gives one key per document, in order |
| FilterQuery.BaseQueryVerbatim | src/internal/normalizeFilterQuery.ts:13 | with `baseQuery` the query is returned as it is |
| FilterQuery.ExprUntouched | src/internal/normalizeFilterQuery.ts:17-18 | a subtree under `$expr` is returned as it is, not walked into |
| FilterQuery.OtherSegmentsNotRewritten | src/internal/normalizeFilterQuery.ts:15-51 | at a position whose last segment is not `$expr`, `$in` or `$nin` the rule answers nothing and the walk descends |
| FilterQuery.MembershipOffForeignKeyNotRewritten | src/internal/normalizeFilterQuery.ts:22-27 | `$in`/`$nin` off a foreign key is left to the walk |
| FilterQuery.ForeignSubQueryResolved | src/internal/normalizeFilterQuery.ts:28-37 | a plain-object operand at a foreign key becomes the key list of the foreign documents it selects, or its error |
| FilterQuery.MisshapedOperandRefused | src/internal/normalizeFilterQuery.ts:47-50 | any other operand shape at a foreign key fails, naming the key and the collection |
| FilterQuery.KeyValuesMembers | src/internal/normalizeFilterQuery.ts:33-34 | a key is in the selected list exactly when some listed document has it |
| FilterQuery.PrimaryKeysMeaning | src/internal/normalizeFilterQuery.ts:33-37 | a sub-query resolves to exactly the keys of the foreign documents matching the normalised sub-query |
| FilterQuery.ResolveItemsAppend | src/internal/normalizeFilterQuery.ts:39-46 | an array operand is resolved item by item, with the results concatenated in item order and the first failure reported |
| FilterQuery.ResolveOneItem | src/internal/normalizeFilterQuery.ts:41-44 | one item: a sub-query becomes its key list, a literal stays itself |
| FilterQuery.ResolveItemsKeepsLiterals | src/internal/normalizeFilterQuery.ts:39-46 | every literal item survives the rewrite |
| FilterQuery.LiteralOperandUnchanged | src/internal/normalizeFilterQuery.ts:39-46 | an all-literal operand comes back equal |
| FilterQuery.PlainQueryUnchanged | src/internal/normalizeFilterQuery.ts:13-52 | a query with no foreign sub-query anywhere normalises to itself |
| LazyDocuments.Query | src/internal/selector/lazyDocuments.ts:17-22 | no fragment gives `{}`; otherwise `{$and: fragments}` with the fragments in insertion order |
| LazyDocuments.Extend | src/internal/selector/lazyDocuments.ts:24-26 | extending gives a set over the same collection with the fragment appended |
| LazyDocuments.FetchOneIsIndex | src/internal/selector/lazyDocuments.ts:28-36 | fetching element i is indexing the full fetch, undefined past its end, with the same failure |
| LazyDocuments.NormalizeConjunction | src/internal/selector/lazyDocuments.ts:28-30 | the fetched conjunction is normalised fragment by fragment, each at its position under `$and` |
| LazyDocuments.ExtendNarrows | src/internal/selector/lazyDocuments.ts:17-26 | the extended set fetches exactly the documents of the original fetch that match the new fragment |
| Selectors.Items | src/internal/selector/definition.ts:142-143 | a lazy set is fetched, an array taken as it is, and anything else refused |
| Selectors.Fields | src/internal/selector/definition.ts:257 | the listed fields are exactly the entries' field names |
| SelectorLaws.IdentitySelects | src/internal/selector/definition.ts:46-48 | identity returns an ordinary value unchanged, and a lazy set's fetch or its failure |
| SelectorLaws.InIdentityFetchesAll | src/internal/selector/definition.ts:37-39 | selection starts from every document of the collection, in stored order |
| SelectorLaws.SelectEachPointwise | src/internal/selector/definition.ts:145-149 | the mapped list succeeds exactly when every item does; then it has one result per item, each selected at its index |
| SelectorLaws.SelectEachFromStart | src/internal/selector/definition.ts:145-149 | mapping a whole array selects item i with position i appended to the stack, and succeeds exactly when every item does |
| SelectorLaws.MapSelectsEachItem | src/internal/selector/definition.ts:140-150 | map fetches a lazy set, refuses a non-array, and yields the pointwise selection |
| SelectorLaws.FlatMapFlattensMap | src/internal/selector/definition.ts:163-176 | flat-map is the map's results flattened one level, and refuses a non-array |
| SelectorLaws.FieldOnCollections | src/internal/selector/definition.ts:69-75 | a field on an array or lazy set is the map of itself, and on a primitive fails |
| SelectorLaws.OrdinaryFieldDescends | src/internal/selector/definition.ts:77-103 | off a foreign key, the field's value is selected further in the same collection, with the field appended to the stack |
| SelectorLaws.ForeignNullishReturned | src/internal/selector/definition.ts:81-88 | an undefined optional or null nullable foreign key is returned as it is |
| SelectorLaws.ForeignScalarFetched | src/internal/selector/definition.ts:90-100 | a single foreign key is replaced by the target's document with that primary key (or null), then selected in the target with an empty stack |
| SelectorLaws.ForeignArrayDeferred | src/internal/selector/definition.ts:95-100 | an array of foreign keys becomes, without a read, the target's lazy set with the one fragment `{key: {$in: keys}}`, and the stack is emptied |
| SelectorLaws.IndexOnValues | src/internal/selector/definition.ts:119-127 | index picks element i (undefined past the end) with i appended to the stack; a non-array is refused |
| SelectorLaws.IndexOnLazyAsOnFetch | src/internal/selector/definition.ts:122-126 | on a lazy set, index has the outcome of indexing the full fetch |
| SelectorLaws.FilterExtendsLazy | src/internal/selector/definition.ts:191-198 | filter extends a lazy set without reading it, and refuses anything else |
| SelectorLaws.FilterNarrows | src/internal/selector/definition.ts:193-194 | a filtered set fetches no document the unfiltered set would not |
| SelectorLaws.KeptExactly | src/internal/selector/definition.ts:219-225 | the predicate filter keeps exactly the items whose predicate holds, in their original order |
| SelectorLaws.PredicateSelectsKept | src/internal/selector/definition.ts:213-228 | the predicate selector materialises its input, then selects further from the kept items |
| SelectorLaws.KeepMatching | src/internal/selector/definition.ts:219-225 | the accumulating loop computes the kept items |
| SelectorLaws.SelectAllPointwise | src/internal/selector/definition.ts:241-245 | the tuple succeeds exactly when every selector does, with one result per selector in order |
| SelectorLaws.TupleSelectsEach | src/internal/selector/definition.ts:241-245 | a tuple yields one result per selector, each from the same input |
| SelectorLaws.ObjectOnCollections | src/internal/selector/definition.ts:266-272 | an object selector on an array or lazy set is the map of itself, and on a primitive fails |
| SelectorLaws.FillOthersKeys | src/internal/selector/definition.ts:282-291 | the `*` entry adds exactly the value's keys that no entry lists |
| SelectorLaws.AssembleKeys | src/internal/selector/definition.ts:273-291 | the field loop produces exactly the listed fields, plus the unlisted keys where `*` appears |
| SelectorLaws.ObjectKeys | src/internal/selector/definition.ts:260-293 | on an object, the result's keys are the listed fields other than `*`, plus every unlisted key of the value when `*` is listed |
| SelectorLaws.FillOthersValues | src/internal/selector/definition.ts:284-290 | the `*` loop stores under each unlisted key the field selection of that key, and leaves every other key as it was |
| SelectorLaws.AssembleValues | src/internal/selector/definition.ts:274-291 | after the entry loop a listed field holds the selection of the last entry listing it, an unlisted key of the value holds the selection of the last `*` entry, and every other key is as before |
| SelectorLaws.ObjectValues | src/internal/selector/definition.ts:273-292 | on an object, every key the object selector produces holds `new FieldSelector(key, sel).select(value)`, with `sel` the last entry listing the key, or the last `*` entry for an unlisted key |
| SelectorLaws.BuildObject | src/internal/selector/definition.ts:273-292 | the entry loop builds the same properties as the specification fold |
| SelectorLaws.FillUnlisted | src/internal/selector/definition.ts:284-290 | the `*` loop stores the selection of every unlisted key, in key order, as the specification fold does |
| SelectorLaws.AsWrittenLookupMisses | src/internal/selector/definition.ts:94 | the lookup by `primaryKey` finds no author for a key that exists; the lookup by `key` finds it |
| Insertion.Cleanups | src/internal/insertion/insertSafely.ts:87-91 | one `deleteMany` per recorded collection, in recording order |
| Insertion.CleanupsRemoveRecorded | src/internal/insertion/insertSafely.ts:86-93 | after the cleanups a recorded collection keeps exactly its documents matching none of its keys; every other collection is unchanged |
| Insertion.DependencyCollector.constructor | src/internal/insertion/insertSafely.ts:75-78 | a new collector is empty |
| Insertion.DependencyCollector.Add | src/internal/insertion/insertSafely.ts:80-84 | the keys (a scalar as one) are appended to the collection's list, which is created if absent; nothing else changes |
| Insertion.DependencyCollector.Delete | src/internal/insertion/insertSafely.ts:86-93 | the cleanups are awaited in recording order, stopping at the first failure; the collector ends empty only when all succeed, and is left as it was when one fails |
| Insertion.ReadBackOfFreshBatch | src/internal/insertion/insertSafely.ts:52-54 | reading back a fresh batch by its ids returns the batch, in order |
| Insertion.RollbackRemovesInserted | src/internal/insertion/insertSafely.ts:86-93 | when every document stored since a point has its key recorded, the cleanups leave no document that was not there before |
| Insertion.SelectKey | src/internal/insertion/insertSafely.ts:56-59 | the key of the read-back document, or one key per read-back document |
| Insertion.InsertAndReadBack | src/internal/insertion/insertSafely.ts:36-55 | a single document is stored as the driver stamps it (its own `_id` or the generated one) and read back by its id; an array of documents is inserted in order and the stored prefix read back by the reported ids, the whole batch on success; a refused write stores nothing |
| Insertion.RecordingTracks | src/internal/insertion/insertSafely.ts:56-59 | recording the read-back keys records the key of every document just stored |
| Insertion.InsertVerified | src/internal/insertion/insertSafely.ts:36-64 | the keys of whatever was stored, including the prefix of a failed batch, are recorded before the failure or the acknowledgement check; success is acknowledged and answers the stored document(s) |
| Insertion.InsertVerifiedAsWritten | src/internal/insertion/insertSafely.ts:44-59 | as written: a batch refused part-way leaves its stored prefix in the store and records none of its keys |
| Insertion.BatchPrefixUnrecorded | src/internal/insertion/insertSafely.ts:44-59 | a Book batch `[{_id: 1, author: …}, {_id: 1}]` stores its first Book, no key is recorded for it, and the cleanups leave it |
| Insertion.InsertSafely | src/internal/insertion/insertSafely.ts:20-65 | normalise, verify, then insert: without `baseDocument` the normalised document is the input with every embedded foreign document replaced by the recorded key of a stored document; a normalisation failure or a failed dangling-key check ends this level with no insert of its own, and success implies the check passed; nothing is logged, documents and recorded keys only grow, every new document's key is recorded, and success answers the last stored document or the stored batch |
| Insertion.NormalizeInsertionDoc | src/internal/insertion/normalizeInsertionDoc.ts:24-49 | with `baseDocument` the document is returned as it is, and nothing is stored or recorded; otherwise the result is the document with each plain object at a foreign-key position replaced by the recorded key of a document stored in the target, and everything else kept, key for key and item for item |
| Insertion.VisitInsert | src/internal/insertion/normalizeInsertionDoc.ts:31-48 | a plain object at a foreign key is inserted into the target and replaced by the key of the stored document, which is recorded; anything else is walked into, its children rewritten the same way and scalars kept |
| Insertion.DescendInsert | src/internal/insertion/normalizeInsertionDoc.ts:31 | an object keeps its keys and an array its length, each child rewritten at its extended position; a scalar is returned unchanged |
| Insertion.DescendProps | src/internal/insertion/normalizeInsertionDoc.ts:31 | an object's values are walked in order under their keys, each replaced by its rewrite; nothing is logged and every new document's key is recorded |
| Insertion.DescendItems | src/internal/insertion/normalizeInsertionDoc.ts:31 | an array's items are walked in order at their positions, each replaced by its rewrite; nothing is logged and every new document's key is recorded |
| Insertion.RewrittenGrows | src/internal/insertion/normalizeInsertionDoc.ts:40-47 | a rewrite stays valid while later inserts store documents and record keys: a key once stored and recorded stays so |
| Collections.CountCapped | src/collection.ts:98-107 | a count is the number of matches of the normalised query, capped by `limit` unless it is 0 |
| Collections.KeyHelpersAreBaseQueries | src/collection.ts:150-162 | `findByKey`, `findByKeys` and `countByKeys` hand the store their literal key query, never normalised |
| Collections.HasIffSomeMatch | src/collection.ts:168-170 | `has` holds exactly when some stored document matches the normalised query |
| Collections.HasKeysCounts | src/collection.ts:176-182 | `hasKeys` with `some` holds exactly when one document matches; without it, exactly when the number of matches equals the number of keys given |
| Collections.FindByKeyMeaning | src/collection.ts:150-155 | a found key document is stored and matches the key query; null means no document matches |
| Collections.HasKeysMissesRepeatedKey | src/collection.ts:181 | with one stored document of key 7, `hasKeys([7, 7])` is false, while the distinct-key count answers true |
| Collections.HasKeysDistinctMeaning | src/collection.ts:176-182 | counted against the distinct keys, `hasKeys` holds exactly when every key given is a stored document's key, and with `some` exactly when one is |
| Collections.RolledBackLeavesNothing | src/collection.ts:252-255 | a write whose rollback cleanups all succeed leaves no document that was not stored before it |
| Collections.Collection.constructor | src/collection.ts:55-60 | constructing a handle registers the name in the shared graph |
| Collections.Collection.Update | src/collection.ts:313-328 | the normalised query's update is sent as `updateMany` with `multi` and `updateOne` otherwise; a refused update fails and changes nothing; a normalisation failure writes nothing |
| Collections.Collection.UpdateNormalized | src/collection.ts:321-327 | an accepted update is logged once, as `updateMany` with `multi` and `updateOne` otherwise, and changes no document; a refused one fails with `WriteFailed` and leaves the store as it was |
| Collections.Collection.UpdateByKey | src/collection.ts:330-339 | the literal `{key: k}` query is sent to `updateOne`, accepted or refused as any update |
| Collections.Collection.UpdateByKeys | src/collection.ts:341-351 | the literal `{key: {$in: keys}}` query is sent to `updateMany`, accepted or refused as any update |
| Collections.Collection.FindOneAndUpdate | src/collection.ts:353-366 | the first match is answered, with "none" as null, and the update logged; a refused update fails and changes nothing |
| Collections.Collection.FindOneAndUpdateNormalized | src/collection.ts:359-364 | an accepted `updateOne` is logged and the first match answered, null when nothing matches, never undefined; a refused one fails and changes nothing |
| Collections.Collection.Delete | src/collection.ts:393-414 | the cascade plan of the normalised query, asked for with the caller's `single` and `propagate`, is committed: tasks in schedule order, then the remover last, stopping at the first failure; a planning failure writes nothing |
| Collections.Collection.Commit | src/collection.ts:412-413 | the tasks are awaited in schedule order, then the remover: a failure leaves the log grown by the writes before the failing one and reports its error; success answers the remover's result on the tasks' replay |
| Collections.Collection.DeleteByKey | src/collection.ts:416-422 | the literal key query is planned with `single` set and the caller's `propagate` |
| Collections.Collection.DeleteByKeys | src/collection.ts:424-432 | the literal keys query is planned with `single` unset and the caller's `propagate` |
| Collections.Collection.Insert | src/collection.ts:214-227 | as written: a failure logs no cleanup and every document stored before it stays |
| Collections.Collection.InsertWithRollback | src/collection.ts:214-227 | with the failure awaited: success leaves every new document tracked; a failure runs the collector's cleanups and re-throws its error, or the cleanup's own when a cleanup fails |
| Collections.Collection.ReplaceOne | src/collection.ts:231-256 | as written: a failed normalisation of the replacement is rolled back and its error re-thrown, a failed replace is not rolled back |
| Collections.Collection.ReplaceOneWithRollback | src/collection.ts:231-256 | with the replace awaited: any failure after the query is normalised is rolled back |
| Collections.Collection.ReplaceNormalized | src/collection.ts:242-255 | the replacement's nested inserts run first; if they fail they are rolled back and the error re-thrown (the cleanup's if it fails); then one replace, refused or performed, rolled back on failure only when the failure is awaited |
| Collections.Collection.ReplaceByKey | src/collection.ts:258-267 | `replaceOne` on the literal key query |
| Collections.Collection.FindOneAndReplace | src/collection.ts:269-298 | every failure after the query is normalised is rolled back; "none matched" is answered as null |
| Samples.NonWildcard | src/test/samples.ts:61-63 | the key name's segments are path segments other than the wildcard |
| Samples.UpdaterOf | src/test/samples.ts:62-63 | an updater exists exactly for wildcard paths, and has a hole at each wildcard position |
| Samples.SampleGraphValid | src/test/samples.ts:57-104 | the expected graph is symmetric (each foreign key mirrored in its target's references, and each reference a mirror) and its delete policies are legal |
| Samples.SampleSchemaCompiles | src/test/samples.ts:36-104 | the expected graph is the test schema compiled: default `_id` keys, `Verify` for the omitted insert policy, the declared delete policies, the wildcard path split with a positional updater and filed under `favoriteBooks` |
| Samples.SampleRegistration | src/collection.ts:59 | registering a fixture collection again changes nothing, and registering any name keeps the fixture graph valid |

## Left out

- Asynchrony: `Promise.all` and `await` ordering are modelled as sequential, left-to-right evaluation that stops at the first failure.
- The document store: its query language is the `matches` parameter, except for `{}` and `{$and: …}`. Updates are logged but their operators are not applied to documents. Generated object ids come from a counter.
- The deep walk `mapDeep` is not part of this model. It is read as: the callback sees every proper descendant with its position; an answer replaces the node; no answer descends into arrays and plain objects and keeps anything else.
- `stackToKey`, `verifyInsertionDoc`, `propagateDelete` and `buildGraph` are not part of this model. The first three are parameters. The compiled graph is given, and `Samples.SchemaCompiled` states the correspondence the fixture shows.
- Resolving a foreign collection through `rongo.collection(name)` registers it in the graph as a side effect during selection, normalisation and insertion. The model reads the configuration with `ConfigOf`, which gives the same default, and does not register.
- The key read after an insert (`collection.from(documents).select(collection.key)`) is a plain field read. The model does not follow a primary key that is itself a foreign key.
- `enrichPromise`, `from`, `findReferences`, `aggregate`, `distinct`, `isCapped`, `stats`, `watch`, `drop` and the index methods forward to the store or to code that is not part of this model.
- `findByKeyAndReplace`, `findByKeyAndUpdate`, `findByKeysAndUpdate`, `findOneAndDelete`, `findByKeyAndDelete` and `findByKeysAndDelete` are compositions of modelled operations and are not modelled separately.
- Driver options other than `baseQuery`, `baseDocument`, `multi`, `single`, `some`, the count `limit` and `propagate` are not modelled. `propagate` is handed to the cascade planner, whose use of it is not part of this model.
- `src/rongo.ts`: connection handling and database commands. `Rongo` keeps only the graph, the store and the collaborators.
- Error messages are error constructors, not strings.
- Store.Perform: a delete, update or replace answers the first document its query matched (Undefined when none). It stands in for the driver's own result (`acknowledged`, `deletedCount`, `matchedCount`, `modifiedCount`, `upsertedId`), which `update`, `replaceOne`, `replaceByKey` and `delete` hand back as they are; those counts are not modelled. Only `findOneAndUpdate` and `findOneAndReplace` answer a document in the source.
- Selectors.Select: a user predicate of the `predicate` selector is a total function of the item, its index and the items. A predicate that throws or whose promise rejects is not modelled.
- Connection, write-concern and server errors are the store's `refuses` parameter: any delete, update or replace may be refused, and a refused write fails with `WriteFailed` and changes nothing. Inserts fail only for the reasons the model states (a non-document, a taken or repeated id, the dangling-key check).
- Numbers are integers (`Num(n: int)`); fractional and special numbers are not modelled.
- Values.KeysOf: keeps the order in which properties were created. JavaScript enumerates integer-like keys first, in ascending order, and then the other keys in creation order; that ordering is not modelled.
- Values.Put: appends a new key last, in creation order, without the integer-like-keys-first enumeration order of JavaScript objects.
- Insertion.InsertAndReadBack: reads back by the list of ids the ordered insert reports. The driver's `insertedIds` is an object keyed by batch index, handed to `$in` as it is; how the driver serialises it is not part of this model.
- Insertion.InsertSafely: the success case states the stored position of the answer, not that it equals the stamped normalised input.
- Collections.Collection.Insert: states that nothing is logged and documents only grow, not which documents a failure leaves.
- Collections.RolledBackLeavesNothing: assumes the store matches a listed key under `$in` (`MatchesListedKeys`), that no inserted document has an empty array as its key (`NoEmptyKeys`), and that every cleanup is accepted. When a cleanup is refused, the documents of that collection and of the later ones stay; `RolledBack` still states which cleanups ran.
- Collections.HasKeysDistinctMeaning: assumes the store reads `{key: {$in: xs}}` as membership (`KeyInMatcher`) and that keys are unique in the collection (`UniqueKeys`).
- Values.Flatten: states only that a list without arrays is flattened to itself.

## Findings

| source | as written | input that shows it | evidently intended | confidence | as-written member | corrected member |
|---|---|---|---|---|---|---|
| src/internal/selector/definition.ts:94 | the foreign lookup reads `collection.primaryKey`, which a handle does not have, so the query is `{undefined: value}` | a Book `{_id: 1, author: 7}` and an Author `{_id: 7}`: selecting `author` gives null | look up by `collection.key` | not executed | SelectorLaws.AsWrittenLookupMisses | SelectorLaws.ForeignScalarFetched |
| src/collection.ts:219-225 | `insert` returns `insertSafely(...)` without awaiting it inside `try`, so an asynchronous failure bypasses `dependencies.delete()` | a Book embedding a new Author, where the Book fails verification after the Author was stored: the Author stays | await inside `try` and roll back on failure | not executed | Collections.Collection.Insert | Collections.Collection.InsertWithRollback |
| src/collection.ts:249-251 | `replaceOne` returns the store's `replaceOne` promise without awaiting it, so its failure escapes the `catch` | a replacement embedding a new Author and carrying an `_id` different from the matched document's: the replace fails and the Author stays | await the replace inside `try` | not executed | Collections.Collection.ReplaceOne | Collections.Collection.ReplaceOneWithRollback |
| src/collection.ts:181 | `hasKeys` compares the match count with `keys.length`, which counts repeated keys | one Author `{_id: 7}`: `hasKeys([7, 7])` is false | compare with the number of distinct keys | not executed | Collections.HasKeysMissesRepeatedKey | Collections.HasKeysDistinctMeaning |
| src/internal/insertion/insertSafely.ts:44-59 | an ordered `insertMany` refused part-way throws before `dependencies.add`, so the documents it did store have no recorded key and the rollback leaves them | a Book batch `[{_id: 1, author: {…}}, {_id: 1}]`: the first Book is stored, the second is refused, and the first Book stays after the cleanups | record the keys of the stored prefix before re-throwing | not executed | Insertion.InsertVerifiedAsWritten | Insertion.InsertVerified |
