/**
 * The compiled dependency graph (src/types.ts): per collection, its primary key, its outbound
 * foreign keys and the mirrored inbound references, together with the insert and delete
 * policies and the constraints that make a foreign-key configuration legal.
 */
module Graph {
  import opened Values

  datatype InsertPolicy = InsertBypass | Verify

  datatype DeletePolicy = DeleteBypass | Reject | Remove | Nullify | Unset | Pull

  /** The array-wildcard path segment. */
  const Wildcard: string := "$"

  /** `path` is the foreign-key location split into segments; `updater` is the same path with
      the wildcard replaced by a positional hole (None), present only for wildcard paths. */
  datatype ForeignKeyConfig = ForeignKeyConfig(
    path: seq<string>,
    updater: Option<seq<Option<string>>>,
    collection: string,
    nullable: bool,
    optional: bool,
    onInsert: InsertPolicy,
    onDelete: DeletePolicy)

  datatype CollectionConfig = CollectionConfig(
    key: string,
    foreignKeys: map<string, ForeignKeyConfig>,
    references: map<string, map<string, ForeignKeyConfig>>)

  type Graph = map<string, CollectionConfig>

  /** The user-authored schema: collection name to its optional primary key and its
      foreign-key declarations, keyed by dotted path. */
  datatype ForeignKeyDecl = ForeignKeyDecl(
    collection: Option<string>,
    nullable: Option<bool>,
    optional: Option<bool>,
    onInsert: Option<InsertPolicy>,
    onDelete: Option<DeletePolicy>)

  datatype SchemaEntry = SchemaEntry(primary: Option<string>, foreign: map<string, ForeignKeyDecl>)

  type Schema = map<string, SchemaEntry>

  const DefaultKey: string := "_id"

  /** The configuration a collection gets when the graph does not know it: the store's native
      identity field as primary key, no foreign keys, no references. */
  function DefaultConfig(): (c: CollectionConfig)
    ensures c.key == DefaultKey && c.foreignKeys == map[] && c.references == map[]
  {
    CollectionConfig(DefaultKey, map[], map[])
  }

  /** The configuration a collection handle sees. */
  function ConfigOf(g: Graph, name: string): (c: CollectionConfig)
    ensures name in g ==> c == g[name]
    ensures name !in g ==> c == DefaultConfig()
  {
    if name in g then g[name] else DefaultConfig()
  }

  /** Delete-policy legality: Nullify needs `nullable`; Unset needs `optional` and a path that
      ends in a field segment; Pull needs the array wildcard in the path. */
  predicate ValidPolicy(fk: ForeignKeyConfig) {
    && (fk.onDelete == Nullify ==> fk.nullable)
    && (fk.onDelete == Unset ==> fk.optional && |fk.path| > 0 && fk.path[|fk.path| - 1] != Wildcard)
    && (fk.onDelete == Pull ==> Wildcard in fk.path)
  }

  /** Every foreign key has its identical mirror under `references[owner][name]` of its target. */
  predicate ForeignKeysMirrored(g: Graph) {
    forall owner | owner in g ::
      forall name | name in g[owner].foreignKeys ::
        ForeignKeyMirrored(g, owner, name)
  }

  predicate ForeignKeyMirrored(g: Graph, owner: string, name: string)
    requires owner in g && name in g[owner].foreignKeys
  {
    var fk := g[owner].foreignKeys[name];
    && fk.collection in g
    && owner in g[fk.collection].references
    && name in g[fk.collection].references[owner]
    && g[fk.collection].references[owner][name] == fk
  }

  /** Every reference is the mirror of a foreign key declared by its owner and targeting this collection. */
  predicate ReferencesMirrored(g: Graph) {
    forall target | target in g ::
      forall owner | owner in g[target].references ::
        forall name | name in g[target].references[owner] ::
          ReferenceMirrors(g, target, owner, name)
  }

  predicate ReferenceMirrors(g: Graph, target: string, owner: string, name: string)
    requires target in g && owner in g[target].references && name in g[target].references[owner]
  {
    var fk := g[target].references[owner][name];
    && fk.collection == target
    && owner in g
    && name in g[owner].foreignKeys
    && g[owner].foreignKeys[name] == fk
  }

  /** A well-formed compiled graph: symmetric and with legal policies only. */
  predicate ValidGraph(g: Graph) {
    && ForeignKeysMirrored(g)
    && ReferencesMirrored(g)
    && forall owner, name | owner in g && name in g[owner].foreignKeys :: ValidPolicy(g[owner].foreignKeys[name])
  }

  /** The registration a `Collection` handle performs on construction. */
  function Register(g: Graph, name: string): (r: Graph)
    ensures name in r && r[name] == ConfigOf(g, name)
    ensures forall other | other in g :: other in r && r[other] == g[other]
    ensures r.Keys == g.Keys + {name}
  {
    if name in g then g else g[name := DefaultConfig()]
  }

  /** Registering a collection never changes what any collection handle reads. */
  lemma RegisterKeepsConfigs(g: Graph, name: string, other: string)
    ensures ConfigOf(Register(g, name), other) == ConfigOf(g, other)
  {
  }

  /** Registering an unknown collection keeps a valid graph valid: the default config has
      neither foreign keys nor references. */
  lemma RegisterKeepsValid(g: Graph, name: string)
    requires ValidGraph(g)
    ensures ValidGraph(Register(g, name))
  {
    var r := Register(g, name);
    assert ForeignKeysMirrored(g) && ReferencesMirrored(g);
    forall owner, fname | owner in r && fname in r[owner].foreignKeys
      ensures ForeignKeyMirrored(r, owner, fname)
    {
      assert ForeignKeyMirrored(g, owner, fname);
    }
    forall target, owner, fname | target in r && owner in r[target].references && fname in r[target].references[owner]
      ensures ReferenceMirrors(r, target, owner, fname)
    {
      assert r[target] == g[target];
      assert ReferenceMirrors(g, target, owner, fname);
    }
  }
}
