/**
 * The fixture of the test suite (src/test/samples.ts): the schema of an Author/Book database
 * and the graph it is expected to compile to. The compilation itself (`buildGraph`) is not part
 * of this model; `SchemaCompiled` states the correspondence the fixture exhibits between a
 * declaration and its compiled entry, and the lemmas check the fixture against it and against
 * the graph's own well-formedness.
 */
module Samples {
  import opened Values
  import opened Graph

  /** Path segments joined with dots, as a foreign key is declared. */
  function Join(segments: seq<string>): string {
    if segments == [] then ""
    else if |segments| == 1 then segments[0]
    else segments[0] + "." + Join(segments[1..])
  }

  /** The name a foreign key is filed under: its path without wildcard segments. */
  function KeyName(path: seq<string>): string {
    Join(NonWildcard(path))
  }

  function NonWildcard(path: seq<string>): (r: seq<string>)
    ensures forall s | s in r :: s in path && s != Wildcard
  {
    if path == [] then []
    else (if path[0] == Wildcard then [] else [path[0]]) + NonWildcard(path[1..])
  }

  /** The updater of a path: each wildcard becomes a positional hole; none at all without wildcard. */
  function UpdaterOf(path: seq<string>): (r: Option<seq<Option<string>>>)
    ensures Wildcard !in path <==> r.None?
    ensures r.Some? ==> |r.value| == |path| && forall i | 0 <= i < |path| :: r.value[i] == (if path[i] == Wildcard then None else Some(path[i]))
  {
    if Wildcard in path then Some(seq(|path|, i requires 0 <= i < |path| => if path[i] == Wildcard then None else Some(path[i])))
    else None
  }

  /** A declaration at dotted path `at` compiled into `fk`: same path, its updater, its target,
      `Verify` unless another insert policy is declared, the declared delete policy, and flags
      that default to false. */
  predicate DeclCompiled(at: string, decl: ForeignKeyDecl, fk: ForeignKeyConfig) {
    && Join(fk.path) == at
    && fk.updater == UpdaterOf(fk.path)
    && decl.collection == Some(fk.collection)
    && fk.onInsert == decl.onInsert.GetOr(Verify)
    && (decl.onDelete.Some? ==> fk.onDelete == decl.onDelete.value)
    && fk.nullable == decl.nullable.GetOr(false)
    && fk.optional == decl.optional.GetOr(false)
  }

  /** Every schema collection is in the graph with its declared primary key (default `_id`), and
      every declaration is compiled and filed under its key name. */
  predicate SchemaCompiled(schema: Schema, g: Graph) {
    forall c | c in schema ::
      && c in g
      && g[c].key == schema[c].primary.GetOr(DefaultKey)
      && forall at | at in schema[c].foreign ::
           exists name | name in g[c].foreignKeys ::
             DeclCompiled(at, schema[c].foreign[at], g[c].foreignKeys[name]) && name == KeyName(g[c].foreignKeys[name].path)
  }

  // ---- the fixture -------------------------------------------------------------------

  const FavoriteBooks: ForeignKeyConfig :=
    ForeignKeyConfig(["favoriteBooks", Wildcard], Some([Some("favoriteBooks"), None]), "Book", false, false, Verify, Pull)

  /** The fixture declares this one with the delete policy `Delete`, read here as `Remove`. */
  const BookAuthor: ForeignKeyConfig :=
    ForeignKeyConfig(["author"], None, "Author", false, false, Verify, Remove)

  const TestSchema: Schema := map[
    "Author" := SchemaEntry(None, map["favoriteBooks.$" := ForeignKeyDecl(Some("Book"), None, None, None, Some(Pull))]),
    "Book" := SchemaEntry(None, map["author" := ForeignKeyDecl(Some("Author"), None, None, None, Some(Remove))])
  ]

  const SampleGraph: Graph := map[
    "Author" := CollectionConfig(DefaultKey, map["favoriteBooks" := FavoriteBooks], map["Book" := map["author" := BookAuthor]]),
    "Book" := CollectionConfig(DefaultKey, map["author" := BookAuthor], map["Author" := map["favoriteBooks" := FavoriteBooks]])
  ]

  /** The expected graph is symmetric (each foreign key mirrored in its target's references, and
      each reference mirroring a foreign key) and all its delete policies are legal. */
  lemma SampleGraphValid()
    ensures ValidGraph(SampleGraph)
  {
    var g := SampleGraph;
    assert g.Keys == {"Author", "Book"};
    forall owner | owner in g
      ensures forall name | name in g[owner].foreignKeys ::
        ForeignKeyMirrored(g, owner, name) && ValidPolicy(g[owner].foreignKeys[name])
    {
      if owner == "Author" {
        assert g[owner].foreignKeys.Keys == {"favoriteBooks"};
        assert ForeignKeyMirrored(g, owner, "favoriteBooks");
      } else {
        assert g[owner].foreignKeys.Keys == {"author"};
        assert ForeignKeyMirrored(g, owner, "author");
      }
    }
    forall target | target in g
      ensures forall owner | owner in g[target].references ::
        forall name | name in g[target].references[owner] :: ReferenceMirrors(g, target, owner, name)
    {
      if target == "Author" {
        assert g[target].references.Keys == {"Book"};
        assert g[target].references["Book"].Keys == {"author"};
        assert ReferenceMirrors(g, target, "Book", "author");
      } else {
        assert g[target].references.Keys == {"Author"};
        assert g[target].references["Author"].Keys == {"favoriteBooks"};
        assert ReferenceMirrors(g, target, "Author", "favoriteBooks");
      }
    }
  }

  /** The expected graph is what the test schema compiles to: default primary keys, the
      wildcard declaration split into its segments with a positional updater and filed under
      `favoriteBooks`, the plain one with no updater, `Verify` for the omitted insert policy,
      the declared delete policies carried over. */
  lemma SampleSchemaCompiles()
    ensures SchemaCompiled(TestSchema, SampleGraph)
  {
    var wild: seq<string> := ["favoriteBooks", Wildcard];
    assert wild[1..] == [Wildcard] && [Wildcard][1..] == [] && wild[0] != Wildcard;
    assert Join(wild) == "favoriteBooks.$";
    assert NonWildcard([Wildcard]) == [];
    assert NonWildcard(wild) == ["favoriteBooks"] + [];
    var u := UpdaterOf(wild).value;
    assert u[0] == Some("favoriteBooks") && u[1] == None;
    assert u == [Some("favoriteBooks"), None];
    assert ["author"][1..] == [] && "author" != Wildcard;
    assert NonWildcard(["author"]) == ["author"];
    assert DeclCompiled("favoriteBooks.$", TestSchema["Author"].foreign["favoriteBooks.$"], FavoriteBooks);
    assert DeclCompiled("author", TestSchema["Book"].foreign["author"], BookAuthor);
    assert KeyName(FavoriteBooks.path) == "favoriteBooks";
    assert KeyName(BookAuthor.path) == "author";
    assert TestSchema.Keys == {"Author", "Book"};
    assert TestSchema["Author"].foreign.Keys == {"favoriteBooks.$"};
    assert TestSchema["Book"].foreign.Keys == {"author"};
    forall c | c in TestSchema
      ensures c in SampleGraph && SampleGraph[c].key == TestSchema[c].primary.GetOr(DefaultKey)
      ensures forall at | at in TestSchema[c].foreign ::
        exists name | name in SampleGraph[c].foreignKeys ::
          DeclCompiled(at, TestSchema[c].foreign[at], SampleGraph[c].foreignKeys[name])
          && name == KeyName(SampleGraph[c].foreignKeys[name].path)
    {
      var name := if c == "Author" then "favoriteBooks" else "author";
      assert name in SampleGraph[c].foreignKeys;
      assert DeclCompiled(if c == "Author" then "favoriteBooks.$" else "author",
                          TestSchema[c].foreign[if c == "Author" then "favoriteBooks.$" else "author"],
                          SampleGraph[c].foreignKeys[name]);
    }
  }

  /** Registering one of the fixture's collections again changes nothing, and registering a new
      one keeps the graph valid. */
  lemma SampleRegistration(name: string)
    ensures name in SampleGraph ==> Register(SampleGraph, name) == SampleGraph
    ensures ValidGraph(Register(SampleGraph, name))
  {
    SampleGraphValid();
    RegisterKeepsValid(SampleGraph, name);
  }
}
