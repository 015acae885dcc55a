// What the two observe waves put into the map, in terms of the catalog they read.
module CatalogLaws {
  import opened SqlLexer
  import opened SqlQuoting
  import opened SqlRewriter
  import opened Vocabulary
  import opened Token
  import opened IdentifierMap
  import opened Discover

  // --- What the catalog names ---

  ghost predicate ColumnNames(column: Column, kind: string, name: string) {
    || (kind == "col" && name == column.name)
    || (kind == "field" && name in column.customKeys)
  }

  ghost predicate TableNames(table: Table, kind: string, name: string) {
    || (kind == "db" && name == table.database)
    || (kind == "tbl" && name == table.name)
    || exists j :: 0 <= j < |table.columns| && ColumnNames(table.columns[j], kind, name)
  }

  ghost predicate RelationNames(r: Relation, kind: string, name: string) {
    || (kind == "db" && (name == r.srcDb || name == r.dstDb))
    || (kind == "tbl" && (name == r.srcTbl || name == r.dstTbl))
    || (kind == "dict" && name == r.srcTbl && r.kind == "dictionary")
  }

  // The catalog has the name under this kind.
  ghost predicate Names(c: Catalog, kind: string, name: string) {
    || (exists i :: 0 <= i < |c.tables| && TableNames(c.tables[i], kind, name))
    || (exists i :: 0 <= i < |c.relations| && RelationNames(c.relations[i], kind, name))
    || (kind == "user" && name in c.hotUsers)
    || (kind == "col" && name in c.hotColumns)
    || (kind == "cluster" && name in c.clusters)
  }

  // The operator discloses the source database by naming the destination after it.
  ghost predicate Kept(c: Catalog, kind: string, name: string) {
    kind == "db" && (name == "default" || name == "system" || (name != "" && name == c.sourceDb == c.destDb))
  }

  // A text of SQL that the catalog holds.
  ghost predicate Holds(c: Catalog, text: string) {
    || (exists i :: 0 <= i < |c.tables| && TableHolds(c.tables[i], text))
    || text in c.queries
  }

  ghost predicate TableHolds(t: Table, text: string) {
    text == t.createQuery || text == t.sortingKey || text == t.partitionKey
  }

  // The text has an identifier of this name: quoted, or a word that is neither keyword
  // nor vocabulary.
  ghost predicate Mentions(rules: Rules, text: string, name: string)
    requires NoEmpty(rules.vocab.combinators)
  {
    exists i :: 0 <= i < |Lexed(text)| && Identifies(rules, Lexed(text)[i], name)
  }

  ghost predicate Identifies(rules: Rules, t: Tok, name: string)
    requires NoEmpty(rules.vocab.combinators)
  {
    && WellQuoted(t) && NameOf(t) == name
    && (|| t.kind == Backtick || t.kind == DQuote
        || (t.kind == Word && !IsKeyword(rules.vocab, t.text) && !VocabKeeps(rules.vocab, t.text)))
  }

  // --- The lists the code makes of it ---

  lemma {:induction false} ColumnsIff(columns: seq<Column>, kind: string, name: string)
    ensures Sighting(kind, name) in ColumnSightings(columns)
       <==> exists j :: 0 <= j < |columns| && ColumnNames(columns[j], kind, name)
  {
    if columns != [] {
      ColumnsIff(columns[1..], kind, name);
      OfKindIff("field", columns[0].customKeys, kind, name);
      var rest := columns[1..];
      assert forall j :: 0 < j < |columns| ==> columns[j] == rest[j - 1];
      assert forall j :: 0 <= j < |rest| ==> rest[j] == columns[j + 1];
      assert columns[0] in columns;
    }
  }

  lemma OfKindIff(k: string, names: seq<string>, kind: string, name: string)
    ensures Sighting(kind, name) in OfKind(k, names) <==> kind == k && name in names
  {
    if kind == k && name in names {
      var i :| 0 <= i < |names| && names[i] == name;
      assert OfKind(k, names)[i] == Sighting(kind, name);
    }
  }

  lemma {:induction false} TablesIff(tables: seq<Table>, kind: string, name: string)
    ensures Sighting(kind, name) in TableSightings(tables)
       <==> exists i :: 0 <= i < |tables| && TableNames(tables[i], kind, name)
  {
    hide ColumnSightings, ColumnNames;
    if tables != [] {
      var rest := tables[1..];
      TablesIff(rest, kind, name);
      ColumnsIff(tables[0].columns, kind, name);
      assert forall j :: 0 < j < |tables| ==> tables[j] == rest[j - 1];
      assert forall j :: 0 <= j < |rest| ==> rest[j] == tables[j + 1];
    }
  }

  lemma {:induction false} RelationsIff(relations: seq<Relation>, kind: string, name: string)
    ensures Sighting(kind, name) in RelationSightings(relations)
       <==> exists i :: 0 <= i < |relations| && RelationNames(relations[i], kind, name)
  {
    if relations != [] {
      var rest := relations[1..];
      RelationsIff(rest, kind, name);
      assert forall j :: 0 < j < |relations| ==> relations[j] == rest[j - 1];
      assert forall j :: 0 <= j < |rest| ==> rest[j] == relations[j + 1];
    }
  }

  // The first wave observes exactly what the catalog names, under its kind.
  lemma StructuredIff(c: Catalog, kind: string, name: string)
    ensures Sighting(kind, name) in Structured(c) <==> Names(c, kind, name)
  {
    hide TableSightings, RelationSightings, OfKind, TableNames, RelationNames;
    TablesIff(c.tables, kind, name);
    RelationsIff(c.relations, kind, name);
    OfKindIff("user", c.hotUsers, kind, name);
    OfKindIff("col", c.hotColumns, kind, name);
    OfKindIff("cluster", c.clusters, kind, name);
  }

  lemma {:induction false} TableTextsIff(tables: seq<Table>, text: string)
    ensures text in TableTexts(tables) <==> exists i :: 0 <= i < |tables| && TableHolds(tables[i], text)
  {
    if tables != [] {
      var rest := tables[1..];
      TableTextsIff(rest, text);
      assert forall j :: 0 < j < |tables| ==> tables[j] == rest[j - 1];
      assert forall j :: 0 <= j < |rest| ==> rest[j] == tables[j + 1];
    }
  }

  lemma TextsIff(c: Catalog, text: string)
    ensures text in SqlTexts(c) <==> Holds(c, text)
  {
    TableTextsIff(c.tables, text);
  }

  lemma {:induction false} AllWordsOrigin(rules: Rules, texts: seq<string>, w: string) returns (text: string)
    requires NoEmpty(rules.vocab.combinators) && w in AllWords(rules, texts)
    ensures text in texts && w in TextWords(rules, text)
  {
    hide TextWords;
    var last := texts[|texts| - 1];
    if w in TextWords(rules, last) {
      text := last;
    } else {
      text := AllWordsOrigin(rules, texts[..|texts| - 1], w);
    }
  }

  lemma TextWordsIff(rules: Rules, text: string, w: string)
    requires NoEmpty(rules.vocab.combinators)
    ensures w in TextWords(rules, text) <==> Mentions(rules, text, w)
  {
    LexWellQuoted(text, 0);
    hide Lexed, WellQuoted, Keeps;
    WordsMember(rules, Lexed(text), w);
  }

  // The second wave looks at exactly the identifiers of the texts the catalog holds.
  lemma WordsIff(rules: Rules, c: Catalog, w: string)
    requires NoEmpty(rules.vocab.combinators)
    ensures w in AllWords(rules, SqlTexts(c)) <==> exists text :: Holds(c, text) && Mentions(rules, text, w)
  {
    hide SqlTexts, AllWords, TextWords, Mentions, Holds;
    if w in AllWords(rules, SqlTexts(c)) {
      var text := AllWordsOrigin(rules, SqlTexts(c), w);
      TextsIff(c, text);
      TextWordsIff(rules, text, w);
    }
    if text :| Holds(c, text) && Mentions(rules, text, w) {
      TextsIff(c, text);
      TextWordsIff(rules, text, w);
      AllWordsMember(rules, SqlTexts(c), text, w);
    }
  }

  // --- What has a token ---

  lemma KeptIff(c: Catalog, kind: string, name: string)
    ensures name in At(Verbatim(c), kind) <==> Kept(c, kind, name)
  {
  }

  const PROBED := ["col", "tbl", "db", "dict", "user", "role", "cluster", "disk", "field"]

  // The name is structured: the catalog has it, non-empty, under some kind, or it is kept.
  ghost predicate Known(c: Catalog, name: string) {
    exists kind :: kind in PROBED && (Kept(c, kind, name) || (name != "" && Names(c, kind, name)))
  }

  lemma FirstWaveIff(c: Catalog, kind: string, name: string)
    ensures name in At(WaveOne(c), kind) <==> name != "" && Names(c, kind, name) && !Kept(c, kind, name)
  {
    hide Structured, Names, Kept, Verbatim;
    ObserveAllMember(map[], Verbatim(c), Structured(c), kind, name);
    StructuredIff(c, kind, name);
    KeptIff(c, kind, name);
  }

  lemma KnownIff(c: Catalog, name: string)
    ensures name in KnownNames(WaveOne(c), Verbatim(c), PROBE) <==> Known(c, name)
  {
    hide WaveOne, Names, Kept;
    forall kind
      ensures name in At(WaveOne(c), kind) <==> name != "" && Names(c, kind, name) && !Kept(c, kind, name)
      ensures name in At(Verbatim(c), kind) <==> Kept(c, kind, name)
    {
      FirstWaveIff(c, kind, name);
      KeptIff(c, kind, name);
    }
    forall kind | Kept(c, kind, name)
      ensures kind in PROBED
    {
      VerbatimKinds(c, kind, name);
    }
    hide Verbatim;
    var one, keep := WaveOne(c), Verbatim(c);
    assert PROBE == PROBED;
    if Known(c, name) {
      var kind :| kind in PROBED && (Kept(c, kind, name) || (name != "" && Names(c, kind, name)));
      if Kept(c, kind, name) {
        assert kind in keep && name in keep[kind];
      } else {
        var j :| 0 <= j < |PROBE| && PROBE[j] == kind;
        assert name in At(one, PROBE[j]);
      }
    }
    if j :| 0 <= j < |PROBE| && name in At(one, PROBE[j]) {
      assert PROBE[j] in PROBED;
    } else if kind :| kind in keep && name in keep[kind] {
      assert name in At(keep, kind) && kind in PROBED;
    }
  }

  // After a successful Build, exactly these names have an entry: the kept ones; under its
  // own kind, every non-empty name of the catalog; and under sql, every other non-empty
  // name of an identifier in a text the catalog holds.
  lemma MappedIff(m: Minter, rules: Rules, c: Catalog, kind: string, name: string)
    requires NoEmpty(rules.vocab.combinators)
    ensures Find(Tokens(m, WaveTwo(rules, c), Verbatim(c)), kind, name).Some? <==>
              || Kept(c, kind, name)
              || (name != "" && Names(c, kind, name))
              || (kind == "sql" && name != "" && !Known(c, name)
                  && exists text :: Holds(c, text) && Mentions(rules, text, name))
  {
    hide WaveOne, Names, Kept, Holds, Mentions, AllWords, SqlTexts, KnownNames, Verbatim, Known;
    var words, known := AllWords(rules, SqlTexts(c)), KnownNames(WaveOne(c), Verbatim(c), PROBE);
    TokensDomain(m, WaveTwo(rules, c), Verbatim(c), kind, name);
    ObserveAllMember(WaveOne(c), Verbatim(c), Unknown(words, known), kind, name);
    FirstWaveIff(c, kind, name);
    KeptIff(c, kind, name);
    KnownIff(c, name);
    WordsIff(rules, c, name);
    UnknownMember(words, known, name);
    if Sighting(kind, name) in Unknown(words, known) {
      UnknownKinds(words, known, Sighting(kind, name));
    }
  }

  // So every identifier of every text the catalog holds can be rewritten, unless its name
  // is empty.
  lemma MentionedHasToken(m: Minter, rules: Rules, c: Catalog, text: string, name: string)
    requires NoEmpty(rules.vocab.combinators) && Holds(c, text) && Mentions(rules, text, name) && name != ""
    ensures HasToken(Tokens(m, WaveTwo(rules, c), Verbatim(c)), name)
  {
    hide WaveTwo, Tokens, Names, Kept, Holds, Mentions;
    if Known(c, name) {
      var kind :| kind in PROBED && (Kept(c, kind, name) || (name != "" && Names(c, kind, name)));
      MappedIff(m, rules, c, kind, name);
      assert PROBE == PROBED;
    } else {
      MappedIff(m, rules, c, "sql", name);
    }
  }
}
