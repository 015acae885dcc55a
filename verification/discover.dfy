// The observe wave of a discovery run and its agreement with the later rewrite pass.
module Discover {
  import opened SqlLexer
  import opened SqlQuoting
  import opened SqlRewriter
  import opened Vocabulary
  import opened Text
  import opened Token
  import opened IdentifierMap

  // customKeys are the attribute-map keys whose names get tokens.
  datatype Column = Column(name: string, customKeys: seq<string>)

  datatype Table = Table(database: string, name: string, columns: seq<Column>,
                         createQuery: string, sortingKey: string, partitionKey: string)

  datatype Relation = Relation(kind: string, srcDb: string, srcTbl: string, dstDb: string, dstTbl: string)

  datatype Catalog = Catalog(sourceDb: string, destDb: string, tables: seq<Table>, relations: seq<Relation>,
                             hotUsers: seq<string>, hotColumns: seq<string>, clusters: seq<string>,
                             queries: seq<string>)

  datatype Sighting = Sighting(kind: string, name: string)

  function OfKind(kind: string, names: seq<string>): seq<Sighting> {
    seq(|names|, i requires 0 <= i < |names| => Sighting(kind, names[i]))
  }

  function ColumnSightings(columns: seq<Column>): seq<Sighting> {
    if columns == [] then []
    else [Sighting("col", columns[0].name)] + OfKind("field", columns[0].customKeys) + ColumnSightings(columns[1..])
  }

  function TableSightings(tables: seq<Table>): seq<Sighting> {
    if tables == [] then []
    else [Sighting("db", tables[0].database), Sighting("tbl", tables[0].name)]
         + ColumnSightings(tables[0].columns) + TableSightings(tables[1..])
  }

  function RelationSightings(relations: seq<Relation>): seq<Sighting> {
    if relations == [] then []
    else
      var r := relations[0];
      [Sighting("db", r.srcDb), Sighting("tbl", r.srcTbl), Sighting("db", r.dstDb), Sighting("tbl", r.dstTbl)]
      + (if r.kind == "dictionary" then [Sighting("dict", r.srcTbl)] else [])
      + RelationSightings(relations[1..])
  }

  // Wave 1, in source order. Empty names are ignored by the map.
  function Structured(c: Catalog): seq<Sighting> {
    TableSightings(c.tables) + RelationSightings(c.relations)
    + OfKind("user", c.hotUsers) + OfKind("col", c.hotColumns) + OfKind("cluster", c.clusters)
  }

  // Wave 2 texts.
  function SqlTexts(c: Catalog): seq<string> {
    TableTexts(c.tables) + c.queries
  }

  function TableTexts(tables: seq<Table>): seq<string> {
    if tables == [] then []
    else [tables[0].createQuery, tables[0].sortingKey, tables[0].partitionKey] + TableTexts(tables[1..])
  }

  // --- What the two waves leave in the map ---

  function Verbatim(c: Catalog): Names {
    var base := Add(Add(map[], "db", "default"), "db", "system");
    if c.destDb == c.sourceDb && c.sourceDb != "" then Add(base, "db", c.sourceDb) else base
  }

  function ObserveAll(values: Names, keep: Names, seen: seq<Sighting>): Names {
    if seen == [] then values
    else
      var init := seen[..|seen| - 1];
      Observed(ObserveAll(values, keep, init), keep, seen[|seen| - 1].kind, seen[|seen| - 1].name)
  }

  ghost function TextWords(rules: Rules, text: string): seq<string>
    requires NoEmpty(rules.vocab.combinators)
  {
    LexWellQuoted(text, 0);
    Words(rules, Lexed(text))
  }

  ghost function AllWords(rules: Rules, texts: seq<string>): seq<string>
    requires NoEmpty(rules.vocab.combinators)
  {
    if texts == [] then [] else AllWords(rules, texts[..|texts| - 1]) + TextWords(rules, texts[|texts| - 1])
  }

  ghost function Unknown(words: seq<string>, known: set<string>): seq<Sighting> {
    if words == [] then []
    else
      var w := words[|words| - 1];
      Unknown(words[..|words| - 1], known) + (if w in known then [] else [Sighting("sql", w)])
  }

  ghost function WaveOne(c: Catalog): Names {
    ObserveAll(map[], Verbatim(c), Structured(c))
  }

  ghost function WaveTwo(rules: Rules, c: Catalog): Names
    requires NoEmpty(rules.vocab.combinators)
  {
    var known := KnownNames(WaveOne(c), Verbatim(c), PROBE);
    ObserveAll(WaveOne(c), Verbatim(c), Unknown(AllWords(rules, SqlTexts(c)), known))
  }

  // observe, then Build: the part of a run that decides the map.
  method ObserveAndBuild(m: Minter, rules: Rules, c: Catalog) returns (r: BuildResult, rw: Rewriter)
    requires NoEmpty(rules.vocab.combinators)
    ensures fresh(rw) && fresh(rw.idMap) && rw.rules == rules && rw.CacheFresh()
    ensures r.Built? <==> Buildable(m, WaveTwo(rules, c))
    ensures r.Built? ==> rw.idMap.fwd == Tokens(m, WaveTwo(rules, c), Verbatim(c))
  {
    var im := new IdMap(m);
    rw := Observe(im, rules, c);
    r := im.Build();
  }

  method Observe(im: IdMap, rules: Rules, c: Catalog) returns (rw: Rewriter)
    requires NoEmpty(rules.vocab.combinators)
    requires im.values == map[] && im.keep == map[]
    modifies im
    ensures fresh(rw) && rw.idMap == im && rw.rules == rules && rw.cache == map[]
    ensures im.keep == Verbatim(c) && im.values == WaveTwo(rules, c)
  {
    im.KeepVerbatim("db", "default");
    im.KeepVerbatim("db", "system");
    if c.destDb == c.sourceDb {
      im.KeepVerbatim("db", c.sourceDb);
    }
    ObserveStructured(im, Structured(c));
    rw := new Rewriter(im, rules);
    var known := im.Known(PROBE);
    ObserveTexts(im, rw, SqlTexts(c), known);
  }

  method ObserveStructured(im: IdMap, seen: seq<Sighting>)
    modifies im`values
    ensures im.values == ObserveAll(old(im.values), im.keep, seen)
  {
    for i := 0 to |seen|
      invariant im.values == ObserveAll(old(im.values), im.keep, seen[..i])
    {
      im.Observe(seen[i].kind, seen[i].name);
      assert seen[..i + 1][..i] == seen[..i];
    }
    assert seen[..|seen|] == seen;
  }

  method ObserveTexts(im: IdMap, rw: Rewriter, texts: seq<string>, known: set<string>)
    requires NoEmpty(rw.rules.vocab.combinators)
    modifies im`values
    ensures im.values == ObserveAll(old(im.values), im.keep, Unknown(AllWords(rw.rules, texts), known))
  {
    ghost var base := im.values;
    for i := 0 to |texts|
      invariant im.values == ObserveAll(base, im.keep, Unknown(AllWords(rw.rules, texts[..i]), known))
    {
      var words := rw.IdentifierWords(texts[i]);
      assert texts[..i + 1][..i] == texts[..i];
      ObserveSql(im, words, known, AllWords(rw.rules, texts[..i]), base);
    }
    assert texts[..|texts|] == texts;
  }

  method ObserveSql(im: IdMap, words: seq<string>, known: set<string>, ghost before: seq<string>, ghost base: Names)
    requires im.values == ObserveAll(base, im.keep, Unknown(before, known))
    modifies im`values
    ensures im.values == ObserveAll(base, im.keep, Unknown(before + words, known))
  {
    assert before + words[..0] == before;
    for j := 0 to |words|
      invariant im.values == ObserveAll(base, im.keep, Unknown(before + words[..j], known))
    {
      UnknownAppend(before + words[..j], words[j], known);
      assert before + words[..j + 1] == before + words[..j] + [words[j]];
      if words[j] !in known {
        ObserveAllAppend(base, im.keep, Unknown(before + words[..j], known), Sighting("sql", words[j]));
        im.Observe("sql", words[j]);
      }
    }
    assert words[..|words|] == words;
  }

  lemma UnknownAppend(words: seq<string>, w: string, known: set<string>)
    ensures Unknown(words + [w], known)
         == if w in known then Unknown(words, known) else Unknown(words, known) + [Sighting("sql", w)]
  {
    assert (words + [w])[..|words|] == words;
  }

  lemma ObserveAllAppend(values: Names, keep: Names, seen: seq<Sighting>, s: Sighting)
    ensures ObserveAll(values, keep, seen + [s]) == Observed(ObserveAll(values, keep, seen), keep, s.kind, s.name)
  {
    assert (seen + [s])[..|seen|] == seen;
  }

  // --- The two passes agree ---

  lemma {:induction false} ObserveAllMember(values: Names, keep: Names, seen: seq<Sighting>, kind: string, v: string)
    ensures v in At(ObserveAll(values, keep, seen), kind) <==>
              || v in At(values, kind)
              || (Sighting(kind, v) in seen && v != "" && v !in At(keep, kind))
  {
    if seen != [] {
      ObserveAllMember(values, keep, seen[..|seen| - 1], kind, v);
      assert seen == seen[..|seen| - 1] + [seen[|seen| - 1]];
    }
  }

  lemma {:induction false} UnknownMember(words: seq<string>, known: set<string>, w: string)
    ensures Sighting("sql", w) in Unknown(words, known) <==> w in words && w !in known
  {
    if words != [] {
      UnknownMember(words[..|words| - 1], known, w);
      assert words == words[..|words| - 1] + [words[|words| - 1]];
    }
  }

  lemma {:induction false} AllWordsMember(rules: Rules, texts: seq<string>, text: string, w: string)
    requires NoEmpty(rules.vocab.combinators) && text in texts && w in TextWords(rules, text)
    ensures w in AllWords(rules, texts)
  {
    if text != texts[|texts| - 1] {
      AllWordsMember(rules, texts[..|texts| - 1], text, w);
    }
  }

  lemma TokensDomain(m: Minter, values: Names, keep: Names, kind: string, v: string)
    ensures Find(Tokens(m, values, keep), kind, v).Some? <==> v in At(values, kind) || v in At(keep, kind)
  {
  }

  lemma {:induction false} FirstKnownFinds(fwd: Fwd, name: string, kinds: seq<string>)
    ensures FirstKnown(fwd, name, kinds).Some? <==> exists k :: k in kinds && Find(fwd, k, name).Some?
    ensures FirstKnown(fwd, name, kinds).Some? ==>
              exists k :: k in kinds && FirstKnown(fwd, name, kinds) == Find(fwd, k, name)
  {
    if kinds != [] {
      FirstKnownFinds(fwd, name, kinds[1..]);
      assert kinds == [kinds[0]] + kinds[1..];
    }
  }

  lemma {:induction false} WithoutMember(kinds: seq<string>, excluded: seq<string>, k: string)
    ensures k in Without(kinds, excluded) <==> k in kinds && k !in excluded
  {
    if kinds != [] {
      WithoutMember(kinds[1..], excluded, k);
      assert kinds == [kinds[0]] + kinds[1..];
    }
  }

  // Whatever the dot position, a lookup fails only when no probe kind has the name, and
  // its answer comes from some probe kind.
  lemma KnownFinds(fwd: Fwd, name: string, order: seq<string>)
    requires forall k :: k in order ==> k in PROBE
    ensures Known(fwd, name, order).Some? <==> exists k :: k in PROBE && Find(fwd, k, name).Some?
    ensures Known(fwd, name, order).Some? ==>
              exists k :: k in PROBE && Known(fwd, name, order) == Find(fwd, k, name)
  {
    var rest := Without(PROBE, order);
    FirstKnownFinds(fwd, name, order);
    FirstKnownFinds(fwd, name, rest);
    forall k
      ensures k in rest <==> k in PROBE && k !in order
    {
      WithoutMember(PROBE, order, k);
    }
  }

  lemma ProbeOrderKinds(toks: seq<Tok>, i: nat)
    requires i < |toks|
    ensures forall k :: k in ProbeOrder(toks, i) ==> k in PROBE
  {
    assert PROBE[0] == "col" && PROBE[1] == "tbl" && PROBE[2] == "db" && PROBE[3] == "dict";
  }

  // The identifier at i has no token at all, so the rewriter redacts it.
  ghost predicate Unmapped(fwd: Fwd, rules: Rules, toks: seq<Tok>, i: nat)
    requires i < |toks| && NoEmpty(rules.vocab.combinators) && WellLexed(toks)
  {
    && IsCollected(rules, toks[i])
    && Find(fwd, "sql", NameOf(toks[i])).None?
    && forall k :: k in PROBE ==> Find(fwd, k, NameOf(toks[i])).None?
  }

  // Redaction of identifiers happens exactly for unmapped ones.
  lemma RedactsOnlyUnmapped(fwd: Fwd, rules: Rules, toks: seq<Tok>, i: nat, strict: bool)
    requires i < |toks| && NoEmpty(rules.vocab.combinators) && WellLexed(toks)
    requires IsIdentifier(toks[i])
    ensures Rewritten(fwd, rules, toks, i, strict).redacted == if Unmapped(fwd, rules, toks, i) then 1 else 0
  {
    hide Known, ProbeOrder, Keeps, ToUpper, ReplaceAll;
    ProbeOrderKinds(toks, i);
    KnownFinds(fwd, NameOf(toks[i]), ProbeOrder(toks, i));
    KnownFinds(fwd, NameOf(toks[i]), PROBE);
  }

  lemma VerbatimKinds(c: Catalog, kind: string, v: string)
    requires v in At(Verbatim(c), kind)
    ensures kind == "db" && kind in PROBE && v != ""
  {
    assert PROBE[2] == "db";
  }

  // A name one of the two waves has met: structured, kept, or a word of an observed text.
  ghost predicate Sighted(rules: Rules, c: Catalog, name: string)
    requires NoEmpty(rules.vocab.combinators)
  {
    name != "" && (name in AllWords(rules, SqlTexts(c)) || name in KnownNames(WaveOne(c), Verbatim(c), PROBE))
  }

  ghost predicate HasToken(fwd: Fwd, name: string) {
    Find(fwd, "sql", name).Some? || exists k :: k in PROBE && Find(fwd, k, name).Some?
  }

  // After Build, exactly the sighted names have a token the rewriter can find.
  lemma TokenIffSighted(m: Minter, rules: Rules, c: Catalog, name: string)
    requires NoEmpty(rules.vocab.combinators)
    ensures HasToken(Tokens(m, WaveTwo(rules, c), Verbatim(c)), name) <==> Sighted(rules, c, name)
  {
    hide WaveTwo, Tokens, AllWords, SqlTexts, WaveOne, KnownNames;
    var fwd := Tokens(m, WaveTwo(rules, c), Verbatim(c));
    if Sighted(rules, c, name) {
      SightedIsMapped(m, rules, c, name);
    }
    if k :| (k == "sql" || k in PROBE) && Find(fwd, k, name).Some? {
      MappedIsSighted(m, rules, c, k, name);
    }
  }

  lemma SightedIsMapped(m: Minter, rules: Rules, c: Catalog, name: string)
    requires NoEmpty(rules.vocab.combinators) && Sighted(rules, c, name)
    ensures HasToken(Tokens(m, WaveTwo(rules, c), Verbatim(c)), name)
  {
    var one, keep, two := WaveOne(c), Verbatim(c), WaveTwo(rules, c);
    var known := KnownNames(one, keep, PROBE);
    var seen := Unknown(AllWords(rules, SqlTexts(c)), known);
    UnknownMember(AllWords(rules, SqlTexts(c)), known, name);
    if name !in known {
      ObserveAllMember(one, keep, seen, "sql", name);
      if name in At(keep, "sql") {
        VerbatimKinds(c, "sql", name);
      }
      TokensDomain(m, two, keep, "sql", name);
    } else if kind :| kind in keep && name in keep[kind] {
      VerbatimKinds(c, kind, name);
      TokensDomain(m, two, keep, kind, name);
    } else {
      var j :| 0 <= j < |PROBE| && name in At(one, PROBE[j]);
      ObserveAllMember(one, keep, seen, PROBE[j], name);
      TokensDomain(m, two, keep, PROBE[j], name);
    }
  }

  // The structured wave never uses the sql kind, the other wave no other.
  lemma StructuredKinds(c: Catalog, name: string)
    ensures Sighting("sql", name) !in Structured(c)
  {
    TableKinds(c.tables, name);
    RelationKinds(c.relations, name);
  }

  lemma {:induction false} TableKinds(tables: seq<Table>, name: string)
    ensures Sighting("sql", name) !in TableSightings(tables)
  {
    if tables != [] {
      ColumnKinds(tables[0].columns, name);
      TableKinds(tables[1..], name);
    }
  }

  lemma {:induction false} ColumnKinds(columns: seq<Column>, name: string)
    ensures Sighting("sql", name) !in ColumnSightings(columns)
  {
    if columns != [] {
      ColumnKinds(columns[1..], name);
    }
  }

  lemma {:induction false} RelationKinds(relations: seq<Relation>, name: string)
    ensures Sighting("sql", name) !in RelationSightings(relations)
  {
    if relations != [] {
      RelationKinds(relations[1..], name);
    }
  }

  lemma {:induction false} UnknownKinds(words: seq<string>, known: set<string>, s: Sighting)
    requires s in Unknown(words, known)
    ensures s.kind == "sql"
  {
    if s != Sighting("sql", words[|words| - 1]) {
      UnknownKinds(words[..|words| - 1], known, s);
    }
  }

  lemma MappedIsSighted(m: Minter, rules: Rules, c: Catalog, kind: string, name: string)
    requires NoEmpty(rules.vocab.combinators) && (kind == "sql" || kind in PROBE)
    requires Find(Tokens(m, WaveTwo(rules, c), Verbatim(c)), kind, name).Some?
    ensures Sighted(rules, c, name)
  {
    hide AllWords, SqlTexts, Structured, Verbatim;
    var one, keep, two := WaveOne(c), Verbatim(c), WaveTwo(rules, c);
    var known := KnownNames(one, keep, PROBE);
    var words := AllWords(rules, SqlTexts(c));
    TokensDomain(m, two, keep, kind, name);
    EmptyNeverMapped(rules, c, kind);
    ObserveAllMember(one, keep, Unknown(words, known), kind, name);
    if name in At(keep, kind) {
      assert kind in keep && name in keep[kind];
    } else if name in At(one, kind) {
      ObserveAllMember(map[], keep, Structured(c), kind, name);
      StructuredKinds(c, name);
      var j :| 0 <= j < |PROBE| && PROBE[j] == kind;
      assert name in At(one, PROBE[j]);
    } else {
      UnknownKinds(words, known, Sighting(kind, name));
      UnknownMember(words, known, name);
    }
  }

  lemma EmptyNeverMapped(rules: Rules, c: Catalog, kind: string)
    requires NoEmpty(rules.vocab.combinators)
    ensures "" !in At(WaveTwo(rules, c), kind) && "" !in At(Verbatim(c), kind)
  {
    var known := KnownNames(WaveOne(c), Verbatim(c), PROBE);
    ObserveAllMember(WaveOne(c), Verbatim(c), Unknown(AllWords(rules, SqlTexts(c)), known), kind, "");
    ObserveAllMember(map[], Verbatim(c), Structured(c), kind, "");
  }

  // In any text at all, an identifier stays without a token exactly when neither wave
  // has met its name.
  lemma UnmappedIffUnsighted(m: Minter, rules: Rules, c: Catalog, toks: seq<Tok>, i: nat)
    requires NoEmpty(rules.vocab.combinators) && i < |toks| && WellLexed(toks)
    ensures Unmapped(Tokens(m, WaveTwo(rules, c), Verbatim(c)), rules, toks, i)
       <==> IsCollected(rules, toks[i]) && !Sighted(rules, c, NameOf(toks[i]))
  {
    hide WaveTwo, Tokens, Keeps, ToUpper, ReplaceAll, Sighted;
    TokenIffSighted(m, rules, c, NameOf(toks[i]));
  }

  // In a text the observe wave saw, the only identifiers without a token are quoted
  // identifiers with an empty name.
  lemma UnmappedIffEmptyQuoted(m: Minter, rules: Rules, c: Catalog, text: string, i: nat)
    requires NoEmpty(rules.vocab.combinators)
    requires text in SqlTexts(c) && i < |Lexed(text)|
    ensures WellLexed(Lexed(text))
    ensures Unmapped(Tokens(m, WaveTwo(rules, c), Verbatim(c)), rules, Lexed(text), i)
       <==> Lexed(text)[i].kind in {Backtick, DQuote} && NameOf(Lexed(text)[i]) == ""
  {
    hide WaveTwo, Tokens, Lexed, Keeps, ToUpper, ReplaceAll, Words, Unmapped;
    LexWellQuoted(text, 0);
    LexCovers(text, 0);
    UnmappedIffUnsighted(m, rules, c, Lexed(text), i);
    var t := Lexed(text)[i];
    if IsCollected(rules, t) {
      WordsMember(rules, Lexed(text), NameOf(t));
      AllWordsMember(rules, SqlTexts(c), text, NameOf(t));
    }
  }
}
