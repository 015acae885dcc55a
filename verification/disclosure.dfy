// What disclosing the source database's name can break.
module Disclosure {
  import opened Basics
  import opened SqlLexer
  import opened SqlRewriter
  import opened Token
  import opened IdentifierMap
  import opened IdentifierMapLaws
  import opened Discover
  import opened Vocabulary

  // A table orders with a column price, in a database that is named like the column's
  // token, and that the operator discloses by naming the destination after it.
  function Orders(name: string): Table {
    Table(name, "orders", [Column("price", [])], "", "", "")
  }

  function Disclosing(name: string): Catalog {
    Catalog(name, name, [Orders(name)], [], [], [], [], [])
  }

  lemma Sightings(name: string)
    ensures Structured(Disclosing(name)) == [Sighting("db", name), Sighting("tbl", "orders"), Sighting("col", "price")]
    ensures SqlTexts(Disclosing(name)) == ["", "", ""]
  {
    var columns, tables := [Column("price", [])], [Orders(name)];
    assert columns[1..] == [] && tables[1..] == [];
    assert ColumnSightings(columns) == [Sighting("col", "price")];
    assert TableSightings(tables) == [Sighting("db", name), Sighting("tbl", "orders"), Sighting("col", "price")];
    assert RelationSightings([]) == [] && OfKind("user", []) == [];
    assert TableTexts(tables) == ["", "", ""];
  }

  lemma NoWords(rules: Rules, name: string)
    requires NoEmpty(rules.vocab.combinators)
    ensures AllWords(rules, SqlTexts(Disclosing(name))) == []
  {
    Sightings(name);
    hide SqlTexts;
    assert Lexed("") == [];
    assert AllWords(rules, []) == [];
    assert [""][..0] == [] && AllWords(rules, [""]) == [];
    assert ["", ""][..1] == [""] && AllWords(rules, ["", ""]) == [];
    assert ["", "", ""][..2] == ["", ""];
  }

  // The only names the map has to mint tokens for are orders and price.
  lemma Names(rules: Rules, name: string, kind: string, v: string)
    requires NoEmpty(rules.vocab.combinators) && name != ""
    ensures v in At(WaveTwo(rules, Disclosing(name)), kind)
       <==> (kind == "tbl" && v == "orders") || (kind == "col" && v == "price")
    ensures v in At(Verbatim(Disclosing(name)), kind) <==> kind == "db" && v in {"default", "system", name}
  {
    Sightings(name);
    NoWords(rules, name);
    var c := Disclosing(name);
    hide Structured, AllWords, SqlTexts, KnownNames;
    assert Unknown([], KnownNames(WaveOne(c), Verbatim(c), PROBE)) == [];
    ObserveAllMember(map[], Verbatim(c), Structured(c), kind, v);
  }

  lemma NotReserved()
    ensures !Reserved("price") && !Reserved("orders")
  {
    assert forall i | 0 <= i < |KINDS| :: "price"[0] != KINDS[i][0] && "orders"[0] != KINDS[i][0];
  }

  lemma OrdersBuildable(m: Minter, rules: Rules, name: string)
    requires NoEmpty(rules.vocab.combinators) && name != ""
    ensures Buildable(m, WaveTwo(rules, Disclosing(name)))
  {
    NotReserved();
    hide WaveTwo, Reserved, Wide;
    var values := WaveTwo(rules, Disclosing(name));
    forall kind | kind in values
      ensures KindBuildable(m, kind, values[kind])
    {
      forall v | v in values[kind]
        ensures (kind == "tbl" && v == "orders") || (kind == "col" && v == "price")
      {
        Names(rules, name, kind, v);
      }
    }
  }

  // Under every key, for a database so named, observing succeeds, and the column price
  // and the database get one token: it cannot be turned back into a name.
  lemma DisclosedNameBreaksDetokenization(m: Minter, rules: Rules)
    requires NoEmpty(rules.vocab.combinators)
    ensures var name := Narrow(m, "col", "price");
            var values, keep := WaveTwo(rules, Disclosing(name)), Verbatim(Disclosing(name));
            && Buildable(m, values)
            && Find(Tokens(m, values, keep), "col", "price") == Find(Tokens(m, values, keep), "db", name) == Some(name)
            && name != "price" && !DetokenizationIsFunction(Tokens(m, values, keep))
  {
    var name := Narrow(m, "col", "price");
    var values, keep := WaveTwo(rules, Disclosing(name)), Verbatim(Disclosing(name));
    assert name[0] == 'c' && "price"[0] == 'p';
    OrdersBuildable(m, rules, name);
    Names(rules, name, "col", "price");
    Names(rules, name, "db", name);
    forall v | v in At(values, "col")
      ensures v == "price"
    {
      Names(rules, name, "col", v);
    }
    hide WaveTwo, Verbatim, Buildable;
    assert !Crowded(m, "col", At(values, "col"), "price");
    hide Crowded, Narrow;
    assert Find(Tokens(m, values, keep), "col", "price") == Some(name);
    assert Find(Tokens(m, values, keep), "db", name) == Some(name);
  }
}
