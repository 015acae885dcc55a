// Whole-text promises of the rewriter, over every text, map and vocabulary.
module RewriteLaws {
  import opened Basics
  import opened SqlLexer
  import opened SqlQuoting
  import opened SqlRewriter
  import opened Vocabulary
  import opened Text
  import opened Token
  import opened IdentifierMap
  import opened Discover
  import IdentifierMapLaws

  // --- Totality ---

  // Redactions owed to literals alone: unsafe strings, and numbers in strict mode.
  ghost function LiteralRedactions(rules: Rules, toks: seq<Tok>, strict: bool, n: nat): nat
    requires n <= |toks| && WellLexed(toks)
  {
    if n == 0 then 0
    else
      var t := toks[n - 1];
      LiteralRedactions(rules, toks, strict, n - 1)
      + (if (t.kind == Number && strict) || (t.kind == Str && !SafeString(rules.safe, t.text)) then 1 else 0)
  }

  // How many identifiers have no token.
  ghost function Untokened(fwd: Fwd, rules: Rules, toks: seq<Tok>, n: nat): nat
    requires n <= |toks| && NoEmpty(rules.vocab.combinators) && WellLexed(toks)
  {
    if n == 0 then 0
    else Untokened(fwd, rules, toks, n - 1) + (if Unmapped(fwd, rules, toks, n - 1) then 1 else 0)
  }

  // Every redaction is owed to a literal or to one identifier without a token.
  lemma {:induction false} RedactionsCounted(fwd: Fwd, rules: Rules, toks: seq<Tok>, strict: bool, n: nat)
    requires NoEmpty(rules.vocab.combinators) && WellLexed(toks) && n <= |toks|
    ensures Pieces(fwd, rules, toks, strict, n).redacted
         == LiteralRedactions(rules, toks, strict, n) + Untokened(fwd, rules, toks, n)
  {
    hide Known, SafeString, MustSql, Keeps, ToUpper;
    if n > 0 {
      RedactionsCounted(fwd, rules, toks, strict, n - 1);
      hide Unmapped, Rewritten;
      if IsIdentifier(toks[n - 1]) {
        RedactsOnlyUnmapped(fwd, rules, toks, n - 1, strict);
      } else {
        NotCollected(fwd, rules, toks, n - 1);
        OthersRedacted(fwd, rules, toks, n - 1, strict);
      }
    }
  }

  lemma OthersRedacted(fwd: Fwd, rules: Rules, toks: seq<Tok>, i: nat, strict: bool)
    requires NoEmpty(rules.vocab.combinators) && WellLexed(toks) && i < |toks| && !IsIdentifier(toks[i])
    ensures var t := toks[i];
            Rewritten(fwd, rules, toks, i, strict).redacted
            == if (t.kind == Number && strict) || (t.kind == Str && !SafeString(rules.safe, t.text)) then 1 else 0
  {
    hide SafeString;
  }

  lemma NotCollected(fwd: Fwd, rules: Rules, toks: seq<Tok>, i: nat)
    requires NoEmpty(rules.vocab.combinators) && WellLexed(toks) && i < |toks| && !IsIdentifier(toks[i])
    ensures !Unmapped(fwd, rules, toks, i)
  {
  }

  lemma {:induction false} NoneUntokened(fwd: Fwd, rules: Rules, toks: seq<Tok>, n: nat)
    requires NoEmpty(rules.vocab.combinators) && WellLexed(toks) && n <= |toks|
    ensures Untokened(fwd, rules, toks, n) == 0 <==> forall i :: 0 <= i < n ==> !Unmapped(fwd, rules, toks, i)
  {
    hide Unmapped;
    if n > 0 {
      NoneUntokened(fwd, rules, toks, n - 1);
    }
  }

  // Each identifier the rewriter has to map is a name one of the observe waves has met.
  ghost predicate AllSighted(rules: Rules, c: Catalog, toks: seq<Tok>)
    requires NoEmpty(rules.vocab.combinators) && WellLexed(toks)
  {
    forall i :: 0 <= i < |toks| && IsCollected(rules, toks[i]) ==> Sighted(rules, c, NameOf(toks[i]))
  }

  // Any text whatever, observed itself or not, is rewritten without failing closed on an
  // identifier exactly when the two waves have met all its names: all it redacts then
  // are literals.
  lemma TextIsTotalIff(m: Minter, rules: Rules, c: Catalog, text: string, strict: bool)
    requires NoEmpty(rules.vocab.combinators)
    ensures WellLexed(Lexed(text))
    ensures var fwd, toks := Tokens(m, WaveTwo(rules, c), Verbatim(c)), Lexed(text);
            Counted(fwd, rules, toks, strict).redacted
            == (if Balanced(toks) then LiteralRedactions(rules, toks, strict, |toks|) else 0)
            <==> !Balanced(toks) || AllSighted(rules, c, toks)
  {
    hide WaveTwo, Tokens, Lexed, Unmapped, Pieces, NameOf, Sighted, Balanced, LiteralRedactions, Untokened;
    LexWellQuoted(text, 0);
    var fwd, toks := Tokens(m, WaveTwo(rules, c), Verbatim(c)), Lexed(text);
    RedactionsCounted(fwd, rules, toks, strict, |toks|);
    NoneUntokened(fwd, rules, toks, |toks|);
    forall i | 0 <= i < |toks|
      ensures Unmapped(fwd, rules, toks, i) <==> IsCollected(rules, toks[i]) && !Sighted(rules, c, NameOf(toks[i]))
    {
      UnmappedIffUnsighted(m, rules, c, toks, i);
    }
  }

  // A text of which the waves saw every word, by itself or in other texts, has nothing
  // else to redact than literals, if no quoted identifier is empty.
  lemma ObservedTextIsTotal(m: Minter, rules: Rules, c: Catalog, text: string, strict: bool)
    requires NoEmpty(rules.vocab.combinators) && WellLexed(Lexed(text))
    requires forall w :: w in Words(rules, Lexed(text)) ==> w != "" && w in AllWords(rules, SqlTexts(c))
    ensures var fwd := Tokens(m, WaveTwo(rules, c), Verbatim(c));
            Pieces(fwd, rules, Lexed(text), strict, |Lexed(text)|).redacted
            == LiteralRedactions(rules, Lexed(text), strict, |Lexed(text)|)
  {
    hide WaveTwo, Tokens, Lexed, Unmapped, Pieces, NameOf, LiteralRedactions, Untokened, AllWords, Words;
    var fwd, toks := Tokens(m, WaveTwo(rules, c), Verbatim(c)), Lexed(text);
    RedactionsCounted(fwd, rules, toks, strict, |toks|);
    NoneUntokened(fwd, rules, toks, |toks|);
    forall i | 0 <= i < |toks|
      ensures !Unmapped(fwd, rules, toks, i)
    {
      UnmappedIffUnsighted(m, rules, c, toks, i);
      WordsMember(rules, toks, NameOf(toks[i]));
    }
  }

  // Rewriting through the map of an observed catalog, cached or not: the answer is that
  // of a fresh rewrite, and the counter of redactions grows by the literals of a text not
  // rewritten before, and by nothing else, as long as the waves have met all its names.
  method RewriteObserved(rw: Rewriter, value: string, strict: bool, ghost m: Minter, ghost c: Catalog)
      returns (out: string)
    requires NoEmpty(rw.rules.vocab.combinators) && rw.CacheFresh()
    requires rw.idMap.fwd == Tokens(m, WaveTwo(rw.rules, c), Verbatim(c))
    modifies rw
    ensures rw.CacheFresh() && rw.idMap.fwd == old(rw.idMap.fwd)
    ensures out == RewriteText(rw.idMap.fwd, rw.rules, value, strict)
    ensures WellLexed(Lexed(value))
    ensures value == "" || (value, strict) in old(rw.cache) ==> rw.stringsRedacted == old(rw.stringsRedacted)
    ensures value != "" && (value, strict) !in old(rw.cache) && Balanced(Lexed(value)) ==>
              (rw.stringsRedacted == old(rw.stringsRedacted) + LiteralRedactions(rw.rules, Lexed(value), strict, |Lexed(value)|)
               <==> AllSighted(rw.rules, c, Lexed(value)))
  {
    hide Lexed, Tokens, WaveTwo, Counted, RewriteText, AllSighted, LiteralRedactions;
    TextIsTotalIff(m, rw.rules, c, value, strict);
    out := rw.Rewrite(value, strict);
  }

  // --- Unclosed quotes ---

  // Some quote of the text opens a token and nothing closes it.
  ghost predicate LeftOpen(text: string) {
    exists i, k :: IsQuoted(k) && Unclosed(text, i, k)
  }

  // Such a value, and no other, is not rewritten at all: it is redacted whole.
  lemma UnclosedFailsClosed(fwd: Fwd, rules: Rules, text: string, strict: bool)
    requires NoEmpty(rules.vocab.combinators)
    ensures LeftOpen(text) <==> !Balanced(Lexed(text))
    ensures LeftOpen(text) ==> RewriteText(fwd, rules, text, strict) == REDACTED
    ensures !LeftOpen(text) ==>
              WellLexed(Lexed(text)) && RewriteText(fwd, rules, text, strict) == Pieces(fwd, rules, Lexed(text), strict, |Lexed(text)|).text
  {
    hide Lexed, Pieces, Unclosed;
    LexWellQuoted(text, 0);
    EmptyText(fwd, rules, strict);
    if LeftOpen(text) {
      var i, k :| IsQuoted(k) && Unclosed(text, i, k);
      StrayIffUnclosed(text, k);
      assert IsStrayQuote(Stray(k));
    } else if t :| t in Lexed(text) && IsStrayQuote(t) {
      var k := if t.text == "'" then Str else if t.text == "`" then Backtick else DQuote;
      assert t == Stray(k);
      StrayIffUnclosed(text, k);
    }
  }

  lemma EmptyText(fwd: Fwd, rules: Rules, strict: bool)
    requires NoEmpty(rules.vocab.combinators)
    ensures Lexed("") == [] && Pieces(fwd, rules, [], strict, 0).text == ""
  {
  }

  // --- One name, one token ---

  // The name has a token under this probe kind and under no other.
  ghost predicate OnlyUnder(fwd: Fwd, name: string, kind: string) {
    && kind in PROBE && Find(fwd, kind, name).Some?
    && forall k :: k in PROBE && k != kind ==> Find(fwd, k, name).None?
  }

  // Such a name gets that token at every occurrence in every text, quoted or bare,
  // whatever the dots around it, unless it is a bare keyword.
  lemma OneNameOneToken(fwd: Fwd, rules: Rules, text: string, i: nat, strict: bool, kind: string)
    requires NoEmpty(rules.vocab.combinators) && i < |Lexed(text)| && WellLexed(Lexed(text))
    requires var t := Lexed(text)[i];
             && IsIdentifier(t) && !(t.kind == Word && IsKeyword(rules.vocab, t.text))
             && OnlyUnder(fwd, NameOf(t), kind)
    ensures Some(Rewritten(fwd, rules, Lexed(text), i, strict).text) == Find(fwd, kind, NameOf(Lexed(text)[i]))
  {
    hide Known, ProbeOrder, Keeps, ToUpper, ReplaceAll, Lexed;
    var toks := Lexed(text);
    ProbeOrderKinds(toks, i);
    KnownFinds(fwd, NameOf(toks[i]), ProbeOrder(toks, i));
    KnownFinds(fwd, NameOf(toks[i]), PROBE);
  }

  // When several kinds have the name, the first kind of the probe order decides, then
  // the default order.
  lemma KnownIsFirst(fwd: Fwd, name: string, order: seq<string>, j: nat)
    requires j < |order| && Find(fwd, order[j], name).Some?
    requires forall h :: 0 <= h < j ==> Find(fwd, order[h], name).None?
    ensures FirstKnown(fwd, name, order) == Find(fwd, order[j], name)
    ensures Known(fwd, name, order) == Find(fwd, order[j], name)
  {
    if j > 0 {
      KnownIsFirst(fwd, name, order[1..], j - 1);
    }
  }

  // --- Nothing observed survives ---

  // An identifier comes through unchanged only as a keyword, as vocabulary or as a name
  // kept verbatim; every other one becomes a reserved token or the redaction marker.
  lemma OnlyVocabularySurvives(m: Minter, values: Names, keep: Names, rules: Rules, toks: seq<Tok>, i: nat, strict: bool)
    requires NoEmpty(rules.vocab.combinators) && WellLexed(toks) && i < |toks| && IsIdentifier(toks[i])
    requires Buildable(m, values)
    ensures var t, out := toks[i], Rewritten(Tokens(m, values, keep), rules, toks, i, strict).text;
            || (t.kind == Word && out == t.text && (IsKeyword(rules.vocab, t.text) || VocabKeeps(rules.vocab, t.text)))
            || (out == NameOf(t) && exists kind :: NameOf(t) in At(keep, kind))
            || out == REDACTED
            || (Reserved(out) && !Reserved(NameOf(t)))
  {
    hide Known, ProbeOrder, Keeps, ToUpper, ReplaceAll, Tokens, Reserved;
    var fwd, name := Tokens(m, values, keep), NameOf(toks[i]);
    ProbeOrderKinds(toks, i);
    KnownFinds(fwd, name, ProbeOrder(toks, i));
    KnownFinds(fwd, name, PROBE);
    forall k | k in PROBE + ["sql"] && Find(fwd, k, name).Some?
      ensures || (name in At(keep, k) && Find(fwd, k, name).value == name)
              || (Reserved(Find(fwd, k, name).value) && !Reserved(name))
    {
      KeptOrReserved(m, values, keep, k, name);
    }
    assert "sql" in PROBE + ["sql"];
    assert forall k :: k in PROBE ==> k in PROBE + ["sql"];
  }

  lemma KeptOrReserved(m: Minter, values: Names, keep: Names, kind: string, name: string)
    requires Buildable(m, values) && kind in PROBE + ["sql"]
    requires Find(Tokens(m, values, keep), kind, name).Some?
    ensures var token := Find(Tokens(m, values, keep), kind, name).value;
            (name in At(keep, kind) && token == name) || (Reserved(token) && !Reserved(name))
  {
    if name !in At(keep, kind) {
      assert KindBuildable(m, kind, values[kind]);
      ProbeKindsAreKinds(kind);
      IdentifierMapLaws.MintedShape(m, kind, At(values, kind), name);
    }
  }

  lemma ProbeKindsAreKinds(kind: string)
    requires kind in PROBE + ["sql"]
    ensures kind in KINDS
  {
    assert KINDS[0] == "db" && KINDS[1] == "tbl" && KINDS[2] == "col" && KINDS[3] == "user" && KINDS[4] == "role"
        && KINDS[5] == "dict" && KINDS[6] == "cluster" && KINDS[7] == "disk" && KINDS[9] == "sql" && KINDS[10] == "field";
  }
}
