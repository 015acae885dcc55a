// SQL anonymization by token rewrite, through the identifier map.
module SqlRewriter {
  import opened Basics
  import opened SqlLexer
  import opened SqlQuoting
  import opened Text
  import opened Vocabulary
  import IdentifierMap

  const REDACTED := "'[redacted]'"

  // Default kind order, most specific first.
  const PROBE: seq<string> := ["col", "tbl", "db", "dict", "user", "role", "cluster", "disk", "field"]

  // The vocabulary and the string literals that are safe to show.
  datatype Rules = Rules(vocab: Vocab, safe: set<string>)

  type Fwd = IdentifierMap.Forward

  // --- Looking around a token ---

  predicate Skipped(t: Tok) {
    t.kind == WS || t.kind == LineComment || t.kind == BlockComment
  }

  // The nearest token before index i that is neither space nor comment is a dot.
  predicate PrevIsDot(toks: seq<Tok>, i: nat)
    requires i <= |toks|
  {
    i > 0 && (if Skipped(toks[i - 1]) then PrevIsDot(toks, i - 1) else toks[i - 1] == Tok(Punct, "."))
  }

  predicate NextIsDot(toks: seq<Tok>, i: nat)
    requires i < |toks|
    decreases |toks| - i
  {
    i + 1 < |toks| && (if Skipped(toks[i + 1]) then NextIsDot(toks, i + 1) else toks[i + 1] == Tok(Punct, "."))
  }

  function ProbeOrder(toks: seq<Tok>, i: nat): seq<string>
    requires i < |toks|
  {
    var before, after := PrevIsDot(toks, i), NextIsDot(toks, i);
    if after && !before then ["db", "tbl", "dict"]
    else if before && after then ["tbl", "db", "dict"]
    else if before then ["col", "tbl"]
    else PROBE
  }

  // --- Looking names up ---

  function FirstKnown(fwd: Fwd, name: string, kinds: seq<string>): Option<string> {
    if kinds == [] then None
    else if IdentifierMap.Find(fwd, kinds[0], name).Some? then IdentifierMap.Find(fwd, kinds[0], name)
    else FirstKnown(fwd, name, kinds[1..])
  }

  function Without(kinds: seq<string>, excluded: seq<string>): seq<string> {
    if kinds == [] then []
    else (if kinds[0] in excluded then [] else [kinds[0]]) + Without(kinds[1..], excluded)
  }

  // The given kinds first, then every other probe kind.
  function Known(fwd: Fwd, name: string, order: seq<string>): Option<string> {
    var found := FirstKnown(fwd, name, order);
    if found.Some? then found else FirstKnown(fwd, name, Without(PROBE, order))
  }

  // --- One token ---

  datatype Piece = Piece(text: string, ids: nat, redacted: nat)

  predicate SafeString(safe: set<string>, text: string)
    requires |text| >= 2
  {
    var content := ReplaceAll(ReplaceAll(ReplaceAll(text[1..|text| - 1], "\\'", "'"), "''", "'"), "\\\\", "\\");
    content == "" || content in safe || forall i | 0 <= i < |content| :: IsDigit(content[i])
  }

  function MustSql(fwd: Fwd, name: string): Piece {
    var found := IdentifierMap.Find(fwd, "sql", name);
    if found.Some? then Piece(found.value, 1, 0) else Piece(REDACTED, 1, 1)
  }

  predicate IsIdentifier(t: Tok) {
    t.kind == Word || t.kind == Backtick || t.kind == DQuote
  }

  function NameOf(t: Tok): string
    requires IsQuoted(t.kind) ==> |t.text| >= 2
  {
    IdentName(t.kind, t.text)
  }

  function Rewritten(fwd: Fwd, rules: Rules, toks: seq<Tok>, i: nat, strict: bool): Piece
    requires i < |toks| && (IsQuoted(toks[i].kind) ==> |toks[i].text| >= 2)
    requires NoEmpty(rules.vocab.combinators)
  {
    var t := toks[i];
    match t.kind
    case WS => Piece(t.text, 0, 0)
    case Punct => Piece(t.text, 0, 0)
    case LineComment => Piece("", 0, 0)
    case BlockComment => Piece(" ", 0, 0)
    case Number => if strict then Piece("0", 0, 1) else Piece(t.text, 0, 0)
    case Str => if SafeString(rules.safe, t.text) then Piece(t.text, 0, 0) else Piece(REDACTED, 0, 1)
    case Word =>
      if IsKeyword(rules.vocab, t.text) then Piece(t.text, 0, 0)
      else
        var found := Known(fwd, t.text, ProbeOrder(toks, i));
        if found.Some? then Piece(found.value, 1, 0)
        else if VocabKeeps(rules.vocab, t.text) then Piece(t.text, 0, 0)
        else MustSql(fwd, t.text)
    case _ =>
      var found := Known(fwd, NameOf(t), PROBE);
      if found.Some? then Piece(found.value, 1, 0) else MustSql(fwd, NameOf(t))
  }

  // --- A whole value ---

  predicate IsStrayQuote(t: Tok) {
    t.kind == Punct && t.text in ["'", "`", "\""]
  }

  predicate Balanced(toks: seq<Tok>) {
    forall i | 0 <= i < |toks| :: !IsStrayQuote(toks[i])
  }

  ghost function Pieces(fwd: Fwd, rules: Rules, toks: seq<Tok>, strict: bool, n: nat): (p: Piece)
    requires n <= |toks| && WellLexed(toks) && NoEmpty(rules.vocab.combinators)
  {
    if n == 0 then Piece("", 0, 0)
    else
      var p, q := Pieces(fwd, rules, toks, strict, n - 1), Rewritten(fwd, rules, toks, n - 1, strict);
      Piece(p.text + q.text, p.ids + q.ids, p.redacted + q.redacted)
  }

  // The substitutions and redactions of one uncached rewrite.
  ghost function Counted(fwd: Fwd, rules: Rules, toks: seq<Tok>, strict: bool): Piece
    requires WellLexed(toks) && NoEmpty(rules.vocab.combinators)
  {
    if Balanced(toks) then Pieces(fwd, rules, toks, strict, |toks|) else Piece("", 0, 0)
  }

  lemma QuotedTextLength(t: Tok)
    requires WellQuoted(t)
    ensures IsQuoted(t.kind) ==> |t.text| >= 2
  {
  }

  ghost function RewriteText(fwd: Fwd, rules: Rules, value: string, strict: bool): string
    requires NoEmpty(rules.vocab.combinators)
  {
    var toks := Lexed(value);
    LexWellQuoted(value, 0);
    if value == "" then "" else if !Balanced(toks) then REDACTED
    else Pieces(fwd, rules, toks, strict, |toks|).text
  }

  // The names the observe wave collects: quoted identifiers, and words that are neither
  // keywords nor vocabulary.
  predicate IsCollected(rules: Rules, t: Tok)
    requires NoEmpty(rules.vocab.combinators)
  {
    || t.kind == Backtick || t.kind == DQuote
    || (t.kind == Word && !IsKeyword(rules.vocab, t.text) && !VocabKeeps(rules.vocab, t.text))
  }

  ghost function Words(rules: Rules, toks: seq<Tok>): seq<string>
    requires NoEmpty(rules.vocab.combinators) && WellLexed(toks)
  {
    if toks == [] then []
    else
      var t, init := toks[|toks| - 1], toks[..|toks| - 1];
      Words(rules, init) + (if IsCollected(rules, t) then [NameOf(t)] else [])
  }

  lemma {:induction false} WordsMember(rules: Rules, toks: seq<Tok>, w: string)
    requires NoEmpty(rules.vocab.combinators) && WellLexed(toks)
    ensures w in Words(rules, toks) <==> exists i :: 0 <= i < |toks| && IsCollected(rules, toks[i]) && NameOf(toks[i]) == w
  {
    if toks != [] {
      var init := toks[..|toks| - 1];
      WordsMember(rules, init, w);
      assert forall i :: 0 <= i < |init| ==> init[i] == toks[i];
    }
  }

  class Rewriter {
    const idMap: IdentifierMap.IdMap
    const rules: Rules
    var cache: map<(string, bool), string>
    var idsSubstituted: nat
    var stringsRedacted: nat
    var valuesUnparsed: nat

    constructor (im: IdentifierMap.IdMap, rules: Rules)
      ensures idMap == im && this.rules == rules && cache == map[]
      ensures idsSubstituted == stringsRedacted == valuesUnparsed == 0
    {
      idMap := im;
      this.rules := rules;
      cache, idsSubstituted, stringsRedacted, valuesUnparsed := map[], 0, 0, 0;
    }

    // Every remembered answer is what rewriting through the present map would give.
    ghost predicate CacheFresh()
      requires NoEmpty(rules.vocab.combinators)
      reads this, idMap
    {
      forall v, s :: (v, s) in cache ==> cache[(v, s)] == RewriteText(idMap.fwd, rules, v, s)
    }

    method IdentifierWords(value: string) returns (out: seq<string>)
      requires NoEmpty(rules.vocab.combinators)
      ensures WellLexed(Lexed(value)) && out == Words(rules, Lexed(value))
    {
      LexWellQuoted(value, 0);
      out := [];
      var toks := Lex(value);
      for i := 0 to |toks|
        invariant out == Words(rules, toks[..i])
      {
        var t := toks[i];
        assert toks[..i + 1][..i] == toks[..i];
        if t.kind == Word {
          var kept := VocabKeep(rules.vocab, t.text);
          if !IsKeyword(rules.vocab, t.text) && !kept {
            out := out + [t.text];
          }
        } else if t.kind == Backtick || t.kind == DQuote {
          assert WellQuoted(t);
          out := out + [NameOf(t)];
        }
      }
      assert toks[..|toks|] == toks;
    }

    // A cached value is returned as it was; any other is rewritten and remembered.
    method Rewrite(value: string, strict: bool) returns (out: string)
      requires NoEmpty(rules.vocab.combinators)
      modifies this`cache, this`idsSubstituted, this`stringsRedacted, this`valuesUnparsed
      ensures old(CacheFresh()) ==> out == RewriteText(idMap.fwd, rules, value, strict) && CacheFresh()
      ensures value == "" || (value, strict) in old(cache) ==>
                unchanged(this) && out == (if value == "" then "" else old(cache)[(value, strict)])
      ensures value != "" && (value, strict) !in old(cache) ==>
                && out == RewriteText(idMap.fwd, rules, value, strict)
                && cache == old(cache)[(value, strict) := out]
                && WellLexed(Lexed(value))
                && var p := Counted(idMap.fwd, rules, Lexed(value), strict);
                && idsSubstituted == old(idsSubstituted) + p.ids
                && stringsRedacted == old(stringsRedacted) + p.redacted
                && valuesUnparsed == old(valuesUnparsed) + (if Balanced(Lexed(value)) then 0 else 1)
    {
      if value == "" {
        return "";
      }
      if (value, strict) in cache {
        return cache[(value, strict)];
      }
      out := RewriteFresh(value, strict);
      cache := cache[(value, strict) := out];
    }

    method RewriteFresh(value: string, strict: bool) returns (out: string)
      requires value != "" && NoEmpty(rules.vocab.combinators)
      modifies this`idsSubstituted, this`stringsRedacted, this`valuesUnparsed
      ensures out == RewriteText(idMap.fwd, rules, value, strict)
      ensures WellLexed(Lexed(value))
      ensures var p := Counted(idMap.fwd, rules, Lexed(value), strict);
              && idsSubstituted == old(idsSubstituted) + p.ids
              && stringsRedacted == old(stringsRedacted) + p.redacted
      ensures valuesUnparsed == old(valuesUnparsed) + (if Balanced(Lexed(value)) then 0 else 1)
    {
      hide Rewritten, Lexed, WellQuoted;
      LexWellQuoted(value, 0);
      var toks := Lex(value);
      if !Balanced(toks) {
        valuesUnparsed := valuesUnparsed + 1;
        return REDACTED;
      }
      out := "";
      for i := 0 to |toks|
        invariant valuesUnparsed == old(valuesUnparsed)
        invariant out == Pieces(idMap.fwd, rules, toks, strict, i).text
        invariant idsSubstituted == old(idsSubstituted) + Pieces(idMap.fwd, rules, toks, strict, i).ids
        invariant stringsRedacted == old(stringsRedacted) + Pieces(idMap.fwd, rules, toks, strict, i).redacted
      {
        QuotedTextLength(toks[i]);
        var text := RewriteTok(toks, i, strict);
        out := out + text;
      }
    }

    method RewriteTok(toks: seq<Tok>, i: nat, strict: bool) returns (text: string)
      requires i < |toks| && (IsQuoted(toks[i].kind) ==> |toks[i].text| >= 2)
      requires NoEmpty(rules.vocab.combinators)
      modifies this`idsSubstituted, this`stringsRedacted
      ensures var p := Rewritten(idMap.fwd, rules, toks, i, strict);
              && text == p.text
              && idsSubstituted == old(idsSubstituted) + p.ids
              && stringsRedacted == old(stringsRedacted) + p.redacted
    {
      var t := toks[i];
      match t.kind {
        case WS => return t.text;
        case Punct => return t.text;
        case LineComment => return "";
        case BlockComment => return " ";
        case Number =>
          if strict {
            stringsRedacted := stringsRedacted + 1;
            return "0";
          }
          return t.text;
        case Str =>
          if SafeString(rules.safe, t.text) {
            return t.text;
          }
          stringsRedacted := stringsRedacted + 1;
          return REDACTED;
        case Word =>
          if IsKeyword(rules.vocab, t.text) {
            return t.text;
          }
          var found := Known(idMap.fwd, t.text, ProbeOrder(toks, i));
          if found.Some? {
            idsSubstituted := idsSubstituted + 1;
            return found.value;
          }
          var kept := VocabKeep(rules.vocab, t.text);
          if kept {
            return t.text;
          }
          idsSubstituted := idsSubstituted + 1;
          text := MustSQL(t.text);
        case _ =>
          idsSubstituted := idsSubstituted + 1;
          var found := Known(idMap.fwd, NameOf(t), PROBE);
          if found.Some? {
            return found.value;
          }
          text := MustSQL(NameOf(t));
      }
    }

    method MustSQL(name: string) returns (text: string)
      modifies this`stringsRedacted
      ensures text == MustSql(idMap.fwd, name).text
      ensures stringsRedacted == old(stringsRedacted) + MustSql(idMap.fwd, name).redacted
    {
      var found := idMap.Lookup("sql", name);
      if found.Some? {
        return found.value;
      }
      stringsRedacted := stringsRedacted + 1;
      text := REDACTED;
    }
  }
}
