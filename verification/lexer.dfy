// The SQL lexer: one leftmost-first regexp with nine groups, applied from left to right.
module SqlLexer {
  import opened Basics
  import opened Regex

  datatype Kind = WS | LineComment | BlockComment | Str | Backtick | DQuote | Number | Word | Punct

  datatype Tok = Tok(kind: Kind, text: string)

  const GROUPS: seq<Kind> := [WS, LineComment, BlockComment, Str, Backtick, DQuote, Number, Word, Punct]

  predicate IsSpace(c: char) { c in "\t\n\U{0C}\r " }
  predicate IsHex(c: char) { IsDigit(c) || 'a' <= c <= 'f' || 'A' <= c <= 'F' }
  predicate IsWordPart(c: char) { IsWordStart(c) || IsDigit(c) || c == '$' }

  function AnyChar(): Re { One(_ => true) }
  function Digits(): Re { Some1(One(IsDigit)) }

  // One step inside quotes q: an escaped character (only where backslash escapes, and
  // never a newline), a doubled quote, or a plain character.
  function QuoteBody(q: char, escapes: bool): Re {
    if escapes then
      Alt(Cat(Lit('\\'), One(c => c != '\n')), Alt(Cat(Lit(q), Lit(q)), One(c => c != q && c != '\\')))
    else
      Alt(Cat(Lit(q), Lit(q)), One(c => c != q))
  }

  function Quoted(q: char, escapes: bool): Re {
    Cat(Lit(q), Cat(Many(QuoteBody(q, escapes)), Lit(q)))
  }

  function HexNumber(): Re {
    Cat(Lit('0'), Cat(One(c => c == 'x' || c == 'X'), Some1(One(IsHex))))
  }

  function BinaryNumber(): Re {
    Cat(Lit('0'), Cat(One(c => c == 'b' || c == 'B'), Some1(One(c => c == '0' || c == '1'))))
  }

  function Mantissa(): Re {
    Alt(Cat(Digits(), Cat(Opt(Lit('.')), Many(One(IsDigit)))), Cat(Lit('.'), Digits()))
  }

  function Decimal(): Re {
    Cat(Mantissa(),
        Opt(Cat(One(c => c == 'e' || c == 'E'), Cat(Opt(One(c => c == '+' || c == '-')), Digits()))))
  }

  function GroupRe(k: Kind): Re {
    match k
    case WS => Some1(One(IsSpace))
    case LineComment => Cat(Lit('-'), Cat(Lit('-'), Many(One(c => c != '\n'))))
    case BlockComment =>
      Alt(Cat(Lit('/'), Cat(Lit('*'), Cat(Few(AnyChar()), Cat(Lit('*'), Lit('/'))))),
          Cat(Lit('/'), Cat(Lit('*'), Many(AnyChar()))))
    case Str => Quoted('\'', true)
    case Backtick => Quoted('`', false)
    case DQuote => Quoted('"', true)
    case Number => Alt(HexNumber(), Alt(BinaryNumber(), Decimal()))
    case Word => Cat(One(IsWordStart), Many(One(IsWordPart)))
    case Punct => AnyChar()
  }

  // No group matches the empty string: each alternative starts with a single character.
  lemma GroupConsumes(k: Kind)
    ensures Consuming(GroupRe(k))
  {
    match k
    case Number => assert Consuming(Digits()) && Consuming(Mantissa()) && Consuming(Decimal());
    case _ =>
  }

  // The whole regexp from group g on.
  function TokenRe(g: nat): Re
    requires g < |GROUPS|
    decreases |GROUPS| - g
  {
    if g + 1 == |GROUPS| then GroupRe(GROUPS[g]) else Alt(GroupRe(GROUPS[g]), TokenRe(g + 1))
  }

  datatype Hit = Hit(kind: Kind, end: nat)

  // The first group, from g on, that matches at i.
  function MatchGroup(s: string, i: nat, g: nat): (h: Hit)
    requires i < |s| && g < |GROUPS|
    ensures i < h.end <= |s|
    ensures FirstEnd(GroupRe(h.kind), s, i) == At(h.end)
    decreases |GROUPS| - g
  {
    GroupConsumes(GROUPS[g]);
    ConsumingAdvances(GroupRe(GROUPS[g]), s, i);
    var m := FirstEnd(GroupRe(GROUPS[g]), s, i);
    if m.At? then Hit(GROUPS[g], m.end) else MatchGroup(s, i, g + 1)
  }

  // Picking the group afterwards, as FindAllStringSubmatchIndex does, and trying the
  // groups one by one is the same thing.
  lemma {:induction false} MatchGroupIsRegexp(s: string, i: nat, g: nat)
    requires i < |s| && g < |GROUPS|
    ensures FirstEnd(TokenRe(g), s, i) == At(MatchGroup(s, i, g).end)
    decreases |GROUPS| - g
  {
    hide FirstEnd, Ends, GroupRe;
    if g + 1 < |GROUPS| {
      FirstOfAlt(GroupRe(GROUPS[g]), TokenRe(g + 1), s, i);
      MatchGroupIsRegexp(s, i, g + 1);
    } else {
      AnyCharMatches(s, i);
    }
  }

  function Lexed(s: string, i: nat := 0): (toks: seq<Tok>)
    requires i <= |s|
    decreases |s| - i
  {
    if i == |s| then []
    else
      var h := MatchGroup(s, i, 0);
      [Tok(h.kind, s[i..h.end])] + Lexed(s, h.end)
  }

  method Lex(sql: string) returns (out: seq<Tok>)
    ensures out == Lexed(sql)
  {
    out := [];
    var i := 0;
    while i < |sql|
      invariant i <= |sql|
      invariant Lexed(sql) == out + Lexed(sql, i)
    {
      var h := MatchGroup(sql, i, 0);
      out := out + [Tok(h.kind, sql[i..h.end])];
      i := h.end;
    }
  }

  // --- Exactness ---

  function TextOf(toks: seq<Tok>): string {
    if toks == [] then "" else toks[0].text + TextOf(toks[1..])
  }

  lemma {:induction false} LexCovers(s: string, i: nat)
    requires i <= |s|
    ensures TextOf(Lexed(s, i)) == s[i..]
    ensures forall k :: 0 <= k < |Lexed(s, i)| ==> Lexed(s, i)[k].text != ""
    decreases |s| - i
  {
    hide MatchGroup;
    if i < |s| {
      var h := MatchGroup(s, i, 0);
      LexCovers(s, h.end);
      assert Lexed(s, i)[1..] == Lexed(s, h.end);
    }
  }

  // What follows a position decides how it lexes, not what precedes it.
  lemma {:induction false} MatchShift(a: string, b: string, i: nat, g: nat)
    requires i < |b| && g < |GROUPS|
    ensures MatchGroup(a + b, |a| + i, g) == var h := MatchGroup(b, i, g); Hit(h.kind, |a| + h.end)
    decreases |GROUPS| - g
  {
    hide GroupRe, FirstEnd, Lexed, Ends;
    FirstEndShift(GroupRe(GROUPS[g]), a, b, i);
    if FirstEnd(GroupRe(GROUPS[g]), b, i).NoMatch? {
      AnyCharMatches(b, i);
      MatchShift(a, b, i, g + 1);
    }
  }

  lemma AnyCharMatches(s: string, i: nat)
    requires i < |s|
    ensures FirstEnd(GroupRe(Punct), s, i) == At(i + 1)
  {
  }

  lemma {:induction false} LexedShift(a: string, b: string, i: nat)
    requires i <= |b|
    ensures Lexed(a + b, |a| + i) == Lexed(b, i)
    decreases |b| - i
  {
    hide MatchGroup;
    if i < |b| {
      MatchShift(a, b, i, 0);
      var h := MatchGroup(b, i, 0);
      LexedShift(a, b, h.end);
      assert (a + b)[|a| + i..|a| + h.end] == b[i..h.end];
    }
  }
}
