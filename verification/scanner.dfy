// The lexer's regexp as a hand-written scanner: what one token is, by its first
// characters.
module Scanner {
  import opened Basics
  import opened Regex
  import opened SqlLexer
  import opened SqlQuoting

  // --- The scanner ---

  predicate Two(s: string, i: nat, a: char, b: char) {
    i + 1 < |s| && s[i] == a && s[i + 1] == b
  }

  predicate IsBinary(c: char) {
    c == '0' || c == '1'
  }

  predicate NotNewline(c: char) {
    c != '\n'
  }

  // Past an exponent at i, if there is one with a digit in it.
  function Exponent(s: string, i: nat): (e: nat)
    requires i <= |s|
    ensures i <= e <= |s|
  {
    if i < |s| && (s[i] == 'e' || s[i] == 'E') then
      var j := if i + 1 < |s| && (s[i + 1] == '+' || s[i + 1] == '-') then i + 2 else i + 1;
      if j < |s| && IsDigit(s[j]) then Span(IsDigit, s, j + 1) else i
    else i
  }

  function DecimalEnd(s: string, i: nat): End
    requires i < |s|
  {
    if IsDigit(s[i]) then
      var e := Span(IsDigit, s, i + 1);
      At(Exponent(s, if e < |s| && s[e] == '.' then Span(IsDigit, s, e + 1) else e))
    else if s[i] == '.' && i + 1 < |s| && IsDigit(s[i + 1]) then At(Exponent(s, Span(IsDigit, s, i + 2)))
    else NoMatch
  }

  // Digits after a prefix of 0 and one of two letters.
  function RadixEnd(s: string, i: nat, small: char, large: char, digit: char -> bool): End
    requires i < |s|
  {
    if s[i] == '0' && i + 2 < |s| && (s[i + 1] == small || s[i + 1] == large) && digit(s[i + 2])
    then At(Span(digit, s, i + 3)) else NoMatch
  }

  function NumberEnd(s: string, i: nat): End
    requires i < |s|
  {
    OrElse(RadixEnd(s, i, 'x', 'X', IsHex), OrElse(RadixEnd(s, i, 'b', 'B', IsBinary), DecimalEnd(s, i)))
  }

  // Past the first closing of a comment from i on.
  function CommentEnd(s: string, i: nat): (e: End)
    requires i <= |s|
    ensures e.At? ==> i + 2 <= e.end <= |s|
    decreases |s| - i
  {
    if i == |s| then NoMatch else if Two(s, i, '*', '/') then At(i + 2) else CommentEnd(s, i + 1)
  }

  function Scan(s: string, i: nat): Hit
    requires i < |s|
  {
    var c := s[i];
    if IsSpace(c) then Hit(WS, Span(IsSpace, s, i + 1))
    else if Two(s, i, '-', '-') then Hit(LineComment, Span(NotNewline, s, i + 2))
    else if Two(s, i, '/', '*') then
      var e := CommentEnd(s, i + 2);
      Hit(BlockComment, if e.At? then e.end else |s|)
    else if c == '\'' || c == '`' || c == '"' then
      var k := if c == '\'' then Str else if c == '`' then Backtick else DQuote;
      var e := QuoteEnd(c, k != Backtick, s, i + 1);
      if e.At? then Hit(k, e.end) else Hit(Punct, i + 1)
    else if NumberEnd(s, i).At? then Hit(Number, NumberEnd(s, i).end)
    else if IsWordStart(c) then Hit(Word, Span(IsWordPart, s, i + 1))
    else Hit(Punct, i + 1)
  }

  // --- Matching greedy and lazy stars ---

  lemma {:induction false} ManyAt(p: char -> bool, s: string, i: nat)
    requires i <= |s|
    ensures FirstEnd(Many(One(p)), s, i) == At(Span(p, s, i))
    decreases |s| - i
  {
    OneEnds(p, s, i);
    StarEnds(One(p), s, i);
    hide Ends;
    if i < |s| && p(s[i]) {
      ManyAt(p, s, i + 1);
    }
  }

  lemma SomeAt(p: char -> bool, s: string, i: nat)
    requires i <= |s|
    ensures FirstEnd(Some1(One(p)), s, i) == if i < |s| && p(s[i]) then At(Span(p, s, i + 1)) else NoMatch
  {
    OneThen(p, Many(One(p)), s, i);
    if i < |s| {
      ManyAt(p, s, i + 1);
    }
  }

  // Where what follows always matches, the first way to match the first part decides.
  lemma CatFirst(a: Re, b: Re, s: string, i: nat)
    requires i <= |s|
    ensures FirstEnd(a, s, i) == NoMatch ==> FirstEnd(Cat(a, b), s, i) == NoMatch
    ensures FirstEnd(a, s, i).At? && FirstEnd(b, s, FirstEnd(a, s, i).end).At? ==>
              FirstEnd(Cat(a, b), s, i) == FirstEnd(b, s, FirstEnd(a, s, i).end)
  {
    CatEnds(a, b, s, i);
  }

  lemma OptAt(r: Re, s: string, i: nat)
    requires i <= |s|
    ensures FirstEnd(Opt(r), s, i) == if FirstEnd(r, s, i).At? then FirstEnd(r, s, i) else At(i)
  {
    FirstOfAlt(r, Empty, s, i);
  }

  // A lazy star over any characters: stop here if the rest matches, and go on if not.
  lemma FewStep(k: Re, s: string, i: nat)
    requires i <= |s|
    ensures FirstEnd(Cat(Few(AnyChar()), k), s, i)
         == OrElse(FirstEnd(k, s, i), if i < |s| then FirstEnd(Cat(Few(AnyChar()), k), s, i + 1) else NoMatch)
  {
    hide Ends, Then;
    var few := Few(AnyChar());
    FewEnds(s, i);
    CatEnds(few, k, s, i);
    ThenOne(i, k, s, i);
    if i < |s| {
      CatEnds(few, k, s, i + 1);
      ThenConcat([i], Ends(few, s, i + 1), k, s, i);
      ThenFrom(Ends(few, s, i + 1), k, s, i, i + 1);
    } else {
      assert [i] + [] == [i];
    }
  }

  lemma FewEnds(s: string, i: nat)
    requires i <= |s|
    ensures Ends(Few(AnyChar()), s, i) == [i] + if i < |s| then Ends(Few(AnyChar()), s, i + 1) else []
  {
    if i < |s| {
      assert Ends(AnyChar(), s, i) == [i + 1];
      AfterKeeps([i + 1], i, |s|);
      ThenOne(i + 1, Few(AnyChar()), s, i + 1);
    }
  }

  // --- The groups one by one ---

  lemma {:induction false} CommentEndAt(s: string, i: nat)
    requires i <= |s|
    ensures FirstEnd(Cat(Few(AnyChar()), Cat(Lit('*'), Lit('/'))), s, i) == CommentEnd(s, i)
    decreases |s| - i
  {
    var close := Cat(Lit('*'), Lit('/'));
    FewStep(close, s, i);
    OneThen(close.first.accepts, close.second, s, i);
    hide Ends;
    if i < |s| {
      OneEnds(close.second.accepts, s, i + 1);
      CommentEndAt(s, i + 1);
    }
  }

  lemma BlockCommentAt(s: string, i: nat)
    requires i < |s|
    ensures FirstEnd(GroupRe(BlockComment), s, i)
         == if !Two(s, i, '/', '*') then NoMatch
            else if CommentEnd(s, i + 2).At? then CommentEnd(s, i + 2) else At(|s|)
  {
    var closed, unclosed := GroupRe(BlockComment).preferred, GroupRe(BlockComment).other;
    hide Ends, FirstEnd;
    FirstOfAlt(closed, unclosed, s, i);
    OneThen(closed.first.accepts, closed.second, s, i);
    OneThen(unclosed.first.accepts, unclosed.second, s, i);
    OneThen(closed.second.first.accepts, closed.second.second, s, i + 1);
    OneThen(unclosed.second.first.accepts, unclosed.second.second, s, i + 1);
    if Two(s, i, '/', '*') {
      CommentEndAt(s, i + 2);
      ManyAt(unclosed.second.second.body.accepts, s, i + 2);
      AllAccepted(s, i + 2);
    }
  }

  lemma {:induction false} AllAccepted(s: string, i: nat)
    requires i <= |s|
    ensures Span(AnyChar().accepts, s, i) == |s|
    decreases |s| - i
  {
    if i < |s| {
      AllAccepted(s, i + 1);
    }
  }

  lemma LineCommentAt(s: string, i: nat)
    requires i < |s|
    ensures FirstEnd(GroupRe(LineComment), s, i)
         == if Two(s, i, '-', '-') then At(Span(NotNewline, s, i + 2)) else NoMatch
  {
    var re := GroupRe(LineComment);
    hide Ends, FirstEnd;
    OneThen(re.first.accepts, re.second, s, i);
    OneThen(re.second.first.accepts, re.second.second, s, i + 1);
    if Two(s, i, '-', '-') {
      ManyAt(re.second.second.body.accepts, s, i + 2);
      SpanSame(re.second.second.body.accepts, NotNewline, s, i + 2);
    }
  }

  // Runs of equal classes are equal.
  lemma {:induction false} SpanSame(p: char -> bool, q: char -> bool, s: string, i: nat)
    requires i <= |s| && forall c :: p(c) == q(c)
    ensures Span(p, s, i) == Span(q, s, i)
    decreases |s| - i
  {
    if i < |s| && p(s[i]) {
      SpanSame(p, q, s, i + 1);
    }
  }

  lemma RadixAt(re: Re, s: string, i: nat, small: char, large: char, digit: char -> bool)
    requires i < |s| && re.Cat? && re.first == Lit('0') && re.second.Cat?
    requires re.second.first.One? && forall c :: re.second.first.accepts(c) <==> c == small || c == large
    requires re.second.second.Cat? && re.second.second.first.One? && re.second.second == Some1(re.second.second.first)
    requires forall c :: re.second.second.first.accepts(c) <==> digit(c)
    ensures FirstEnd(re, s, i) == RadixEnd(s, i, small, large, digit)
  {
    hide Ends, FirstEnd;
    OneThen(re.first.accepts, re.second, s, i);
    OneThen(re.second.first.accepts, re.second.second, s, i + 1);
    if i + 2 <= |s| {
      SomeAt(re.second.second.first.accepts, s, i + 2);
      if i + 3 <= |s| {
        SpanSame(re.second.second.first.accepts, digit, s, i + 3);
      }
    }
  }

  lemma DigitsAt(s: string, i: nat)
    requires i <= |s|
    ensures FirstEnd(Digits(), s, i) == if i < |s| && IsDigit(s[i]) then At(Span(IsDigit, s, i + 1)) else NoMatch
  {
    SomeAt(IsDigit, s, i);
  }

  // An optional sign and digits. Where there is a sign, there are no digits without it.
  lemma SignedAt(re: Re, s: string, i: nat)
    requires i <= |s| && re.Cat? && re.second == Digits() && re.first.Alt? && re.first == Opt(re.first.preferred)
    requires re.first.preferred.One? && forall c :: re.first.preferred.accepts(c) <==> c == '+' || c == '-'
    ensures var j := if i < |s| && (s[i] == '+' || s[i] == '-') then i + 1 else i;
            FirstEnd(re, s, i) == if j < |s| && IsDigit(s[j]) then At(Span(IsDigit, s, j + 1)) else NoMatch
  {
    var sign := re.first.preferred;
    DigitsAt(s, i);
    if i < |s| {
      DigitsAt(s, i + 1);
    }
    hide Ends, FirstEnd, Then, Digits, Span;
    OptOneThen(sign.accepts, Digits(), s, i);
  }

  // An optional character before something that cannot start with it.
  lemma OptOneThen(p: char -> bool, k: Re, s: string, i: nat)
    requires i <= |s| && (i < |s| && p(s[i]) ==> FirstEnd(k, s, i) == NoMatch)
    ensures FirstEnd(Cat(Opt(One(p)), k), s, i) == FirstEnd(k, s, if i < |s| && p(s[i]) then i + 1 else i)
  {
    hide Ends, Then, FirstEnd, Opt;
    var whole := Cat(Opt(One(p)), k);
    OptOneEnds(p, s, i);
    CatEnds(Opt(One(p)), k, s, i);
    NoEnds(k, s, i);
    ThenOne(i, k, s, i);
    if i < |s| && p(s[i]) {
      ThenOne(i + 1, k, s, i);
      ThenConcat([i + 1], [i], k, s, i);
      FirstOf(k, s, i + 1, whole, i);
    } else {
      assert [] + [i] == [i];
      SameFirst(k, whole, s, i);
    }
  }

  lemma SameFirst(a: Re, b: Re, s: string, i: nat)
    requires i <= |s| && Ends(a, s, i) == Ends(b, s, i)
    ensures FirstEnd(a, s, i) == FirstEnd(b, s, i)
  {
  }

  lemma OptOneEnds(p: char -> bool, s: string, i: nat)
    requires i <= |s|
    ensures Ends(Opt(One(p)), s, i) == (if i < |s| && p(s[i]) then [i + 1] else []) + [i]
  {
  }

  lemma FirstOf(a: Re, s: string, i: nat, b: Re, j: nat)
    requires i <= |s| && j <= |s|
    ensures Ends(a, s, i) + [] == Ends(b, s, j) ==> FirstEnd(a, s, i) == FirstEnd(b, s, j)
  {
  }

  lemma ExponentAt(s: string, i: nat)
    requires i <= |s|
    ensures FirstEnd(Decimal().second, s, i) == At(Exponent(s, i))
  {
    var exponent := Decimal().second.preferred;
    hide Ends, FirstEnd;
    OptAt(exponent, s, i);
    OneThen(exponent.first.accepts, exponent.second, s, i);
    if i < |s| {
      SignedAt(exponent.second, s, i + 1);
    }
  }

  // A dot or none, and digits or none.
  lemma FractionAt(s: string, i: nat)
    requires i <= |s| && (i == |s| || !IsDigit(s[i]))
    ensures FirstEnd(Cat(Opt(Lit('.')), Many(One(IsDigit))), s, i)
         == At(if i < |s| && s[i] == '.' then Span(IsDigit, s, i + 1) else i)
  {
    hide Ends, FirstEnd, Opt, Lit;
    OptAt(Lit('.'), s, i);
    LitAt('.', s, i);
    CatFirst(Opt(Lit('.')), Many(One(IsDigit)), s, i);
    ManyAt(IsDigit, s, i);
    if i < |s| {
      ManyAt(IsDigit, s, i + 1);
    }
  }

  lemma LitAt(c: char, s: string, i: nat)
    requires i <= |s|
    ensures FirstEnd(Lit(c), s, i) == if i < |s| && s[i] == c then At(i + 1) else NoMatch
  {
  }

  lemma MantissaAt(s: string, i: nat)
    requires i < |s|
    ensures FirstEnd(Mantissa(), s, i)
         == if IsDigit(s[i]) then
              var e := Span(IsDigit, s, i + 1); At(if e < |s| && s[e] == '.' then Span(IsDigit, s, e + 1) else e)
            else if s[i] == '.' && i + 1 < |s| && IsDigit(s[i + 1]) then At(Span(IsDigit, s, i + 2))
            else NoMatch
  {
    var whole, fraction := Mantissa().preferred, Mantissa().other;
    hide Ends, FirstEnd;
    FirstOfAlt(whole, fraction, s, i);
    DigitsAt(s, i);
    CatFirst(whole.first, whole.second, s, i);
    if IsDigit(s[i]) {
      FractionAt(s, Span(IsDigit, s, i + 1));
    } else {
      OneThen(fraction.first.accepts, fraction.second, s, i);
      DigitsAt(s, i + 1);
    }
  }

  lemma DecimalAt(s: string, i: nat)
    requires i < |s|
    ensures FirstEnd(Decimal(), s, i) == DecimalEnd(s, i)
  {
    hide Ends, FirstEnd;
    MantissaAt(s, i);
    CatFirst(Mantissa(), Decimal().second, s, i);
    if FirstEnd(Mantissa(), s, i).At? {
      ExponentAt(s, FirstEnd(Mantissa(), s, i).end);
    }
  }

  lemma NumberAt(s: string, i: nat)
    requires i < |s|
    ensures FirstEnd(GroupRe(Number), s, i) == NumberEnd(s, i)
  {
    hide Ends, FirstEnd, Decimal, RadixEnd, DecimalEnd;
    FirstOfAlt(HexNumber(), Alt(BinaryNumber(), Decimal()), s, i);
    FirstOfAlt(BinaryNumber(), Decimal(), s, i);
    RadixAt(HexNumber(), s, i, 'x', 'X', IsHex);
    RadixAt(BinaryNumber(), s, i, 'b', 'B', IsBinary);
    DecimalAt(s, i);
  }

  lemma SpaceAt(s: string, i: nat)
    requires i < |s|
    ensures FirstEnd(GroupRe(WS), s, i) == if IsSpace(s[i]) then At(Span(IsSpace, s, i + 1)) else NoMatch
  {
    SomeAt(IsSpace, s, i);
  }

  lemma WordAt(s: string, i: nat)
    requires i < |s|
    ensures FirstEnd(GroupRe(Word), s, i) == if IsWordStart(s[i]) then At(Span(IsWordPart, s, i + 1)) else NoMatch
  {
    OneThen(IsWordStart, Many(One(IsWordPart)), s, i);
    ManyAt(IsWordPart, s, i + 1);
  }

  // --- The whole regexp ---

  // What group g of the regexp matches at i, without the regexp.
  function GroupEnd(k: Kind, s: string, i: nat): End
    requires i < |s|
  {
    match k
    case WS => if IsSpace(s[i]) then At(Span(IsSpace, s, i + 1)) else NoMatch
    case LineComment => if Two(s, i, '-', '-') then At(Span(NotNewline, s, i + 2)) else NoMatch
    case BlockComment =>
      if !Two(s, i, '/', '*') then NoMatch
      else if CommentEnd(s, i + 2).At? then CommentEnd(s, i + 2) else At(|s|)
    case Str => if s[i] == '\'' then QuoteEnd('\'', true, s, i + 1) else NoMatch
    case Backtick => if s[i] == '`' then QuoteEnd('`', false, s, i + 1) else NoMatch
    case DQuote => if s[i] == '"' then QuoteEnd('"', true, s, i + 1) else NoMatch
    case Number => NumberEnd(s, i)
    case Word => if IsWordStart(s[i]) then At(Span(IsWordPart, s, i + 1)) else NoMatch
    case Punct => At(i + 1)
  }

  lemma GroupAt(k: Kind, s: string, i: nat)
    requires i < |s|
    ensures FirstEnd(GroupRe(k), s, i) == GroupEnd(k, s, i)
  {
    hide Ends, FirstEnd, GroupRe, QuoteEnd, NumberEnd, CommentEnd, Span;
    match k
    case WS => SpaceAt(s, i);
    case LineComment => LineCommentAt(s, i);
    case BlockComment => BlockCommentAt(s, i);
    case Number => NumberAt(s, i);
    case Word => WordAt(s, i);
    case Punct => AnyCharMatches(s, i);
    case _ => QuotedHit(k, s, i);
  }

  // The first group from g on that matches.
  lemma {:induction false} MatchGroupSkips(s: string, i: nat, g: nat, h: nat)
    requires i < |s| && g <= h < |GROUPS| && GroupEnd(GROUPS[h], s, i).At?
    requires forall j :: g <= j < h ==> GroupEnd(GROUPS[j], s, i).NoMatch?
    ensures MatchGroup(s, i, g) == Hit(GROUPS[h], GroupEnd(GROUPS[h], s, i).end)
    decreases h - g
  {
    hide Ends, FirstEnd, GroupRe, GroupEnd;
    GroupAt(GROUPS[g], s, i);
    if g < h {
      MatchGroupSkips(s, i, g + 1, h);
    }
  }

  // The token regexp finds exactly the scanner's token, at every position of every text.
  lemma ScanIsRegexp(s: string, i: nat)
    requires i < |s|
    ensures MatchGroup(s, i, 0) == Scan(s, i)
  {
    hide Ends, FirstEnd, GroupRe, MatchGroup, QuoteEnd, CommentEnd, Span, DecimalEnd;
    var h := Scan(s, i);
    var g := if h.kind == WS then 0 else if h.kind == LineComment then 1 else if h.kind == BlockComment then 2
             else if h.kind == Str then 3 else if h.kind == Backtick then 4 else if h.kind == DQuote then 5
             else if h.kind == Number then 6 else if h.kind == Word then 7 else 8;
    NumberStarts(s, i);
    MatchGroupSkips(s, i, 0, g);
  }

  lemma NumberStarts(s: string, i: nat)
    requires i < |s|
    ensures NumberEnd(s, i).At? ==> IsDigit(s[i]) || s[i] == '.'
  {
  }
}
