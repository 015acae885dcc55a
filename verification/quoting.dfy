// Quoted identifiers and literals: what the writer quotes, the lexer reads back.
module SqlQuoting {
  import opened Basics
  import opened Regex
  import opened SqlLexer
  import opened Text

  // sandbox.go qident (store.go quoteIdent is the same).
  function QIdent(name: string): string {
    "`" + ReplaceAll(name, "`", "``") + "`"
  }

  // sandbox.go sqlStr (store.go sqlEsc is the same).
  function SqlStr(v: string): string {
    EscapeQuotes(v)
  }

  predicate IsQuoted(k: Kind) {
    k == Str || k == Backtick || k == DQuote
  }

  function QuoteOf(k: Kind): char
    requires IsQuoted(k)
  {
    match k
    case Str => '\''
    case Backtick => '`'
    case DQuote => '"'
  }

  function IdentName(k: Kind, text: string): string
    requires IsQuoted(k) ==> |text| >= 2
  {
    match k
    case Backtick => ReplaceAll(text[1..|text| - 1], "``", "`")
    case DQuote => ReplaceAll(text[1..|text| - 1], "\"\"", "\"")
    case _ => text
  }

  // --- A direct scanner for the rest of a quoted token ---

  // The end of one step of the quoted body at i.
  function BodyEnd(q: char, escapes: bool, s: string, i: nat): End
    requires i <= |s|
  {
    if i == |s| then NoMatch
    else if escapes && s[i] == '\\' then (if i + 1 < |s| && s[i + 1] != '\n' then At(i + 2) else NoMatch)
    else if s[i] == q then (if i + 1 < |s| && s[i + 1] == q then At(i + 2) else NoMatch)
    else At(i + 1)
  }

  // Scans as far as the body goes, then falls back to the last quote that can close.
  function QuoteEnd(q: char, escapes: bool, s: string, i: nat): End
    requires i <= |s|
    decreases |s| - i
  {
    var here := if i < |s| && s[i] == q then At(i + 1) else NoMatch;
    var step := BodyEnd(q, escapes, s, i);
    if step.At? then OrElse(QuoteEnd(q, escapes, s, step.end), here) else here
  }

  lemma BodyEnds(q: char, escapes: bool, s: string, i: nat)
    requires i <= |s| && q != '\\'
    ensures Ends(QuoteBody(q, escapes), s, i)
         == match BodyEnd(q, escapes, s, i) case At(e) => [e] case NoMatch => []
  {
    var body := QuoteBody(q, escapes);
    PairEnds(body.preferred, s, i);
    if escapes {
      PairEnds(body.other.preferred, s, i);
      assert Ends(body.other, s, i) == Ends(body.other.preferred, s, i) + Ends(body.other.other, s, i);
    }
  }

  lemma PairEnds(r: Re, s: string, i: nat)
    requires i <= |s| && r.Cat? && r.first.One? && r.second.One?
    ensures Ends(r, s, i)
         == if i + 1 < |s| && r.first.accepts(s[i]) && r.second.accepts(s[i + 1]) then [i + 2] else []
  {
    if i < |s| && r.first.accepts(s[i]) {
      ThenOne(i + 1, r.second, s, i);
    }
  }

  // The scanner finds exactly the match a backtracking search finds first.
  lemma {:induction false} QuoteEndIsRegexp(q: char, escapes: bool, s: string, i: nat)
    requires i <= |s| && q != '\\'
    ensures FirstEnd(Cat(Many(QuoteBody(q, escapes)), Lit(q)), s, i) == QuoteEnd(q, escapes, s, i)
    decreases |s| - i
  {
    hide QuoteBody;
    BodyEnds(q, escapes, s, i);
    StarStep(QuoteBody(q, escapes), Lit(q), s, i);
    var step := BodyEnd(q, escapes, s, i);
    if step.At? {
      QuoteEndIsRegexp(q, escapes, s, step.end);
    }
  }

  // --- Shape of quoted tokens ---

  // A text in which q only occurs doubled (outside escape pairs).
  predicate Paired(q: char, escapes: bool, s: string) {
    if s == "" then true
    else if escapes && s[0] == '\\' then |s| >= 2 && s[1] != '\n' && Paired(q, escapes, s[2..])
    else if s[0] == q then |s| >= 2 && s[1] == q && Paired(q, escapes, s[2..])
    else Paired(q, escapes, s[1..])
  }

  lemma {:induction false} QuoteEndPaired(q: char, escapes: bool, s: string, i: nat)
    requires i <= |s| && QuoteEnd(q, escapes, s, i).At?
    ensures var e := QuoteEnd(q, escapes, s, i).end;
            i < e <= |s| && s[e - 1] == q && Paired(q, escapes, s[i..e - 1])
    decreases |s| - i
  {
    var e := QuoteEnd(q, escapes, s, i).end;
    var step := BodyEnd(q, escapes, s, i);
    if step.At? && QuoteEnd(q, escapes, s, step.end).At? {
      QuoteEndPaired(q, escapes, s, step.end);
      assert s[i..e - 1][step.end - i..] == s[step.end..e - 1];
    }
  }

  lemma QuotedHit(k: Kind, s: string, i: nat)
    requires IsQuoted(k) && i < |s|
    ensures FirstEnd(GroupRe(k), s, i)
         == if s[i] == QuoteOf(k) then QuoteEnd(QuoteOf(k), k != Backtick, s, i + 1) else NoMatch
  {
    var q := QuoteOf(k);
    var rest := Cat(Many(QuoteBody(q, k != Backtick)), Lit(q));
    assert GroupRe(k) == Cat(Lit(q), rest);
    CatEnds(Lit(q), rest, s, i);
    if s[i] == q {
      QuoteEndIsRegexp(q, k != Backtick, s, i + 1);
      assert Ends(Lit(q), s, i) == [i + 1];
      ThenOne(i + 1, rest, s, i);
    } else {
      assert Ends(Lit(q), s, i) == [];
    }
  }

  ghost predicate WellQuoted(t: Tok) {
    IsQuoted(t.kind) ==>
      && |t.text| >= 2
      && t.text[0] == QuoteOf(t.kind) == t.text[|t.text| - 1]
      && Paired(QuoteOf(t.kind), t.kind != Backtick, t.text[1..|t.text| - 1])
  }

  // The text between the first and the last character of a slice.
  lemma InnerSlice(s: string, i: nat, j: nat)
    requires i + 2 <= j <= |s|
    ensures s[i..j][1..j - i - 1] == s[i + 1..j - 1]
    ensures s[i..j][0] == s[i] && s[i..j][j - i - 1] == s[j - 1]
  {
    var inner, whole := s[i..j][1..j - i - 1], s[i + 1..j - 1];
    assert |inner| == |whole|;
    assert forall k :: 0 <= k < |inner| ==> inner[k] == whole[k];
  }

  lemma HitWellQuoted(s: string, i: nat, h: Hit)
    requires i < h.end <= |s| && FirstEnd(GroupRe(h.kind), s, i) == At(h.end)
    ensures WellQuoted(Tok(h.kind, s[i..h.end]))
  {
    hide FirstEnd, GroupRe, MatchGroup, Lexed, Paired;
    if IsQuoted(h.kind) {
      QuotedHit(h.kind, s, i);
      QuoteEndPaired(QuoteOf(h.kind), h.kind != Backtick, s, i + 1);
      InnerSlice(s, i, h.end);
    }
  }

  ghost predicate WellLexed(toks: seq<Tok>) {
    forall i :: 0 <= i < |toks| ==> WellQuoted(toks[i])
  }

  // Every string and quoted identifier the lexer reports has both its quotes, and no
  // unpaired quote between them.
  lemma {:induction false} LexWellQuoted(s: string, i: nat)
    requires i <= |s|
    ensures WellLexed(Lexed(s, i))
    decreases |s| - i
  {
    if i < |s| {
      var h := MatchGroup(s, i, 0);
      LexWellQuoted(s, h.end);
      HitWellQuoted(s, i, h);
    }
  }

  // --- Reading back what was quoted ---

  // A paired text closed by q, with no further q, is scanned to that q.
  lemma {:induction false} ScanPaired(q: char, escapes: bool, s: string, i: nat, n: nat)
    requires i + n < |s| && s[i + n] == q && q != '\\'
    requires Paired(q, escapes, s[i..i + n])
    requires i + n + 1 == |s| || s[i + n + 1] != q
    ensures QuoteEnd(q, escapes, s, i) == At(i + n + 1)
    decreases n
  {
    if n > 0 {
      var k := BodyEnd(q, escapes, s, i).end - i;
      assert s[i..i + n][k..] == s[i + k..i + n];
      ScanPaired(q, escapes, s, i + k, n - k);
    }
  }

  lemma UnquotedGroupsFail(s: string, i: nat, k: Kind)
    requires IsQuoted(k) && i < |s| && s[i] == QuoteOf(k)
    ensures FirstEnd(GroupRe(WS), s, i) == NoMatch
    ensures FirstEnd(GroupRe(LineComment), s, i) == NoMatch
    ensures FirstEnd(GroupRe(BlockComment), s, i) == NoMatch
  {
    var ws, line, block := GroupRe(WS), GroupRe(LineComment), GroupRe(BlockComment);
    CatFails(ws.first, ws.second, s, i);
    CatFails(line.first, line.second, s, i);
    CatFails(block.preferred.first, block.preferred.second, s, i);
    CatFails(block.other.first, block.other.second, s, i);
  }

  lemma QuoteDecidesGroup(s: string, i: nat, k: Kind)
    requires IsQuoted(k) && i < |s| && s[i] == QuoteOf(k) && FirstEnd(GroupRe(k), s, i).At?
    ensures MatchGroup(s, i, 0) == Hit(k, FirstEnd(GroupRe(k), s, i).end)
  {
    hide Ends, FirstEnd, GroupRe;
    UnquotedGroupsFail(s, i, k);
    QuotedHit(Str, s, i);
    QuotedHit(Backtick, s, i);
    QuotedHit(DQuote, s, i);
    assert MatchGroup(s, i, 0) == MatchGroup(s, i, 1) == MatchGroup(s, i, 2) == MatchGroup(s, i, 3);
  }

  // A well-quoted text lexes as one token, whatever follows, unless its own quote does.
  lemma WellQuotedLexes(k: Kind, t: string, rest: string)
    requires IsQuoted(k) && WellQuoted(Tok(k, t))
    requires rest == "" || rest[0] != QuoteOf(k)
    ensures Lexed(t + rest) == [Tok(k, t)] + Lexed(rest)
  {
    var s, q := t + rest, QuoteOf(k);
    assert s[1..1 + (|t| - 2)] == t[1..|t| - 1];
    ScanPaired(q, k != Backtick, s, 1, |t| - 2);
    QuotedHit(k, s, 0);
    QuoteDecidesGroup(s, 0, k);
    LexedShift(t, rest, 0);
    assert s[0..|t|] == t;
  }

  lemma {:induction false} DoubledIsPaired(name: string, q: char)
    requires q != '\\'
    ensures Paired(q, false, ReplaceAll(name, [q], [q, q]))
  {
    if name != "" {
      DoubledIsPaired(name[1..], q);
      var tail := ReplaceAll(name[1..], [q], [q, q]);
      assert ([q, q] + tail)[2..] == tail;
      assert ([name[0]] + tail)[1..] == tail;
    }
  }

  // Any name whatever, embedded backticks included, is read back from its quoted form.
  lemma QIdentRoundTrip(name: string, rest: string)
    requires rest == "" || rest[0] != '`'
    ensures Lexed(QIdent(name) + rest) == [Tok(Backtick, QIdent(name))] + Lexed(rest)
    ensures IdentName(Backtick, QIdent(name)) == name
  {
    var body := ReplaceAll(name, "`", "``");
    assert QIdent(name)[1..|QIdent(name)| - 1] == body;
    DoubledIsPaired(name, '`');
    WellQuotedLexes(Backtick, QIdent(name), rest);
    DoubleThenHalve(name, '`');
  }

  lemma {:induction false} PairedHalvesBack(q: char, body: string)
    requires Paired(q, false, body)
    ensures ReplaceAll(ReplaceAll(body, [q, q], [q]), [q], [q, q]) == body
  {
    if body != "" {
      if body[0] == q {
        PairedHalvesBack(q, body[2..]);
        ReplaceCharConcat([q], ReplaceAll(body[2..], [q, q], [q]), q, [q, q]);
        assert [q, q] <= body;
      } else {
        PairedHalvesBack(q, body[1..]);
        ReplaceCharConcat([body[0]], ReplaceAll(body[1..], [q, q], [q]), q, [q, q]);
        assert !([q, q] <= body);
      }
    }
  }

  // And every backtick token in any text is the quoted form of its name: names and
  // backtick tokens are in bijection.
  lemma BacktickTokenIsQIdent(s: string, t: Tok)
    requires t in Lexed(s) && t.kind == Backtick
    ensures WellQuoted(t) && QIdent(IdentName(Backtick, t.text)) == t.text
  {
    hide Lexed, Paired, ReplaceAll;
    LexWellQuoted(s, 0);
    PairedHalvesBack('`', t.text[1..|t.text| - 1]);
  }

  lemma {:induction false} DoubledEscapes(name: string)
    requires '\\' !in name
    ensures Paired('"', true, ReplaceAll(name, "\"", "\"\""))
  {
    if name != "" {
      DoubledEscapes(name[1..]);
      var tail := ReplaceAll(name[1..], "\"", "\"\"");
      assert ("\"\"" + tail)[2..] == tail;
      assert ([name[0]] + tail)[1..] == tail;
    }
  }

  // A name without backslashes is read back from double quotes too.
  lemma DQuoteRoundTrip(name: string, rest: string)
    requires '\\' !in name && (rest == "" || rest[0] != '"')
    ensures var quoted := "\"" + ReplaceAll(name, "\"", "\"\"") + "\"";
            Lexed(quoted + rest) == [Tok(DQuote, quoted)] + Lexed(rest) && IdentName(DQuote, quoted) == name
  {
    var body := ReplaceAll(name, "\"", "\"\"");
    var quoted := "\"" + body + "\"";
    assert quoted[1..|quoted| - 1] == body;
    DoubledEscapes(name);
    WellQuotedLexes(DQuote, quoted, rest);
    DoubleThenHalve(name, '"');
  }

  lemma {:induction false} EscapedIsPaired(v: string)
    ensures Paired('\'', true, EscapeQuotes(v))
  {
    if v != "" {
      EscapeQuotesStep(v);
      EscapedIsPaired(v[1..]);
      var tail := EscapeQuotes(v[1..]);
      assert (EscapeChar(v[0]) + tail)[|EscapeChar(v[0])|..] == tail;
    }
  }

  // A literal built with SqlStr is one string token for every value.
  lemma SqlStrIsOneToken(v: string, rest: string)
    requires rest == "" || rest[0] != '\''
    ensures var lit := "'" + SqlStr(v) + "'"; Lexed(lit + rest) == [Tok(Str, lit)] + Lexed(rest)
  {
    EscapedIsPaired(v);
    var lit := "'" + SqlStr(v) + "'";
    assert lit[1..|lit| - 1] == SqlStr(v);
    WellQuotedLexes(Str, lit, rest);
  }

  // --- Unclosed quotes ---

  // From i on, nothing closes the body: it runs to the end of the text, or to a backslash
  // that cannot escape what follows.
  predicate Open(q: char, escapes: bool, s: string, i: nat)
    requires i <= |s|
    decreases |s| - i
  {
    var step := BodyEnd(q, escapes, s, i);
    if step.At? then Open(q, escapes, s, step.end) else i == |s| || s[i] != q
  }

  // The scan of an open body fails, or backs off to the first half of a doubled quote,
  // whose second half then opens another body that nothing closes.
  lemma {:induction false} OpenBacksOff(q: char, escapes: bool, s: string, i: nat)
    requires i <= |s| && q != '\\' && Open(q, escapes, s, i)
    ensures var scan := QuoteEnd(q, escapes, s, i);
            scan.At? ==> i < scan.end < |s| && s[scan.end] == q && Open(q, escapes, s, scan.end + 1)
    decreases |s| - i
  {
    var step := BodyEnd(q, escapes, s, i);
    if step.At? {
      OpenBacksOff(q, escapes, s, step.end);
    }
  }

  lemma {:induction false} FailedIsOpen(q: char, escapes: bool, s: string, i: nat)
    requires i <= |s| && QuoteEnd(q, escapes, s, i).NoMatch?
    ensures Open(q, escapes, s, i)
    decreases |s| - i
  {
    var step := BodyEnd(q, escapes, s, i);
    if step.At? {
      FailedIsOpen(q, escapes, s, step.end);
    }
  }

  lemma WordFails(s: string, i: nat)
    requires i < |s| && !IsWordStart(s[i])
    ensures FirstEnd(GroupRe(Word), s, i) == NoMatch
  {
    CatFails(GroupRe(Word).first, GroupRe(Word).second, s, i);
  }

  lemma NumberFails(s: string, i: nat)
    requires i < |s| && !IsDigit(s[i]) && s[i] != '.'
    ensures FirstEnd(GroupRe(Number), s, i) == NoMatch
  {
    var hex, binary := HexNumber(), BinaryNumber();
    CatFails(hex.first, hex.second, s, i);
    CatFails(binary.first, binary.second, s, i);
    var whole, fraction := Mantissa().preferred, Mantissa().other;
    CatFails(Digits().first, Digits().second, s, i);
    CatFails(whole.first, whole.second, s, i);
    CatFails(fraction.first, fraction.second, s, i);
    CatFails(Mantissa(), Decimal().second, s, i);
    FirstOfAlt(binary, Decimal(), s, i);
    FirstOfAlt(hex, Alt(binary, Decimal()), s, i);
  }

  lemma StrayFails(s: string, i: nat, k: Kind, g: nat)
    requires IsQuoted(k) && i < |s| && s[i] == QuoteOf(k) && FirstEnd(GroupRe(k), s, i) == NoMatch
    requires g < 8
    ensures FirstEnd(GroupRe(GROUPS[g]), s, i) == NoMatch
  {
    hide FirstEnd, Ends, GroupRe, QuoteEnd;
    match g
    case 3 => QuotedHit(Str, s, i);
    case 4 => QuotedHit(Backtick, s, i);
    case 5 => QuotedHit(DQuote, s, i);
    case 6 => NumberFails(s, i);
    case 7 => WordFails(s, i);
    case _ => UnquotedGroupsFail(s, i, k);
  }

  lemma {:induction false} StraySkips(s: string, i: nat, k: Kind, g: nat)
    requires IsQuoted(k) && i < |s| && s[i] == QuoteOf(k) && FirstEnd(GroupRe(k), s, i) == NoMatch
    requires g <= 8
    ensures MatchGroup(s, i, g) == Hit(Punct, i + 1)
    decreases 8 - g
  {
    hide GroupRe, FirstEnd, Ends;
    if g < 8 {
      StrayFails(s, i, k, g);
      StraySkips(s, i, k, g + 1);
    } else {
      AnyCharMatches(s, i);
    }
  }

  lemma {:induction false} PunctIsLast(s: string, i: nat, g: nat, h: nat)
    requires i < |s| && g <= h < 8 && MatchGroup(s, i, g).kind == Punct
    ensures FirstEnd(GroupRe(GROUPS[h]), s, i) == NoMatch
    decreases h - g
  {
    hide GroupRe, FirstEnd, Ends;
    if g < h {
      PunctIsLast(s, i, g + 1, h);
    }
  }

  function Stray(k: Kind): Tok
    requires IsQuoted(k)
  {
    Tok(Punct, [QuoteOf(k)])
  }

  // What is lexed at a quote: a quoted token, or the quote itself if nothing closes it.
  lemma LexedAtQuote(s: string, i: nat, k: Kind)
    requires IsQuoted(k) && i < |s| && s[i] == QuoteOf(k)
    ensures MatchGroup(s, i, 0)
         == match QuoteEnd(QuoteOf(k), k != Backtick, s, i + 1) case At(e) => Hit(k, e) case NoMatch => Hit(Punct, i + 1)
  {
    hide GroupRe, FirstEnd, Ends, MatchGroup, QuoteEnd;
    QuotedHit(k, s, i);
    if FirstEnd(GroupRe(k), s, i).At? {
      QuoteDecidesGroup(s, i, k);
    } else {
      StraySkips(s, i, k, 0);
    }
  }

  // A token of the text starts at i.
  predicate TokenStart(s: string, i: nat, from: nat := 0)
    requires from <= |s|
    decreases |s| - from
  {
    i == from || (from < |s| && TokenStart(s, i, MatchGroup(s, from, 0).end))
  }

  // A quote of kind k opens a token at i, and nothing closes it.
  predicate Unclosed(s: string, i: nat, k: Kind, from: nat := 0)
    requires from <= |s| && IsQuoted(k)
  {
    i < |s| && TokenStart(s, i, from) && s[i] == QuoteOf(k) && Open(QuoteOf(k), k != Backtick, s, i + 1)
  }

  lemma {:induction false} OpenLeavesStray(s: string, i: nat, k: Kind)
    requires IsQuoted(k) && i < |s| && s[i] == QuoteOf(k) && Open(QuoteOf(k), k != Backtick, s, i + 1)
    ensures Stray(k) in Lexed(s, i)
    decreases |s| - i
  {
    hide MatchGroup, Open, QuoteEnd;
    LexedAtQuote(s, i, k);
    OpenBacksOff(QuoteOf(k), k != Backtick, s, i + 1);
    var scan := QuoteEnd(QuoteOf(k), k != Backtick, s, i + 1);
    if scan.At? {
      OpenLeavesStray(s, scan.end, k);
    } else {
      assert Lexed(s, i)[0] == Stray(k);
    }
  }

  lemma {:induction false} LaterTokens(s: string, i: nat, from: nat, t: Tok)
    requires from <= |s| && i <= |s| && TokenStart(s, i, from) && t in Lexed(s, i)
    ensures t in Lexed(s, from)
    decreases |s| - from
  {
    hide MatchGroup;
    if i != from {
      LaterTokens(s, i, MatchGroup(s, from, 0).end, t);
    }
  }

  lemma {:induction false} StrayWasOpen(s: string, k: Kind, from: nat) returns (i: nat)
    requires IsQuoted(k) && from <= |s| && Stray(k) in Lexed(s, from)
    ensures Unclosed(s, i, k, from)
    decreases |s| - from
  {
    hide MatchGroup, Open, QuoteEnd;
    var h := MatchGroup(s, from, 0);
    if Lexed(s, from)[0] == Stray(k) {
      i := from;
      LexedAtQuote(s, i, k);
      FailedIsOpen(QuoteOf(k), k != Backtick, s, i + 1);
    } else {
      assert Stray(k) in Lexed(s, h.end);
      i := StrayWasOpen(s, k, h.end);
    }
  }

  // The lexer reports a stray quote exactly when a quote opens a token and nothing closes
  // it, however often the scan for the end backs off in between.
  lemma StrayIffUnclosed(s: string, k: Kind)
    requires IsQuoted(k)
    ensures Stray(k) in Lexed(s) <==> exists i :: Unclosed(s, i, k)
  {
    if Stray(k) in Lexed(s) {
      var i := StrayWasOpen(s, k, 0);
    } else if i :| Unclosed(s, i, k) {
      OpenLeavesStray(s, i, k);
      LaterTokens(s, i, 0, Stray(k));
    }
  }

  // A doubled quote at the very end cannot be taken as a pair: the scan backs off and
  // closes on its first half.
  lemma {:induction false} ScanBacksOff(q: char, escapes: bool, s: string, i: nat, n: nat)
    requires i + n + 2 == |s| && s[i + n] == q && s[i + n + 1] == q && q != '\\'
    requires Paired(q, escapes, s[i..i + n])
    ensures QuoteEnd(q, escapes, s, i) == At(i + n + 1)
    decreases n
  {
    if n > 0 {
      var k := BodyEnd(q, escapes, s, i).end - i;
      assert s[i..i + n][k..] == s[i + k..i + n];
      ScanBacksOff(q, escapes, s, i + k, n - k);
    }
  }

  lemma LoneQuoteLexes(k: Kind)
    requires IsQuoted(k)
    ensures Lexed([QuoteOf(k)]) == [Stray(k)]
  {
    hide MatchGroup;
    var s := [QuoteOf(k)];
    LexedAtQuote(s, 0, k);
    assert QuoteEnd(QuoteOf(k), k != Backtick, s, 1) == NoMatch;
    assert s[0..1] == s && Lexed(s, 1) == [];
  }

  // A quoted token with its closing quote written once more is that token and a stray
  // quote.
  lemma UnclosedBacksOff(k: Kind, t: string)
    requires IsQuoted(k) && WellQuoted(Tok(k, t))
    ensures Lexed(t + [QuoteOf(k)]) == [Tok(k, t), Stray(k)]
  {
    hide MatchGroup, Paired, QuoteEnd;
    var s, q := t + [QuoteOf(k)], QuoteOf(k);
    assert s[1..1 + (|t| - 2)] == t[1..|t| - 1];
    ScanBacksOff(q, k != Backtick, s, 1, |t| - 2);
    LexedAtQuote(s, 0, k);
    LexedShift(t, [q], 0);
    LoneQuoteLexes(k);
    assert s[0..|t|] == t;
  }
}
