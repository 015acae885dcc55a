// What the rewriter writes for each token, and that it writes it in the token's place.
module RewriteTexts {
  import opened Basics
  import opened SqlLexer
  import opened SqlQuoting
  import opened SqlRewriter
  import opened Vocabulary
  import opened Text
  import opened IdentifierMap
  import opened Discover
  import opened RewriteLaws

  // --- In place ---

  function Concat(texts: seq<string>): string {
    if texts == [] then "" else texts[0] + Concat(texts[1..])
  }

  lemma {:induction false} ConcatSplit(xs: seq<string>, ys: seq<string>)
    ensures Concat(xs + ys) == Concat(xs) + Concat(ys)
  {
    if xs == [] {
      assert xs + ys == ys;
    } else {
      assert (xs + ys)[1..] == xs[1..] + ys;
      ConcatSplit(xs[1..], ys);
    }
  }

  // What each token becomes.
  ghost function Outputs(fwd: Fwd, rules: Rules, toks: seq<Tok>, strict: bool, n: nat): (texts: seq<string>)
    requires n <= |toks| && WellLexed(toks) && NoEmpty(rules.vocab.combinators)
    ensures |texts| == n
    ensures forall i :: 0 <= i < n ==> texts[i] == Rewritten(fwd, rules, toks, i, strict).text
  {
    hide Rewritten;
    if n == 0 then [] else Outputs(fwd, rules, toks, strict, n - 1) + [Rewritten(fwd, rules, toks, n - 1, strict).text]
  }

  lemma {:induction false} PiecesInOrder(fwd: Fwd, rules: Rules, toks: seq<Tok>, strict: bool, n: nat)
    requires n <= |toks| && WellLexed(toks) && NoEmpty(rules.vocab.combinators)
    ensures Pieces(fwd, rules, toks, strict, n).text == Concat(Outputs(fwd, rules, toks, strict, n))
  {
    hide Rewritten;
    if n > 0 {
      var last := Rewritten(fwd, rules, toks, n - 1, strict).text;
      PiecesInOrder(fwd, rules, toks, strict, n - 1);
      ConcatSplit(Outputs(fwd, rules, toks, strict, n - 1), [last]);
      assert Concat([last]) == last + Concat([]);
    }
  }

  // A value that is not redacted whole is rewritten token by token, from left to right.
  lemma RewrittenInOrder(fwd: Fwd, rules: Rules, value: string, strict: bool)
    requires NoEmpty(rules.vocab.combinators) && !LeftOpen(value)
    ensures WellLexed(Lexed(value))
    ensures RewriteText(fwd, rules, value, strict) == Concat(Outputs(fwd, rules, Lexed(value), strict, |Lexed(value)|))
  {
    hide Lexed, LeftOpen, Pieces, Outputs, Concat;
    UnclosedFailsClosed(fwd, rules, value, strict);
    PiecesInOrder(fwd, rules, Lexed(value), strict, |Lexed(value)|);
  }

  // --- Everything but identifiers ---

  // Spaces and punctuation stay, numbers too unless strict; comments leave nothing, or a
  // blank; a string stays exactly if it is safe, and is the redaction marker otherwise.
  lemma OthersComeOut(fwd: Fwd, rules: Rules, toks: seq<Tok>, i: nat, strict: bool)
    requires NoEmpty(rules.vocab.combinators) && WellLexed(toks) && i < |toks|
    ensures var t, out := toks[i], Rewritten(fwd, rules, toks, i, strict).text;
            && (t.kind == WS || t.kind == Punct ==> out == t.text)
            && (t.kind == Number ==> out == if strict then "0" else t.text)
            && (t.kind == LineComment ==> out == "")
            && (t.kind == BlockComment ==> out == " ")
            && (t.kind == Str ==> out == if SafeString(rules.safe, t.text) then t.text else "'[redacted]'")
    ensures !IsIdentifier(toks[i]) ==> Rewritten(fwd, rules, toks, i, strict).ids == 0
  {
  }

  predicate AllDigits(s: string) {
    forall i | 0 <= i < |s| :: '0' <= s[i] <= '9'
  }

  lemma {:induction false} QuotesUnescaped(v: string)
    ensures ReplaceAll(EscapeQuotes(v), "\\'", "'") == ReplaceAll(v, "\\", "\\\\")
    ensures EscapeQuotes(v) == "" || EscapeQuotes(v)[0] != '\''
  {
    if v == "" {
      assert EscapeQuotes("") == "";
    } else {
      EscapeQuotesStep(v);
      QuotesUnescaped(v[1..]);
      hide EscapeQuotes;
      UnescapeStep(v[0], EscapeQuotes(v[1..]));
      DoubleStep(v);
    }
  }

  lemma DoubleStep(v: string)
    requires v != ""
    ensures ReplaceAll(v, "\\", "\\\\") == (if v[0] == '\\' then "\\\\" else [v[0]]) + ReplaceAll(v[1..], "\\", "\\\\")
  {
  }

  lemma UnescapeStep(c: char, rest: string)
    requires rest == "" || rest[0] != '\''
    ensures ReplaceAll(EscapeChar(c) + rest, "\\'", "'")
         == (if c == '\\' then "\\\\" else [c]) + ReplaceAll(rest, "\\'", "'")
    ensures (EscapeChar(c) + rest)[0] != '\''
  {
    var s := EscapeChar(c) + rest;
    if c == '\\' {
      assert s[1..] == "\\" + rest && s[1..][1..] == rest;
      assert s[1] != '\'';
      assert rest != "" ==> s[1..][1] == rest[0];
    } else if c == '\'' {
      assert s[2..] == rest && "\\'" <= s;
    } else {
      assert s[1..] == rest;
    }
  }

  function Halved(v: string): string {
    ReplaceAll(v, "''", "'")
  }

  function BackslashesDoubled(v: string): string {
    ReplaceAll(v, "\\", "\\\\")
  }

  lemma HalvePair(x: string)
    ensures Halved("''" + x) == "'" + Halved(x)
  {
    assert ("''" + x)[2..] == x;
  }

  lemma HalveOne(c: char, x: string)
    requires c != '\'' || x == "" || x[0] != '\''
    ensures Halved([c] + x) == [c] + Halved(x)
  {
    var s := [c] + x;
    assert s[1..] == x;
    if x == "" {
      assert Halved(x) == "" && s == [c];
    } else {
      assert s[1] == x[0] && "''"[0] == "''"[1] == '\'';
      assert !("''" <= s);
    }
  }

  lemma DoubleOne(c: char, x: string)
    ensures BackslashesDoubled([c] + x) == (if c == '\\' then "\\\\" else [c]) + BackslashesDoubled(x)
  {
    ReplaceCharConcat([c], x, '\\', "\\\\");
    assert [c][1..] == "" && ReplaceAll("", "\\", "\\\\") == "";
    if c == '\\' {
      assert [c] == "\\" && "\\\\" + "" == "\\\\";
    } else {
      assert [c][0] != "\\"[0] && [c] + "" == [c];
    }
  }

  lemma DoubledFirst(x: string)
    ensures x != "" ==> BackslashesDoubled(x) != "" && BackslashesDoubled(x)[0] == x[0]
    ensures x == "" ==> BackslashesDoubled(x) == ""
  {
  }

  // Halving quotes and doubling backslashes do not meet.
  lemma {:induction false} HalvedDoubled(v: string)
    ensures Halved(BackslashesDoubled(v)) == BackslashesDoubled(Halved(v))
    decreases |v|, 1
  {
    if v == "" {
      assert Halved("") == "" && BackslashesDoubled("") == "";
    } else if |v| >= 2 && v[0] == v[1] == '\'' {
      HalvedDoubledPair(v);
    } else {
      hide Halved, BackslashesDoubled;
      var u := v[1..];
      assert v == [v[0]] + u;
      HalvedDoubled(u);
      DoubledFirst(u);
      HalveOne(v[0], u);
      DoubleOne(v[0], u);
      DoubleOne(v[0], Halved(u));
      HalveOne(v[0], BackslashesDoubled(u));
      if v[0] == '\\' {
        HalveOne('\\', "\\" + BackslashesDoubled(u));
        assert "\\\\" + BackslashesDoubled(u) == "\\" + ("\\" + BackslashesDoubled(u));
        assert "\\\\" + Halved(BackslashesDoubled(u)) == "\\" + ("\\" + Halved(BackslashesDoubled(u)));
      }
    }
  }

  lemma {:induction false} HalvedDoubledPair(v: string)
    requires |v| >= 2 && v[0] == v[1] == '\''
    ensures Halved(BackslashesDoubled(v)) == BackslashesDoubled(Halved(v))
    decreases |v|, 0
  {
    hide Halved, BackslashesDoubled;
    var w := v[2..];
    assert v == "'" + ("'" + w) == "''" + w;
    HalvedDoubled(w);
    HalvePair(w);
    DoubleOne('\'', "'" + w);
    DoubleOne('\'', w);
    assert "'" + ("'" + BackslashesDoubled(w)) == "''" + BackslashesDoubled(w);
    HalvePair(BackslashesDoubled(w));
    DoubleOne('\'', Halved(w));
  }

  lemma DigitsCons(c: char, x: string)
    ensures AllDigits([c] + x) <==> '0' <= c <= '9' && AllDigits(x)
  {
    var s := [c] + x;
    assert s[0] == c && forall i :: 0 < i < |s| ==> s[i] == x[i - 1];
    assert forall i :: 0 <= i < |x| ==> x[i] == s[i + 1];
  }

  lemma {:induction false} HalvedKeeps(v: string)
    ensures Halved(v) == "" <==> v == ""
    ensures AllDigits(Halved(v)) <==> AllDigits(v)
    ensures '\'' in Halved(v) <==> '\'' in v
    ensures '\'' !in v ==> Halved(v) == v
    decreases |v|
  {
    if v == "" {
      assert Halved("") == "";
    } else if |v| >= 2 && v[0] == v[1] == '\'' {
      HalvePair(v[2..]);
      assert v == "''" + v[2..];
      assert Halved(v)[0] == '\'';
    } else {
      var u := v[1..];
      HalveOne(v[0], u);
      HalvedKeeps(u);
      hide Halved;
      assert v == [v[0]] + u;
      DigitsCons(v[0], u);
      DigitsCons(v[0], Halved(u));
    }
  }

  function Literal(v: string): Tok {
    Tok(Str, "'" + SqlStr(v) + "'")
  }

  // The text a quoted literal is tested by: the value, but for quotes next to each other.
  lemma SafeTests(safe: set<string>, v: string)
    ensures var h := Halved(v); SafeString(safe, Literal(v).text) <==> h == "" || h in safe || AllDigits(h)
  {
    var inner := Literal(v).text;
    assert inner[1..|inner| - 1] == SqlStr(v);
    QuotesUnescaped(v);
    HalvedDoubled(v);
    DoubleThenHalve(Halved(v), '\\');
    hide ReplaceAll, EscapeQuotes;
  }

  ghost predicate NoQuotes(safe: set<string>) {
    forall w :: w in safe ==> '\'' !in w
  }

  // The literal of any value, wherever it stands: it comes out as it is if the value is
  // empty, a number or one of the safe words, and as the redaction marker otherwise.
  lemma LiteralComesOut(fwd: Fwd, rules: Rules, toks: seq<Tok>, i: nat, strict: bool, v: string)
    requires NoEmpty(rules.vocab.combinators) && WellLexed(toks) && i < |toks| && toks[i] == Literal(v)
    requires NoQuotes(rules.safe)
    ensures Rewritten(fwd, rules, toks, i, strict).text
         == if v == "" || v in rules.safe || AllDigits(v) then toks[i].text else "'[redacted]'"
  {
    OthersComeOut(fwd, rules, toks, i, strict);
    SafeTests(rules.safe, v);
    HalvedKeeps(v);
  }

  // --- Texts that come out as they are ---

  ghost predicate Passes(rules: Rules, t: Tok, strict: bool)
    requires WellQuoted(t)
  {
    || t.kind == WS || t.kind == Punct || (t.kind == Number && !strict)
    || (t.kind == Str && SafeString(rules.safe, t.text)) || (t.kind == Word && IsKeyword(rules.vocab, t.text))
  }

  lemma {:induction false} ConcatOfTexts(texts: seq<string>, toks: seq<Tok>)
    requires |texts| == |toks| && forall i :: 0 <= i < |toks| ==> texts[i] == toks[i].text
    ensures Concat(texts) == TextOf(toks)
  {
    if toks != [] {
      ConcatOfTexts(texts[1..], toks[1..]);
    }
  }

  // Of keywords, spaces, punctuation, safe strings and (unless strict) numbers, a text is
  // rewritten to itself.
  lemma UntouchedText(fwd: Fwd, rules: Rules, value: string, strict: bool)
    requires NoEmpty(rules.vocab.combinators) && !LeftOpen(value)
    requires WellLexed(Lexed(value)) && forall i :: 0 <= i < |Lexed(value)| ==> Passes(rules, Lexed(value)[i], strict)
    ensures RewriteText(fwd, rules, value, strict) == value
  {
    hide Lexed, LeftOpen, RewriteText, SafeString, IsKeyword;
    var toks := Lexed(value);
    RewrittenInOrder(fwd, rules, value, strict);
    var texts := Outputs(fwd, rules, toks, strict, |toks|);
    forall i | 0 <= i < |toks|
      ensures texts[i] == toks[i].text
    {
      assert Passes(rules, toks[i], strict);
    }
    ConcatOfTexts(texts, toks);
    LexCovers(value, 0);
    assert value[0..] == value;
  }

  // --- Identifiers ---

  ghost predicate Dot(toks: seq<Tok>, j: int) {
    0 <= j < |toks| && toks[j].kind == Punct && toks[j].text == "."
  }

  ghost predicate Blank(t: Tok) {
    t.kind == WS || t.kind == LineComment || t.kind == BlockComment
  }

  // A dot stands before token i, or after it, with nothing but spaces and comments
  // between.
  ghost predicate DotBefore(toks: seq<Tok>, i: nat) {
    exists j :: 0 <= j < i && Dot(toks, j) && forall k :: j < k < i && k < |toks| ==> Blank(toks[k])
  }

  ghost predicate DotAfter(toks: seq<Tok>, i: nat) {
    exists j :: i < j && Dot(toks, j) && forall k :: i < k < j && k < |toks| ==> Blank(toks[k])
  }

  lemma {:induction false} PrevIsDotIff(toks: seq<Tok>, i: nat)
    requires i <= |toks|
    ensures PrevIsDot(toks, i) <==> DotBefore(toks, i)
  {
    if i > 0 {
      PrevIsDotIff(toks, i - 1);
      if Dot(toks, i - 1) {
        assert DotBefore(toks, i);
      }
      if DotBefore(toks, i) && !Dot(toks, i - 1) {
        var j :| 0 <= j < i && Dot(toks, j) && forall k :: j < k < i && k < |toks| ==> Blank(toks[k]);
        assert Blank(toks[i - 1]);
      }
      if Blank(toks[i - 1]) && DotBefore(toks, i - 1) {
        var j :| 0 <= j < i - 1 && Dot(toks, j) && forall k :: j < k < i - 1 && k < |toks| ==> Blank(toks[k]);
        assert forall k :: j < k < i ==> Blank(toks[k]);
      }
    }
  }

  lemma {:induction false} NextIsDotIff(toks: seq<Tok>, i: nat)
    requires i < |toks|
    ensures NextIsDot(toks, i) <==> DotAfter(toks, i)
    decreases |toks| - i
  {
    if i + 1 < |toks| {
      NextIsDotIff(toks, i + 1);
      if Dot(toks, i + 1) {
        assert DotAfter(toks, i);
      }
      if DotAfter(toks, i) && !Dot(toks, i + 1) {
        var j :| i < j && Dot(toks, j) && forall k :: i < k < j && k < |toks| ==> Blank(toks[k]);
        assert Blank(toks[i + 1]);
      }
      if Blank(toks[i + 1]) && DotAfter(toks, i + 1) {
        var j :| i + 1 < j && Dot(toks, j) && forall k :: i + 1 < k < j && k < |toks| ==> Blank(toks[k]);
        assert forall k :: i < k < j ==> Blank(toks[k]);
      }
    }
  }

  // In which order the kinds are tried: in front of a dot databases and tables come
  // first, between two dots tables, and columns everywhere else.
  function Order(before: bool, after: bool): seq<string> {
    (if !after then ["col", "tbl", "db", "dict"]
     else if before then ["tbl", "db", "dict", "col"]
     else ["db", "tbl", "dict", "col"])
    + ["user", "role", "cluster", "disk", "field"]
  }

  lemma {:induction false} FirstKnownConcat(fwd: Fwd, name: string, xs: seq<string>, ys: seq<string>)
    ensures FirstKnown(fwd, name, xs + ys)
         == if FirstKnown(fwd, name, xs).Some? then FirstKnown(fwd, name, xs) else FirstKnown(fwd, name, ys)
  {
    if xs == [] {
      assert xs + ys == ys;
    } else {
      assert (xs + ys)[1..] == xs[1..] + ys;
      FirstKnownConcat(fwd, name, xs[1..], ys);
    }
  }

  lemma {:induction false} WithoutStep(k: string, kinds: seq<string>, excluded: seq<string>)
    ensures Without([k] + kinds, excluded) == (if k in excluded then [] else [k]) + Without(kinds, excluded)
  {
    assert ([k] + kinds)[1..] == kinds;
  }

  lemma {:induction false} WithoutConcat(xs: seq<string>, ys: seq<string>, excluded: seq<string>)
    ensures Without(xs + ys, excluded) == Without(xs, excluded) + Without(ys, excluded)
  {
    if xs == [] {
      assert xs + ys == ys;
    } else {
      assert (xs + ys)[1..] == xs[1..] + ys;
      WithoutConcat(xs[1..], ys, excluded);
    }
  }

  lemma {:induction false} WithoutNone(kinds: seq<string>, excluded: seq<string>)
    requires forall k :: k in kinds ==> k !in excluded
    ensures Without(kinds, excluded) == kinds
  {
    if kinds != [] {
      WithoutNone(kinds[1..], excluded);
    }
  }

  lemma {:induction false} WithoutAll(kinds: seq<string>, excluded: seq<string>)
    requires forall k :: k in kinds ==> k in excluded
    ensures Without(kinds, excluded) == []
  {
    if kinds != [] {
      WithoutAll(kinds[1..], excluded);
    }
  }

  const HEAD := ["col", "tbl", "db", "dict"]
  const REST := ["user", "role", "cluster", "disk", "field"]

  // An order and the other kinds, in the default order.
  lemma FullOrder(order: seq<string>, others: seq<string>)
    requires Without(HEAD, order) == others && forall k :: k in REST ==> k !in order
    ensures order + Without(PROBE, order) == order + others + REST
  {
    hide Without;
    assert PROBE == HEAD + REST;
    WithoutConcat(HEAD, REST, order);
    WithoutNone(REST, order);
  }

  lemma ColumnOrder()
    ensures ["col", "tbl"] + Without(PROBE, ["col", "tbl"]) == Order(true, false)
  {
    var order := ["col", "tbl"];
    hide Without;
    WithoutConcat(["col", "tbl"], ["db", "dict"], order);
    WithoutAll(["col", "tbl"], order);
    WithoutNone(["db", "dict"], order);
    assert ["col", "tbl"] + ["db", "dict"] == HEAD;
    FullOrder(order, ["db", "dict"]);
  }

  lemma TableOrder(order: seq<string>)
    requires |order| == 3 && "col" !in order && (forall k :: k in REST ==> k !in order)
    requires "tbl" in order && "db" in order && "dict" in order
    ensures order + Without(PROBE, order) == order + ["col"] + REST
  {
    hide Without;
    WithoutConcat(["col"], ["tbl", "db", "dict"], order);
    WithoutNone(["col"], order);
    WithoutAll(["tbl", "db", "dict"], order);
    assert ["col"] + ["tbl", "db", "dict"] == HEAD;
    FullOrder(order, ["col"]);
  }

  lemma KnownOrder(fwd: Fwd, order: seq<string>, name: string)
    ensures Known(fwd, name, order) == FirstKnown(fwd, name, order + Without(PROBE, order))
    ensures Known(fwd, name, PROBE) == FirstKnown(fwd, name, PROBE)
  {
    WithoutAll(PROBE, PROBE);
    hide Without;
    FirstKnownConcat(fwd, name, order, Without(PROBE, order));
  }

  lemma KnownInOrder(fwd: Fwd, toks: seq<Tok>, i: nat, name: string)
    requires i < |toks|
    ensures Known(fwd, name, ProbeOrder(toks, i)) == FirstKnown(fwd, name, Order(DotBefore(toks, i), DotAfter(toks, i)))
    ensures Known(fwd, name, PROBE) == FirstKnown(fwd, name, Order(false, false))
  {
    hide FirstKnown, Known, Without, DotBefore, DotAfter, PrevIsDot, NextIsDot;
    PrevIsDotIff(toks, i);
    NextIsDotIff(toks, i);
    assert PROBE == Order(false, false);
    KnownOrder(fwd, ProbeOrder(toks, i), name);
    ColumnOrder();
    TableOrder(["db", "tbl", "dict"]);
    TableOrder(["tbl", "db", "dict"]);
    TableOrders();
  }

  lemma TableOrders()
    ensures ["db", "tbl", "dict"] + ["col"] + REST == Order(false, true)
    ensures ["tbl", "db", "dict"] + ["col"] + REST == Order(true, true)
  {
  }

  // A bare word stays if it is a keyword, then takes the token of the first kind that has
  // its name, then stays if it is vocabulary; a quoted identifier takes the token of the
  // first kind of the default order. What is left takes the sql token of its name, or the
  // redaction marker.
  lemma IdentifierComesOut(fwd: Fwd, rules: Rules, toks: seq<Tok>, i: nat, strict: bool)
    requires NoEmpty(rules.vocab.combinators) && WellLexed(toks) && i < |toks| && IsIdentifier(toks[i])
    ensures var t, name := toks[i], NameOf(toks[i]);
            var bare := t.kind == Word;
            var found := FirstKnown(fwd, name, Order(bare && DotBefore(toks, i), bare && DotAfter(toks, i)));
            Rewritten(fwd, rules, toks, i, strict).text
            == if bare && IsKeyword(rules.vocab, t.text) then t.text
               else if found.Some? then found.value
               else if bare && VocabKeeps(rules.vocab, t.text) then t.text
               else if Find(fwd, "sql", name).Some? then Find(fwd, "sql", name).value
               else "'[redacted]'"
    // only a word that stays counts as no substitution
    ensures var t, name := toks[i], NameOf(toks[i]);
            Rewritten(fwd, rules, toks, i, strict).ids
            == if t.kind == Word && (IsKeyword(rules.vocab, t.text)
                                     || (VocabKeeps(rules.vocab, t.text)
                                         && FirstKnown(fwd, name, Order(DotBefore(toks, i), DotAfter(toks, i))).None?))
               then 0 else 1
  {
    hide Known, FirstKnown, Order, ProbeOrder, Keeps, ToUpper, ReplaceAll, DotBefore, DotAfter;
    KnownInOrder(fwd, toks, i, NameOf(toks[i]));
  }
}
