// Rendered parameter values as the SQL lexer reads them.
module Literals {
  import opened Basics
  import opened Interpolate
  import opened Regex
  import opened Text
  import SqlLexer
  import SqlQuoting

  // --- Which values are valid ---

  predicate InRange(min: Option<real>, max: Option<real>, n: real) {
    && (min.Some? ==> min.value <= n)
    && (max.Some? ==> n <= max.value)
  }

  predicate IsInt(k: int, n: real) {
    k as real == n
  }

  // An integer parameter takes the whole numbers within its bounds, both inclusive, and
  // renders them as JavaScript shows them. A string counts by its number, null as zero.
  lemma IntValidIff(js: Js, min: Option<real>, max: Option<real>, n: real)
    ensures Validates(js, IntType(min, max), Num(n)) <==> InRange(min, max, n) && exists k :: IsInt(k, n)
    ensures Validates(js, IntType(min, max), Num(n)) ==> Render(js, IntType(min, max), Num(n)) == Some(js.show(n))
    ensures forall s :: Render(js, IntType(min, max), Str(s))
              == if js.parse(s).None? then None else Render(js, IntType(min, max), Num(js.parse(s).value))
    ensures Render(js, IntType(min, max), Null) == Render(js, IntType(min, max), Num(0.0))
    ensures forall shown :: !Validates(js, IntType(min, max), NotFinite(shown))
    ensures !Validates(js, IntType(min, max), Undefined)
  {
    assert n == n.Floor as real ==> IsInt(n.Floor, n);
  }

  lemma TextValidIff(js: Js, v: Value)
    ensures ToText(js, v) == match v case Num(n) => js.show(n) case NotFinite(shown) => shown case Str(s) => s
                                    case Null => "null" case Undefined => "undefined"
    ensures forall options :: Validates(js, EnumType(options), v) <==> ToText(js, v) in options
    ensures forall maxLength, pattern :: pattern != "" ==>
              (Validates(js, StringType(maxLength, pattern), v) <==>
                 var s := if v == Null || v == Undefined then "" else ToText(js, v);
                 js.test(pattern, s) && (maxLength == 0 || |s| <= maxLength))
    ensures forall maxLength ::
              (Validates(js, StringType(maxLength, ""), v) <==>
                 var s := if v == Null || v == Undefined then "" else ToText(js, v);
                 (maxLength == 0 || |s| <= maxLength) && forall i :: 0 <= i < |s| ==> PlainChar(s[i]))
  {
  }

  // Four digits, two and two, with hyphens between them: the source's regexp.
  function Shaped(pattern: string): Re {
    if pattern == "" then Empty
    else Cat(if pattern[0] == 'd' then One(IsDigit) else Lit(pattern[0]), Shaped(pattern[1..]))
  }

  lemma {:induction false} ShapedMatches(pattern: string, s: string, i: nat)
    requires i <= |s|
    ensures FirstEnd(Shaped(pattern), s, i)
         == if |pattern| <= |s| - i
               && forall j :: 0 <= j < |pattern| ==> if pattern[j] == 'd' then IsDigit(s[i + j]) else s[i + j] == pattern[j]
            then At(i + |pattern|) else NoMatch
    decreases |pattern|
  {
    if pattern != "" {
      var p := if pattern[0] == 'd' then IsDigit else Lit(pattern[0]).accepts;
      OneThen(p, Shaped(pattern[1..]), s, i);
      if i < |s| {
        ShapedMatches(pattern[1..], s, i + 1);
        assert forall j :: 0 < j < |pattern| ==> pattern[j] == pattern[1..][j - 1];
      }
    }
  }

  lemma DateShape(s: string)
    ensures var p := "dddd-dd-dd";
            IsDate(s) <==> |s| == |p| && forall j :: 0 <= j < |p| ==> if p[j] == 'd' then IsDigit(s[j]) else s[j] == p[j]
  {
    hide IsDigit;
    var p := "dddd-dd-dd";
    assert forall j :: 0 <= j < 10 ==> p[j] == if j == 4 || j == 7 then '-' else 'd';
  }

  // A date parameter takes exactly the texts that match the regexp from end to end.
  lemma DateValidIff(js: Js, v: Value)
    ensures Validates(js, DateType, v) <==> FirstEnd(Shaped("dddd-dd-dd"), ToText(js, v), 0) == At(|ToText(js, v)|)
  {
    hide Shaped, FirstEnd, IsDate;
    ShapedMatches("dddd-dd-dd", ToText(js, v), 0);
    DateShape(ToText(js, v));
  }

  // --- What they render to ---

  function Unquote(literal: string): string
    requires |literal| >= 2
  {
    ReplaceAll(literal[1..|literal| - 1], "''", "'")
  }

  function Shown(js: Js, t: ParamType, v: Value): string {
    if t.StringType? then TextOrEmpty(js, v) else ToText(js, v)
  }

  lemma {:induction false} NoQuotesUnchanged(s: string)
    requires '\'' !in s
    ensures ReplaceAll(s, "'", "''") == s
  {
    if s != "" {
      assert s[0] in s;
      NoQuotesUnchanged(s[1..]);
    }
  }

  // A rendered literal is the quoted text of the value, and unquotes to it.
  lemma LiteralUnquotes(js: Js, t: ParamType, v: Value)
    requires !t.IntType? && Validates(js, t, v)
    ensures Render(js, t, v).value == Quote(Shown(js, t, v))
    ensures Unquote(Render(js, t, v).value) == Shown(js, t, v)
  {
    var s := Shown(js, t, v);
    if t.DateType? {
      NoQuotesUnchanged(s);
    }
    assert Quote(s)[1..|Quote(s)| - 1] == ReplaceAll(s, "'", "''");
    DoubleThenHalve(s, '\'');
  }

  // Every backslash, read from the left, escapes a character other than a quote or a
  // newline.
  predicate BackslashSafe(s: string) {
    if s == "" then true
    else if s[0] == '\\' then |s| >= 2 && s[1] != '\'' && s[1] != '\n' && BackslashSafe(s[2..])
    else BackslashSafe(s[1..])
  }

  function Doubled(s: string): string {
    ReplaceAll(s, "'", "''")
  }

  // Every quote of the text is in a pair, as the lexer counts them.
  predicate Pairs(s: string) {
    SqlQuoting.Paired('\'', true, s)
  }

  lemma PairedSteps(c: char, tail: string)
    ensures Pairs("''" + tail) == Pairs(tail)
    ensures Pairs(['\\', c] + tail) == (c != '\n' && Pairs(tail))
    ensures c != '\'' && c != '\\' ==> Pairs([c] + tail) == Pairs(tail)
    ensures c != '\'' ==> !Pairs(['\'', c] + tail)
  {
    assert ("''" + tail)[2..] == tail && (['\\', c] + tail)[2..] == tail && ([c] + tail)[1..] == tail;
  }

  lemma DoubledHead(s: string)
    requires s != ""
    ensures Doubled(s) == (if s[0] == '\'' then "''" else [s[0]]) + Doubled(s[1..])
  {
  }

  lemma Regroup(a: char, c: char, tail: string)
    ensures [a] + ("''" + tail) == [a, '\''] + ("'" + tail)
    ensures [a] + ([c] + tail) == [a, c] + tail
  {
  }

  lemma {:induction false} OddQuoteIsUnpaired(s: string)
    ensures !Pairs("'" + Doubled(s))
  {
    if s == "" {
      assert Doubled("") == "";
    } else {
      hide Doubled, Pairs;
      DoubledHead(s);
      OddQuoteIsUnpaired(s[1..]);
      PairedSteps(s[0], Doubled(s[1..]));
      PairedSteps(s[0], "'" + Doubled(s[1..]));
      Regroup('\'', s[0], Doubled(s[1..]));
    }
  }

  // Doubling the quotes leaves every quote in a pair unless a backslash takes the first
  // half of one.
  lemma {:induction false} DoubledIsPairedIff(s: string)
    ensures Pairs(Doubled(s)) <==> BackslashSafe(s)
    decreases s, 1
  {
    if s == "" {
      assert Doubled("") == "";
    } else if s[0] == '\\' {
      EscapedIsPairedIff(s);
    } else {
      DoubledIsPairedIff(s[1..]);
      hide Doubled, Pairs;
      DoubledHead(s);
      PairedSteps(s[0], Doubled(s[1..]));
    }
  }

  lemma {:induction false} EscapedIsPairedIff(s: string)
    requires s != "" && s[0] == '\\'
    ensures Pairs(Doubled(s)) <==> BackslashSafe(s)
    decreases s, 0
  {
    if |s| == 1 {
      DoubledHead(s);
      assert Doubled("") == "" && Doubled(s) == ['\\'];
    } else {
      DoubledIsPairedIff(s[2..]);
      OddQuoteIsUnpaired(s[2..]);
      hide Doubled, Pairs;
      DoubledHead(s);
      DoubledHead(s[1..]);
      assert s[1..][1..] == s[2..];
      Regroup('\\', s[1], Doubled(s[2..]));
      PairedSteps(s[1], Doubled(s[2..]));
      PairedSteps(s[1], "'" + Doubled(s[2..]));
    }
  }

  // To the SQL lexer a rendered literal is one string token exactly when the value's
  // backslashes are safe, whatever follows but a quote.
  lemma LiteralIsOneToken(js: Js, t: ParamType, v: Value, rest: string)
    requires !t.IntType? && Validates(js, t, v)
    requires rest == "" || rest[0] != '\''
    ensures var lit := Render(js, t, v).value;
            SqlLexer.Lexed(lit + rest) == [SqlLexer.Tok(SqlLexer.Str, lit)] + SqlLexer.Lexed(rest)
            <==> BackslashSafe(Shown(js, t, v))
  {
    hide SqlLexer.Lexed, SqlQuoting.Paired;
    LiteralUnquotes(js, t, v);
    var s := Shown(js, t, v);
    var lit := Quote(s);
    DoubledIsPairedIff(s);
    assert lit[1..|lit| - 1] == Doubled(s);
    if BackslashSafe(s) {
      SqlQuoting.WellQuotedLexes(SqlLexer.Str, lit, rest);
    } else {
      SqlQuoting.LexWellQuoted(lit + rest, 0);
      assert !SqlQuoting.WellQuoted(SqlLexer.Tok(SqlLexer.Str, lit));
      assert SqlLexer.Lexed(lit + rest) != [] ==> SqlQuoting.WellQuoted(SqlLexer.Lexed(lit + rest)[0]);
    }
  }

  // What a declaration has to rule out: the built-in character sets do, options and
  // custom patterns need not.
  ghost predicate SafeType(js: Js, t: ParamType) {
    match t
    case IntType(_, _) => true
    case DateType => true
    case EnumType(options) => forall o :: o in options ==> BackslashSafe(o)
    case StringType(maxLength, pattern) =>
      pattern == "" || forall s :: js.test(pattern, s) && (maxLength == 0 || |s| <= maxLength) ==> BackslashSafe(s)
  }

  lemma {:induction false} NoBackslashIsSafe(s: string)
    requires '\\' !in s
    ensures BackslashSafe(s)
  {
    if s != "" {
      NoBackslashIsSafe(s[1..]);
    }
  }

  // All valid values of a declared parameter render to one token exactly when the
  // declaration is safe.
  lemma SafeTypeIff(js: Js, t: ParamType)
    requires !t.IntType?
    ensures SafeType(js, t) <==> forall v :: Validates(js, t, v) ==> BackslashSafe(Shown(js, t, v))
  {
    hide BackslashSafe;
    forall v | Validates(js, t, v) && '\\' !in Shown(js, t, v)
      ensures BackslashSafe(Shown(js, t, v))
    {
      NoBackslashIsSafe(Shown(js, t, v));
    }
    if !SafeType(js, t) {
      var s := UnsafeText(js, t);
      assert Validates(js, t, Str(s)) && Shown(js, t, Str(s)) == s;
    }
  }

  lemma UnsafeText(js: Js, t: ParamType) returns (s: string)
    requires !SafeType(js, t)
    ensures Validates(js, t, Str(s)) && !BackslashSafe(s)
  {
    hide BackslashSafe;
    if t.EnumType? {
      s :| s in t.options && !BackslashSafe(s);
    } else {
      s :| js.test(t.pattern, s) && (t.maxLength == 0 || |s| <= t.maxLength) && !BackslashSafe(s);
    }
  }

  // A backslash is a valid option, and its literal has no closing quote.
  lemma BackslashOptionUnquotes(js: Js)
    ensures var t, lit := EnumType(["\\"]), "'\\'";
            Render(js, t, Str("\\")) == Some(lit) && SqlQuoting.Unclosed(lit, 0, SqlLexer.Str) && !SafeType(js, t)
  {
    assert Doubled("\\") == "\\";
    assert !BackslashSafe("\\");
    assert "'" + "\\" + "'" == "'\\'";
    assert SqlQuoting.Open('\'', true, "'\\'", 3);
  }
}
