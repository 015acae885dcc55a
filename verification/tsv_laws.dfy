// Reading back a written table.
module TsvRoundTrip {
  import opened Basics
  import opened Tsv

  lemma {:induction false} EscapedCons(s: string)
    requires s != ""
    ensures Escaped(s) == EscapeChar(s[0]) + Escaped(s[1..])
  {
    if |s| > 1 {
      var init := s[..|s| - 1];
      EscapedCons(init);
      assert init[1..] == s[1..][..|s| - 2];
      assert Escaped(s[1..]) == Escaped(init[1..]) + EscapeChar(s[|s| - 1]);
    }
  }

  // The escapes a reader knows. A writer uses five of them.
  const ESCAPES: map<char, char> :=
    map['b' := '\U{08}', 'f' := '\U{0C}', 'r' := '\r', 'n' := '\n', 't' := '\t', '0' := '\0', '\'' := '\'', '\\' := '\\']

  // A backslash and a known letter stand for a character; any other backslash, and any
  // other character, stands for itself.
  lemma UnescapedIs(c: char, rest: string)
    ensures Unescaped("\\" + [c] + rest) == (if c in ESCAPES then [ESCAPES[c]] else "\\" + [c]) + Unescaped(rest)
    ensures c != '\\' ==> Unescaped([c] + rest) == [c] + Unescaped(rest)
    ensures Unescaped("\\") == "\\"
  {
    assert ("\\" + [c] + rest)[2..] == rest && ([c] + rest)[1..] == rest;
    assert "\\"[1..] == "" && Unescaped("") == "";
  }

  // Written are a backslash and a letter for the backslash, the tab, the two line ends
  // and the zero character, and every other character as it is.
  lemma EscapedIs(letter: char, c: char, rest: string)
    ensures letter in {'\\', 't', 'n', 'r', '0'} ==> Escaped([ESCAPES[letter]] + rest) == "\\" + [letter] + Escaped(rest)
    ensures c !in {'\\', '\t', '\n', '\r', '\0'} ==> Escaped([c] + rest) == [c] + Escaped(rest)
  {
    if letter in ESCAPES {
      EscapedCons([ESCAPES[letter]] + rest);
      assert ([ESCAPES[letter]] + rest)[1..] == rest;
    }
    EscapedCons([c] + rest);
    assert ([c] + rest)[1..] == rest;
  }

  lemma EscapeCharPlain(c: char)
    ensures TAB !in EscapeChar(c) && NEWLINE !in EscapeChar(c)
  {
  }

  lemma {:induction false} EscapedHasNoSeparator(s: string)
    ensures TAB !in Escaped(s) && NEWLINE !in Escaped(s)
  {
    if s != "" {
      EscapedHasNoSeparator(s[..|s| - 1]);
      EscapeCharPlain(s[|s| - 1]);
      hide EscapeChar;
    }
  }

  // Decoding undoes encoding, for every string.
  lemma {:induction false} UnescapedEscaped(s: string)
    ensures Unescaped(Escaped(s)) == s
  {
    if s != "" {
      EscapedCons(s);
      UnescapedEscaped(s[1..]);
      UnescapesOne(s[0], Escaped(s[1..]));
    }
  }

  lemma UnescapesOne(c: char, rest: string)
    ensures Unescaped(EscapeChar(c) + rest) == [c] + Unescaped(rest)
  {
    assert (EscapeChar(c) + rest)[|EscapeChar(c)|..] == rest;
  }

  // The format: NULL is a backslash and a capital N, tabs stand between cells, and a
  // newline ends each row.
  lemma FormatIs(row: seq<Cell>, rows: seq<seq<Cell>>, a: Cell, field: string)
    ensures CellText(None) == "\\N" && (CellOf(field) == None <==> field == "\\N")
    ensures Line([]) == "" && Line([a]) == CellText(a)
    ensures row != [] ==> Line(row + [a]) == Line(row) + "\t" + CellText(a)
    ensures Written([]) == "" && Written([row] + rows) == Line(row) + "\n" + Written(rows)
  {
    LineAppend(row, a);
    assert CellTexts([a]) == [CellText(a)];
    assert ([row] + rows)[1..] == rows;
  }

  // NULL and every string have different cells, and each is read back.
  lemma CellRoundTrip(c: Cell)
    ensures CellOf(CellText(c)) == c
    ensures CellText(c) == "" <==> c == Some("")
    ensures TAB !in CellText(c) && NEWLINE !in CellText(c)
  {
    hide Escaped, Unescaped;
    if c.Some? {
      EscapedHasNoSeparator(c.value);
      UnescapedEscaped(c.value);
      NotTheNullCell(c.value);
    }
  }

  lemma NotTheNullCell(v: string)
    ensures Escaped(v) != "\\N"
    ensures Escaped(v) == "" <==> v == ""
  {
    if v != "" {
      EscapedCons(v);
      assert Escaped(v)[0] == EscapeChar(v[0])[0];
      assert |EscapeChar(v[0])| == 2 ==> Escaped(v)[1] == EscapeChar(v[0])[1];
    }
  }

  lemma IndexOfFirst(x: string, c: char, y: string)
    requires c !in x
    ensures IndexOf(x + [c] + y, c) == |x|
  {
    var s := x + [c] + y;
    assert s[|x|] == c;
    assert forall j :: 0 <= j < |x| ==> s[j] == x[j];
  }

  lemma {:induction false} JoinedCons(fields: seq<string>)
    requires |fields| > 1
    ensures Joined(fields) == fields[0] + [TAB] + Joined(fields[1..])
  {
    if |fields| > 2 {
      JoinedCons(fields[..|fields| - 1]);
      assert fields[..|fields| - 1][1..] == fields[1..][..|fields| - 2];
    } else {
      assert fields[..1] == [fields[0]] && fields[1..] == [fields[1]];
    }
  }

  lemma {:induction false} SplitJoined(fields: seq<string>)
    requires fields != [] && forall i :: 0 <= i < |fields| ==> TAB !in fields[i]
    ensures Split(Joined(fields), TAB) == fields
  {
    var s := Joined(fields);
    if |fields| == 1 {
      assert IndexOf(s, TAB) == |s|;
    } else {
      JoinedCons(fields);
      IndexOfFirst(fields[0], TAB, Joined(fields[1..]));
      SplitJoined(fields[1..]);
      assert s[..|fields[0]|] == fields[0] && s[|fields[0]| + 1..] == Joined(fields[1..]);
    }
  }

  lemma {:induction false} JoinedHasNoNewline(fields: seq<string>)
    requires fields != [] && forall i :: 0 <= i < |fields| ==> NEWLINE !in fields[i]
    ensures NEWLINE !in Joined(fields)
    ensures Joined(fields) == "" <==> fields == [""]
  {
    if |fields| > 1 {
      JoinedHasNoNewline(fields[..|fields| - 1]);
    }
  }

  lemma RowRoundTrip(row: seq<Cell>)
    requires row != []
    ensures Cells(Split(Line(row), TAB)) == row && |Split(Line(row), TAB)| == |row|
    ensures NEWLINE !in Line(row)
    ensures Line(row) == "" <==> row == [Some("")]
  {
    var texts := CellTexts(row);
    forall i | 0 <= i < |row|
      ensures CellOf(texts[i]) == row[i] && TAB !in texts[i] && NEWLINE !in texts[i]
      ensures texts[i] == "" <==> row[i] == Some("")
    {
      CellRoundTrip(row[i]);
    }
    SplitJoined(texts);
    JoinedHasNoNewline(texts);
    assert texts == [""] <==> row == [Some("")];
  }

  function Lines(rows: seq<seq<Cell>>): seq<string> {
    seq(|rows|, i requires 0 <= i < |rows| => Line(rows[i]))
  }

  lemma NoLines()
    ensures RawLines("") == []
  {
  }

  lemma FirstLine(line: string, rest: string)
    requires NEWLINE !in line
    ensures RawLines(line + [NEWLINE] + rest) == [line] + RawLines(rest)
  {
    var b := line + [NEWLINE] + rest;
    IndexOfFirst(line, NEWLINE, rest);
    assert b[..|line|] == line && b[|line| + 1..] == rest;
  }

  lemma {:induction false} WrittenLines(rows: seq<seq<Cell>>)
    requires forall i :: 0 <= i < |rows| ==> rows[i] != []
    ensures RawLines(Written(rows)) == Lines(rows)
  {
    hide Line, RawLines, Cells, Split, Joined, IndexOf;
    if rows == [] {
      NoLines();
    } else {
      var first, rest := Line(rows[0]), Written(rows[1..]);
      RowRoundTrip(rows[0]);
      FirstLine(first, rest);
      WrittenLines(rows[1..]);
      assert Lines(rows) == [first] + Lines(rows[1..]);
    }
  }

  const EMPTY_ROW: seq<Cell> := [Some("")]

  // Trailing empty lines are exactly the trailing rows with one empty-string cell.
  lemma {:induction false} TrimLines(rows: seq<seq<Cell>>)
    requires forall i :: 0 <= i < |rows| ==> rows[i] != []
    ensures TrimEmpty(Lines(rows), "") == Lines(TrimEmpty(rows, EMPTY_ROW))
  {
    if rows != [] {
      var init := rows[..|rows| - 1];
      RowRoundTrip(rows[|rows| - 1]);
      assert Lines(rows)[..|rows| - 1] == Lines(init);
      TrimLines(init);
    }
  }

  lemma {:induction false} TrimAfter<T>(xs: seq<T>, ys: seq<T>, empty: T)
    ensures TrimEmpty(ys, empty) != [] || (xs != [] && xs[|xs| - 1] != empty) ==>
              TrimEmpty(xs + ys, empty) == xs + TrimEmpty(ys, empty)
    ensures TrimEmpty(ys, empty) == [] ==> TrimEmpty(xs + ys, empty) == TrimEmpty(xs, empty)
  {
    if ys == [] {
      assert xs + ys == xs;
    } else {
      assert (xs + ys)[..|xs + ys| - 1] == xs + ys[..|ys| - 1];
      if ys[|ys| - 1] == empty {
        TrimAfter(xs, ys[..|ys| - 1], empty);
      }
    }
  }

  lemma {:induction false} TrimPrefix<T>(xs: seq<T>, empty: T)
    ensures TrimEmpty(xs, empty) <= xs
  {
    if xs != [] {
      TrimPrefix(xs[..|xs| - 1], empty);
    }
  }

  lemma HeaderRoundTrip(names: seq<string>)
    requires names != []
    ensures HeaderOf(Line(Named(names))) == names
  {
    var row := Named(names);
    RowRoundTrip(row);
    var fields := Split(Line(row), TAB);
    forall i | 0 <= i < |names|
      ensures Unescaped(fields[i]) == names[i]
    {
      assert Cells(fields)[i] == Some(names[i]);
      CellIsText(fields[i]);
    }
  }

  lemma CellIsText(field: string)
    ensures CellOf(field).Some? ==> CellOf(field).value == Unescaped(field)
  {
  }

  // The type line itself is trimmed away: one column with an empty type, and no row
  // holding anything but one empty string.
  ghost predicate HeaderLost(t: Rows) {
    t.types == [""] && TrimEmpty(t.data, EMPTY_ROW) == []
  }

  // Every table is read back, minus its maximal trailing block of rows that are a single
  // empty string; parsing fails exactly when that block swallows the type line.
  lemma TableRoundTrip(t: Rows)
    requires Table(t)
    ensures Parse(Payload(t)).Ok? <==> !HeaderLost(t)
    ensures !HeaderLost(t) ==> Parse(Payload(t)) == Ok(t.(data := TrimEmpty(t.data, EMPTY_ROW)))
  {
    hide Line, Split, RawLines, Written, HeaderOf, Cells;
    var head := [Named(t.names), Named(t.types)];
    var rows := head + t.data;
    WrittenLines(rows);
    TrimLines(rows);
    TrimAfter(head, t.data, EMPTY_ROW);
    if HeaderLost(t) {
      assert Named(t.types) == EMPTY_ROW;
      TrimPrefix([Named(t.names)], EMPTY_ROW);
      assert head[..1] == [Named(t.names)];
      assert TrimEmpty(head, EMPTY_ROW) == TrimEmpty([Named(t.names)], EMPTY_ROW);
    } else {
      if TrimEmpty(t.data, EMPTY_ROW) == [] {
        NamedNotEmpty(t.types);
      }
      var kept := TrimEmpty(t.data, EMPTY_ROW);
      TrimPrefix(t.data, EMPTY_ROW);
      assert TrimEmpty(rows, EMPTY_ROW) == head + kept;
      ParseLines(t, kept);
    }
  }

  lemma NamedNotEmpty(types: seq<string>)
    requires types != [""]
    ensures Named(types) != EMPTY_ROW
  {
    if |types| == 1 {
      assert Named(types)[0] == Some(types[0]);
    }
  }

  lemma ParseLines(t: Rows, kept: seq<seq<Cell>>)
    requires Table(t) && kept <= t.data
    requires TrimEmpty(RawLines(Payload(t)), "") == Lines([Named(t.names), Named(t.types)] + kept)
    ensures Parse(Payload(t)) == Ok(t.(data := kept))
  {
    hide Line, Split, RawLines, Written, HeaderOf, Cells, TrimEmpty;
    var lines := Lines([Named(t.names), Named(t.types)] + kept);
    HeaderRoundTrip(t.names);
    HeaderRoundTrip(t.types);
    forall i | 0 <= i < |kept|
      ensures Cells(Split(lines[2..][i], TAB)) == kept[i] && |Split(lines[2..][i], TAB)| == |t.names|
    {
      assert kept[i] == t.data[i];
      RowRoundTrip(kept[i]);
    }
    assert ParsedRows(lines[2..]) == kept;
  }

  // With two or more columns nothing is lost.
  lemma WideTableRoundTrip(t: Rows)
    requires Table(t) && |t.names| >= 2
    ensures Parse(Payload(t)) == Ok(t)
  {
    TableRoundTrip(t);
    if t.data != [] {
      assert |t.data[|t.data| - 1]| >= 2;
    }
  }

  // --- Whatever rows were written ---

  // Trimming drops the longest tail of empty ones.
  lemma {:induction false} TrimIs<T>(xs: seq<T>, empty: T)
    ensures var kept := TrimEmpty(xs, empty);
            && kept <= xs && (forall i :: |kept| <= i < |xs| ==> xs[i] == empty)
            && (kept != [] ==> kept[|kept| - 1] != empty)
  {
    if xs != [] {
      TrimIs(xs[..|xs| - 1], empty);
    }
  }

  // The first of the three errors that applies, or all rows, whatever their widths: what
  // reading back a header line, a type line and any rows gives.
  lemma WrittenIsParsed(names: seq<string>, types: seq<string>, data: seq<seq<Cell>>)
    requires names != [] && types != [] && forall i :: 0 <= i < |data| ==> data[i] != []
    ensures var rows := [Named(names), Named(types)] + data;
            var kept := TrimEmpty(rows, EMPTY_ROW);
            var parsed := Parse(Written(rows));
            if |kept| < 2 then parsed == NoHeader(|kept|)
            else if |names| != |types| then parsed == HeaderMismatch(|names|, |types|)
            else
              && ((forall i :: 2 <= i < |kept| ==> |kept[i]| == |names|) ==> parsed == Ok(Rows(names, types, kept[2..])))
              && (forall i :: 2 <= i < |kept| && |kept[i]| != |names| && (forall j :: 2 <= j < i ==> |kept[j]| == |names|) ==>
                    parsed == RowWidth(|kept[i]|, |names|))
  {
    hide Line, Split, RawLines, Written, HeaderOf, Cells, TrimEmpty;
    var rows := [Named(names), Named(types)] + data;
    var kept := TrimEmpty(rows, EMPTY_ROW);
    WrittenLines(rows);
    TrimLines(rows);
    TrimPrefix(rows, EMPTY_ROW);
    HeaderRoundTrip(names);
    HeaderRoundTrip(types);
    var lines := Lines(kept);
    if |kept| >= 2 {
      var body := lines[2..];
      forall i | 0 <= i < |body|
        ensures Cells(Split(body[i], TAB)) == kept[i + 2] && |Split(body[i], TAB)| == |kept[i + 2]|
      {
        assert kept[i + 2] == rows[i + 2];
        RowRoundTrip(kept[i + 2]);
      }
      assert kept[0] == Named(names) && kept[1] == Named(types);
      assert ParsedRows(body) == kept[2..];
    }
  }

  lemma OneLine(line: string)
    requires NEWLINE !in line && line != ""
    ensures RawLines(line) == [line]
  {
    assert IndexOf(line, NEWLINE) == |line|;
  }

  lemma SplitAtNewline(b: string, i: nat)
    requires i < |b| && b[i] == NEWLINE
    ensures b == b[..i] + [NEWLINE] + b[i + 1..]
    ensures b + [NEWLINE] == b[..i] + [NEWLINE] + (b[i + 1..] + [NEWLINE])
  {
  }

  lemma {:induction false} LastLine(b: string)
    ensures RawLines(b + [NEWLINE]) == RawLines(b) + (if b == "" || b[|b| - 1] == NEWLINE then [""] else [])
    decreases |b|
  {
    hide RawLines;
    NoLines();
    var i := IndexOf(b, NEWLINE);
    if i == |b| {
      assert NEWLINE !in b;
      FirstLine(b, "");
      assert b + [NEWLINE] + "" == b + [NEWLINE];
      if b != "" {
        OneLine(b);
      }
    } else {
      var first, rest := b[..i], b[i + 1..];
      assert NEWLINE !in first;
      SplitAtNewline(b, i);
      FirstLine(first, rest);
      FirstLine(first, rest + [NEWLINE]);
      LastLine(rest);
    }
  }

  // A newline at the end makes no difference, nor do more of them.
  lemma LastNewlineIsOptional(b: string)
    ensures Parse(b + [NEWLINE]) == Parse(b)
  {
    hide RawLines, HeaderOf;
    LastLine(b);
    assert RawLines(b) + [] == RawLines(b);
    assert (RawLines(b) + [""])[..|RawLines(b)|] == RawLines(b);
  }
}
