// TabSeparated rows: the writer and the TSVWithNamesAndTypes reader.
module Tsv {
  import opened Basics

  type Cell = Option<string> // None is NULL

  datatype Rows = Rows(names: seq<string>, types: seq<string>, data: seq<seq<Cell>>)

  datatype Parsed =
    | Ok(rows: Rows)
    | NoHeader(lines: nat)
    | HeaderMismatch(names: nat, types: nat)
    | RowWidth(got: nat, want: nat)

  // --- Escapes ---

  function EscapeChar(c: char): string {
    match c
    case '\\' => "\\\\"
    case '\t' => "\\t"
    case '\n' => "\\n"
    case '\r' => "\\r"
    case '\0' => "\\0"
    case _ => [c]
  }

  function Escaped(s: string): string {
    if s == "" then "" else Escaped(s[..|s| - 1]) + EscapeChar(s[|s| - 1])
  }

  method EscapeTSV(s: string) returns (b: string)
    ensures b == Escaped(s)
  {
    b := "";
    for i := 0 to |s|
      invariant b == Escaped(s[..i])
    {
      assert s[..i + 1][..i] == s[..i];
      b := b + EscapeChar(s[i]);
    }
    assert s[..|s|] == s;
  }

  // What an escape letter stands for; unknown escapes stay verbatim.
  function Decoded(c: char): string {
    match c
    case 'b' => "\U{08}"
    case 'f' => "\U{0C}"
    case 'r' => "\r"
    case 'n' => "\n"
    case 't' => "\t"
    case '0' => "\0"
    case '\'' => "'"
    case '\\' => "\\"
    case _ => ['\\', c]
  }

  function Unescaped(s: string): string {
    if s == "" then ""
    else if s[0] != '\\' || |s| == 1 then [s[0]] + Unescaped(s[1..])
    else Decoded(s[1]) + Unescaped(s[2..])
  }

  method Unescape(s: string) returns (r: string)
    ensures r == Unescaped(s)
  {
    hide Unescaped, Decoded;
    if '\\' !in s {
      PlainUnescaped(s);
      return s;
    }
    EmptyUnescaped();
    assert s[0..] == s;
    r := "";
    var i := 0;
    while i < |s|
      invariant i <= |s|
      invariant Unescaped(s) == r + Unescaped(s[i..])
    {
      UnescapedStep(s, i);
      ghost var done := r;
      var c := s[i];
      if c != '\\' || i + 1 >= |s| {
        r := r + [c];
        i := i + 1;
      } else {
        r := r + Decoded(s[i + 1]);
        i := i + 2;
      }
    }
    assert s[i..] == "";
  }

  lemma UnescapedStep(s: string, i: nat)
    requires i < |s|
    ensures Unescaped(s[i..])
         == if s[i] != '\\' || i + 1 == |s| then [s[i]] + Unescaped(s[i + 1..])
            else Decoded(s[i + 1]) + Unescaped(s[i + 2..])
  {
    assert s[i..][1..] == s[i + 1..];
    assert i + 1 < |s| ==> s[i..][2..] == s[i + 2..];
  }

  lemma EmptyUnescaped()
    ensures Unescaped("") == ""
  {
  }

  lemma {:induction false} PlainUnescaped(s: string)
    requires '\\' !in s
    ensures Unescaped(s) == s
  {
    if s != "" {
      PlainUnescaped(s[1..]);
    }
  }

  // --- Writing ---

  const TAB := '\t'
  const NEWLINE := '\n'

  function CellText(c: Cell): string {
    match c
    case None => "\\N"
    case Some(v) => Escaped(v)
  }

  function Joined(fields: seq<string>): string
    requires fields != []
  {
    if |fields| == 1 then fields[0] else Joined(fields[..|fields| - 1]) + [TAB] + fields[|fields| - 1]
  }

  function CellTexts(row: seq<Cell>): seq<string> {
    seq(|row|, i requires 0 <= i < |row| => CellText(row[i]))
  }

  function Line(row: seq<Cell>): string {
    if row == [] then "" else Joined(CellTexts(row))
  }

  class Buffer {
    var bytes: string

    constructor ()
      ensures bytes == ""
    {
      bytes := "";
    }

    method Write(s: string)
      modifies this
      ensures bytes == old(bytes) + s
    {
      bytes := bytes + s;
    }
  }

  method WriteTSVRow(b: Buffer, row: seq<Cell>)
    modifies b
    ensures b.bytes == old(b.bytes) + Line(row) + [NEWLINE]
  {
    hide Line, CellText, Escaped;
    EmptyLine();
    ghost var start := b.bytes;
    assert row[..0] == [];
    for i := 0 to |row|
      invariant b.bytes == start + Line(row[..i])
    {
      LineAppend(row[..i], row[i]);
      CellTextCases(row[i]);
      assert row[..i + 1] == row[..i] + [row[i]];
      if i > 0 {
        b.Write([TAB]);
      }
      if row[i].None? {
        b.Write("\\N");
      } else {
        var cell := EscapeTSV(row[i].value);
        b.Write(cell);
      }
    }
    assert row[..|row|] == row;
    b.Write([NEWLINE]);
  }

  lemma EmptyLine()
    ensures Line([]) == ""
  {
  }

  lemma CellTextCases(c: Cell)
    ensures CellText(c) == if c.None? then "\\N" else Escaped(c.value)
  {
  }

  lemma LineAppend(row: seq<Cell>, c: Cell)
    ensures Line(row + [c]) == (if row == [] then "" else Line(row) + [TAB]) + CellText(c)
  {
    assert CellTexts(row + [c])[..|row|] == CellTexts(row);
  }

  // --- Reading ---

  function IndexOf(s: string, c: char): (i: nat)
    ensures i <= |s| && (i < |s| ==> s[i] == c)
    ensures forall j :: 0 <= j < i ==> s[j] != c
  {
    if s == "" || s[0] == c then 0 else 1 + IndexOf(s[1..], c)
  }

  // bytes.Split on one separator.
  function Split(s: string, sep: char): (parts: seq<string>)
    ensures parts != []
    decreases |s|
  {
    var i := IndexOf(s, sep);
    if i == |s| then [s] else [s[..i]] + Split(s[i + 1..], sep)
  }

  // Lines end with a newline; a last line without one counts when it is not empty.
  function RawLines(b: string): seq<string>
    decreases |b|
  {
    var i := IndexOf(b, NEWLINE);
    if b == "" then [] else if i == |b| then [b] else [b[..i]] + RawLines(b[i + 1..])
  }

  function TrimEmpty<T(==)>(xs: seq<T>, empty: T): seq<T> {
    if xs != [] && xs[|xs| - 1] == empty then TrimEmpty(xs[..|xs| - 1], empty) else xs
  }

  method SplitLines(b: string) returns (out: seq<string>)
    ensures out == TrimEmpty(RawLines(b), "")
  {
    out := [];
    var rest := b;
    while |rest| > 0
      invariant RawLines(b) == out + RawLines(rest)
      decreases |rest|
    {
      var i := IndexOf(rest, NEWLINE);
      if i == |rest| {
        out := out + [rest];
        rest := "";
        break;
      }
      out := out + [rest[..i]];
      rest := rest[i + 1..];
    }
    assert out == RawLines(b);
    while |out| > 0 && |out[|out| - 1]| == 0
      invariant TrimEmpty(RawLines(b), "") == TrimEmpty(out, "")
    {
      out := out[..|out| - 1];
    }
  }

  function CellOf(field: string): Cell {
    if field == "\\N" then None else Some(Unescaped(field))
  }

  function Cells(fields: seq<string>): seq<Cell> {
    seq(|fields|, i requires 0 <= i < |fields| => CellOf(fields[i]))
  }

  function HeaderOf(line: string): seq<string> {
    var fields := Split(line, TAB);
    seq(|fields|, i requires 0 <= i < |fields| => Unescaped(fields[i]))
  }

  // The first row of the wrong width, from row k on.
  function BadRow(lines: seq<string>, width: nat, k: nat): (i: nat)
    requires k <= |lines|
    ensures k <= i <= |lines|
    ensures i < |lines| ==> |Split(lines[i], TAB)| != width
    ensures forall j :: k <= j < i ==> |Split(lines[j], TAB)| == width
    decreases |lines| - k
  {
    if k == |lines| || |Split(lines[k], TAB)| != width then k else BadRow(lines, width, k + 1)
  }

  function ParsedRows(lines: seq<string>): seq<seq<Cell>> {
    seq(|lines|, i requires 0 <= i < |lines| => Cells(Split(lines[i], TAB)))
  }

  function Parse(b: string): Parsed {
    var lines := TrimEmpty(RawLines(b), "");
    if |lines| < 2 then NoHeader(|lines|)
    else
      var names, types, body := HeaderOf(lines[0]), HeaderOf(lines[1]), lines[2..];
      var bad := BadRow(body, |names|, 0);
      if |names| != |types| then HeaderMismatch(|names|, |types|)
      else if bad < |body| then RowWidth(|Split(body[bad], TAB)|, |names|)
      else Ok(Rows(names, types, ParsedRows(body)))
  }

  method Header(line: string) returns (out: seq<string>)
    ensures out == HeaderOf(line)
  {
    out := [];
    var fields := Split(line, TAB);
    for i := 0 to |fields|
      invariant |out| == i && forall j :: 0 <= j < i ==> out[j] == Unescaped(fields[j])
    {
      var v := Unescape(fields[i]);
      out := out + [v];
    }
  }

  method ParseNT(b: string) returns (r: Parsed)
    ensures r == Parse(b)
  {
    hide RawLines, Split, HeaderOf, TrimEmpty;
    var lines := SplitLines(b);
    if |lines| < 2 {
      return NoHeader(|lines|);
    }
    var names := Header(lines[0]);
    var types := Header(lines[1]);
    if |names| != |types| {
      return HeaderMismatch(|names|, |types|);
    }
    var body := lines[2..];
    var data: seq<seq<Cell>> := [];
    for k := 0 to |body|
      invariant BadRow(body, |names|, 0) == BadRow(body, |names|, k)
      invariant |data| == k && forall j :: 0 <= j < k ==> data[j] == Cells(Split(body[j], TAB))
    {
      var fields := Split(body[k], TAB);
      if |fields| != |names| {
        return RowWidth(|fields|, |names|);
      }
      var row := ParseRow(fields);
      data := data + [row];
    }
    r := Ok(Rows(names, types, data));
  }

  method ParseRow(fields: seq<string>) returns (row: seq<Cell>)
    ensures row == Cells(fields)
  {
    row := [];
    for i := 0 to |fields|
      invariant |row| == i && forall j :: 0 <= j < i ==> row[j] == CellOf(fields[j])
    {
      var f := fields[i];
      if |f| == 2 && f[0] == '\\' && f[1] == 'N' {
        row := row + [None];
      } else {
        var v := Unescape(f);
        row := row + [Some(v)];
      }
    }
  }

  // --- Round trip ---

  function Written(rows: seq<seq<Cell>>): string {
    if rows == [] then "" else Line(rows[0]) + [NEWLINE] + Written(rows[1..])
  }

  function Named(names: seq<string>): seq<Cell> {
    seq(|names|, i requires 0 <= i < |names| => Some(names[i]))
  }

  // The payload of a table: names, types, then the rows, all through the writer.
  function Payload(t: Rows): string {
    Written([Named(t.names), Named(t.types)] + t.data)
  }

  ghost predicate Table(t: Rows) {
    && |t.names| == |t.types| > 0
    && forall i :: 0 <= i < |t.data| ==> |t.data[i]| == |t.names|
  }
}
