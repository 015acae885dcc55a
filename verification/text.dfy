// Text operations shared by the models.
module Text {

  // strings.ReplaceAll: non-overlapping, left to right.
  function ReplaceAll(s: string, old_: string, new_: string): string
    requires old_ != ""
  {
    if |s| < |old_| then s
    else if old_ <= s then new_ + ReplaceAll(s[|old_|..], old_, new_)
    else [s[0]] + ReplaceAll(s[1..], old_, new_)
  }

  function ToUpperChar(c: char): char {
    if 'a' <= c <= 'z' then (c as int - 32) as char else c
  }

  function ToUpper(s: string): (u: string)
    ensures |u| == |s|
  {
    seq(|s|, i requires 0 <= i < |s| => ToUpperChar(s[i]))
  }

  // Replacing a single character distributes over concatenation.
  lemma {:induction false} ReplaceCharConcat(x: string, y: string, c: char, n: string)
    ensures ReplaceAll(x + y, [c], n) == ReplaceAll(x, [c], n) + ReplaceAll(y, [c], n)
  {
    if x == "" {
      assert x + y == y;
    } else {
      assert (x + y)[1..] == x[1..] + y;
      ReplaceCharConcat(x[1..], y, c, n);
    }
  }

  // Backslash-escaping of quotes and backslashes, in two passes over the text.
  function EscapeQuotes(v: string): string {
    ReplaceAll(ReplaceAll(v, "\\", "\\\\"), "'", "\\'")
  }

  function EscapeChar(c: char): string {
    if c == '\\' then "\\\\" else if c == '\'' then "\\'" else [c]
  }

  // The second pass never touches what the first one wrote: together they escape one
  // character at a time.
  lemma EscapeQuotesStep(v: string)
    requires v != ""
    ensures EscapeQuotes(v) == EscapeChar(v[0]) + EscapeQuotes(v[1..])
  {
    var first := if v[0] == '\\' then "\\\\" else [v[0]];
    assert ReplaceAll(v, "\\", "\\\\") == first + ReplaceAll(v[1..], "\\", "\\\\");
    ReplaceCharConcat(first, ReplaceAll(v[1..], "\\", "\\\\"), '\'', "\\'");
    assert ReplaceAll(first, "'", "\\'") == EscapeChar(v[0]) by {
      if v[0] == '\\' {
        assert first[1..] == "\\";
      }
    }
  }

  // Halving doubled quotes undoes doubling them.
  lemma {:induction false} DoubleThenHalve(s: string, q: char)
    ensures ReplaceAll(ReplaceAll(s, [q], [q, q]), [q, q], [q]) == s
  {
    if s != "" {
      var tail := ReplaceAll(s[1..], [q], [q, q]);
      DoubleThenHalve(s[1..], q);
      if s[0] == q {
        assert ([q, q] + tail)[2..] == tail;
      } else {
        assert ([s[0]] + tail)[1..] == tail;
      }
    }
  }
}
