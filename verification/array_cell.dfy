// Array(String) cells: rendering a list of strings, and parsing one back.
module ArrayCell {
  import opened Text

  // --- Rendering (store.go ChArray) ---

  function QuotedItem(item: string): string {
    "'" + EscapeQuotes(item) + "'"
  }

  function Commas(items: seq<string>): string {
    if items == [] then ""
    else if |items| == 1 then QuotedItem(items[0])
    else QuotedItem(items[0]) + "," + Commas(items[1..])
  }

  function ChArray(items: seq<string>): string {
    "[" + Commas(items) + "]"
  }

  // Quoted items between brackets, with single commas.
  lemma ChArrayIs(x: string, y: string, more: seq<string>)
    ensures ChArray([]) == "[]" && ChArray([x]) == "[" + ("'" + EscapeQuotes(x) + "'") + "]"
    ensures ChArray([x, y] + more) == "[" + ("'" + EscapeQuotes(x) + "'") + "," + ChArray([y] + more)[1..]
  {
    hide EscapeQuotes;
    var rest := [y] + more;
    assert ([x, y] + more)[1..] == rest;
    assert ChArray(rest)[1..] == Commas(rest) + "]";
  }

  // --- Parsing (mining.go parseStrArray) ---

  predicate IsGap(c: char) {
    c == ',' || c == ' '
  }

  function SkipGaps(body: string, i: nat): (j: nat)
    requires i <= |body|
    ensures i <= j <= |body|
    decreases |body| - i
  {
    if i < |body| && IsGap(body[i]) then SkipGaps(body, i + 1) else i
  }

  datatype Item = Item(text: string, next: nat)

  // The item whose content starts at i: up to an unescaped quote, or to the end.
  function ReadItem(body: string, i: nat): (r: Item)
    requires i <= |body|
    ensures i <= r.next <= |body|
    decreases |body| - i
  {
    if i == |body| then Item("", i)
    else if body[i] == '\\' && i + 1 < |body| then
      var rest := ReadItem(body, i + 2);
      Item([body[i + 1]] + rest.text, rest.next)
    else if body[i] == '\'' then Item("", i + 1)
    else
      var rest := ReadItem(body, i + 1);
      Item([body[i]] + rest.text, rest.next)
  }

  function Items(body: string, i: nat): seq<string>
    requires i <= |body|
    decreases |body| - i
  {
    var j := SkipGaps(body, i);
    if j == |body| || body[j] != '\'' then []
    else
      var r := ReadItem(body, j + 1);
      [r.text] + Items(body, r.next)
  }

  function ParsedItems(s: string): seq<string> {
    if |s| < 2 || s[0] != '[' || s[|s| - 1] != ']' then [] else Items(s[1..|s| - 1], 0)
  }

  // Byte order on strings, as sort.Strings uses.
  predicate Leq(a: string, b: string) {
    a == "" || (b != "" && (a[0] < b[0] || (a[0] == b[0] && Leq(a[1..], b[1..]))))
  }

  predicate Sorted(xs: seq<string>) {
    forall i, j | 0 <= i < j < |xs| :: Leq(xs[i], xs[j])
  }

  method ParseStrArray(s: string) returns (out: seq<string>)
    ensures Sorted(out) && multiset(out) == multiset(ParsedItems(s))
  {
    if |s| < 2 || s[0] != '[' || s[|s| - 1] != ']' {
      return [];
    }
    var items := ParseItems(s[1..|s| - 1]);
    out := SortStrings(items);
  }

  method ParseItems(body: string) returns (items: seq<string>)
    ensures items == Items(body, 0)
  {
    hide Items, ReadItem, SkipGaps;
    items := [];
    var i := 0;
    while i < |body|
      invariant i <= |body|
      invariant Items(body, 0) == items + Items(body, i)
    {
      ItemsStep(body, i);
      ghost var done := items;
      i := SkipToItem(body, i);
      if i >= |body| || body[i] != '\'' {
        assert done + [] == done;
        return;
      }
      var b;
      b, i := ReadString(body, i + 1);
      items := items + [b];
      assert done + ([b] + Items(body, i)) == items + Items(body, i);
    }
    ItemsEnd(body);
  }

  lemma ItemsStep(body: string, i: nat)
    requires i <= |body|
    ensures var j := SkipGaps(body, i);
            Items(body, i) == if j == |body| || body[j] != '\'' then []
                              else [ReadItem(body, j + 1).text] + Items(body, ReadItem(body, j + 1).next)
  {
  }

  lemma ItemsEnd(body: string)
    ensures Items(body, |body|) == []
  {
  }

  method SkipToItem(body: string, start: nat) returns (i: nat)
    requires start <= |body|
    ensures i == SkipGaps(body, start)
  {
    i := start;
    while i < |body| && (body[i] == ',' || body[i] == ' ')
      invariant start <= i <= |body|
      invariant SkipGaps(body, start) == SkipGaps(body, i)
    {
      i := i + 1;
    }
  }

  lemma ReadStep(body: string, i: nat)
    requires i < |body|
    ensures ReadItem(body, i)
         == if body[i] == '\\' && i + 1 < |body| then
              Item([body[i + 1]] + ReadItem(body, i + 2).text, ReadItem(body, i + 2).next)
            else if body[i] == '\'' then Item("", i + 1)
            else Item([body[i]] + ReadItem(body, i + 1).text, ReadItem(body, i + 1).next)
  {
  }

  lemma ReadEnd(body: string)
    ensures ReadItem(body, |body|) == Item("", |body|)
  {
  }

  lemma Reassociate(b: string, c: char, rest: string)
    ensures b + ([c] + rest) == (b + [c]) + rest
  {
  }

  method ReadString(body: string, start: nat) returns (b: string, i: nat)
    requires start <= |body|
    ensures Item(b, i) == ReadItem(body, start)
  {
    hide ReadItem;
    i, b := start, "";
    while i < |body|
      invariant start <= i <= |body|
      invariant ReadItem(body, start) == Item(b + ReadItem(body, i).text, ReadItem(body, i).next)
    {
      ReadStep(body, i);
      if body[i] == '\\' && i + 1 < |body| {
        Reassociate(b, body[i + 1], ReadItem(body, i + 2).text);
        b := b + [body[i + 1]];
        i := i + 2;
        continue;
      }
      if body[i] == '\'' {
        return b, i + 1;
      }
      Reassociate(b, body[i], ReadItem(body, i + 1).text);
      b := b + [body[i]];
      i := i + 1;
    }
    ReadEnd(body);
  }

  method SortStrings(items: seq<string>) returns (out: seq<string>)
    ensures Sorted(out) && multiset(out) == multiset(items)
  {
    out := [];
    for k := 0 to |items|
      invariant Sorted(out) && multiset(out) == multiset(items[..k])
    {
      assert items[..k + 1] == items[..k] + [items[k]];
      InsertedSorted(out, items[k]);
      out := Inserted(out, items[k]);
    }
    assert items[..|items|] == items;
  }

  function Inserted(xs: seq<string>, x: string): seq<string> {
    if xs == [] || Leq(x, xs[0]) then [x] + xs else [xs[0]] + Inserted(xs[1..], x)
  }

  lemma {:induction false} InsertedSorted(xs: seq<string>, x: string)
    requires Sorted(xs)
    ensures Sorted(Inserted(xs, x)) && multiset(Inserted(xs, x)) == multiset(xs) + multiset{x}
  {
    hide Leq;
    if xs != [] {
      if Leq(x, xs[0]) {
        LeqBelow(x, xs);
      } else {
        var rest := Inserted(xs[1..], x);
        LeqTotal(x, xs[0]);
        InsertedSorted(xs[1..], x);
        assert xs == [xs[0]] + xs[1..];
        forall k | 0 <= k < |rest|
          ensures Leq(xs[0], rest[k])
        {
          assert rest[k] in multiset(rest);
        }
      }
    }
  }

  lemma {:induction false} LeqTotal(a: string, b: string)
    ensures Leq(a, b) || Leq(b, a)
  {
    if a != "" && b != "" && a[0] == b[0] {
      LeqTotal(a[1..], b[1..]);
    }
  }

  lemma {:induction false} LeqTransitive(a: string, b: string, c: string)
    requires Leq(a, b) && Leq(b, c)
    ensures Leq(a, c)
  {
    if a != "" && a[0] == b[0] == c[0] {
      LeqTransitive(a[1..], b[1..], c[1..]);
    }
  }

  lemma {:induction false} LeqAntisymmetric(a: string, b: string)
    requires Leq(a, b) && Leq(b, a)
    ensures a == b
  {
    if a != "" {
      LeqAntisymmetric(a[1..], b[1..]);
    }
  }

  lemma LeqBelow(x: string, xs: seq<string>)
    requires xs != [] && Sorted(xs) && Leq(x, xs[0])
    ensures forall k :: 0 <= k < |xs| ==> Leq(x, xs[k])
  {
    forall k | 0 < k < |xs|
      ensures Leq(x, xs[k])
    {
      LeqTransitive(x, xs[0], xs[k]);
    }
  }

  // Sorting has one answer.
  lemma {:induction false} SortedUnique(xs: seq<string>, ys: seq<string>)
    requires Sorted(xs) && Sorted(ys) && multiset(xs) == multiset(ys)
    ensures xs == ys
  {
    hide Leq;
    assert |multiset(xs)| == |xs| && |multiset(ys)| == |ys|;
    if xs != [] {
      HeadIsLeast(xs, ys);
      HeadIsLeast(ys, xs);
      LeqAntisymmetric(xs[0], ys[0]);
      TailMultiset(xs);
      TailMultiset(ys);
      SortedUnique(xs[1..], ys[1..]);
    }
  }

  lemma TailMultiset(xs: seq<string>)
    requires xs != []
    ensures multiset(xs[1..]) == multiset(xs) - multiset{xs[0]}
  {
    assert xs == [xs[0]] + xs[1..];
  }

  lemma HeadIsLeast(xs: seq<string>, ys: seq<string>)
    requires Sorted(xs) && xs != [] && ys != [] && multiset(xs) == multiset(ys)
    ensures Leq(xs[0], ys[0])
  {
    assert ys[0] in multiset(xs);
    var j :| 0 <= j < |xs| && xs[j] == ys[0];
    LeqReflexive(xs[0]);
  }

  lemma {:induction false} LeqReflexive(a: string)
    ensures Leq(a, a)
  {
    if a != "" {
      LeqReflexive(a[1..]);
    }
  }

  // --- Round trip ---

  // An escaped item is read to its closing quote, wherever it stands.
  lemma {:induction false} ReadsEscaped(body: string, i: nat, item: string)
    requires i + |EscapeQuotes(item)| < |body|
    requires body[i..i + |EscapeQuotes(item)|] == EscapeQuotes(item)
    requires body[i + |EscapeQuotes(item)|] == '\''
    ensures ReadItem(body, i) == Item(item, i + |EscapeQuotes(item)| + 1)
    decreases |item|
  {
    if item != "" {
      EscapeQuotesStep(item);
      var step := |EscapeChar(item[0])|;
      var rest := EscapeQuotes(item[1..]);
      assert body[i..i + step + |rest|][..step] == body[i..i + step];
      assert body[i..i + step + |rest|][step..] == body[i + step..i + step + |rest|];
      assert body[i] == EscapeChar(item[0])[0];
      assert step == 2 ==> body[i + 1] == EscapeChar(item[0])[1];
      ReadsEscaped(body, i + step, item[1..]);
    }
  }

  lemma Inside(body: string, i: nat, e: string)
    requires i + |e| + 2 <= |body| && body[i..i + |e| + 2] == "'" + e + "'"
    ensures body[i] == body[i + 1 + |e|] == '\'' && body[i + 1..i + 1 + |e|] == e
  {
    var quoted := body[i..i + |e| + 2];
    assert body[i] == quoted[0] && body[i + 1 + |e|] == quoted[1 + |e|];
    var inner := body[i + 1..i + 1 + |e|];
    assert |inner| == |e|;
    assert forall k :: 0 <= k < |e| ==> inner[k] == quoted[k + 1] == e[k];
  }

  // A rendered item at i is one parsed item.
  lemma QuotedItemParsed(body: string, i: nat, item: string)
    requires i + |QuotedItem(item)| <= |body| && body[i..i + |QuotedItem(item)|] == QuotedItem(item)
    ensures Items(body, i) == [item] + Items(body, i + |QuotedItem(item)|)
  {
    hide EscapeQuotes;
    var e := EscapeQuotes(item);
    Inside(body, i, e);
    ReadsEscaped(body, i + 1, item);
  }

  lemma {:induction false} ItemsOfCommas(body: string, i: nat, items: seq<string>)
    requires i <= |body| && body[i..] == Commas(items)
    ensures Items(body, i) == items
    decreases |items|
  {
    hide Items, QuotedItem;
    ItemsEnd(body);
    if items == [] {
      assert i == |body|;
    } else {
      var quoted := QuotedItem(items[0]);
      var next := i + |quoted|;
      assert body[i..][..|quoted|] == body[i..next] == quoted;
      QuotedItemParsed(body, i, items[0]);
      if |items| == 1 {
        assert next == |body|;
      } else {
        assert body[next] == body[i..][|quoted|] == ',';
        assert body[next + 1..] == body[i..][|quoted| + 1..] == Commas(items[1..]);
        ItemsOfCommas(body, next + 1, items[1..]);
        GapThenItems(body, next);
      }
    }
  }

  lemma GapThenItems(body: string, i: nat)
    requires i < |body| && IsGap(body[i])
    ensures Items(body, i) == Items(body, i + 1)
  {
  }

  // Every list of strings is read back, quotes, backslashes, commas and empty strings
  // included.
  lemma ParsedItemsOfChArray(items: seq<string>)
    ensures ParsedItems(ChArray(items)) == items
  {
    var s := ChArray(items);
    assert s[1..|s| - 1] == Commas(items);
    ItemsOfCommas(Commas(items), 0, items);
  }

  // What ParseStrArray promises of a rendered list pins it down: the list, sorted.
  lemma ChArrayRoundTrip(items: seq<string>, out: seq<string>, sorted: seq<string>)
    requires Sorted(out) && multiset(out) == multiset(ParsedItems(ChArray(items)))
    requires Sorted(sorted) && multiset(sorted) == multiset(items)
    ensures out == sorted
  {
    ParsedItemsOfChArray(items);
    SortedUnique(out, sorted);
  }

  // --- Whatever cell comes ---

  // e spells the item between quotes: any character may follow a backslash, and quotes and
  // backslashes must.
  ghost predicate Spells(e: string, item: string)
    decreases |e|
  {
    if e == "" then item == ""
    else if e[0] == '\\' then |e| >= 2 && item != "" && e[1] == item[0] && Spells(e[2..], item[1..])
    else e[0] != '\'' && item != "" && e[0] == item[0] && Spells(e[1..], item[1..])
  }

  lemma {:induction false} EscapedSpells(item: string)
    ensures Spells(EscapeQuotes(item), item)
  {
    if item == "" {
      assert EscapeQuotes("") == "";
    } else {
      EscapeQuotesStep(item);
      EscapedSpells(item[1..]);
      var rest := EscapeQuotes(item[1..]);
      assert (EscapeChar(item[0]) + rest)[|EscapeChar(item[0])|..] == rest;
    }
  }

  lemma {:induction false} ReadsSpelled(e: string, item: string, body: string, i: nat)
    requires Spells(e, item) && i + |e| < |body| && body[i..i + |e|] == e && body[i + |e|] == '\''
    ensures ReadItem(body, i) == Item(item, i + |e| + 1)
    decreases |e|
  {
    if e != "" {
      var step := if e[0] == '\\' then 2 else 1;
      assert body[i] == e[0] && (step == 2 ==> body[i + 1] == e[1]);
      assert body[i + step..i + |e|] == body[i..i + |e|][step..] == e[step..];
      ReadsSpelled(e[step..], item[1..], body, i + step);
      assert item == [item[0]] + item[1..];
    }
  }

  ghost predicate Gap(g: string) {
    forall i :: 0 <= i < |g| ==> g[i] == ',' || g[i] == ' '
  }

  // Quoted items with the gaps before them, and something that is neither gap nor item.
  function Spread(gaps: seq<string>, spelled: seq<string>, tail: string): string
    requires |gaps| == |spelled| + 1
  {
    gaps[0] + (if spelled == [] then tail else "'" + (spelled[0] + ("'" + Spread(gaps[1..], spelled[1..], tail))))
  }

  lemma {:induction false} SkipsGap(g: string, rest: string, body: string, i: nat)
    requires Gap(g) && i <= |body| && body[i..] == g + rest && (rest == "" || !IsGap(rest[0]))
    ensures SkipGaps(body, i) == i + |g|
    decreases |g|
  {
    if g != "" {
      assert body[i] == (g + rest)[0] && body[i + 1..] == body[i..][1..] == g[1..] + rest;
      SkipsGap(g[1..], rest, body, i + 1);
    } else if rest != "" {
      assert body[i] == rest[0];
    } else {
      assert |body[i..]| == 0;
    }
  }

  // Every such cell is parsed to its items, whatever the gaps, none included, and however
  // the items are escaped; what follows the first thing that is no item is ignored.
  lemma {:induction false} SpreadParsed(gaps: seq<string>, spelled: seq<string>, items: seq<string>, tail: string, body: string, i: nat)
    requires |gaps| == |spelled| + 1 == |items| + 1 && i <= |body| && body[i..] == Spread(gaps, spelled, tail)
    requires forall k :: 0 <= k < |gaps| ==> Gap(gaps[k])
    requires forall k :: 0 <= k < |items| ==> Spells(spelled[k], items[k])
    requires tail == "" || (!IsGap(tail[0]) && tail[0] != '\'')
    ensures Items(body, i) == items
    decreases |items|
  {
    hide *;
    SpreadUnfolds(gaps, spelled, tail);
    if spelled == [] {
      NoItemLeft(body, i, gaps[0], tail);
    } else {
      var e, next := spelled[0], Spread(gaps[1..], spelled[1..], tail);
      OneItemLeft(body, i, gaps[0], e, items[0], next);
      SpreadParsed(gaps[1..], spelled[1..], items[1..], tail, body, i + |gaps[0]| + |e| + 2);
    }
  }

  lemma NoItemLeft(body: string, i: nat, g: string, tail: string)
    requires i <= |body| && body[i..] == g + tail && Gap(g)
    requires tail == "" || (!IsGap(tail[0]) && tail[0] != '\'')
    ensures Items(body, i) == []
  {
    hide IsGap, Items;
    AfterGap(body, i, g, tail);
    SkipsGap(g, tail, body, i);
    ItemsStep(body, i);
    assert tail != "" ==> body[i + |g|] == body[i + |g|..][0];
  }

  lemma OneItemLeft(body: string, i: nat, g: string, e: string, item: string, next: string)
    requires i <= |body| && body[i..] == g + Quoted(e, next) && Gap(g) && Spells(e, item)
    ensures i + |g| + |e| + 2 <= |body| && body[i + |g| + |e| + 2..] == next
    ensures Items(body, i) == [item] + Items(body, i + |g| + |e| + 2)
  {
    QuotedStarts(e, next);
    hide *;
    AfterGap(body, i, g, Quoted(e, next));
    SkipsGap(g, Quoted(e, next), body, i);
    SpelledAt(body, i + |g|, e, next);
    ReadsSpelled(e, item, body, i + |g| + 1);
    ItemsStep(body, i);
  }

  lemma QuotedStarts(e: string, next: string)
    ensures Quoted(e, next) != "" && !IsGap(Quoted(e, next)[0])
  {
  }

  function Quoted(e: string, next: string): string {
    "'" + (e + ("'" + next))
  }

  lemma SpreadUnfolds(gaps: seq<string>, spelled: seq<string>, tail: string)
    requires |gaps| == |spelled| + 1
    ensures Spread(gaps, spelled, tail)
         == gaps[0] + (if spelled == [] then tail else Quoted(spelled[0], Spread(gaps[1..], spelled[1..], tail)))
  {
  }

  lemma AfterGap(body: string, i: nat, g: string, rest: string)
    requires i <= |body| && body[i..] == g + rest
    ensures i + |g| <= |body| && body[i + |g|..] == rest
  {
    assert body[i + |g|..] == body[i..][|g|..];
  }

  lemma SpelledAt(body: string, j: nat, e: string, next: string)
    requires j <= |body| && body[j..] == Quoted(e, next)
    ensures j + |e| + 2 <= |body| && body[j] == body[j + 1 + |e|] == '\''
    ensures body[j + 1..j + 1 + |e|] == e && body[j + |e| + 2..] == next
  {
    var rest := body[j..];
    assert body[j] == rest[0] && body[j + 1 + |e|] == rest[1 + |e|];
    assert body[j + 1..j + 1 + |e|] == rest[1..1 + |e|];
    assert body[j + |e| + 2..] == rest[|e| + 2..];
  }

  lemma CellParsed(gaps: seq<string>, spelled: seq<string>, items: seq<string>, tail: string)
    requires |gaps| == |spelled| + 1 == |items| + 1
    requires forall k :: 0 <= k < |gaps| ==> Gap(gaps[k])
    requires forall k :: 0 <= k < |items| ==> Spells(spelled[k], items[k])
    requires tail == "" || (!IsGap(tail[0]) && tail[0] != '\'')
    ensures ParsedItems("[" + Spread(gaps, spelled, tail) + "]") == items
  {
    var body := Spread(gaps, spelled, tail);
    var s := "[" + body + "]";
    assert s[1..|s| - 1] == body == body[0..];
    SpreadParsed(gaps, spelled, items, tail, body, 0);
  }

  // A text without its brackets has no items.
  lemma UnbracketedHasNone(s: string)
    ensures ParsedItems(s) != [] ==> exists body :: s == "[" + body + "]"
  {
    if |s| >= 2 && s[0] == '[' && s[|s| - 1] == ']' {
      assert s == "[" + s[1..|s| - 1] + "]";
    }
  }

  // The order is the lexicographic one: a prefix first, else by the first difference.
  lemma {:induction false} LeqIsLexicographic(a: string, b: string)
    ensures Leq(a, b) <==> a <= b || exists k :: 0 <= k < |a| && k < |b| && a[..k] == b[..k] && a[k] < b[k]
  {
    if a != "" && b != "" && a[0] == b[0] {
      var x, y := a[1..], b[1..];
      LeqIsLexicographic(x, y);
      assert a <= b <==> x <= y;
      if k :| 0 <= k < |x| && k < |y| && x[..k] == y[..k] && x[k] < y[k] {
        assert a[..k + 1] == [a[0]] + x[..k] && b[..k + 1] == [b[0]] + y[..k] && a[k + 1] < b[k + 1];
      }
      if k :| 0 <= k < |a| && k < |b| && a[..k] == b[..k] && a[k] < b[k] {
        assert k > 0 && x[..k - 1] == a[..k][1..] && y[..k - 1] == b[..k][1..] && x[k - 1] < y[k - 1];
      }
    } else if a != "" && b != "" {
      assert a[..0] == b[..0];
      if k :| 0 <= k < |a| && k < |b| && a[..k] == b[..k] && a[k] < b[k] {
        assert k > 0 ==> a[..k][0] == b[..k][0];
      }
    }
  }
}
