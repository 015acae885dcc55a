// Parameter substitution: {{name}} placeholders, validated and rendered by type.
module Interpolate {
  import opened Basics
  import opened Text
  import opened Regex

  // A JavaScript value as far as the runtime looks at it.
  datatype Value = Num(n: real) | NotFinite(shown: string) | Str(s: string) | Null | Undefined

  // The conversions of the JavaScript engine: Number() of a string (None for NaN and
  // infinities), String() of a finite number, and RegExp.test.
  datatype Js = Js(parse: string -> Option<real>, show: real -> string, test: (string, string) -> bool)

  datatype ParamType =
    | IntType(min: Option<real>, max: Option<real>)
    | EnumType(options: seq<string>)
    | DateType
    | StringType(maxLength: nat, pattern: string) // 0 and "" when not given

  type Defs = map<string, ParamType>
  type Params = map<string, Value>

  function ToNumber(js: Js, v: Value): Option<real> {
    match v
    case Num(n) => Some(n)
    case NotFinite(_) => None
    case Str(s) => js.parse(s)
    case Null => Some(0.0)
    case Undefined => None
  }

  function ToText(js: Js, v: Value): string {
    match v
    case Num(n) => js.show(n)
    case NotFinite(shown) => shown
    case Str(s) => s
    case Null => "null"
    case Undefined => "undefined"
  }

  function TextOrEmpty(js: Js, v: Value): string {
    if v.Null? || v.Undefined? then "" else ToText(js, v)
  }

  // --- Rendering one value ---

  function Quote(s: string): string {
    "'" + ReplaceAll(s, "'", "''") + "'"
  }

  predicate IsDate(s: string) {
    && |s| == 10 && s[4] == '-' && s[7] == '-'
    && forall i | 0 <= i < 10 && i != 4 && i != 7 :: IsDigit(s[i])
  }

  predicate PlainChar(c: char) {
    IsWordPart(c) || c in " .+@-"
  }

  predicate WithinBounds(min: Option<real>, max: Option<real>, n: real) {
    (min.Some? ==> min.value <= n) && (max.Some? ==> n <= max.value)
  }

  // The literal for a value, or None where the interpolator throws.
  function Render(js: Js, t: ParamType, v: Value): Option<string> {
    match t
    case IntType(min, max) =>
      var n := ToNumber(js, v);
      if n.None? || n.value != n.value.Floor as real then None
      else if !WithinBounds(min, max, n.value) then None
      else Some(js.show(n.value))
    case EnumType(options) =>
      if ToText(js, v) in options then Some(Quote(ToText(js, v))) else None
    case DateType =>
      if IsDate(ToText(js, v)) then Some("'" + ToText(js, v) + "'") else None
    case StringType(maxLength, pattern) =>
      var s := TextOrEmpty(js, v);
      if maxLength != 0 && |s| > maxLength then None
      else if pattern != "" && !js.test(pattern, s) then None
      else if pattern == "" && exists i | 0 <= i < |s| :: !PlainChar(s[i]) then None
      else Some(Quote(s))
  }

  predicate Validates(js: Js, t: ParamType, v: Value) {
    Render(js, t, v).Some?
  }

  // --- Placeholders ---

  predicate IsSpace(c: char) {
    || '\t' <= c <= '\r' || c == ' '
    || c == '\U{A0}' || c == '\U{1680}' || '\U{2000}' <= c <= '\U{200A}' || '\U{2028}' <= c <= '\U{2029}'
    || c == '\U{202F}' || c == '\U{205F}' || c == '\U{3000}' || c == '\U{FEFF}'
  }

  predicate IsWordPart(c: char) {
    IsWordStart(c) || IsDigit(c)
  }

  predicate IsIdent(name: string) {
    name != "" && IsWordStart(name[0]) && forall i | 0 <= i < |name| :: IsWordPart(name[i])
  }

  // name is t[start..stop] of a placeholder that ends at end.
  datatype Found = Nothing | Placeholder(start: nat, stop: nat, end: nat)

  function PlaceholderAt(t: string, i: nat): (f: Found)
    requires i <= |t|
    ensures f.Placeholder? ==> i + 2 <= f.start < f.stop <= f.end - 2 && f.end <= |t|
  {
    if i + 2 <= |t| && t[i] == '{' && t[i + 1] == '{' then
      var start := Span(IsSpace, t, i + 2);
      if start < |t| && IsWordStart(t[start]) then
        var stop := Span(IsWordPart, t, start + 1);
        var close := Span(IsSpace, t, stop);
        if close + 2 <= |t| && t[close] == '}' && t[close + 1] == '}'
        then Placeholder(start, stop, close + 2)
        else Nothing
      else Nothing
    else Nothing
  }

  // A placeholder is double braces around spaces, an identifier, and more spaces.
  lemma PlaceholderShape(t: string, i: nat)
    requires i <= |t| && PlaceholderAt(t, i).Placeholder?
    ensures var f := PlaceholderAt(t, i);
      && t[i..i + 2] == "{{" && t[f.end - 2..f.end] == "}}" && IsIdent(t[f.start..f.stop])
      && (forall k :: i + 2 <= k < f.start || f.stop <= k < f.end - 2 ==> IsSpace(t[k]))
  {
    hide IsSpace, IsWordStart;
  }

  datatype Piece = Plain(c: char) | Ref(name: string, raw: string)

  function RawPiece(p: Piece): string {
    match p case Plain(c) => [c] case Ref(_, raw) => raw
  }

  datatype Scan = Scan(piece: Piece, end: nat)

  function NextPiece(t: string, i: nat): (r: Scan)
    requires i < |t|
    ensures i < r.end <= |t| && RawPiece(r.piece) == t[i..r.end]
  {
    var f := PlaceholderAt(t, i);
    if f.Placeholder? then Scan(Ref(t[f.start..f.stop], t[i..f.end]), f.end) else Scan(Plain(t[i]), i + 1)
  }

  // One left-to-right pass over the template.
  function Pieces(t: string, i: nat := 0): (ps: seq<Piece>)
    requires i <= |t|
    decreases |t| - i
  {
    if i == |t| then []
    else
      var next := NextPiece(t, i);
      [next.piece] + Pieces(t, next.end)
  }

  function Lookup(params: Params, name: string): Value {
    if name in params then params[name] else Undefined
  }

  function RenderRef(js: Js, defs: Defs, params: Params, name: string): Option<string> {
    if name in defs then Render(js, defs[name], Lookup(params, name)) else None
  }

  function Substitute(js: Js, defs: Defs, params: Params, ps: seq<Piece>): Option<string> {
    if ps == [] then Some("")
    else
      var head := match ps[0] case Plain(c) => Some([c]) case Ref(name, _) => RenderRef(js, defs, params, name);
      var tail := Substitute(js, defs, params, ps[1..]);
      if head.Some? && tail.Some? then Some(head.value + tail.value) else None
  }

  // None where the interpolator throws.
  function Interpolated(js: Js, defs: Defs, params: Params, template: string): Option<string> {
    Substitute(js, defs, params, Pieces(template))
  }

  // --- The scanner is the placeholder regexp ---

  function CloseRe(): Re {
    Cat(Lit('}'), Lit('}'))
  }

  function SpacesCloseRe(): Re {
    Cat(Many(One(IsSpace)), CloseRe())
  }

  function NameTailRe(): Re {
    Cat(Many(One(IsWordPart)), SpacesCloseRe())
  }

  function NameRe(): Re {
    Cat(One(IsWordStart), NameTailRe())
  }

  function SpacesNameRe(): Re {
    Cat(Many(One(IsSpace)), NameRe())
  }

  function PlaceholderRe(): Re {
    Cat(Lit('{'), Cat(Lit('{'), SpacesNameRe()))
  }

  lemma CloseAt(s: string, i: nat)
    requires i <= |s|
    ensures FirstEnd(CloseRe(), s, i) == if i + 2 <= |s| && s[i] == '}' && s[i + 1] == '}' then At(i + 2) else NoMatch
    ensures i < |s| && s[i] != '}' ==> Ends(CloseRe(), s, i) == []
  {
    OneThen(CloseRe().first.accepts, CloseRe().second, s, i);
  }

  lemma SpacesCloseAt(s: string, i: nat)
    requires i <= |s|
    ensures FirstEnd(SpacesCloseRe(), s, i) == FirstEnd(CloseRe(), s, Span(IsSpace, s, i))
    ensures i < |s| && IsWordPart(s[i]) ==> Ends(SpacesCloseRe(), s, i) == []
  {
    hide CloseRe, Ends;
    forall j | i <= j < |s| && IsSpace(s[j])
      ensures Ends(CloseRe(), s, j) == []
    {
      CloseAt(s, j);
    }
    SpanThen(IsSpace, CloseRe(), s, i);
    if i < |s| && IsWordPart(s[i]) {
      assert Span(IsSpace, s, i) == i;
      CloseAt(s, i);
      EndsFromFirst(SpacesCloseRe(), s, i);
    }
  }

  lemma NameTailAt(s: string, i: nat)
    requires i <= |s|
    ensures FirstEnd(NameTailRe(), s, i) == FirstEnd(CloseRe(), s, Span(IsSpace, s, Span(IsWordPart, s, i)))
  {
    hide SpacesCloseRe, CloseRe, Ends;
    forall j | i <= j < |s| && IsWordPart(s[j])
      ensures Ends(SpacesCloseRe(), s, j) == []
    {
      SpacesCloseAt(s, j);
    }
    SpanThen(IsWordPart, SpacesCloseRe(), s, i);
    SpacesCloseAt(s, Span(IsWordPart, s, i));
  }

  lemma NameAt(s: string, i: nat)
    requires i <= |s|
    ensures FirstEnd(NameRe(), s, i)
         == if i < |s| && IsWordStart(s[i]) then FirstEnd(NameTailRe(), s, i + 1) else NoMatch
    ensures i < |s| && IsSpace(s[i]) ==> Ends(NameRe(), s, i) == []
  {
    hide NameTailRe, Ends, FirstEnd;
    OneThen(IsWordStart, NameTailRe(), s, i);
  }

  lemma SpacesNameAt(s: string, i: nat)
    requires i <= |s|
    ensures FirstEnd(SpacesNameRe(), s, i) == FirstEnd(NameRe(), s, Span(IsSpace, s, i))
  {
    hide NameRe, Ends;
    forall j | i <= j < |s| && IsSpace(s[j])
      ensures Ends(NameRe(), s, j) == []
    {
      NameAt(s, j);
    }
    SpanThen(IsSpace, NameRe(), s, i);
  }

  lemma NameAndClose(t: string, start: nat)
    requires start <= |t|
    ensures FirstEnd(NameRe(), t, start)
         == if start < |t| && IsWordStart(t[start])
            then FirstEnd(CloseRe(), t, Span(IsSpace, t, Span(IsWordPart, t, start + 1)))
            else NoMatch
  {
    hide NameRe, CloseRe, NameTailRe, Ends, FirstEnd, IsSpace, IsWordStart, IsWordPart, Span;
    NameAt(t, start);
    if start < |t| {
      NameTailAt(t, start + 1);
    }
  }

  lemma OpenBraces(t: string, i: nat)
    requires i <= |t|
    ensures FirstEnd(PlaceholderRe(), t, i)
         == if i + 2 <= |t| && t[i] == '{' && t[i + 1] == '{' then FirstEnd(SpacesNameRe(), t, i + 2) else NoMatch
  {
    hide SpacesNameRe, Ends, FirstEnd;
    var afterBrace := PlaceholderRe().second;
    OneThen(PlaceholderRe().first.accepts, afterBrace, t, i);
    if i < |t| {
      OneThen(afterBrace.first.accepts, afterBrace.second, t, i + 1);
    }
  }

  lemma PlaceholderIsRegexp(t: string, i: nat)
    requires i <= |t|
    ensures FirstEnd(PlaceholderRe(), t, i)
         == match PlaceholderAt(t, i) case Nothing => NoMatch case Placeholder(_, _, end) => At(end)
  {
    hide PlaceholderRe, SpacesNameRe, NameRe, CloseRe, Ends, FirstEnd, IsSpace, IsWordStart, IsWordPart, Span;
    OpenBraces(t, i);
    if i + 2 <= |t| {
      SpacesNameAt(t, i + 2);
      var start := Span(IsSpace, t, i + 2);
      NameAndClose(t, start);
      if start < |t| {
        CloseAt(t, Span(IsSpace, t, Span(IsWordPart, t, start + 1)));
      }
    }
  }

  lemma EndsFromFirst(r: Re, s: string, i: nat)
    requires i <= |s| && FirstEnd(r, s, i) == NoMatch
    ensures Ends(r, s, i) == []
  {
  }
}
