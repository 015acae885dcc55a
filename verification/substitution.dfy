// What interpolation puts where: every placeholder becomes its literal, and everything
// else stays as it is, in its place.
module Substitution {
  import opened Basics
  import opened Interpolate
  import opened ParamLaws
  import opened Regex

  // --- Pieces of a concatenation ---

  lemma {:induction false} SpanShift(p: char -> bool, a: string, b: string, i: nat)
    requires i <= |b|
    ensures Span(p, a + b, |a| + i) == |a| + Span(p, b, i)
    decreases |b| - i
  {
    if i < |b| {
      SpanShift(p, a, b, i + 1);
    }
  }

  function Moved(f: Found, d: nat): Found {
    match f case Nothing => Nothing case Placeholder(start, stop, end) => Placeholder(d + start, d + stop, d + end)
  }

  lemma PlaceholderShift(a: string, b: string, i: nat)
    requires i <= |b|
    ensures PlaceholderAt(a + b, |a| + i) == Moved(PlaceholderAt(b, i), |a|)
  {
    hide Span, IsSpace, IsWordStart, IsWordPart;
    if i + 2 <= |b| {
      SpanShift(IsSpace, a, b, i + 2);
      var start := Span(IsSpace, b, i + 2);
      if start < |b| {
        SpanShift(IsWordPart, a, b, start + 1);
        SpanShift(IsSpace, a, b, Span(IsWordPart, b, start + 1));
      }
    }
  }

  lemma SliceShift(a: string, b: string, i: nat, j: nat)
    requires i <= j <= |b|
    ensures (a + b)[|a| + i..|a| + j] == b[i..j]
  {
  }

  lemma SliceKeeps(a: string, b: string, i: nat, j: nat)
    requires i <= j <= |a|
    ensures (a + b)[i..j] == a[i..j]
  {
  }

  lemma NextPieceShift(a: string, b: string, i: nat)
    requires i < |b|
    ensures NextPiece(a + b, |a| + i).piece == NextPiece(b, i).piece
    ensures NextPiece(a + b, |a| + i).end == |a| + NextPiece(b, i).end
  {
    PlaceholderShift(a, b, i);
    hide PlaceholderAt;
    var f := PlaceholderAt(b, i);
    if f.Placeholder? {
      SliceShift(a, b, i, f.end);
      SliceShift(a, b, f.start, f.stop);
    }
  }

  lemma {:induction false} PiecesShift(a: string, b: string, i: nat)
    requires i <= |b|
    ensures Pieces(a + b, |a| + i) == Pieces(b, i)
    decreases |b| - i
  {
    hide NextPiece;
    if i < |b| {
      NextPieceShift(a, b, i);
      PiecesShift(a, b, NextPiece(b, i).end);
    }
  }

  // No placeholder starts anywhere in the text.
  ghost predicate Literal(t: string) {
    forall i :: 0 <= i <= |t| ==> PlaceholderAt(t, i) == Nothing
  }

  // A run of p in front of a character that is not p does not depend on what follows.
  lemma {:induction false} SpanStops(p: char -> bool, a: string, b: string, i: nat)
    requires i <= |a| && (b == "" || !p(b[0]))
    ensures Span(p, a + b, i) == Span(p, a, i)
    decreases |a| - i
  {
    if i < |a| {
      SpanStops(p, a, b, i + 1);
    }
  }

  predicate Opens(b: string) {
    |b| >= 2 && b[0] == b[1] == '{'
  }

  // A placeholder does not reach over opening braces.
  lemma LiteralBefore(a: string, b: string, i: nat)
    requires Literal(a) && i < |a| && (b == "" || Opens(b))
    ensures PlaceholderAt(a + b, i) == Nothing
  {
    Brace();
    hide Span, IsSpace, IsWordStart, IsWordPart;
    if i + 2 <= |a| {
      var start := Span(IsSpace, a, i + 2);
      SpanStops(IsSpace, a, b, i + 2);
      if start < |a| {
        SpanStops(IsWordPart, a, b, start + 1);
        SpanStops(IsSpace, a, b, Span(IsWordPart, a, start + 1));
      }
      assert PlaceholderAt(a, i) == Nothing;
    } else if b != "" {
      assert (a + b)[i + 2] == b[1];
    }
  }

  lemma Brace()
    ensures !IsSpace('{') && !IsWordStart('{') && !IsWordPart('{')
  {
  }

  function Plains(t: string): seq<Piece> {
    seq(|t|, i requires 0 <= i < |t| => Plain(t[i]))
  }

  lemma {:induction false} LiteralPieces(a: string, b: string, i: nat)
    requires Literal(a) && i <= |a| && (b == "" || Opens(b))
    ensures Pieces(a + b, i) == Plains(a[i..]) + Pieces(b)
    decreases |a| - i
  {
    hide PlaceholderAt;
    if i < |a| {
      LiteralBefore(a, b, i);
      LiteralPieces(a, b, i + 1);
      assert Plains(a[i..]) == [Plain(a[i])] + Plains(a[i + 1..]);
    } else {
      PiecesShift(a, b, 0);
      assert Plains(a[i..]) == [];
    }
  }

  // A run that ends inside the first part ends there in the whole.
  lemma {:induction false} SpanAgrees(p: char -> bool, a: string, b: string, i: nat)
    requires i <= |a| && Span(p, a, i) < |a|
    ensures Span(p, a + b, i) == Span(p, a, i)
    decreases |a| - i
  {
    if p(a[i]) {
      SpanAgrees(p, a, b, i + 1);
    }
  }

  lemma FoundExtends(a: string, b: string, i: nat)
    requires i <= |a| && PlaceholderAt(a, i).Placeholder?
    ensures PlaceholderAt(a + b, i) == PlaceholderAt(a, i)
  {
    hide IsSpace, IsWordStart, IsWordPart, Span;
    var start := Span(IsSpace, a, i + 2);
    var stop := Span(IsWordPart, a, start + 1);
    SpanAgrees(IsSpace, a, b, i + 2);
    SpanAgrees(IsWordPart, a, b, start + 1);
    SpanAgrees(IsSpace, a, b, stop);
  }

  lemma AloneIsNext(raw: string, name: string)
    requires Pieces(raw) == [Ref(name, raw)]
    ensures var f := PlaceholderAt(raw, 0);
            f.Placeholder? && f.end == |raw| && raw[0..f.end] == raw && raw[f.start..f.stop] == name
  {
    hide PlaceholderAt;
    assert NextPiece(raw, 0).piece == Pieces(raw)[0] == Ref(name, raw);
    assert |RawPiece(Ref(name, raw))| == |raw[0..NextPiece(raw, 0).end]|;
  }

  lemma FoundIsNext(t: string, raw: string, name: string)
    requires |raw| <= |t| && PlaceholderAt(t, 0).Placeholder?
    requires var f := PlaceholderAt(t, 0); f.end == |raw| && t[0..f.end] == raw && t[f.start..f.stop] == name
    ensures Pieces(t) == [Ref(name, raw)] + Pieces(t, |raw|)
  {
    hide PlaceholderAt;
  }

  // A placeholder is recognized whatever follows it.
  lemma PlaceholderThen(before: string, name: string, after: string, post: string)
    requires IsIdent(name) && AllSpace(before) && AllSpace(after)
    ensures var raw := Spaced(before, name, after); Pieces(raw + post) == [Ref(name, raw)] + Pieces(post)
  {
    hide *;
    var raw := Spaced(before, name, after);
    SpacedIsPlaceholder(before, name, after);
    KeptWhenExtended(raw, name, post);
  }

  lemma KeptWhenExtended(raw: string, name: string, post: string)
    requires Pieces(raw) == [Ref(name, raw)]
    ensures Pieces(raw + post) == [Ref(name, raw)] + Pieces(post)
  {
    hide *;
    AloneIsNext(raw, name);
    var f := PlaceholderAt(raw, 0);
    FoundExtends(raw, post, 0);
    SliceKeeps(raw, post, 0, f.end);
    SliceKeeps(raw, post, f.start, f.stop);
    FoundIsNext(raw + post, raw, name);
    PiecesShift(raw, post, 0);
  }

  // --- What comes out ---

  function Both(a: Option<string>, b: Option<string>): Option<string> {
    if a.Some? && b.Some? then Some(a.value + b.value) else None
  }

  lemma BothAssociates(a: Option<string>, b: Option<string>, c: Option<string>)
    ensures Both(a, Both(b, c)) == Both(Both(a, b), c)
    ensures Both(Some(""), a) == Both(a, Some("")) == a
  {
    if a.Some? && b.Some? && c.Some? {
      assert a.value + (b.value + c.value) == a.value + b.value + c.value;
    }
    assert a.Some? ==> "" + a.value == a.value == a.value + "";
  }

  function Shown(js: Js, defs: Defs, params: Params, p: Piece): Option<string> {
    match p case Plain(c) => Some([c]) case Ref(name, _) => RenderRef(js, defs, params, name)
  }

  lemma SubstituteStep(js: Js, defs: Defs, params: Params, ps: seq<Piece>)
    requires ps != []
    ensures Substitute(js, defs, params, ps) == Both(Shown(js, defs, params, ps[0]), Substitute(js, defs, params, ps[1..]))
  {
    hide RenderRef;
  }

  lemma {:induction false} SubstituteConcat(js: Js, defs: Defs, params: Params, ps: seq<Piece>, qs: seq<Piece>)
    ensures Substitute(js, defs, params, ps + qs)
         == Both(Substitute(js, defs, params, ps), Substitute(js, defs, params, qs))
  {
    var whole := Substitute(js, defs, params, qs);
    if ps == [] {
      BothAssociates(whole, None, None);
      assert ps + qs == qs;
    } else {
      SubstituteStep(js, defs, params, ps + qs);
      SubstituteStep(js, defs, params, ps);
      hide Substitute, Both, Shown;
      assert (ps + qs)[1..] == ps[1..] + qs;
      SubstituteConcat(js, defs, params, ps[1..], qs);
      BothAssociates(Shown(js, defs, params, ps[0]), Substitute(js, defs, params, ps[1..]), whole);
    }
  }

  lemma {:induction false} SubstitutePlains(js: Js, defs: Defs, params: Params, t: string)
    ensures Substitute(js, defs, params, Plains(t)) == Some(t)
  {
    if t != "" {
      SubstituteStep(js, defs, params, Plains(t));
      hide Substitute;
      SubstitutePlains(js, defs, params, t[1..]);
      assert Plains(t)[1..] == Plains(t[1..]);
      assert [t[0]] + t[1..] == t;
    }
  }

  // A text without placeholders interpolates to itself.
  lemma LiteralIsItself(js: Js, defs: Defs, params: Params, t: string)
    requires Literal(t)
    ensures Interpolated(js, defs, params, t) == Some(t)
  {
    LiteralPieces(t, "", 0);
    assert t + "" == t && t[0..] == t && Plains(t) + [] == Plains(t);
    SubstitutePlains(js, defs, params, t);
  }

  // The first placeholder of a template becomes the literal of its parameter, in its
  // place, between what precedes it, unchanged, and the interpolation of what follows.
  lemma InterpolatesInPlace(js: Js, defs: Defs, params: Params, pre: string, before: string, name: string, after: string, post: string)
    requires Literal(pre) && IsIdent(name) && AllSpace(before) && AllSpace(after)
    ensures var template := pre + (Spaced(before, name, after) + post);
            Interpolated(js, defs, params, template)
            == if name !in defs then None
               else
                 var literal := Render(js, defs[name], if name in params then params[name] else Undefined);
                 var rest := Interpolated(js, defs, params, post);
                 if literal.None? || rest.None? then None else Some(pre + literal.value + rest.value)
  {
    hide Pieces, Render, IsIdent, AllSpace, PlaceholderAt, Substitute, Literal, Plains;
    var raw := Spaced(before, name, after);
    LiteralPieces(pre, raw + post, 0);
    assert pre[0..] == pre;
    PlaceholderThen(before, name, after, post);
    PiecesRender(js, defs, params, pre, name, raw, Pieces(post));
    var literal, rest := RenderRef(js, defs, params, name), Interpolated(js, defs, params, post);
    if literal.Some? && rest.Some? {
      assert pre + (literal.value + rest.value) == pre + literal.value + rest.value;
    }
  }

  lemma PiecesRender(js: Js, defs: Defs, params: Params, pre: string, name: string, raw: string, rest: seq<Piece>)
    ensures Substitute(js, defs, params, Plains(pre) + ([Ref(name, raw)] + rest))
         == Both(Some(pre), Both(RenderRef(js, defs, params, name), Substitute(js, defs, params, rest)))
  {
    var ref := [Ref(name, raw)];
    SubstituteStep(js, defs, params, ref + rest);
    SubstitutePlains(js, defs, params, pre);
    hide Substitute, Both, RenderRef, Plains;
    SubstituteConcat(js, defs, params, Plains(pre), ref + rest);
    assert (ref + rest)[1..] == rest && (ref + rest)[0] == ref[0];
  }
}
