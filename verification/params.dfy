// Laws of substitution, of parameter updates, and of the text search for affected queries.
module ParamLaws {
  import opened Basics
  import opened Interpolate
  import opened Literals
  import opened Regex
  import opened Text

  // --- The template is exactly its pieces ---

  function RawOf(ps: seq<Piece>): string {
    if ps == [] then "" else RawPiece(ps[0]) + RawOf(ps[1..])
  }

  lemma {:induction false} PiecesCover(t: string, i: nat)
    requires i <= |t|
    ensures RawOf(Pieces(t, i)) == t[i..]
    decreases |t| - i
  {
    hide NextPiece, RawPiece;
    if i < |t| {
      var next := NextPiece(t, i).end;
      PiecesCover(t, next);
      assert Pieces(t, i)[1..] == Pieces(t, next);
      assert t[i..] == t[i..next] + t[next..];
    }
  }

  // --- When substitution succeeds ---

  ghost predicate RefsOk(js: Js, defs: Defs, params: Params, ps: seq<Piece>) {
    forall k :: 0 <= k < |ps| && ps[k].Ref? ==>
      ps[k].name in defs && Validates(js, defs[ps[k].name], Lookup(params, ps[k].name))
  }

  lemma {:induction false} SubstituteTotal(js: Js, defs: Defs, params: Params, ps: seq<Piece>)
    ensures Substitute(js, defs, params, ps).Some? <==> RefsOk(js, defs, params, ps)
  {
    if ps != [] {
      SubstituteTotal(js, defs, params, ps[1..]);
      assert forall k :: 0 <= k < |ps| - 1 ==> ps[1..][k] == ps[k + 1];
      assert RefsOk(js, defs, params, ps) <==>
        RefsOk(js, defs, params, ps[1..]) && (ps[0].Ref? ==> RenderRef(js, defs, params, ps[0].name).Some?) by {
        assert forall k :: 0 < k < |ps| ==> ps[k] == ps[1..][k - 1];
      }
    }
  }

  // Over declared, valid parameters every template interpolates, and only over those.
  lemma InterpolatesIffValid(js: Js, defs: Defs, params: Params, template: string)
    ensures Interpolated(js, defs, params, template).Some? <==> RefsOk(js, defs, params, Pieces(template))
  {
    SubstituteTotal(js, defs, params, Pieces(template));
  }

  // --- Updating a parameter ---

  lemma {:induction false} SpanIs(p: char -> bool, s: string, i: nat, j: nat)
    requires i <= j <= |s| && (j < |s| ==> !p(s[j]))
    requires forall k :: i <= k < j ==> p(s[k])
    ensures Span(p, s, i) == j
    decreases j - i
  {
    if i < j {
      SpanIs(p, s, i + 1, j);
    }
  }

  function Spaced(before: string, name: string, after: string): string {
    "{{" + before + (name + (after + "}}"))
  }

  ghost predicate AllSpace(s: string) {
    forall k :: 0 <= k < |s| ==> IsSpace(s[k])
  }

  lemma CharClasses(c: char)
    ensures IsWordStart(c) ==> IsWordPart(c)
    ensures IsWordPart(c) ==> !IsSpace(c)
    ensures c == '}' ==> !IsSpace(c) && !IsWordPart(c)
  {
  }

  // A run of p between a prefix and something that is not p.
  lemma SpanPart(p: char -> bool, pre: string, part: string, post: string)
    requires post != "" && !p(post[0])
    requires forall k :: 0 <= k < |part| ==> p(part[k])
    ensures Span(p, pre + part + post, |pre|) == |pre| + |part|
  {
    var s := pre + part + post;
    assert forall k :: |pre| <= k < |pre| + |part| ==> s[k] == part[k - |pre|];
    assert s[|pre| + |part|] == post[0];
    SpanIs(p, s, |pre|, |pre| + |part|);
  }

  lemma SpacedScans(before: string, name: string, after: string)
    requires IsIdent(name) && AllSpace(before) && AllSpace(after)
    ensures var t, start := Spaced(before, name, after), 2 + |before|;
            && Span(IsSpace, t, 2) == start
            && Span(IsWordPart, t, start + 1) == start + |name|
            && Span(IsSpace, t, start + |name|) == |t| - 2
            && t[start] == name[0] && t[start..start + |name|] == name
  {
    hide IsSpace, IsWordPart, IsWordStart, Span;
    var t, tail := Spaced(before, name, after), after + "}}";
    CharClasses('}');
    CharClasses(name[0]);
    CharClasses(tail[0]);
    SpanPart(IsSpace, "{{", before, name + tail);
    NameRegroups("{{" + before, name, tail);
    SpanPart(IsWordPart, "{{" + before + [name[0]], name[1..], tail);
    Regroups("{{" + before, name, after, "}}");
    SpanPart(IsSpace, "{{" + before + name, after, "}}");
  }

  lemma NameRegroups(a: string, name: string, b: string)
    requires name != ""
    ensures a + (name + b) == a + [name[0]] + name[1..] + b
    ensures (a + (name + b))[|a|] == name[0]
    ensures (a + (name + b))[|a|..|a| + |name|] == name
  {
  }

  lemma Regroups(a: string, b: string, c: string, d: string)
    ensures a + (b + (c + d)) == (a + b) + c + d
  {
  }

  // A name in double braces, with any space around it, is one placeholder.
  lemma SpacedIsPlaceholder(before: string, name: string, after: string)
    requires IsIdent(name) && AllSpace(before) && AllSpace(after)
    ensures Pieces(Spaced(before, name, after)) == [Ref(name, Spaced(before, name, after))]
  {
    hide Span, IsSpace, IsWordPart, IsWordStart;
    var t := Spaced(before, name, after);
    SpacedScans(before, name, after);
    IdentStarts(name);
    assert t[0] == '{' && t[1] == '{' && t[|t| - 2] == '}' && t[|t| - 1] == '}';
    assert PlaceholderAt(t, 0) == Placeholder(2 + |before|, 2 + |before| + |name|, |t|);
    assert t[0..|t|] == t;
  }

  lemma IdentStarts(name: string)
    requires IsIdent(name)
    ensures IsWordStart(name[0])
  {
  }

  function Probe(name: string): string {
    "{{" + name + "}}"
  }

  lemma ProbeIsSpaced(name: string)
    ensures Probe(name) == Spaced("", name, "")
  {
    assert "" + "}}" == "}}" && "{{" + "" == "{{";
  }

  // Probing an identifier-named parameter runs exactly its own validation.
  lemma ProbeValidates(js: Js, defs: Defs, params: Params, name: string)
    requires IsIdent(name)
    ensures Interpolated(js, defs, params, Probe(name)).Some?
       <==> name in defs && Validates(js, defs[name], Lookup(params, name))
  {
    hide Render, Validates, Interpolated, Probe, IsIdent;
    ProbeIsSpaced(name);
    SpacedIsPlaceholder("", name, "");
    InterpolatesIffValid(js, defs, params, Probe(name));
    assert Pieces(Probe(name))[0].Ref?;
  }

  function Trunc(r: real): real {
    if r >= 0.0 then r.Floor as real else -((-r).Floor as real)
  }

  // setParam's coercion to the declared type; None where it rejects.
  function Coerced(js: Js, t: ParamType, v: Value): Option<Value> {
    match t
    case IntType(_, _) =>
      var n := ToNumber(js, v);
      if n.None? then None else Some(Num(Trunc(n.value)))
    case DateType => Some(Str(ToText(js, v)))
    case _ => Some(Str(TextOrEmpty(js, v)))
  }

  // The parameters after setParam, or None where it returns false.
  function TrySet(js: Js, defs: Defs, params: Params, name: string, v: Value): Option<Params> {
    if name !in defs then None
    else
      var c := Coerced(js, defs[name], v);
      if c.None? then None
      else
        var next := params[name := c.value];
        if Interpolated(js, defs, next, Probe(name)).Some? then Some(next) else None
  }

  ghost predicate AllValid(js: Js, defs: Defs, params: Params) {
    forall name :: name in defs && IsIdent(name) ==> Validates(js, defs[name], Lookup(params, name))
  }

  // Only identifiers are ever looked up.
  lemma {:induction false} RefsAreIdents(t: string, i: nat)
    requires i <= |t|
    ensures forall k :: 0 <= k < |Pieces(t, i)| && Pieces(t, i)[k].Ref? ==> IsIdent(Pieces(t, i)[k].name)
    decreases |t| - i
  {
    hide IsIdent, PlaceholderAt;
    if i < |t| {
      if PlaceholderAt(t, i).Placeholder? {
        PlaceholderShape(t, i);
      }
      RefsAreIdents(t, NextPiece(t, i).end);
    }
  }

  // setParam accepts a value of a declared parameter exactly when it is coercible and
  // valid, if the name is an identifier. Under any other name the value plays no part:
  // what counts is whether the placeholders in the name happen to be valid.
  lemma AcceptsIffValid(js: Js, defs: Defs, params: Params, name: string, v: Value)
    ensures TrySet(js, defs, params, name, v).Some? <==>
              && name in defs && Coerced(js, defs[name], v).Some?
              && if IsIdent(name) then Validates(js, defs[name], Coerced(js, defs[name], v).value)
                 else RefsOk(js, defs, params, Pieces(Probe(name)))
  {
    hide IsIdent, Coerced, Validates, Interpolated, Probe, Pieces;
    if name in defs && Coerced(js, defs[name], v).Some? {
      var next := params[name := Coerced(js, defs[name], v).value];
      if IsIdent(name) {
        ProbeValidates(js, defs, next, name);
      } else {
        InterpolatesIffValid(js, defs, next, Probe(name));
        RefsAreIdents(Probe(name), 0);
      }
    }
  }

  // Trunc drops the fraction, whatever the sign.
  lemma TruncIsTowardZero(n: real)
    ensures IsInt(if n >= 0.0 then n.Floor else -(-n).Floor, Trunc(n))
    ensures n >= 0.0 ==> 0.0 <= Trunc(n) <= n < Trunc(n) + 1.0
    ensures n <= 0.0 ==> Trunc(n) - 1.0 < n <= Trunc(n) <= 0.0
  {
  }

  // An integer parameter is set from a number by dropping its fraction, and only if what
  // is left is within the bounds; a string counts by its number, null as zero.
  lemma IntIsSetIff(js: Js, defs: Defs, params: Params, name: string, min: Option<real>, max: Option<real>, v: Value)
    requires IsIdent(name) && name in defs && defs[name] == IntType(min, max)
    ensures var n := match v case Num(n) => Some(n) case Str(s) => js.parse(s) case Null => Some(0.0) case _ => None;
            TrySet(js, defs, params, name, v)
            == if n.Some? && InRange(min, max, Trunc(n.value)) then Some(params[name := Num(Trunc(n.value))]) else None
  {
    hide IsIdent, Probe, Interpolated;
    AcceptsIffValid(js, defs, params, name, v);
    var n := ToNumber(js, v);
    if n.Some? {
      TruncIsTowardZero(n.value);
      IntValidIff(js, min, max, Trunc(n.value));
    }
  }

  // Any other parameter is set to the text of what was given: null and undefined are the
  // empty text, except for a date, where they are the words.
  lemma TextIsSetIff(js: Js, defs: Defs, params: Params, name: string, v: Value)
    requires IsIdent(name) && name in defs && !defs[name].IntType?
    ensures var text := Str(if (v == Null || v == Undefined) && !defs[name].DateType? then "" else ToText(js, v));
            TrySet(js, defs, params, name, v)
            == if Validates(js, defs[name], text) then Some(params[name := text]) else None
  {
    hide IsIdent, Probe, Interpolated, Validates;
    AcceptsIffValid(js, defs, params, name, v);
  }

  lemma TrySetKeepsValid(js: Js, defs: Defs, params: Params, name: string, v: Value)
    requires AllValid(js, defs, params) && TrySet(js, defs, params, name, v).Some?
    ensures AllValid(js, defs, TrySet(js, defs, params, name, v).value)
  {
    hide IsIdent, Coerced, Validates, Interpolated;
    if IsIdent(name) {
      AcceptsIffValid(js, defs, params, name, v);
    }
  }

  datatype Setting = Setting(name: string, value: Value)

  function SetAll(js: Js, defs: Defs, params: Params, settings: seq<Setting>): Params
    decreases |settings|
  {
    if settings == [] then params
    else
      var next := TrySet(js, defs, params, settings[0].name, settings[0].value);
      SetAll(js, defs, if next.Some? then next.value else params, settings[1..])
  }

  // From valid defaults, every identifier-named parameter is valid after any sequence of
  // setParam calls, and so every template over declared parameters interpolates.
  lemma {:induction false} ParamsStayValid(js: Js, defs: Defs, params: Params, settings: seq<Setting>, template: string)
    requires AllValid(js, defs, params)
    requires forall k :: 0 <= k < |Pieces(template)| && Pieces(template)[k].Ref? ==> Pieces(template)[k].name in defs
    ensures AllValid(js, defs, SetAll(js, defs, params, settings))
    ensures Interpolated(js, defs, SetAll(js, defs, params, settings), template).Some?
    decreases |settings|
  {
    hide IsIdent, Validates, Interpolated, TrySet, Pieces;
    if settings == [] {
      InterpolatesIffValid(js, defs, params, template);
      RefsAreIdents(template, 0);
    } else {
      var s := settings[0];
      var next := TrySet(js, defs, params, s.name, s.value);
      if next.Some? {
        TrySetKeepsValid(js, defs, params, s.name, s.value);
      }
      ParamsStayValid(js, defs, if next.Some? then next.value else params, settings[1..], template);
    }
  }

  // Declarations under which every placeholder of t is valid while nothing is set.
  function AllStrings(t: string): Defs {
    map p | p in Pieces(t) && p.Ref? :: p.name := StringType(0, "")
  }

  function UnprobedDefs(name: string): Defs {
    AllStrings(Probe(name))[name := IntType(Some(0.0), None)]
  }

  lemma StringsAreOk(js: Js, defs: Defs, params: Params, t: string)
    requires forall n :: n in AllStrings(t) ==> n in defs && defs[n] == StringType(0, "") && n !in params
    ensures RefsOk(js, defs, params, Pieces(t))
  {
    hide Pieces;
    var ps := Pieces(t);
    forall k | 0 <= k < |ps| && ps[k].Ref?
      ensures ps[k].name in defs && Validates(js, defs[ps[k].name], Lookup(params, ps[k].name))
    {
      assert ps[k] in ps && ps[k].name in AllStrings(t);
    }
  }

  // A parameter whose name is not an identifier is never probed: out-of-range values pass.
  lemma OtherNamesAcceptInvalid(js: Js, name: string)
    requires !IsIdent(name)
    ensures var defs := UnprobedDefs(name);
            && TrySet(js, defs, map[], name, Num(-1.0)) == Some(map[name := Num(-1.0)])
            && !Validates(js, defs[name], Num(-1.0))
  {
    hide Interpolated, Probe, Pieces, IsIdent, RefsOk;
    var defs := UnprobedDefs(name);
    RefsAreIdents(Probe(name), 0);
    StringsAreOk(js, defs, map[], Probe(name));
    AcceptsIffValid(js, defs, map[], name, Num(-1.0));
  }

  ghost predicate SetsOnlyValid(js: Js, name: string) {
    forall defs, params, v :: TrySet(js, defs, params, name, v).Some? ==>
      Validates(js, defs[name], Coerced(js, defs[name], v).value)
  }

  // Whatever is declared and set, setParam keeps invalid values of a parameter out exactly
  // when its name is an identifier.
  lemma SetsOnlyValidIff(js: Js, name: string)
    ensures SetsOnlyValid(js, name) <==> IsIdent(name)
  {
    hide IsIdent, Validates, Interpolated, Probe, Pieces;
    if IsIdent(name) {
      forall defs, params, v | TrySet(js, defs, params, name, v).Some?
        ensures Validates(js, defs[name], Coerced(js, defs[name], v).value)
      {
        AcceptsIffValid(js, defs, params, name, v);
      }
    } else {
      OtherNamesAcceptInvalid(js, name);
    }
  }

  lemma {:induction false} NoPlaceholders(t: string, i: nat)
    requires i <= |t| && forall j :: i <= j < |t| ==> PlaceholderAt(t, j) == Nothing
    ensures forall k :: 0 <= k < |Pieces(t, i)| ==> Pieces(t, i)[k].Plain?
    decreases |t| - i
  {
    hide PlaceholderAt;
    if i < |t| {
      NoPlaceholders(t, i + 1);
    }
  }

  lemma ProbeMisses(i: nat)
    requires i < |Probe("a b")|
    ensures PlaceholderAt(Probe("a b"), i) == Nothing
  {
    var t := Probe("a b");
    assert t == "{{a b}}";
    if i == 0 {
      SpanIs(IsSpace, t, 2, 2);
      SpanIs(IsWordPart, t, 3, 3);
      SpanIs(IsSpace, t, 3, 4);
    }
  }

  // So with a parameter named "a b" alone: the smallest case of the above.
  lemma UnprobedNameAcceptsInvalid(js: Js)
    ensures var defs: Defs := map["a b" := IntType(Some(0.0), None)];
            && TrySet(js, defs, map[], "a b", Num(-1.0)) == Some(map["a b" := Num(-1.0)])
            && !Validates(js, defs["a b"], Num(-1.0))
  {
    hide PlaceholderAt, Probe, Interpolated;
    forall i | 0 <= i < |Probe("a b")|
      ensures PlaceholderAt(Probe("a b"), i) == Nothing
    {
      ProbeMisses(i);
    }
    NoPlaceholders(Probe("a b"), 0);
    assert AllStrings(Probe("a b")) == map[];
    assert !IsIdent("a b") by {
      assert "a b"[1] == ' ';
    }
    OtherNamesAcceptInvalid(js, "a b");
  }

  // --- Which queries a parameter change affects ---

  predicate OccursAt(hay: string, needle: string, i: nat) {
    i + |needle| <= |hay| && hay[i..i + |needle|] == needle
  }

  predicate Contains(hay: string, needle: string) {
    exists i | 0 <= i <= |hay| :: OccursAt(hay, needle, i)
  }

  // The text search of _rerun.
  predicate Mentions(query: string, name: string) {
    Contains(query, "{{" + name + "}}") || Contains(query, "{{ " + name)
  }

  // It finds every name the query refers to, by at least one spelling.
  ghost predicate RefsMentioned(query: string) {
    forall p :: p in Pieces(query) && p.Ref? ==> Mentions(query, p.name)
  }

  lemma {:induction false} UnreferencedIrrelevant(js: Js, defs: Defs, params: Params, ps: seq<Piece>, name: string, v: Value)
    requires forall k :: 0 <= k < |ps| && ps[k].Ref? ==> ps[k].name != name
    ensures Substitute(js, defs, params[name := v], ps) == Substitute(js, defs, params, ps)
  {
    if ps != [] {
      assert forall k :: 0 <= k < |ps| - 1 ==> ps[1..][k] == ps[k + 1];
      UnreferencedIrrelevant(js, defs, params, ps[1..], name, v);
    }
  }

  // The query is sent as before once name is set to v.
  ghost predicate Unaffected(js: Js, defs: Defs, params: Params, query: string, name: string, v: Value) {
    Interpolated(js, defs, params[name := v], query) == Interpolated(js, defs, params, query)
  }

  // A query the search passes over would be sent unchanged.
  lemma UnmentionedUnchanged(js: Js, defs: Defs, params: Params, query: string, name: string, v: Value)
    requires RefsMentioned(query) && !Mentions(query, name)
    ensures Unaffected(js, defs, params, query, name, v)
  {
    UnreferencedIrrelevant(js, defs, params, Pieces(query), name, v);
  }

  // Setting one of the strings to "a" makes the text longer, if it refers to it.
  lemma {:induction false} SubstituteGrows(js: Js, defs: Defs, ps: seq<Piece>, name: string)
    requires forall p :: p in ps && p.Ref? ==> p.name in defs && defs[p.name] == StringType(0, "")
    ensures var before, after := Substitute(js, defs, map[], ps), Substitute(js, defs, map[name := Str("a")], ps);
            && before.Some? && after.Some? && |before.value| <= |after.value|
            && ((exists p :: p in ps && p.Ref? && p.name == name) ==> |before.value| < |after.value|)
  {
    if ps != [] {
      SubstituteGrows(js, defs, ps[1..], name);
      assert forall p :: p in ps <==> p == ps[0] || p in ps[1..];
      if ps[0].Ref? {
        assert ps[0] in ps;
        assert ReplaceAll("a", "'", "''") == "a" by {
          assert "a"[1..] == "" && "'"[0] != "a"[0];
        }
      }
    }
  }

  ghost predicate SearchSuffices(js: Js, query: string) {
    forall defs, params, name, v :: !Mentions(query, name) ==> Unaffected(js, defs, params, query, name, v)
  }

  // Passing over a query is always right exactly when the search finds every name it
  // refers to.
  lemma SearchSufficesIff(js: Js, query: string)
    ensures SearchSuffices(js, query) <==> RefsMentioned(query)
  {
    hide Mentions, Pieces;
    if RefsMentioned(query) {
      forall defs, params, name, v | !Mentions(query, name)
        ensures Unaffected(js, defs, params, query, name, v)
      {
        UnmentionedUnchanged(js, defs, params, query, name, v);
      }
    } else {
      var p :| p in Pieces(query) && p.Ref? && !Mentions(query, p.name);
      var none: Params := map[];
      SubstituteGrows(js, AllStrings(query), Pieces(query), p.name);
      assert !Unaffected(js, AllStrings(query), none, query, p.name, Str("a"));
    }
  }

  // Of all the spellings of one placeholder, the search sees exactly two families: no
  // space at all, or exactly one blank before the name.
  lemma SearchSeesIff(before: string, name: string, after: string)
    requires IsIdent(name) && AllSpace(before) && AllSpace(after)
    ensures Mentions(Spaced(before, name, after), name) <==> (before == "" && after == "") || before == " "
  {
    var t := Spaced(before, name, after);
    assert forall k :: 2 <= k < |t| ==> t[k] != '{' by {
      assert forall k :: 2 <= k < 2 + |before| ==> t[k] == before[k - 2];
      assert forall k :: 2 + |before| <= k < 2 + |before| + |name| ==> t[k] == name[k - 2 - |before|];
      assert forall k :: 2 + |before| + |name| <= k < |t| - 2 ==> t[k] == after[k - 2 - |before| - |name|];
    }
    OnlyAtStart(t, "{{" + name + "}}");
    OnlyAtStart(t, "{{ " + name);
    SpacedPrefix(before, name, after);
  }

  // A query that mentions a name does so in any text around it, and one without two
  // opening braces mentions none.
  lemma MentionedAnywhere(pre: string, query: string, post: string, name: string)
    requires Mentions(query, name)
    ensures Mentions(pre + query + post, name)
    ensures Contains(query, "{{")
  {
    var needle := if Contains(query, "{{" + name + "}}") then "{{" + name + "}}" else "{{ " + name;
    var i :| 0 <= i <= |query| && OccursAt(query, needle, i);
    var t := pre + query + post;
    assert t[|pre| + i..|pre| + i + |needle|] == query[i..i + |needle|];
    assert OccursAt(t, needle, |pre| + i);
    assert query[i..i + 2] == query[i..i + |needle|][..2] == needle[..2] == "{{";
    assert OccursAt(query, "{{", i);
  }

  lemma OnlyAtStart(t: string, needle: string)
    requires |needle| >= 2 && needle[0] == needle[1] == '{'
    requires forall k :: 2 <= k < |t| ==> t[k] != '{'
    ensures Contains(t, needle) <==> needle <= t
  {
    if Contains(t, needle) {
      var i :| 0 <= i <= |t| && OccursAt(t, needle, i);
      assert t[i] == t[i..i + |needle|][0] && t[i + 1] == t[i..i + |needle|][1];
    }
    if needle <= t {
      assert OccursAt(t, needle, 0);
    }
  }

  lemma SpacedPrefix(before: string, name: string, after: string)
    requires IsIdent(name) && AllSpace(before) && AllSpace(after)
    ensures "{{" + name + "}}" <= Spaced(before, name, after) <==> before == "" && after == ""
    ensures "{{ " + name <= Spaced(before, name, after) <==> before == " "
  {
    var t := Spaced(before, name, after);
    assert before != "" ==> t[2] == before[0];
    assert before == "" ==> t[2] == name[0];
    if before == "" && after != "" {
      assert t[2 + |name|] == after[0];
      assert ("{{" + name + "}}")[2 + |name|] == '}';
    }
    if before == "" && after == "" {
      assert t == "{{" + name + "}}";
    }
    if |before| > 1 {
      assert t[3] == before[1];
    }
    assert before == " " ==> t == "{{ " + name + after + "}}";
    assert ("{{ " + name)[2] == ' ' && ("{{ " + name)[3] == name[0] && ("{{" + name + "}}")[2] == name[0];
  }
}
