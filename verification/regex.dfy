// Leftmost-first regular expressions, the matching rule of Go's regexp package: among
// all ways to match at a position, the one a backtracking search finds first.
module Regex {

  datatype Re =
    | Empty
    | One(accepts: char -> bool)
    | Cat(first: Re, second: Re)
    | Alt(preferred: Re, other: Re)
    | Many(body: Re) // greedy star
    | Few(body: Re)  // lazy star

  function Opt(r: Re): Re {
    Alt(r, Empty)
  }

  function Some1(r: Re): Re {
    Cat(r, Many(r))
  }

  function Lit(c: char): Re {
    One(x => x == c)
  }

  datatype End = NoMatch | At(end: nat)

  predicate Within(ends: seq<nat>, lo: nat, hi: nat) {
    forall j | 0 <= j < |ends| :: lo <= ends[j] <= hi
  }

  // All end positions of a match starting at i, in order of preference.
  function Ends(r: Re, s: string, i: nat): (ends: seq<nat>)
    requires i <= |s|
    ensures Within(ends, i, |s|)
    decreases |s| - i, r, 0
  {
    match r
    case Empty => [i]
    case One(p) => if i < |s| && p(s[i]) then [i + 1] else []
    case Cat(a, b) => Then(Ends(a, s, i), b, s, i)
    case Alt(a, b) => Ends(a, s, i) + Ends(b, s, i)
    case Many(a) => if i == |s| then [i] else Then(After(Ends(a, s, i), i, |s|), r, s, i + 1) + [i]
    case Few(a) => if i == |s| then [i] else [i] + Then(After(Ends(a, s, i), i, |s|), r, s, i + 1)
  }

  // Continues with r from each position in turn.
  function Then(starts: seq<nat>, r: Re, s: string, from: nat): (ends: seq<nat>)
    requires from <= |s|
    requires Within(starts, from, |s|)
    ensures Within(ends, from, |s|)
    decreases |s| - from, r, 1 + |starts|
  {
    if starts == [] then [] else Ends(r, s, starts[0]) + Then(starts[1..], r, s, from)
  }

  // The iterations of a star that consumed something.
  function After(ends: seq<nat>, i: nat, hi: nat): (later: seq<nat>)
    requires Within(ends, i, hi)
    ensures Within(later, i + 1, hi)
  {
    if ends == [] then []
    else (if ends[0] > i then [ends[0]] else []) + After(ends[1..], i, hi)
  }

  function FirstEnd(r: Re, s: string, i: nat): (m: End)
    requires i <= |s|
    ensures m.At? ==> i <= m.end <= |s|
  {
    var ends := Ends(r, s, i);
    if ends == [] then NoMatch else At(ends[0])
  }

  function OrElse(a: End, b: End): End {
    if a.At? then a else b
  }

  lemma ThenConcat(xs: seq<nat>, ys: seq<nat>, r: Re, s: string, lo: nat)
    requires lo <= |s| && Within(xs, lo, |s|) && Within(ys, lo, |s|)
    ensures Then(xs + ys, r, s, lo) == Then(xs, r, s, lo) + Then(ys, r, s, lo)
  {
    if xs == [] {
      assert xs + ys == ys;
    } else {
      assert (xs + ys)[1..] == xs[1..] + ys;
      ThenConcat(xs[1..], ys, r, s, lo);
    }
  }

  lemma ThenFrom(xs: seq<nat>, r: Re, s: string, lo: nat, hi: nat)
    requires lo <= hi <= |s| && Within(xs, hi, |s|)
    ensures Then(xs, r, s, lo) == Then(xs, r, s, hi)
  {
    if xs != [] {
      ThenFrom(xs[1..], r, s, lo, hi);
    }
  }

  // Every end of a sequence is an end of its second part from an end of its first.
  lemma ThenOrigin(xs: seq<nat>, r: Re, s: string, lo: nat, e: nat) returns (m: nat)
    requires lo <= |s| && Within(xs, lo, |s|)
    requires e in Then(xs, r, s, lo)
    ensures m in xs && lo <= m <= |s| && e in Ends(r, s, m)
  {
    if e in Ends(r, s, xs[0]) {
      m := xs[0];
    } else {
      m := ThenOrigin(xs[1..], r, s, lo, e);
    }
  }

  // A greedy star whose body has at most one way to match, followed by k: one more
  // iteration if the rest can then still match, otherwise stop here.
  lemma StarStep(body: Re, k: Re, s: string, i: nat)
    requires i <= |s|
    requires |Ends(body, s, i)| <= 1
    requires Within(Ends(body, s, i), i + 1, |s|)
    ensures Ends(body, s, i) == [] ==> FirstEnd(Cat(Many(body), k), s, i) == FirstEnd(k, s, i)
    ensures Ends(body, s, i) != [] ==>
              FirstEnd(Cat(Many(body), k), s, i)
              == OrElse(FirstEnd(Cat(Many(body), k), s, Ends(body, s, i)[0]), FirstEnd(k, s, i))
  {
    StarEnds(body, s, i);
    ThenOne(i, k, s, i);
    hide Ends, Then;
    var star := Many(body);
    CatEnds(star, k, s, i);
    if Ends(body, s, i) != [] {
      var e := Ends(body, s, i)[0];
      CatEnds(star, k, s, e);
      ThenConcat(Ends(star, s, e), [i], k, s, i);
      ThenFrom(Ends(star, s, e), k, s, i, e);
    }
  }

  lemma FirstOfAlt(a: Re, b: Re, s: string, i: nat)
    requires i <= |s|
    ensures FirstEnd(Alt(a, b), s, i) == OrElse(FirstEnd(a, s, i), FirstEnd(b, s, i))
  {
  }

  lemma OneEnds(p: char -> bool, s: string, i: nat)
    requires i <= |s|
    ensures Ends(One(p), s, i) == if i < |s| && p(s[i]) then [i + 1] else []
  {
  }

  lemma NoEnds(r: Re, s: string, i: nat)
    requires i <= |s|
    ensures FirstEnd(r, s, i) == NoMatch <==> Ends(r, s, i) == []
  {
  }

  lemma CatEnds(a: Re, b: Re, s: string, i: nat)
    requires i <= |s|
    ensures Ends(Cat(a, b), s, i) == Then(Ends(a, s, i), b, s, i)
  {
  }

  lemma CatFails(a: Re, b: Re, s: string, i: nat)
    requires i <= |s| && Ends(a, s, i) == []
    ensures Ends(Cat(a, b), s, i) == []
  {
    CatEnds(a, b, s, i);
  }

  lemma AfterKeeps(steps: seq<nat>, i: nat, hi: nat)
    requires |steps| <= 1 && Within(steps, i + 1, hi)
    ensures After(steps, i, hi) == steps
  {
    assert steps != [] ==> After(steps[1..], i, hi) == [] && steps == [steps[0]];
  }

  lemma StarEnds(body: Re, s: string, i: nat)
    requires i <= |s|
    requires |Ends(body, s, i)| <= 1
    requires Within(Ends(body, s, i), i + 1, |s|)
    ensures Ends(Many(body), s, i)
         == (if Ends(body, s, i) == [] then [] else Ends(Many(body), s, Ends(body, s, i)[0])) + [i]
  {
    var steps := Ends(body, s, i);
    ManyUnfolds(body, s, i);
    hide Ends, Then, After;
    AfterKeeps(steps, i, |s|);
    if steps != [] {
      assert steps == [steps[0]];
      ThenOne(steps[0], Many(body), s, i + 1);
    } else if i < |s| {
      ThenNone(Many(body), s, i + 1);
    }
  }

  lemma ManyUnfolds(body: Re, s: string, i: nat)
    requires i <= |s|
    ensures Ends(Many(body), s, i)
         == if i == |s| then [i] else Then(After(Ends(body, s, i), i, |s|), Many(body), s, i + 1) + [i]
  {
  }

  lemma ThenNone(r: Re, s: string, from: nat)
    requires from <= |s|
    ensures Then([], r, s, from) == []
  {
  }

  lemma ThenOne(e: nat, r: Re, s: string, lo: nat)
    requires lo <= e <= |s|
    ensures Then([e], r, s, lo) == Ends(r, s, e)
  {
    assert Then([e][1..], r, s, lo) == [];
  }

  // Regexps that cannot match the empty string.
  predicate Consuming(r: Re) {
    match r
    case Empty => false
    case One(_) => true
    case Cat(a, b) => Consuming(a) || Consuming(b)
    case Alt(a, b) => Consuming(a) && Consuming(b)
    case Many(_) => false
    case Few(_) => false
  }

  lemma {:induction false} ConsumingAdvances(r: Re, s: string, i: nat)
    requires Consuming(r) && i <= |s|
    ensures Within(Ends(r, s, i), i + 1, |s|)
  {
    match r
    case One(_) =>
    case Alt(a, b) =>
      ConsumingAdvances(a, s, i);
      ConsumingAdvances(b, s, i);
    case Cat(a, b) =>
      if Consuming(a) {
        ConsumingAdvances(a, s, i);
      }
      forall j | 0 <= j < |Ends(r, s, i)|
        ensures Ends(r, s, i)[j] > i
      {
        var m := ThenOrigin(Ends(a, s, i), b, s, i, Ends(r, s, i)[j]);
        if Consuming(b) {
          ConsumingAdvances(b, s, m);
        }
      }
  }

  // --- Matching only looks forward ---

  ghost predicate Shifted(xs: seq<nat>, ys: seq<nat>, d: nat) {
    |xs| == |ys| && forall j :: 0 <= j < |xs| ==> xs[j] == ys[j] + d
  }

  lemma {:induction false} EndsShift(r: Re, a: string, b: string, i: nat)
    requires i <= |b|
    ensures Shifted(Ends(r, a + b, |a| + i), Ends(r, b, i), |a|)
    decreases |b| - i, r, 0
  {
    match r
    case Empty =>
    case One(_) =>
    case Cat(x, y) =>
      EndsShift(x, a, b, i);
      ThenShift(Ends(x, a + b, |a| + i), Ends(x, b, i), y, a, b, i);
      CatEnds(x, y, a + b, |a| + i);
      CatEnds(x, y, b, i);
    case Alt(x, y) =>
      EndsShift(x, a, b, i);
      EndsShift(y, a, b, i);
    case Many(x) => StarShift(x, r, a, b, i);
    case Few(x) => StarShift(x, r, a, b, i);
  }

  lemma StarShift(x: Re, r: Re, a: string, b: string, i: nat)
    requires i <= |b| && (r == Many(x) || r == Few(x))
    ensures Shifted(Ends(r, a + b, |a| + i), Ends(r, b, i), |a|)
    decreases |b| - i, x, 2
  {
    hide Then, After;
    if i < |b| {
      EndsShift(x, a, b, i);
      AfterShift(Ends(x, a + b, |a| + i), Ends(x, b, i), a, b, i);
      var xs, ys := After(Ends(x, a + b, |a| + i), |a| + i, |a + b|), After(Ends(x, b, i), i, |b|);
      ThenShift(xs, ys, r, a, b, i + 1);
      var later, laterShifted := Then(ys, r, b, i + 1), Then(xs, r, a + b, |a| + i + 1);
      assert Ends(r, b, i) == if r.Many? then later + [i] else [i] + later;
      assert Ends(r, a + b, |a| + i) == if r.Many? then laterShifted + [|a| + i] else [|a| + i] + laterShifted;
    }
  }

  lemma ShiftedConcat(xs: seq<nat>, xs': seq<nat>, ys: seq<nat>, ys': seq<nat>, d: nat)
    requires Shifted(xs, ys, d) && Shifted(xs', ys', d)
    ensures Shifted(xs + xs', ys + ys', d)
  {
  }

  lemma {:induction false} AfterShift(xs: seq<nat>, ys: seq<nat>, a: string, b: string, i: nat)
    requires Shifted(xs, ys, |a|) && Within(ys, i, |b|) && Within(xs, |a| + i, |a + b|)
    decreases |xs|
    ensures Shifted(After(xs, |a| + i, |a + b|), After(ys, i, |b|), |a|)
  {
    if xs != [] {
      AfterShift(xs[1..], ys[1..], a, b, i);
      ShiftedConcat(if xs[0] > |a| + i then [xs[0]] else [], After(xs[1..], |a| + i, |a + b|),
                    if ys[0] > i then [ys[0]] else [], After(ys[1..], i, |b|), |a|);
    }
  }

  lemma {:induction false} ThenShift(xs: seq<nat>, ys: seq<nat>, r: Re, a: string, b: string, from: nat)
    requires from <= |b| && Shifted(xs, ys, |a|) && Within(ys, from, |b|) && Within(xs, |a| + from, |a + b|)
    ensures Shifted(Then(xs, r, a + b, |a| + from), Then(ys, r, b, from), |a|)
    decreases |b| - from, r, 1 + |ys|
  {
    hide Ends;
    if xs != [] {
      EndsShift(r, a, b, ys[0]);
      ThenShift(xs[1..], ys[1..], r, a, b, from);
    }
  }

  lemma FirstEndShift(r: Re, a: string, b: string, i: nat)
    requires i <= |b|
    ensures FirstEnd(r, a + b, |a| + i)
         == match FirstEnd(r, b, i) case NoMatch => NoMatch case At(e) => At(|a| + e)
  {
    EndsShift(r, a, b, i);
  }

  // --- Runs of a character class ---

  function Span(p: char -> bool, s: string, i: nat): (j: nat)
    requires i <= |s|
    ensures i <= j <= |s| && (j < |s| ==> !p(s[j]))
    ensures forall k :: i <= k < j ==> p(s[k])
    decreases |s| - i
  {
    if i < |s| && p(s[i]) then Span(p, s, i + 1) else i
  }

  // A greedy run before something that cannot start inside it is never given back.
  lemma {:induction false} SpanThen(p: char -> bool, k: Re, s: string, i: nat)
    requires i <= |s|
    requires forall j :: i <= j < |s| && p(s[j]) ==> Ends(k, s, j) == []
    ensures FirstEnd(Cat(Many(One(p)), k), s, i) == FirstEnd(k, s, Span(p, s, i))
    decreases |s| - i
  {
    hide Ends, FirstEnd;
    OneEnds(p, s, i);
    StarStep(One(p), k, s, i);
    NoEnds(k, s, i);
    if i < |s| && p(s[i]) {
      SpanThen(p, k, s, i + 1);
    }
  }

  lemma OneThen(p: char -> bool, k: Re, s: string, i: nat)
    requires i <= |s|
    ensures FirstEnd(Cat(One(p), k), s, i) == if i < |s| && p(s[i]) then FirstEnd(k, s, i + 1) else NoMatch
    ensures i < |s| && !p(s[i]) ==> Ends(Cat(One(p), k), s, i) == []
  {
    if i < |s| && p(s[i]) {
      CatEnds(One(p), k, s, i);
      assert Ends(One(p), s, i) == [i + 1];
      ThenOne(i + 1, k, s, i);
    } else {
      CatFails(One(p), k, s, i);
    }
  }
}
