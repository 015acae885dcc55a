// Cluster vocabulary: words kept verbatim because they are keywords, registered names,
// or registered functions with aggregate-combinator suffixes stacked on.
module Vocabulary {
  import opened Text

  // keywords and keep hold upper-case words; combinators are in the cluster's order.
  datatype Vocab = Vocab(keywords: set<string>, keep: set<string>, combinators: seq<string>)

  predicate NoEmpty(combinators: seq<string>) {
    forall i | 0 <= i < |combinators| :: combinators[i] != ""
  }

  predicate EndsWith(u: string, c: string) {
    |c| <= |u| && u[|u| - |c|..] == c
  }

  // The first listed combinator that is a suffix and leaves something, from index k on.
  function FirstSuffix(combinators: seq<string>, u: string, k: nat): (i: nat)
    requires k <= |combinators|
    ensures k <= i <= |combinators|
    ensures i < |combinators| ==> |combinators[i]| < |u| && EndsWith(u, combinators[i])
    ensures forall j :: k <= j < i ==> !(|combinators[j]| < |u| && EndsWith(u, combinators[j]))
    decreases |combinators| - k
  {
    if k == |combinators| || (|combinators[k]| < |u| && EndsWith(u, combinators[k])) then k
    else FirstSuffix(combinators, u, k + 1)
  }

  predicate Keeps(keep: set<string>, combinators: seq<string>, u: string)
    requires NoEmpty(combinators)
    decreases |u|
  {
    || u in keep
    || (var i := FirstSuffix(combinators, u, 0);
        i < |combinators| && Keeps(keep, combinators, u[..|u| - |combinators[i]|]))
  }

  predicate VocabKeeps(v: Vocab, word: string)
    requires NoEmpty(v.combinators)
  {
    Keeps(v.keep, v.combinators, ToUpper(word))
  }

  predicate IsKeyword(v: Vocab, word: string) {
    ToUpper(word) in v.keywords
  }

  method VocabKeep(v: Vocab, word: string) returns (kept: bool)
    requires NoEmpty(v.combinators)
    ensures kept == VocabKeeps(v, word)
  {
    hide ToUpper;
    var u := ToUpper(word);
    if u in v.keep {
      return true;
    }
    var changed := true;
    while changed
      invariant u !in v.keep
      invariant VocabKeeps(v, word) == Keeps(v.keep, v.combinators, u)
      invariant !changed ==> FirstSuffix(v.combinators, u, 0) == |v.combinators|
      decreases |u|, changed
    {
      changed := false;
      var i := 0;
      while i < |v.combinators|
        invariant i <= |v.combinators|
        invariant FirstSuffix(v.combinators, u, 0) == FirstSuffix(v.combinators, u, i)
      {
        var c := v.combinators[i];
        if |u| > |c| && EndsWith(u, c) {
          u := u[..|u| - |c|];
          if u in v.keep {
            return true;
          }
          changed := true;
          break;
        }
        i := i + 1;
      }
    }
    kept := false;
  }

  // The cluster's combinator names, upper-cased, in its order, without empty ones.
  function Combinators(names: seq<string>): (combinators: seq<string>)
    ensures NoEmpty(combinators)
    ensures forall c :: c in combinators <==> c != "" && exists n :: n in names && ToUpper(n) == c
  {
    if names == [] then []
    else
      var init, last := names[..|names| - 1], ToUpper(names[|names| - 1]);
      assert names == init + [names[|names| - 1]];
      Combinators(init) + (if last == "" then [] else [last])
  }

  // One name after the other, in upper case.
  lemma {:induction false} CombinatorsInOrder(xs: seq<string>, ys: seq<string>, n: string)
    ensures Combinators(xs + ys) == Combinators(xs) + Combinators(ys)
    ensures Combinators([n]) == if n == "" then [] else [ToUpper(n)]
    decreases |ys|
  {
    hide ToUpper;
    assert [n][..0] == [] && Combinators([]) == [];
    if ys == [] {
      assert xs + ys == xs;
    } else {
      assert (xs + ys)[..|xs + ys| - 1] == xs + ys[..|ys| - 1];
      CombinatorsInOrder(xs, ys[..|ys| - 1], n);
    }
  }

  // clusterVocab drops empty names, which is what lets VocabKeep end.
  method ClusterCombinators(names: seq<string>) returns (combinators: seq<string>)
    ensures combinators == Combinators(names) && NoEmpty(combinators)
  {
    hide ToUpper;
    combinators := [];
    for k := 0 to |names|
      invariant combinators == Combinators(names[..k])
    {
      assert names[..k + 1][..k] == names[..k];
      var c := ToUpper(names[k]);
      if c != "" {
        combinators := combinators + [c];
      }
    }
    assert names[..|names|] == names;
  }

  // --- What the stripping loop recognizes ---

  function Join(parts: seq<string>): string {
    if parts == [] then "" else Join(parts[..|parts| - 1]) + parts[|parts| - 1]
  }

  ghost predicate BuiltFrom(words: set<string>, x: string) {
    exists parts: seq<string> :: (forall p :: p in parts ==> p in words) && Join(parts) == x
  }

  // A registered word with combinators stacked on.
  ghost predicate Stacked(keep: set<string>, combinators: seq<string>, u: string) {
    exists n :: 0 <= n <= |u| && u[..n] in keep && BuiltFrom(Listed(combinators), u[n..])
  }

  function Listed(combinators: seq<string>): set<string> {
    set c | c in combinators
  }

  ghost predicate ProperSuffix(u: string, c: string) {
    |c| < |u| && EndsWith(u, c)
  }

  // No listed combinator is a proper suffix of c.
  ghost predicate Atomic(combinators: seq<string>, c: string) {
    c in combinators && forall d :: d in combinators ==> !ProperSuffix(c, d)
  }

  ghost function Atoms(combinators: seq<string>): set<string> {
    set c | c in combinators && Atomic(combinators, c)
  }

  lemma JoinAppend(parts: seq<string>, p: string)
    ensures Join(parts + [p]) == Join(parts) + p
  {
    assert (parts + [p])[..|parts|] == parts;
  }

  lemma BuiltFromAppend(words: set<string>, x: string, p: string)
    requires BuiltFrom(words, x) && p in words
    ensures BuiltFrom(words, x + p)
  {
    var parts :| (forall q :: q in parts ==> q in words) && Join(parts) == x;
    JoinAppend(parts, p);
  }

  // Whatever is kept is a registered word followed by zero or more combinators.
  lemma {:induction false} KeepsOnlyStacked(keep: set<string>, combinators: seq<string>, u: string)
    requires NoEmpty(combinators) && Keeps(keep, combinators, u)
    ensures Stacked(keep, combinators, u)
    decreases |u|
  {
    if u in keep {
      assert u[..|u|] == u && Join([]) == u[|u|..];
      assert BuiltFrom(Listed(combinators), u[|u|..]);
    } else {
      var i := FirstSuffix(combinators, u, 0);
      var v := u[..|u| - |combinators[i]|];
      KeepsOnlyStacked(keep, combinators, v);
      var n :| 0 <= n <= |v| && v[..n] in keep && BuiltFrom(Listed(combinators), v[n..]);
      BuiltFromAppend(Listed(combinators), v[n..], combinators[i]);
      assert u[..n] == v[..n] && u[n..] == v[n..] + combinators[i];
    }
  }

  // --- When it recognizes all of them ---

  ghost predicate Complete(combinators: seq<string>)
    requires NoEmpty(combinators)
  {
    forall keep: set<string>, u :: "" !in keep && Stacked(keep, combinators, u) ==> Keeps(keep, combinators, u)
  }

  // Every combinator that ends in another one comes after some combinator it ends in.
  ghost predicate ShorterFirst(combinators: seq<string>) {
    forall i :: 0 <= i < |combinators| && !Atomic(combinators, combinators[i])
      ==> exists k :: 0 <= k < i && ProperSuffix(combinators[i], combinators[k])
  }

  ghost predicate AllFromAtoms(combinators: seq<string>) {
    forall c :: c in combinators ==> BuiltFrom(Atoms(combinators), c)
  }

  // Stripping greedily finds every stacked word exactly for lists of this form.
  lemma CompleteIff(combinators: seq<string>)
    requires NoEmpty(combinators)
    ensures Complete(combinators) <==> ShorterFirst(combinators) && AllFromAtoms(combinators)
  {
    if ShorterFirst(combinators) && AllFromAtoms(combinators) {
      forall keep: set<string>, u | "" !in keep && Stacked(keep, combinators, u)
        ensures Keeps(keep, combinators, u)
      {
        var n :| 0 <= n <= |u| && u[..n] in keep && BuiltFrom(Listed(combinators), u[n..]);
        var parts :| (forall p :: p in parts ==> p in Listed(combinators)) && Join(parts) == u[n..];
        AtomsSuffice(combinators, parts);
        var atoms :| (forall p :: p in atoms ==> p in Atoms(combinators)) && Join(atoms) == u[n..];
        StripsAtoms(keep, combinators, u[..n], atoms);
        assert u == u[..n] + Join(atoms);
      }
    } else if !ShorterFirst(combinators) {
      LongerFirstMisses(combinators);
    } else {
      NonAtomMisses(combinators);
    }
  }

  lemma {:induction false} AtomsSuffice(combinators: seq<string>, parts: seq<string>)
    requires AllFromAtoms(combinators) && forall p :: p in parts ==> p in Listed(combinators)
    ensures BuiltFrom(Atoms(combinators), Join(parts))
  {
    if parts == [] {
      assert Join([]) == "";
    } else {
      var init, p := parts[..|parts| - 1], parts[|parts| - 1];
      AtomsSuffice(combinators, init);
      assert p in parts && p in combinators;
      BuiltFromConcat(Atoms(combinators), Join(init), p);
    }
  }

  lemma BuiltFromConcat(words: set<string>, x: string, y: string)
    requires BuiltFrom(words, x) && BuiltFrom(words, y)
    ensures BuiltFrom(words, x + y)
  {
    var ys :| (forall q :: q in ys ==> q in words) && Join(ys) == y;
    BuiltFromJoin(words, x, ys);
  }

  lemma {:induction false} BuiltFromJoin(words: set<string>, x: string, ys: seq<string>)
    requires BuiltFrom(words, x) && forall q :: q in ys ==> q in words
    ensures BuiltFrom(words, x + Join(ys))
  {
    if ys == [] {
      assert x + "" == x;
    } else {
      var init := ys[..|ys| - 1];
      BuiltFromJoin(words, x, init);
      BuiltFromAppend(words, x + Join(init), ys[|ys| - 1]);
      assert x + Join(ys) == x + Join(init) + ys[|ys| - 1];
    }
  }

  // With shorter ones first, the combinator stripped is always atomic.
  lemma FirstSuffixAtomic(combinators: seq<string>, u: string)
    requires ShorterFirst(combinators)
    ensures var i := FirstSuffix(combinators, u, 0);
            i < |combinators| ==> Atomic(combinators, combinators[i])
  {
    var i := FirstSuffix(combinators, u, 0);
    if i < |combinators| && !Atomic(combinators, combinators[i]) {
      var k :| 0 <= k < i && ProperSuffix(combinators[i], combinators[k]);
      SuffixTransitive(u, combinators[i], combinators[k]);
    }
  }

  lemma SuffixTransitive(u: string, c: string, d: string)
    requires EndsWith(u, c) && EndsWith(c, d)
    ensures EndsWith(u, d)
  {
    assert u[|u| - |d|..] == u[|u| - |c|..][|c| - |d|..];
  }

  // Two suffixes of one word: the shorter is a suffix of the longer.
  lemma SuffixesNest(u: string, c: string, d: string)
    requires EndsWith(u, c) && EndsWith(u, d)
    ensures |d| <= |c| ==> EndsWith(c, d)
  {
    if |d| <= |c| {
      assert c[|c| - |d|..] == u[|u| - |c|..][|c| - |d|..] == u[|u| - |d|..];
    }
  }

  lemma {:induction false} StripsAtoms(keep: set<string>, combinators: seq<string>, base: string, atoms: seq<string>)
    requires NoEmpty(combinators) && ShorterFirst(combinators)
    requires base in keep && base != "" && forall p :: p in atoms ==> p in Atoms(combinators)
    ensures Keeps(keep, combinators, base + Join(atoms))
  {
    var u := base + Join(atoms);
    if atoms == [] {
      assert u == base;
    } else {
      var init, m := atoms[..|atoms| - 1], atoms[|atoms| - 1];
      StripsAtoms(keep, combinators, base, init);
      assert m in atoms && m in combinators;
      assert u == base + Join(init) + m;
      var i := FirstSuffix(combinators, u, 0);
      var j :| 0 <= j < |combinators| && combinators[j] == m;
      assert EndsWith(u, m);
      FirstSuffixAtomic(combinators, u);
      if |m| <= |combinators[i]| {
        SuffixesNest(u, combinators[i], m);
      } else {
        SuffixesNest(u, m, combinators[i]);
      }
      assert combinators[i] == m;
      assert u[..|u| - |m|] == base + Join(init);
    }
  }

  // A combinator listed before everything it ends in is stripped whole.
  lemma LongerFirstMisses(combinators: seq<string>)
    requires NoEmpty(combinators) && !ShorterFirst(combinators)
    ensures !Complete(combinators)
  {
    var i :| 0 <= i < |combinators| && !Atomic(combinators, combinators[i])
      && forall k :: 0 <= k < i ==> !ProperSuffix(combinators[i], combinators[k]);
    var c :| c in combinators && ProperSuffix(combinators[i], c);
    StrippedWholeMisses(combinators, i, c);
  }

  lemma StrippedWholeMisses(combinators: seq<string>, i: nat, c: string)
    requires NoEmpty(combinators) && i < |combinators|
    requires forall k :: 0 <= k < i ==> !ProperSuffix(combinators[i], combinators[k])
    requires c in combinators && ProperSuffix(combinators[i], c)
    ensures !Complete(combinators)
  {
    hide Stacked, Keeps, FirstSuffix, BuiltFrom;
    var u := "Z" + combinators[i];
    var base := u[..|u| - |c|];
    assert base[0] == 'Z' && |base| > 1;
    StripsWhole(combinators, {base}, i);
    assert EndsWith(u, combinators[i]);
    SuffixTransitive(u, combinators[i], c);
    assert u == base + c;
    OneStacked({base}, combinators, base, c);
    assert "" !in {base};
  }

  lemma EndsItself(a: string, d: string)
    ensures EndsWith(a + d, d)
  {
  }

  lemma SameLength(d: string, c: string)
    requires EndsWith(d, c)
    ensures |c| == |d| ==> c == d
  {
  }

  // Nothing listed ends d properly before d itself is tried on "Z" + d.
  lemma StripsItself(combinators: seq<string>, i: nat)
    requires NoEmpty(combinators) && i < |combinators|
    requires forall k :: 0 <= k < i ==> !ProperSuffix(combinators[i], combinators[k])
    ensures var k := FirstSuffix(combinators, "Z" + combinators[i], 0);
            k < |combinators| && combinators[k] == combinators[i]
  {
    hide Keeps, FirstSuffix, EndsWith;
    var d := combinators[i];
    var u := "Z" + d;
    EndsItself("Z", d);
    var k := FirstSuffix(combinators, u, 0);
    assert k <= i;
    SuffixesNest(u, d, combinators[k]);
    SameLength(d, combinators[k]);
  }

  lemma StripsWhole(combinators: seq<string>, keep: set<string>, i: nat)
    requires NoEmpty(combinators) && i < |combinators|
    requires forall k :: 0 <= k < i ==> !ProperSuffix(combinators[i], combinators[k])
    requires "Z" !in keep && "Z" + combinators[i] !in keep
    ensures !Keeps(keep, combinators, "Z" + combinators[i])
  {
    hide FirstSuffix, EndsWith;
    StripsItself(combinators, i);
    var u := "Z" + combinators[i];
    assert u[..1] == "Z";
    assert FirstSuffix(combinators, "Z", 0) == |combinators|;
  }

  lemma OneStacked(keep: set<string>, combinators: seq<string>, base: string, c: string)
    requires base in keep && c in combinators
    ensures Stacked(keep, combinators, base + c)
  {
    BuiltFromOne(Listed(combinators), c);
    assert (base + c)[..|base|] == base && (base + c)[|base|..] == c;
  }

  lemma BuiltFromOne(words: set<string>, c: string)
    requires c in words
    ensures BuiltFrom(words, c)
  {
    JoinAppend([], c);
    assert [] + [c] == [c] && Join([c]) == c;
  }

  lemma NonAtomMisses(combinators: seq<string>)
    requires NoEmpty(combinators) && ShorterFirst(combinators) && !AllFromAtoms(combinators)
    ensures !Complete(combinators)
  {
    hide Stacked, Keeps, BuiltFrom;
    var c :| c in combinators && !BuiltFrom(Atoms(combinators), c);
    var u := "Z" + c;
    if Keeps({"Z"}, combinators, u) {
      ReachesZ(combinators, c);
    }
    OneStacked({"Z"}, combinators, "Z", c);
    assert "" !in {"Z"};
  }

  lemma Peels(x: string, m: string)
    requires EndsWith("Z" + x, m) && |m| <= |x|
    ensures ("Z" + x)[..|x| + 1 - |m|] == "Z" + x[..|x| - |m|]
    ensures x == x[..|x| - |m|] + m
  {
    assert x[|x| - |m|..] == ("Z" + x)[|x| + 1 - |m|..] == m;
  }

  lemma StripsOne(keep: set<string>, combinators: seq<string>, u: string)
    requires NoEmpty(combinators) && Keeps(keep, combinators, u) && u !in keep
    ensures var i := FirstSuffix(combinators, u, 0);
            i < |combinators| && Keeps(keep, combinators, u[..|u| - |combinators[i]|])
  {
    hide FirstSuffix, EndsWith;
  }

  lemma {:induction false} ReachesZ(combinators: seq<string>, x: string)
    requires NoEmpty(combinators) && ShorterFirst(combinators) && Keeps({"Z"}, combinators, "Z" + x)
    ensures BuiltFrom(Atoms(combinators), x)
    decreases |x|
  {
    hide Atomic, ShorterFirst, BuiltFrom;
    if x == "" {
      NothingBuilt(Atoms(combinators));
    } else {
      var u := "Z" + x;
      assert u != "Z";
      StripsOne({"Z"}, combinators, u);
      hide Keeps, FirstSuffix, Atoms;
      var i := FirstSuffix(combinators, u, 0);
      FirstSuffixAtomic(combinators, u);
      var m := combinators[i];
      var y := x[..|x| - |m|];
      Peels(x, m);
      hide EndsWith;
      ReachesZ(combinators, y);
      BuiltFromAppend(Atoms(combinators), y, m);
    }
  }

  lemma NothingBuilt(words: set<string>)
    ensures BuiltFrom(words, "")
  {
    assert Join([]) == "";
  }

  // With the cluster's own names: sumSimpleState is stacked, but State is stripped first.
  lemma SimpleStateMissed(keep: set<string>)
    requires "SUM" in keep && "SUMSIMPLESTATE" !in keep && "SUMSIMPLE" !in keep
    ensures Stacked(keep, ["STATE", "SIMPLESTATE"], ToUpper("sumSimpleState"))
    ensures !VocabKeeps(Vocab({}, keep, ["STATE", "SIMPLESTATE"]), "sumSimpleState")
  {
    var cs := ["STATE", "SIMPLESTATE"];
    var u := ToUpper("sumSimpleState");
    assert u == "SUMSIMPLESTATE";
    hide BuiltFrom;
    BuiltFromOne(Listed(cs), "SIMPLESTATE");
    assert u[..3] == "SUM" && u[3..] == "SIMPLESTATE";
    assert u[9..] == "STATE" && u[..9] == "SUMSIMPLE";
    assert EndsWith(u, cs[0]) && FirstSuffix(cs, u, 0) == 0;
    assert "SUMSIMPLE"[8] == 'E' && "SUMSIMPLE"[4..] == "IMPLE";
    assert !EndsWith("SUMSIMPLE", "STATE");
    assert FirstSuffix(cs, "SUMSIMPLE", 0) == FirstSuffix(cs, "SUMSIMPLE", 1) == 2;
  }
}
