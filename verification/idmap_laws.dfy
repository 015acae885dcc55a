// What a successful Build promises, as laws of the order-free map Tokens.
module IdentifierMapLaws {
  import opened Basics
  import opened Token
  import opened IdentifierMap

  // --- The map in terms of names and digests ---

  function Digest(m: Minter, kind: string, name: string): string {
    m.digest(kind + "\0" + name)
  }

  // Build succeeds exactly when no observed name has the form of a token, and no two
  // names of one kind share the first 16 digits of their digests.
  lemma BuildableIff(m: Minter, values: Names)
    ensures Buildable(m, values) <==>
              && (forall k, v, kind, hex :: k in values && v in values[k] ==> !TokenText(v, kind, hex))
              && (forall k, v, w :: k in values && v in values[k] && w in values[k] && v != w ==>
                    Digest(m, k, v)[..16] != Digest(m, k, w)[..16])
  {
    hide Reserved;
    forall v
      ensures Reserved(v) <==> exists kind, hex :: TokenText(v, kind, hex)
    {
      ReservedIff(v);
    }
    forall k, v, w
      ensures Wide(m, k, v) == Wide(m, k, w) <==> Digest(m, k, v)[..16] == Digest(m, k, w)[..16]
    {
      SameHex(m, k, v, w, 16);
    }
    if Buildable(m, values) {
      forall k, v, w | k in values && v in values[k] && w in values[k] && v != w
        ensures Digest(m, k, v)[..16] != Digest(m, k, w)[..16]
      {
        assert KindBuildable(m, k, values[k]);
      }
    }
  }

  lemma SameHex(m: Minter, kind: string, v: string, w: string, n: nat)
    requires n <= 64
    ensures Mint(m, kind, v, n) == Mint(m, kind, w, n) <==> Digest(m, kind, v)[..n] == Digest(m, kind, w)[..n]
  {
    var a, b := Mint(m, kind, v, n), Mint(m, kind, w, n);
    assert "\0" == ['\0'];
    assert a[|kind| + 1..] == Digest(m, kind, v)[..n] && b[|kind| + 1..] == Digest(m, kind, w)[..n];
  }

  // The entry of a name: the name itself if it is kept, nothing if it was not observed,
  // and otherwise its kind, an underscore and the first 8 digits of its digest, or 16 if
  // another observed name of the kind has the same 8.
  lemma EntryIs(m: Minter, values: Names, keep: Names, kind: string, v: string)
    ensures var names, digest := At(values, kind), Digest(m, kind, v);
            Find(Tokens(m, values, keep), kind, v)
            == if v in At(keep, kind) then Some(v)
               else if v !in names then None
               else if exists w :: w in names && w != v && Digest(m, kind, w)[..8] == digest[..8]
               then Some(kind + "_" + digest[..16])
               else Some(kind + "_" + digest[..8])
  {
    assert "\0" == ['\0'];
    forall w
      ensures Narrow(m, kind, w) == Narrow(m, kind, v) <==> Digest(m, kind, w)[..8] == Digest(m, kind, v)[..8]
    {
      SameHex(m, kind, w, v, 8);
    }
  }

  ghost predicate Share(m: Minter, kind: string, names: set<string>, v: string, w: string, token: string) {
    && v in names && w in names && v != w && Digest(m, kind, v)[..8] == Digest(m, kind, w)[..8]
    && token == kind + "_" + Digest(m, kind, v)[..8]
  }

  // What the count of collisions counts: the 8-digit tokens that two observed names of
  // one kind share.
  lemma CollidedIff(m: Minter, values: Names, token: string)
    ensures token in Collided(m, values, values.Keys) <==>
              exists kind, v, w :: kind in values && Share(m, kind, values[kind], v, w, token)
  {
    assert "\0" == ['\0'];
    forall kind, v, w
      ensures Narrow(m, kind, w) == Narrow(m, kind, v) <==> Digest(m, kind, w)[..8] == Digest(m, kind, v)[..8]
    {
      SameHex(m, kind, w, v, 8);
    }
    if token in Collided(m, values, values.Keys) {
      var kind :| kind in values && token in CrowdedTokens(m, kind, values[kind]);
      var v :| v in values[kind] && Crowded(m, kind, values[kind], v) && token == Narrow(m, kind, v);
      var w :| w in values[kind] && w != v && Narrow(m, kind, w) == Narrow(m, kind, v);
      assert Share(m, kind, values[kind], v, w, token);
    }
    if kind, v, w :| kind in values && Share(m, kind, values[kind], v, w, token) {
      assert Crowded(m, kind, values[kind], v) && token == Narrow(m, kind, v);
      assert token in CrowdedTokens(m, kind, values[kind]);
    }
  }

  ghost predicate KnownKinds(names: Names) {
    forall kind :: kind in names ==> kind in KINDS
  }

  ghost predicate KeptOutsideReserved(keep: Names) {
    forall kind, v :: kind in keep && v in keep[kind] ==> !Reserved(v)
  }

  // Two identifiers share a token only when they are the same name, and across
  // kinds only when both are kept: word-level de-tokenization is a function.
  lemma TokensInjective(m: Minter, values: Names, keep: Names, k1: string, v1: string, k2: string, v2: string)
    requires Buildable(m, values) && KnownKinds(values) && KeptOutsideReserved(keep)
    requires var fwd := Tokens(m, values, keep);
             && Find(fwd, k1, v1).Some? && Find(fwd, k1, v1) == Find(fwd, k2, v2)
    ensures v1 == v2
    ensures k1 == k2 || (v1 in At(keep, k1) && v2 in At(keep, k2))
  {
    if v1 in At(keep, k1) {
      if v2 !in At(keep, k2) {
        MintedShape(m, k2, At(values, k2), v2);
      }
    } else if v2 in At(keep, k2) {
      MintedShape(m, k1, At(values, k1), v1);
    } else {
      MintSplits(m, k1, v1, WidthOf(m, k1, At(values, k1), v1), k2, v2, WidthOf(m, k2, At(values, k2), v2));
      SameKindInjective(m, k1, values[k1], v1, v2);
    }
  }

  ghost function WidthOf(m: Minter, kind: string, names: set<string>, v: string): nat {
    if Crowded(m, kind, names, v) then HEX_LEN_WIDE else HEX_LEN
  }

  lemma MintedShape(m: Minter, kind: string, names: set<string>, v: string)
    requires kind in KINDS
    ensures Reserved(Minted(m, kind, names, v))
  {
    MintedIsReserved(m, kind, v, WidthOf(m, kind, names, v));
  }

  // Narrow tokens never meet wide ones, uncrowded narrow tokens are alone, and wide
  // tokens were checked pairwise only within a group but differ across groups too.
  lemma SameKindInjective(m: Minter, kind: string, names: set<string>, v: string, w: string)
    requires KindBuildable(m, kind, names) && v in names && w in names
    requires Minted(m, kind, names, v) == Minted(m, kind, names, w)
    ensures v == w
  {
    MintSplits(m, kind, v, WidthOf(m, kind, names, v), kind, w, WidthOf(m, kind, names, w));
    assert v != w ==> Crowded(m, kind, names, v) || Narrow(m, kind, v) != Narrow(m, kind, w);
  }

  ghost predicate InjectiveMap(f: map<string, string>) {
    forall v, w :: v in f && w in f && f[v] == f[w] ==> v == w
  }

  ghost predicate KeptNameIsAToken(m: Minter, kind: string, names: set<string>, kept: set<string>) {
    exists v :: v in names && v !in kept && Minted(m, kind, names, v) in kept
  }

  // Build does not test kept names. Exactly when none of them is the token of an
  // observed name is one kind's map injective.
  lemma KindInjectiveIff(m: Minter, kind: string, names: set<string>, kept: set<string>)
    requires KindBuildable(m, kind, names)
    ensures InjectiveMap(KindMap(m, kind, names, kept)) <==> !KeptNameIsAToken(m, kind, names, kept)
  {
    var f := KindMap(m, kind, names, kept);
    if KeptNameIsAToken(m, kind, names, kept) {
      var v :| v in names && v !in kept && Minted(m, kind, names, v) in kept;
      assert f[v] == f[Minted(m, kind, names, v)];
    } else {
      forall v, w | v in f && w in f && f[v] == f[w]
        ensures v == w
      {
        if v !in kept && w !in kept {
          SameKindInjective(m, kind, names, v, w);
        }
      }
    }
  }

  // Equal tokens, whatever their kinds, belong to equal names: every token is the token
  // of one name.
  ghost predicate DetokenizationIsFunction(fwd: Forward) {
    forall k1, v1, k2, v2 ::
      Find(fwd, k1, v1).Some? && Find(fwd, k1, v1) == Find(fwd, k2, v2) ==> v1 == v2
  }

  // The token of an observed name is, under some kind, a kept name: another name's own.
  ghost predicate TokenIsKeptName(m: Minter, values: Names, keep: Names) {
    exists k1, v, k2 ::
      && v in At(values, k1) && v !in At(keep, k1)
      && Minted(m, k1, At(values, k1), v) != v && Minted(m, k1, At(values, k1), v) in At(keep, k2)
  }

  // Build does not test kept names, of any kind. Exactly when none of them is the token
  // of another name does every token stand for one name.
  lemma DetokenizationIff(m: Minter, values: Names, keep: Names)
    requires Buildable(m, values)
    ensures DetokenizationIsFunction(Tokens(m, values, keep)) <==> !TokenIsKeptName(m, values, keep)
  {
    hide Reserved, Crowded, Narrow, Wide;
    var fwd := Tokens(m, values, keep);
    if TokenIsKeptName(m, values, keep) {
      var k1, v, k2 :| v in At(values, k1) && v !in At(keep, k1)
        && Minted(m, k1, At(values, k1), v) != v && Minted(m, k1, At(values, k1), v) in At(keep, k2);
      assert Find(fwd, k1, v) == Find(fwd, k2, Minted(m, k1, At(values, k1), v));
    } else {
      forall k1, v1, k2, v2 | Find(fwd, k1, v1).Some? && Find(fwd, k1, v1) == Find(fwd, k2, v2)
        ensures v1 == v2
      {
        OneNameAToken(m, values, keep, k1, v1, k2, v2);
      }
    }
  }

  lemma OneNameAToken(m: Minter, values: Names, keep: Names, k1: string, v1: string, k2: string, v2: string)
    requires Buildable(m, values) && !TokenIsKeptName(m, values, keep)
    requires var fwd := Tokens(m, values, keep);
             Find(fwd, k1, v1).Some? && Find(fwd, k1, v1) == Find(fwd, k2, v2)
    ensures v1 == v2
  {
    if v1 !in At(keep, k1) && v2 !in At(keep, k2) {
      MintSplits(m, k1, v1, WidthOf(m, k1, At(values, k1), v1), k2, v2, WidthOf(m, k2, At(values, k2), v2));
      SameKindInjective(m, k1, values[k1], v1, v2);
    }
  }

  // Observing more names can only widen the token of an old one, to the 16-hex token
  // that extends it.
  lemma GrowthOnlyWidens(m: Minter, kind: string, names: set<string>, more: set<string>, kept: set<string>, v: string)
    requires names <= more && v in names && v !in kept
    ensures var before, after := KindMap(m, kind, names, kept)[v], KindMap(m, kind, more, kept)[v];
            after == before || (before == Narrow(m, kind, v) && after == Wide(m, kind, v) && before < after)
  {
    NarrowPrefixesWide(m, kind, v);
    if Crowded(m, kind, names, v) {
      var w :| w in names && w != v && Narrow(m, kind, w) == Narrow(m, kind, v);
      assert w in more;
    }
  }

  // A failed Build cannot be repaired by observing more names.
  lemma GrowthKeepsFailure(m: Minter, values: Names, more: Names)
    requires forall kind :: kind in values ==> kind in more && values[kind] <= more[kind]
    requires Buildable(m, more)
    ensures Buildable(m, values)
  {
    forall kind | kind in values
      ensures KindBuildable(m, kind, values[kind])
    {
      assert KindBuildable(m, kind, more[kind]);
    }
  }
}
