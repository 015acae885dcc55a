// The identifier map: every observed name of every kind gets one token.
module IdentifierMap {
  import opened Basics
  import opened Token

  type Names = map<string, set<string>>           // kind -> original names
  type Forward = map<string, map<string, string>> // kind -> original -> token

  datatype BuildResult =
    | Built
    | ReservedName(kind: string, name: string)
    | WideCollision(kind: string)

  function At(names: Names, kind: string): set<string> {
    if kind in names then names[kind] else {}
  }

  function Add(names: Names, kind: string, value: string): Names {
    names[kind := At(names, kind) + {value}]
  }

  function Find(fwd: Forward, kind: string, value: string): Option<string> {
    if kind in fwd && value in fwd[kind] then Some(fwd[kind][value]) else None
  }

  // --- What Build computes, free of any iteration order ---

  // v shares its 8-hex token with another observed name of its kind.
  ghost predicate Crowded(m: Minter, kind: string, names: set<string>, v: string) {
    exists w :: w in names && w != v && Narrow(m, kind, w) == Narrow(m, kind, v)
  }

  ghost function Minted(m: Minter, kind: string, names: set<string>, v: string): string {
    if Crowded(m, kind, names, v) then Wide(m, kind, v) else Narrow(m, kind, v)
  }

  ghost function KindMap(m: Minter, kind: string, names: set<string>, kept: set<string>): map<string, string> {
    map v | v in names + kept :: if v in kept then v else Minted(m, kind, names, v)
  }

  ghost function Tokens(m: Minter, values: Names, keep: Names): Forward {
    map kind | kind in values.Keys + keep.Keys :: KindMap(m, kind, At(values, kind), At(keep, kind))
  }

  ghost predicate KindBuildable(m: Minter, kind: string, names: set<string>) {
    && (forall v :: v in names ==> !Reserved(v))
    && WideDistinct(m, kind, names)
  }

  ghost predicate WideDistinct(m: Minter, kind: string, names: set<string>) {
    forall v, w :: v in names && w in names && v != w ==> Wide(m, kind, v) != Wide(m, kind, w)
  }

  ghost predicate Buildable(m: Minter, values: Names) {
    forall kind :: kind in values ==> KindBuildable(m, kind, values[kind])
  }

  ghost function CrowdedTokens(m: Minter, kind: string, names: set<string>): set<string> {
    set v | v in names && Crowded(m, kind, names, v) :: Narrow(m, kind, v)
  }

  // One narrow token per widened group, over the given kinds.
  ghost function Collided(m: Minter, values: Names, kinds: set<string>): set<string> {
    set kind, t | kind in kinds && kind in values && t in CrowdedTokens(m, kind, values[kind]) :: t
  }

  // --- The map itself ---

  class IdMap {
    const minter: Minter
    var values: Names
    var keep: Names
    var fwd: Forward
    var collisions: nat

    constructor (m: Minter)
      ensures minter == m && values == map[] && keep == map[] && fwd == map[] && collisions == 0
    {
      minter := m;
      values, keep, fwd, collisions := map[], map[], map[], 0;
    }

    method KeepVerbatim(kind: string, value: string)
      modifies this`keep
      ensures keep == if value == "" then old(keep) else Add(old(keep), kind, value)
    {
      if value == "" {
        return;
      }
      keep := Add(keep, kind, value);
    }

    method Observe(kind: string, value: string)
      modifies this`values
      ensures values == Observed(old(values), keep, kind, value)
    {
      if value == "" || value in At(keep, kind) {
        return;
      }
      values := Add(values, kind, value);
    }

    // Succeeds exactly when no observed name is reserved and no kind has a 16-hex
    // collision; the resulting map is the order-free one.
    method Build() returns (r: BuildResult)
      modifies this`fwd, this`collisions
      ensures r.Built? <==> Buildable(minter, values)
      ensures r.Built? ==> fwd == Tokens(minter, values, keep)
      ensures r.Built? ==> collisions == old(collisions) + |Collided(minter, values, values.Keys)|
      ensures r.ReservedName? ==> r.kind in values && r.name in values[r.kind] && Reserved(r.name)
      ensures r.WideCollision? ==> r.kind in values && !WideDistinct(minter, r.kind, values[r.kind])
    {
      hide KindBuildable, KindMap, CrowdedTokens;
      fwd := map[];
      var todo := values.Keys;
      assert Collided(minter, values, {}) == {};
      while todo != {}
        invariant todo <= values.Keys
        invariant fwd.Keys == values.Keys - todo
        invariant forall k :: k in fwd ==> fwd[k] == KindMap(minter, k, At(values, k), At(keep, k))
        invariant forall k :: k in fwd ==> KindBuildable(minter, k, values[k])
        invariant collisions == old(collisions) + |Collided(minter, values, values.Keys - todo)|
      {
        var kind :| kind in todo;
        var m: map<string, string>;
        var widened: nat;
        r, m, widened := BuildKind(kind, values[kind], At(keep, kind));
        if !r.Built? {
          return;
        }
        CollidedGrows(minter, values, values.Keys - todo, kind);
        collisions := collisions + widened;
        fwd := fwd[kind := m];
        assert values.Keys - (todo - {kind}) == values.Keys - todo + {kind};
        todo := todo - {kind};
      }
      assert values.Keys - todo == values.Keys;
      FillKeptOnly();
      r := Built;
    }

    // Kinds that only have kept names.
    method FillKeptOnly()
      requires fwd.Keys == values.Keys
      requires forall k :: k in fwd ==> fwd[k] == KindMap(minter, k, At(values, k), At(keep, k))
      modifies this`fwd
      ensures fwd == Tokens(minter, values, keep)
    {
      hide KindMap;
      var todo := keep.Keys;
      while todo != {}
        invariant todo <= keep.Keys
        invariant fwd.Keys == values.Keys + (keep.Keys - todo)
        invariant forall k :: k in fwd ==> fwd[k] == KindMap(minter, k, At(values, k), At(keep, k))
      {
        var kind :| kind in todo;
        if kind !in fwd {
          var m := OverlayKept(map[], keep[kind]);
          KeptOnlyMap(minter, kind, keep[kind]);
          assert m == map v | v in keep[kind] :: v;
          fwd := fwd[kind := m];
        }
        todo := todo - {kind};
      }
    }

    method BuildKind(kind: string, names: set<string>, kept: set<string>)
      returns (r: BuildResult, m: map<string, string>, widened: nat)
      ensures r.Built? <==> KindBuildable(minter, kind, names)
      ensures r.ReservedName? ==> r.kind == kind && r.name in names && Reserved(r.name)
      ensures r.WideCollision? ==> r.kind == kind && !WideDistinct(minter, kind, names)
      ensures r.Built? ==> m == KindMap(minter, kind, names, kept)
      ensures r.Built? ==> widened == |CrowdedTokens(minter, kind, names)|
    {
      m, widened := map[], 0;
      var byToken;
      r, byToken := GroupByToken(kind, names);
      if !r.Built? {
        return;
      }
      r, m, widened := MintGroups(kind, names, byToken);
      if !r.Built? {
        return;
      }
      m := OverlayKept(m, kept);
    }

    method GroupByToken(kind: string, names: set<string>) returns (r: BuildResult, byToken: map<string, seq<string>>)
      ensures r.Built? || (r.ReservedName? && r.kind == kind && r.name in names && Reserved(r.name))
      ensures r.Built? ==> forall v :: v in names ==> !Reserved(v)
      ensures r.Built? ==> Grouped(minter, kind, names, byToken)
    {
      byToken := map[];
      var todo := names;
      while todo != {}
        invariant todo <= names
        invariant forall v :: v in names - todo ==> !Reserved(v)
        invariant Grouped(minter, kind, names - todo, byToken)
      {
        var v :| v in todo;
        if Reserved(v) {
          return ReservedName(kind, v), byToken;
        }
        var token := Narrow(minter, kind, v);
        ghost var before, done := byToken, names - todo;
        byToken := byToken[token := (if token in byToken then byToken[token] else []) + [v]];
        GroupedGrows(minter, kind, done, before, v);
        assert names - (todo - {v}) == done + {v};
        todo := todo - {v};
      }
      assert names - todo == names;
      r := Built;
    }

    method MintGroups(kind: string, ghost names: set<string>, byToken: map<string, seq<string>>)
      returns (r: BuildResult, m: map<string, string>, widened: nat)
      requires Grouped(minter, kind, names, byToken)
      ensures r.Built? || r == WideCollision(kind)
      ensures r.Built? <==> WideDistinct(minter, kind, names)
      ensures r.Built? ==> m == map v | v in names :: Minted(minter, kind, names, v)
      ensures r.Built? ==> widened == |CrowdedTokens(minter, kind, names)|
    {
      hide Grouped, DistinctWide, WideDistinct, Minted, CrowdedTokens, Narrow;
      m, widened := map[], 0;
      var todo := byToken.Keys;
      EveryNameGrouped(minter, kind, names, byToken);
      ghost var wideOnes: set<string> := {};
      while todo != {}
        invariant todo <= byToken.Keys
        invariant forall v :: v in m <==> v in names && Narrow(minter, kind, v) !in todo
        invariant forall v :: v in m ==> m[v] == Minted(minter, kind, names, v)
        invariant forall t :: t in byToken && t !in todo ==> DistinctWide(minter, kind, byToken[t])
        invariant wideOnes == (set t | t in byToken && t !in todo && |byToken[t]| > 1)
        invariant widened == |wideOnes|
      {
        var token :| token in todo;
        var ok, group := MintGroup(kind, names, byToken, token);
        GroupMembers(minter, kind, names, byToken, token);
        if !ok {
          GroupCollides(minter, kind, names, byToken, token);
          return WideCollision(kind), m, widened;
        }
        if |byToken[token]| > 1 {
          widened := widened + 1;
          wideOnes := wideOnes + {token};
        }
        m := m + group;
        todo := todo - {token};
      }
      assert wideOnes == set t | t in byToken && |byToken[t]| > 1;
      AllGroupsDistinct(minter, kind, names, byToken);
      CrowdedGroups(minter, kind, names, byToken);
      r := Built;
    }

    // A singleton keeps its 8-hex token; a colliding group is re-minted at 16.
    method MintGroup(kind: string, ghost names: set<string>, byToken: map<string, seq<string>>, token: string)
      returns (ok: bool, m: map<string, string>)
      requires Grouped(minter, kind, names, byToken) && token in byToken
      ensures ok <==> DistinctWide(minter, kind, byToken[token])
      ensures ok ==> m == map v | v in byToken[token] :: Minted(minter, kind, names, v)
    {
      hide Grouped, Crowded, Narrow;
      var vs := byToken[token];
      GroupMembers(minter, kind, names, byToken, token);
      if |vs| == 1 {
        ok, m := true, map[vs[0] := token];
      } else {
        ok, m := MintWide(kind, vs);
      }
    }

    method MintWide(kind: string, vs: seq<string>) returns (ok: bool, m: map<string, string>)
      ensures ok <==> DistinctWide(minter, kind, vs)
      ensures ok ==> m == map v | v in vs :: Wide(minter, kind, v)
    {
      m := map[];
      var wide: set<string> := {};
      for i := 0 to |vs|
        invariant wide == set j | 0 <= j < i :: Wide(minter, kind, vs[j])
        invariant DistinctWide(minter, kind, vs[..i])
        invariant m == map v | v in vs[..i] :: Wide(minter, kind, v)
      {
        var wt := Wide(minter, kind, vs[i]);
        if wt in wide {
          return false, m;
        }
        wide := wide + {wt};
        m := m[vs[i] := wt];
        assert vs[..i + 1] == vs[..i] + [vs[i]];
      }
      assert vs[..|vs|] == vs;
      ok := true;
    }

    method OverlayKept(m0: map<string, string>, kept: set<string>) returns (m: map<string, string>)
      ensures m == m0 + map v | v in kept :: v
    {
      m := m0;
      var todo := kept;
      while todo != {}
        invariant todo <= kept
        invariant m == m0 + map v | v in kept - todo :: v
      {
        var v :| v in todo;
        m := m[v := v];
        todo := todo - {v};
      }
    }

    function Lookup(kind: string, value: string): Option<string>
      reads this
    {
      Find(fwd, kind, value)
    }

    // Names already structured, so that the SQL wave does not mint them again.
    method Known(probe: seq<string>) returns (known: set<string>)
      ensures known == KnownNames(values, keep, probe)
    {
      known := {};
      for i := 0 to |probe|
        invariant known == set j, v | 0 <= j < i && v in At(values, probe[j]) :: v
      {
        known := known + At(values, probe[i]);
      }
      ghost var structured := known;
      var todo := keep.Keys;
      while todo != {}
        invariant todo <= keep.Keys
        invariant known == structured + set k, v | k in keep.Keys - todo && v in keep[k] :: v
      {
        var kind :| kind in todo;
        known := known + keep[kind];
        todo := todo - {kind};
      }
    }
  }

  function Observed(values: Names, keep: Names, kind: string, value: string): Names {
    if value == "" || value in At(keep, kind) then values else Add(values, kind, value)
  }

  ghost function KnownNames(values: Names, keep: Names, probe: seq<string>): set<string> {
    (set j, v | 0 <= j < |probe| && v in At(values, probe[j]) :: v)
    + (set k, v | k in keep && v in keep[k] :: v)
  }

  // --- Grouping by narrow token ---

  ghost predicate Grouped(m: Minter, kind: string, names: set<string>, byToken: map<string, seq<string>>) {
    && (forall v :: v in names ==> Narrow(m, kind, v) in byToken && v in byToken[Narrow(m, kind, v)])
    && (forall t :: t in byToken ==> byToken[t] != [])
    && (forall t, i :: t in byToken && 0 <= i < |byToken[t]| ==> byToken[t][i] in names && Narrow(m, kind, byToken[t][i]) == t)
    && (forall t, i, j :: t in byToken && 0 <= i < j < |byToken[t]| ==> byToken[t][i] != byToken[t][j])
  }

  ghost predicate DistinctWide(m: Minter, kind: string, vs: seq<string>) {
    forall i, j :: 0 <= i < j < |vs| ==> Wide(m, kind, vs[i]) != Wide(m, kind, vs[j])
  }

  lemma GroupedGrows(m: Minter, kind: string, names: set<string>, byToken: map<string, seq<string>>, v: string)
    requires Grouped(m, kind, names, byToken) && v !in names
    ensures var t := Narrow(m, kind, v);
            Grouped(m, kind, names + {v}, byToken[t := (if t in byToken then byToken[t] else []) + [v]])
  {
  }

  lemma EveryNameGrouped(m: Minter, kind: string, names: set<string>, byToken: map<string, seq<string>>)
    requires Grouped(m, kind, names, byToken)
    ensures forall v :: v in names ==> Narrow(m, kind, v) in byToken
  {
  }

  // A group holds exactly the names with its token, and is crowded when it is not a singleton.
  lemma GroupMembers(m: Minter, kind: string, names: set<string>, byToken: map<string, seq<string>>, t: string)
    requires Grouped(m, kind, names, byToken) && t in byToken
    ensures |byToken[t]| > 0
    ensures forall v :: v in byToken[t] <==> v in names && Narrow(m, kind, v) == t
    ensures forall v :: v in byToken[t] ==> (Crowded(m, kind, names, v) <==> |byToken[t]| > 1)
  {
    forall v | v in byToken[t]
      ensures Crowded(m, kind, names, v) <==> |byToken[t]| > 1
    {
      if |byToken[t]| > 1 {
        var i :| 0 <= i < |byToken[t]| && byToken[t][i] == v;
        var w := byToken[t][if i == 0 then 1 else 0];
        assert w in names && w != v && Narrow(m, kind, w) == t;
      }
    }
  }

  lemma GroupCollides(m: Minter, kind: string, names: set<string>, byToken: map<string, seq<string>>, t: string)
    requires Grouped(m, kind, names, byToken) && t in byToken
    requires !DistinctWide(m, kind, byToken[t])
    ensures !WideDistinct(m, kind, names)
  {
    var i, j :| 0 <= i < j < |byToken[t]| && Wide(m, kind, byToken[t][i]) == Wide(m, kind, byToken[t][j]);
    assert byToken[t][i] in names && byToken[t][j] in names && byToken[t][i] != byToken[t][j];
  }

  lemma AllGroupsDistinct(m: Minter, kind: string, names: set<string>, byToken: map<string, seq<string>>)
    requires Grouped(m, kind, names, byToken)
    requires forall t :: t in byToken ==> DistinctWide(m, kind, byToken[t])
    ensures WideDistinct(m, kind, names)
  {
    forall v, w | v in names && w in names && v != w
      ensures Wide(m, kind, v) != Wide(m, kind, w)
    {
      if Narrow(m, kind, v) == Narrow(m, kind, w) {
        var group := byToken[Narrow(m, kind, v)];
        var i :| 0 <= i < |group| && group[i] == v;
        var j :| 0 <= j < |group| && group[j] == w;
        assert Wide(m, kind, group[i]) != Wide(m, kind, group[j]);
      } else if Wide(m, kind, v) == Wide(m, kind, w) {
        WideDeterminesNarrow(m, kind, v, w);
      }
    }
  }

  lemma CrowdedGroups(m: Minter, kind: string, names: set<string>, byToken: map<string, seq<string>>)
    requires Grouped(m, kind, names, byToken)
    ensures CrowdedTokens(m, kind, names) == set t | t in byToken && |byToken[t]| > 1
  {
    forall t | t in byToken && |byToken[t]| > 1
      ensures t in CrowdedTokens(m, kind, names)
    {
      GroupMembers(m, kind, names, byToken, t);
      assert byToken[t][0] in names && Crowded(m, kind, names, byToken[t][0]);
    }
    forall t | t in CrowdedTokens(m, kind, names)
      ensures t in byToken && |byToken[t]| > 1
    {
      GroupMembers(m, kind, names, byToken, t);
    }
  }

  lemma KeptOnlyMap(m: Minter, kind: string, kept: set<string>)
    ensures KindMap(m, kind, {}, kept) == map v | v in kept :: v
  {
  }

  // Groups of different kinds never share a token, so their counts add up.
  lemma CollidedGrows(m: Minter, values: Names, kinds: set<string>, kind: string)
    requires kind in values && kind !in kinds
    ensures |Collided(m, values, kinds + {kind})|
         == |Collided(m, values, kinds)| + |CrowdedTokens(m, kind, values[kind])|
  {
    var before, here := Collided(m, values, kinds), CrowdedTokens(m, kind, values[kind]);
    assert Collided(m, values, kinds + {kind}) == before + here;
    forall t | t in before && t in here
      ensures false
    {
      var k :| k in kinds && k in values && t in CrowdedTokens(m, k, values[k]);
      var v :| v in values[k] && t == Narrow(m, k, v);
      var w :| w in values[kind] && t == Narrow(m, kind, w);
      MintSplits(m, k, v, HEX_LEN, kind, w, HEX_LEN);
    }
    assert before !! here;
  }
}
