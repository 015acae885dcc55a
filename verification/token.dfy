// Identifier tokens: a kind, an underscore, and a truncation of one keyed digest.
module Token {

  const HEX_LEN := 8
  const HEX_LEN_WIDE := 16
  const KINDS: seq<string> :=
    ["db", "tbl", "col", "user", "role", "dict", "cluster", "disk", "host", "sql", "field", "enum"]

  predicate IsHexDigit(c: char) {
    '0' <= c <= '9' || 'a' <= c <= 'f'
  }

  predicate AllHex(s: string) {
    forall i | 0 <= i < |s| :: IsHexDigit(s[i])
  }

  // HMAC-SHA256 under a fixed key, hex-encoded. Nothing is known about it except the
  // shape of its results: 64 lower-case hex digits.
  datatype Hmac = Hmac(digest: string -> string) {
    ghost predicate Valid() {
      forall x :: |digest(x)| == 64 && AllHex(digest(x))
    }
  }

  type Minter = h: Hmac | h.Valid()
    ghost witness Hmac(_ => seq(64, _ => '0'))

  // Both lengths truncate the digest of the same message, so the short token is a
  // prefix of the long one.
  function Mint(m: Minter, kind: string, original: string, hexLen: nat): (token: string)
    requires hexLen <= 64
  {
    kind + "_" + m.digest(kind + ['\0'] + original)[..hexLen]
  }

  function Narrow(m: Minter, kind: string, original: string): string {
    Mint(m, kind, original, HEX_LEN)
  }

  function Wide(m: Minter, kind: string, original: string): string {
    Mint(m, kind, original, HEX_LEN_WIDE)
  }

  predicate IsTokenOfKind(kind: string, v: string) {
    && kind + "_" <= v
    && |kind| + 1 + HEX_LEN <= |v| <= |kind| + 1 + HEX_LEN_WIDE
    && AllHex(v[|kind| + 1..])
  }

  // The reserved namespace: any kind in use, an underscore, 8 to 16 hex digits.
  predicate Reserved(v: string) {
    exists i | 0 <= i < |KINDS| :: IsTokenOfKind(KINDS[i], v)
  }

  // A token determines its kind and its digest prefix, for every kind string: hex
  // digits contain no underscore, so the last underscore is the separator.
  lemma MintSplits(m: Minter, k1: string, v1: string, n1: nat, k2: string, v2: string, n2: nat)
    requires n1 <= 64 && n2 <= 64
    requires Mint(m, k1, v1, n1) == Mint(m, k2, v2, n2)
    ensures k1 == k2 && n1 == n2
  {
    var t := Mint(m, k1, v1, n1);
    assert t[|k1|] == '_' && t[|k2|] == '_';
    assert forall i | |k1| < i < |t| :: IsHexDigit(t[i]) by {
      assert t[|k1| + 1..] == m.digest(k1 + ['\0'] + v1)[..n1];
      assert forall i | |k1| < i < |t| :: t[i] == t[|k1| + 1..][i - |k1| - 1];
    }
    assert forall i | |k2| < i < |t| :: IsHexDigit(t[i]) by {
      assert t[|k2| + 1..] == m.digest(k2 + ['\0'] + v2)[..n2];
      assert forall i | |k2| < i < |t| :: t[i] == t[|k2| + 1..][i - |k2| - 1];
    }
    assert |k1| == |k2|;
    assert k1 == t[..|k1|] && k2 == t[..|k2|];
  }

  lemma NarrowPrefixesWide(m: Minter, kind: string, v: string)
    ensures Narrow(m, kind, v) < Wide(m, kind, v)
  {
  }

  // Equal wide tokens come from equal narrow ones: truncation of one digest.
  lemma WideDeterminesNarrow(m: Minter, kind: string, v: string, w: string)
    requires Wide(m, kind, v) == Wide(m, kind, w)
    ensures Narrow(m, kind, v) == Narrow(m, kind, w)
  {
    var t := Wide(m, kind, v);
    assert Narrow(m, kind, v) == t[..|kind| + 1 + HEX_LEN];
    assert Narrow(m, kind, w) == t[..|kind| + 1 + HEX_LEN];
  }

  lemma MintedIsReserved(m: Minter, kind: string, v: string, n: nat)
    requires kind in KINDS && HEX_LEN <= n <= HEX_LEN_WIDE
    ensures Reserved(Mint(m, kind, v, n))
  {
    var t := Mint(m, kind, v, n);
    assert t[|kind| + 1..] == m.digest(kind + ['\0'] + v)[..n];
    assert IsTokenOfKind(kind, t);
    var i :| 0 <= i < |KINDS| && KINDS[i] == kind;
    assert IsTokenOfKind(KINDS[i], t);
  }

  predicate IsKind(kind: string) {
    kind in ["db", "tbl", "col", "user", "role", "dict", "cluster", "disk", "host", "sql", "field", "enum"]
  }

  // v is one of the twelve kinds, an underscore, and 8 to 16 lower-case hex digits.
  ghost predicate TokenText(v: string, kind: string, hex: string) {
    && v == kind + "_" + hex && 8 <= |hex| <= 16 && IsKind(kind)
    && forall i :: 0 <= i < |hex| ==> hex[i] in "0123456789abcdef"
  }

  lemma KindsAre(kind: string)
    ensures IsKind(kind) <==> exists i :: 0 <= i < |KINDS| && KINDS[i] == kind
  {
    assert KINDS == ["db", "tbl", "col", "user", "role", "dict", "cluster", "disk", "host", "sql", "field", "enum"];
  }

  lemma TokenOfKindIff(kind: string, v: string)
    requires IsKind(kind)
    ensures IsTokenOfKind(kind, v) <==> exists hex :: TokenText(v, kind, hex)
  {
    hide IsKind;
    if IsTokenOfKind(kind, v) {
      var hex := v[|kind| + 1..];
      assert v == kind + "_" + hex;
      assert TokenText(v, kind, hex);
    }
    if hex :| TokenText(v, kind, hex) {
      assert v[|kind| + 1..] == hex;
    }
  }

  // Exactly such names are reserved: a column user_id is not.
  lemma ReservedIff(v: string)
    ensures Reserved(v) <==> exists kind, hex :: TokenText(v, kind, hex)
  {
    hide IsTokenOfKind, IsKind;
    forall kind
      ensures IsKind(kind) <==> exists i :: 0 <= i < |KINDS| && KINDS[i] == kind
      ensures IsKind(kind) ==> (IsTokenOfKind(kind, v) <==> exists hex :: TokenText(v, kind, hex))
    {
      KindsAre(kind);
      if IsKind(kind) {
        TokenOfKindIff(kind, v);
      }
    }
  }

  lemma UserIdIsFree()
    ensures !Reserved("user_id")
  {
    forall kind, hex
      ensures !TokenText("user_id", kind, hex)
    {
      assert |kind + "_" + hex| == |kind| + 1 + |hex|;
    }
    ReservedIff("user_id");
  }
}
