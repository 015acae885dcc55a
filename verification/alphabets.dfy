// The character classes of the two languages, character by character.
module Alphabets {
  import opened Basics
  import opened Text
  import Interpolate
  import SqlLexer
  import ArrayCell

  const LOWER := "abcdefghijklmnopqrstuvwxyz"
  const UPPER := "ABCDEFGHIJKLMNOPQRSTUVWXYZ"
  const DIGITS := "0123456789"

  lemma DigitsAre(c: char)
    ensures IsDigit(c) <==> c in DIGITS
    ensures SqlLexer.IsHex(c) <==> c in DIGITS || c in "abcdefABCDEF"
  {
    assert "abcdefABCDEF"[0] == 'a';
  }

  lemma LettersAre(c: char)
    ensures 'a' <= c <= 'z' <==> c in LOWER
    ensures 'A' <= c <= 'Z' <==> c in UPPER
  {
  }

  // Both languages start words alike; SQL words may go on with a dollar sign too.
  lemma WordsAre(c: char)
    ensures IsWordStart(c) <==> c in LOWER || c in UPPER || c == '_'
    ensures Interpolate.IsWordPart(c) <==> c in LOWER || c in UPPER || c == '_' || c in DIGITS
    ensures SqlLexer.IsWordPart(c) <==> c in LOWER || c in UPPER || c == '_' || c in DIGITS || c == '$'
    ensures Interpolate.PlainChar(c) <==> c in LOWER || c in UPPER || c in DIGITS || c in "_ .+@-"
  {
    DigitsAre(c);
    LettersAre(c);
  }

  // White space: five characters to Go's regexps, twenty-five to JavaScript's.
  lemma SpacesAre(c: char)
    ensures SqlLexer.IsSpace(c) <==> c in {' ', '\t', '\n', '\r', '\U{0C}'}
    ensures Interpolate.IsSpace(c) <==>
              c in {' ', '\t', '\n', '\r', '\U{0B}', '\U{0C}', '\U{A0}', '\U{1680}', '\U{2000}', '\U{2001}', '\U{2002}',
                    '\U{2003}', '\U{2004}', '\U{2005}', '\U{2006}', '\U{2007}', '\U{2008}', '\U{2009}', '\U{200A}',
                    '\U{2028}', '\U{2029}', '\U{202F}', '\U{205F}', '\U{3000}', '\U{FEFF}'}
    ensures ArrayCell.IsGap(c) <==> c in {',', ' '}
  {
  }

  // Upper-casing maps the small letters to the large ones, in order, and nothing else.
  lemma UpperIs(c: char, k: nat)
    requires k < 26
    ensures ToUpperChar(LOWER[k]) == UPPER[k]
    ensures c !in LOWER ==> ToUpperChar(c) == c
  {
    LettersAre(c);
  }

  lemma UpperIsByCharacter(s: string, i: nat)
    requires i < |s|
    ensures |ToUpper(s)| == |s| && ToUpper(s)[i] == ToUpperChar(s[i])
  {
  }
}
