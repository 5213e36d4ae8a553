/**
 * The glyph alphabets of the renderer (src/output.c, lines 45-62): a table of
 * characters, the number of quantisation levels per sub-column and the number
 * of sub-columns packed into one character.
 */
module Glyphs {

  /** OUTPUT_CHARSET_BARS, OUTPUT_CHARSET_BRAILLE, OUTPUT_CHARSET_BRAILLE_WIDE. */
  datatype Charset = Bars | Braille | BrailleWide

  datatype Alphabet = Alphabet(glyphs: seq<char>, levels: nat, pointsPerChar: nat)

  /** bars_str: a blank and the eight block elements U+2581..U+2588. */
  const BarsStr: seq<char> :=
    [' ', '\U{2581}', '\U{2582}', '\U{2583}', '\U{2584}', '\U{2585}', '\U{2586}', '\U{2587}', '\U{2588}']
  const BarsLevels: nat := 9
  const BarsPointsPerChar: nat := 1

  /** braille_str: 5 x 5 braille cells, row = left sub-column level, column = right one. */
  const BrailleStr: seq<char> :=
    [' ', '\U{2880}', '\U{28A0}', '\U{28B0}', '\U{28B8}',
     '\U{2840}', '\U{28C0}', '\U{28E0}', '\U{28F0}', '\U{28F8}',
     '\U{2844}', '\U{28C4}', '\U{28E4}', '\U{28F4}', '\U{28FC}',
     '\U{2846}', '\U{28C6}', '\U{28E6}', '\U{28F6}', '\U{28FE}',
     '\U{2847}', '\U{28C7}', '\U{28E7}', '\U{28F7}', '\U{28FF}']
  const BrailleLevels: nat := 5
  const BraillePointsPerChar: nat := 2

  /** silence_str, the default text of the silence line. */
  const DefaultSilenceStr: seq<char> := [' ', 'N', 'o', ' ', 'd', 'a', 't', 'a', ' ']

  /** x^e on naturals. */
  function Pow(x: nat, e: nat): (r: nat)
    ensures x > 0 ==> r > 0
  {
    if e == 0 then 1 else x * Pow(x, e - 1)
  }

  /**
   * The alphabet that output_set_charset selects: braille and wide braille share
   * the braille table and its 5 levels, and wide braille uses one sub-column per
   * character instead of two.
   */
  function AlphabetOf(c: Charset): (a: Alphabet)
    ensures a.levels >= 2 && a.pointsPerChar >= 1
    ensures Pow(a.levels, a.pointsPerChar) <= |a.glyphs|
    ensures c == Bars ==> a.levels == 9 && a.pointsPerChar == 1 && |a.glyphs| == 9
    ensures c == Braille ==> a.levels == 5 && a.pointsPerChar == 2 && |a.glyphs| == 25
    ensures c == BrailleWide ==> a.levels == 5 && a.pointsPerChar == 1 && |a.glyphs| == 25
  {
    match c
    case Bars => Alphabet(BarsStr, BarsLevels, BarsPointsPerChar)
    case Braille => Alphabet(BrailleStr, BrailleLevels, BraillePointsPerChar)
    case BrailleWide => Alphabet(BrailleStr, BrailleLevels, 1)
  }

  /** Every level is a valid digit of the alphabet. */
  ghost predicate LevelsBelow(ls: seq<nat>, levels: nat)
  {
    forall k :: 0 <= k < |ls| ==> ls[k] < levels
  }

  /**
   * The glyph index of a group of sub-column levels: each level is a digit in
   * base `levels`, the first sub-column being the most significant
   * (`index = index * levels + level`, src/output.c:376-377).
   */
  function PackIndex(ls: seq<nat>, levels: nat): (r: nat)
    requires LevelsBelow(ls, levels)
    ensures r < Pow(levels, |ls|)
  {
    if ls == [] then 0
    else
      var front := PackIndex(ls[..|ls| - 1], levels);
      PackStep(front, ls[|ls| - 1], levels, |ls| - 1);
      front * levels + ls[|ls| - 1]
  }

  /** One Horner step keeps the index below levels^(n+1). */
  lemma PackStep(front: nat, digit: nat, levels: nat, n: nat)
    requires front < Pow(levels, n) && digit < levels
    ensures front * levels + digit < Pow(levels, n + 1)
  {
    assert front * levels <= (Pow(levels, n) - 1) * levels;
  }

  /** The glyph of a group of levels: the lookup of src/output.c:379 is always in bounds. */
  function GlyphOf(a: Alphabet, ls: seq<nat>): (g: char)
    requires LevelsBelow(ls, a.levels) && |ls| == a.pointsPerChar
    requires Pow(a.levels, a.pointsPerChar) <= |a.glyphs|
    ensures g in a.glyphs
  {
    a.glyphs[PackIndex(ls, a.levels)]
  }
}
