/**
 * A glyph of a sprite font: the character it draws, its sub-rectangle of the
 * font texture, its offsets and its advance. Glyphs are ordered by character
 * alone.
 */
module Glyphs {
  import opened Common

  /** A Win32 RECT. */
  datatype Rect = Rect(left: int, top: int, right: int, bottom: int)

  datatype Glyph = Glyph(character: nat, subRectangle: Rect, offsetX: real, offsetY: real, advanceX: real)

  /** right - left, stored in a 32-bit unsigned integer: a rectangle whose
      right lies left of its left wraps around to a huge width. */
  function GetWidth(g: Glyph): (w: nat)
    ensures w < U32_LIMIT
    ensures 0 <= g.subRectangle.right - g.subRectangle.left < U32_LIMIT ==>
              w == g.subRectangle.right - g.subRectangle.left
    ensures -U32_LIMIT <= g.subRectangle.right - g.subRectangle.left < 0 ==>
              w == g.subRectangle.right - g.subRectangle.left + U32_LIMIT
  {
    ToU32(g.subRectangle.right - g.subRectangle.left)
  }

  /** bottom - top, stored in a 32-bit unsigned integer. */
  function GetHeight(g: Glyph): (h: nat)
    ensures h < U32_LIMIT
    ensures 0 <= g.subRectangle.bottom - g.subRectangle.top < U32_LIMIT ==>
              h == g.subRectangle.bottom - g.subRectangle.top
    ensures -U32_LIMIT <= g.subRectangle.bottom - g.subRectangle.top < 0 ==>
              h == g.subRectangle.bottom - g.subRectangle.top + U32_LIMIT
  {
    ToU32(g.subRectangle.bottom - g.subRectangle.top)
  }

  /** Glyph < Glyph: by character only. */
  predicate Less(a: Glyph, b: Glyph): (r: bool)
    ensures r <==> a.character < b.character
    ensures r ==> a != b
  {
    a.character < b.character
  }

  /** Glyph < wchar_t: the character compared with the character code. */
  predicate LessThanCharacter(g: Glyph, c: char): (r: bool)
    ensures r <==> g.character < c as int
    ensures g.character >= 0x11_0000 ==> !r
  {
    g.character < c as int
  }

  /** wchar_t < Glyph, the third comparison of the font's comparator. */
  predicate CharacterLessThan(c: char, g: Glyph): (r: bool)
    ensures r <==> c as int < g.character
    ensures g.character >= 0x11_0000 ==> r
  {
    c as int < g.character
  }

  /** The glyph order is a strict weak order whose equivalence classes are
      the glyphs with the same character: everything else in a glyph is
      ignored. */
  lemma LessIsStrictWeakOrder(a: Glyph, b: Glyph, c: Glyph)
    ensures !Less(a, a)
    ensures Less(a, b) ==> !Less(b, a)
    ensures Less(a, b) && Less(b, c) ==> Less(a, c)
    ensures (!Less(a, b) && !Less(b, a)) <==> a.character == b.character
  {
  }

  /** Comparing with a character is comparing with any glyph of that
      character, on either side. */
  lemma CharacterComparisonsAgree(g: Glyph, h: Glyph, c: char)
    requires h.character == c as int
    ensures LessThanCharacter(g, c) <==> Less(g, h)
    ensures CharacterLessThan(c, g) <==> Less(h, g)
  {
  }

  /** A width is exact only while the rectangle is well formed: a rectangle
      one pixel inverted has the largest width a U32 holds. */
  lemma InvertedRectangleWidth(g: Glyph)
    requires g.subRectangle.right == g.subRectangle.left - 1
    ensures GetWidth(g) == U32_LIMIT - 1
  {
  }
}
