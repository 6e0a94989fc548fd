/**
 * A sprite font: glyphs sorted by character, an optional default glyph and
 * an extra line spacing. Glyph lookup is a binary search with a fallback to
 * the default glyph; measuring, bounding and drawing text walk the
 * characters with a pen that moves right glyph by glyph and down line by
 * line.
 */
module SpriteFonts {
  import opened Common
  import opened Glyphs
  import opened Sprites

  /** A string with the colour it is drawn in. */
  datatype ColorString = ColorString(text: string, color: Vec4)

  /** One character of the text with the colour of its string. */
  datatype Letter = Letter(c: char, color: Vec4)

  /** What the font loader produces (the texture is left out). */
  datatype SpriteFontOutput = SpriteFontOutput(glyphs: seq<Glyph>, defaultCharacter: char, lineSpacing: real)

  /** The state the queries read: glyphs, default glyph, line spacing. */
  datatype FontData = FontData(glyphs: seq<Glyph>, defaultGlyph: Option<Glyph>, lineSpacing: real)

  const NOT_SORTED := "Sprite font glyphs are not sorted."
  const NOT_FOUND := "Character not found in sprite font."

  /** LONG is 32 bits wide on the engine's platform. */
  const LONG_MAX: int := 0x7FFF_FFFF

  //---------------------------------------------------------------------------
  // Glyph lookup
  //---------------------------------------------------------------------------

  /** std::is_sorted with the glyph order: no glyph is less than the one
      before it. */
  predicate Sorted(glyphs: seq<Glyph>)
  {
    forall i :: 0 < i < |glyphs| ==> !Less(glyphs[i], glyphs[i - 1])
  }

  /** Sorted glyphs have non-decreasing characters. */
  lemma {:induction false} SortedMonotone(glyphs: seq<Glyph>, i: nat, j: nat)
    requires Sorted(glyphs) && i <= j < |glyphs|
    ensures glyphs[i].character <= glyphs[j].character
    decreases j - i
  {
    if i < j {
      SortedMonotone(glyphs, i, j - 1);
      assert !Less(glyphs[j], glyphs[j - 1]);
    }
  }

  /** std::lower_bound: the first position whose glyph is not less than c,
      found by halving [lo, hi). */
  function LowerBound(glyphs: seq<Glyph>, c: char, lo: nat, hi: nat): (k: nat)
    requires Sorted(glyphs) && lo <= hi <= |glyphs|
    requires forall i :: 0 <= i < lo ==> LessThanCharacter(glyphs[i], c)
    requires forall i :: hi <= i < |glyphs| ==> !LessThanCharacter(glyphs[i], c)
    ensures lo <= k <= hi
    ensures forall i :: 0 <= i < k ==> LessThanCharacter(glyphs[i], c)
    ensures forall i :: k <= i < |glyphs| ==> !LessThanCharacter(glyphs[i], c)
    decreases hi - lo
  {
    if lo == hi then lo
    else
      var mid := lo + (hi - lo) / 2;
      if LessThanCharacter(glyphs[mid], c) then
        assert forall i :: 0 <= i <= mid ==> LessThanCharacter(glyphs[i], c) by {
          forall i | lo <= i <= mid
            ensures LessThanCharacter(glyphs[i], c)
          {
            SortedMonotone(glyphs, i, mid);
          }
        }
        LowerBound(glyphs, c, mid + 1, hi)
      else
        assert forall i :: mid <= i < |glyphs| ==> !LessThanCharacter(glyphs[i], c) by {
          forall i | mid <= i < hi
            ensures !LessThanCharacter(glyphs[i], c)
          {
            SortedMonotone(glyphs, mid, i);
          }
        }
        LowerBound(glyphs, c, lo, mid)
  }

  /** The character is in the font exactly when the glyph at the lower bound
      has it. */
  lemma FoundAtLowerBound(glyphs: seq<Glyph>, c: char, k: nat)
    requires Sorted(glyphs) && k <= |glyphs|
    requires forall i :: 0 <= i < k ==> LessThanCharacter(glyphs[i], c)
    requires forall i :: k <= i < |glyphs| ==> !LessThanCharacter(glyphs[i], c)
    ensures (exists i :: 0 <= i < |glyphs| && glyphs[i].character == c as int) <==>
            k < |glyphs| && glyphs[k].character == c as int
  {
    if i :| 0 <= i < |glyphs| && glyphs[i].character == c as int {
      assert k <= i;
      SortedMonotone(glyphs, k, i);
    }
  }

  /** SpriteFont::GetGlyph: the first glyph of character c when there is
      one, otherwise the default glyph, otherwise an error. */
  function FindGlyph(glyphs: seq<Glyph>, defaultGlyph: Option<Glyph>, c: char): (r: Result<Glyph>)
    requires Sorted(glyphs)
    ensures (exists i :: 0 <= i < |glyphs| && glyphs[i].character == c as int) ==>
              r.Ok? && r.value.character == c as int &&
              exists k :: 0 <= k < |glyphs| && glyphs[k] == r.value &&
                          forall i :: 0 <= i < k ==> glyphs[i].character != c as int
    ensures (forall i :: 0 <= i < |glyphs| ==> glyphs[i].character != c as int) ==>
              r == (if defaultGlyph.Some? then Ok(defaultGlyph.value) else Err(NOT_FOUND))
  {
    var k := LowerBound(glyphs, c, 0, |glyphs|);
    FoundAtLowerBound(glyphs, c, k);
    if k < |glyphs| && glyphs[k].character == c as int then
      Ok(glyphs[k])
    else if defaultGlyph.Some? then
      Ok(defaultGlyph.value)
    else
      Err(NOT_FOUND)
  }

  /** SpriteFont::ContainsCharacter, std::binary_search: the lower bound
      exists and c is not less than its glyph. */
  function HasCharacter(glyphs: seq<Glyph>, c: char): (b: bool)
    requires Sorted(glyphs)
    ensures b <==> exists i :: 0 <= i < |glyphs| && glyphs[i].character == c as int
  {
    var k := LowerBound(glyphs, c, 0, |glyphs|);
    FoundAtLowerBound(glyphs, c, k);
    k < |glyphs| && !CharacterLessThan(c, glyphs[k])
  }

  /** A font that contains a character finds it without falling back. */
  lemma ContainedCharactersAreFound(glyphs: seq<Glyph>, defaultGlyph: Option<Glyph>, c: char)
    requires Sorted(glyphs)
    ensures HasCharacter(glyphs, c) ==> FindGlyph(glyphs, defaultGlyph, c).Ok? &&
                                        FindGlyph(glyphs, defaultGlyph, c).value.character == c as int
    ensures !HasCharacter(glyphs, c) ==> (FindGlyph(glyphs, defaultGlyph, c).Ok? <==> defaultGlyph.Some?)
  {
  }

  //---------------------------------------------------------------------------
  // Text layout
  //---------------------------------------------------------------------------

  /** iswspace in the C locale. */
  predicate IsSpace(c: char)
  {
    c == ' ' || '\t' <= c <= '\r'
  }

  /** A character shows (is measured, bounded and drawn) unless it is white
      space with a glyph at most one pixel wide and high. */
  predicate Shows(c: char, g: Glyph)
  {
    !IsSpace(c) || GetWidth(g) as real > 1.0 || GetHeight(g) as real > 1.0
  }

  /** static_cast<LONG> of a float: truncation toward zero. */
  function Truncate(r: real): int
  {
    if r >= 0.0 then r.Floor else -((-r).Floor)
  }

  function MinInt(a: int, b: int): int { if b < a then b else a }
  function MaxInt(a: int, b: int): int { if a < b then b else a }

  /** Per draw: the top-left corner of MeasureDrawBounds, and for DrawText
      the base offset, effects, colour override and sprite transform. */
  datatype Context = Context(topLeft: Vec2, baseOffset: Vec2, effects: SpriteEffect, color: Option<Vec4>,
                             transform: SpriteTransform)

  const PLAIN: Context := Context(Vec2(0.0, 0.0), Vec2(0.0, 0.0), NoEffect, None, SpriteTransform(Vec2(0.0, 0.0), Vec2(0.0, 0.0)))

  /** The pen, what MeasureText, MeasureDrawBounds and DrawText have
      gathered so far, and the error of a failed glyph lookup (after which
      nothing changes). */
  datatype Layout = Layout(pen: Vec2, extent: Vec2, bounds: Rect, draws: seq<DrawCall>, failure: Option<string>)

  const START: Layout := Layout(Vec2(0.0, 0.0), Vec2(0.0, 0.0), Rect(LONG_MAX, LONG_MAX, 0, 0), [], None)

  /** Which way each axis runs for each effect. */
  function AxisDirection(e: SpriteEffect): Vec2
  {
    match e
    case NoEffect => Vec2(-1.0, -1.0)
    case MirrorX => Vec2(1.0, -1.0)
    case MirrorY => Vec2(-1.0, 1.0)
    case MirrorXY => Vec2(1.0, 1.0)
  }

  /** Which axes each effect mirrors. */
  function AxisIsMirrored(e: SpriteEffect): Vec2
  {
    match e
    case NoEffect => Vec2(0.0, 0.0)
    case MirrorX => Vec2(1.0, 0.0)
    case MirrorY => Vec2(0.0, 1.0)
    case MirrorXY => Vec2(1.0, 1.0)
  }

  /** The draw of glyph g placed at pen position (x, y). */
  function GlyphDraw(ctx: Context, l: Letter, g: Glyph, x: real, y: real): DrawCall
  {
    var dir := AxisDirection(ctx.effects);
    var offset := Vec2(x * dir.x + ctx.baseOffset.x, (y + g.offsetY) * dir.y + ctx.baseOffset.y);
    var r := g.subRectangle;
    var m := AxisIsMirrored(ctx.effects);
    var mirrored := if ctx.effects == NoEffect then offset
                    else Vec2(((r.right - r.left) as real) * m.x + offset.x, ((r.bottom - r.top) as real) * m.y + offset.y);
    var color := if ctx.color.Some? then ctx.color.value else l.color;
    DrawCall(color, ctx.effects, ctx.transform.(rotationOrigin := mirrored), r)
  }

  /** One character of the text. */
  function Step(f: FontData, ctx: Context, s: Layout, l: Letter): Layout
    requires Sorted(f.glyphs)
  {
    if s.failure.Some? || l.c == '\r' then s
    else if l.c == '\n' then s.(pen := Vec2(0.0, s.pen.y + f.lineSpacing))
    else
      match FindGlyph(f.glyphs, f.defaultGlyph, l.c)
      case Err(m) => s.(failure := Some(m))
      case Ok(g) =>
        var x := Max(0.0, s.pen.x + g.offsetX);
        var w := GetWidth(g) as real;
        var h := GetHeight(g) as real;
        var next := Vec2(x + w + g.advanceX, s.pen.y);
        if !Shows(l.c, g) then s.(pen := next)
        else
          var y := s.pen.y;
          var minX := ctx.topLeft.x + x;
          var minY := ctx.topLeft.y + y + g.offsetY;
          var maxX := minX + w + Max(0.0, g.advanceX);
          var maxY := minY + h;
          var b := s.bounds;
          Layout(next,
                 Vec2(Max(s.extent.x, x + w), Max(s.extent.y, y + Max(f.lineSpacing, h + g.offsetY))),
                 Rect(MinInt(b.left, Truncate(minX)), MinInt(b.top, Truncate(minY)),
                      MaxInt(b.right, Truncate(maxX)), MaxInt(b.bottom, Truncate(maxY))),
                 s.draws + [GlyphDraw(ctx, l, g, x, y)],
                 None)
  }

  /** The layout after the given characters. */
  function Run(f: FontData, ctx: Context, ls: seq<Letter>): Layout
    requires Sorted(f.glyphs)
  {
    if |ls| == 0 then START else Step(f, ctx, Run(f, ctx, ls[..|ls| - 1]), ls[|ls| - 1])
  }

  function LettersOf(s: ColorString): (ls: seq<Letter>)
    ensures |ls| == |s.text|
  {
    seq(|s.text|, k requires 0 <= k < |s.text| => Letter(s.text[k], s.color))
  }

  /** The characters of all strings, in order; the pen carries over from one
      string to the next. */
  function Letters(ss: seq<ColorString>): seq<Letter>
  {
    if |ss| == 0 then [] else Letters(ss[..|ss| - 1]) + LettersOf(ss[|ss| - 1])
  }

  /** SpriteFont::MeasureText: the largest right and bottom reached by a
      showing glyph, or the lookup error. */
  function MeasureTextOf(f: FontData, ss: seq<ColorString>): Result<Vec2>
    requires Sorted(f.glyphs)
  {
    var s := Run(f, PLAIN, Letters(ss));
    if s.failure.Some? then Err(s.failure.value) else Ok(s.extent)
  }

  /** SpriteFont::MeasureDrawBounds: the integer box around the showing
      glyphs, with left and top reset to 0 when no glyph showed. */
  function DrawBoundsOf(f: FontData, ss: seq<ColorString>, topLeft: Vec2): Result<Rect>
    requires Sorted(f.glyphs)
  {
    var s := Run(f, PLAIN.(topLeft := topLeft), Letters(ss));
    if s.failure.Some? then Err(s.failure.value)
    else if s.bounds.left == LONG_MAX then Ok(s.bounds.(left := 0, top := 0))
    else Ok(s.bounds)
  }

  /** The context of SpriteFont::DrawText: without effects the base offset is
      the rotation origin; with effects the measured text, on the mirrored
      axes, is subtracted from it. */
  function DrawContextOf(f: FontData, ss: seq<ColorString>, transform: SpriteTransform, effects: SpriteEffect,
                         color: Option<Vec4>): Result<Context>
    requires Sorted(f.glyphs)
  {
    var origin := transform.rotationOrigin;
    if effects == NoEffect then Ok(Context(Vec2(0.0, 0.0), origin, effects, color, transform))
    else
      match MeasureTextOf(f, ss)
      case Err(m) => Err(m)
      case Ok(size) =>
        var m := AxisIsMirrored(effects);
        Ok(Context(Vec2(0.0, 0.0), Vec2(origin.x - size.x * m.x, origin.y - size.y * m.y), effects, color, transform))
  }

  /** With effects, the context fails as the measurement fails, and otherwise
      its base offset is the rotation origin less the measured size on the
      mirrored axes. */
  lemma MeasuredContext(f: FontData, ss: seq<ColorString>, transform: SpriteTransform, effects: SpriteEffect,
                        color: Option<Vec4>, size: Result<Vec2>)
    requires Sorted(f.glyphs) && effects != NoEffect && MeasureTextOf(f, ss) == size
    ensures size.Err? ==> DrawContextOf(f, ss, transform, effects, color) == Err(size.message)
    ensures size.Ok? ==>
              var o, m := transform.rotationOrigin, AxisIsMirrored(effects);
              DrawContextOf(f, ss, transform, effects, color) ==
              Ok(Context(Vec2(0.0, 0.0), Vec2(o.x - size.value.x * m.x, o.y - size.value.y * m.y), effects, color, transform))
  {
  }

  /** The draws DrawText makes, and whether it finishes or throws. */
  datatype Drawing = Drawing(draws: seq<DrawCall>, outcome: Result<()>)

  function DrawTextOf(f: FontData, ss: seq<ColorString>, transform: SpriteTransform, effects: SpriteEffect,
                      color: Option<Vec4>): Drawing
    requires Sorted(f.glyphs)
  {
    match DrawContextOf(f, ss, transform, effects, color)
    case Err(m) => Drawing([], Err(m))
    case Ok(ctx) =>
      var s := Run(f, ctx, Letters(ss));
      Drawing(s.draws, if s.failure.Some? then Err(s.failure.value) else Ok(()))
  }

  //---------------------------------------------------------------------------
  // Properties of the layout
  //---------------------------------------------------------------------------

  lemma RunSnoc(f: FontData, ctx: Context, ls: seq<Letter>, l: Letter)
    requires Sorted(f.glyphs)
    ensures Run(f, ctx, ls + [l]) == Step(f, ctx, Run(f, ctx, ls), l)
  {
    assert (ls + [l])[..|ls|] == ls;
  }

  lemma LettersSnoc(ss: seq<ColorString>, i: nat)
    requires i < |ss|
    ensures Letters(ss[..i + 1]) == Letters(ss[..i]) + LettersOf(ss[i])
  {
    assert ss[..i + 1][..i] == ss[..i];
  }

  /** The letters of the first strings are a prefix of the letters of all. */
  lemma {:induction false} LettersPrefix(ss: seq<ColorString>, i: nat)
    requires i <= |ss|
    ensures Letters(ss[..i]) <= Letters(ss)
    decreases |ss| - i
  {
    if i < |ss| {
      LettersPrefix(ss, i + 1);
      LettersSnoc(ss, i);
    } else {
      assert ss[..i] == ss;
    }
  }

  /** The characters before the j-th one of the i-th string. */
  function LettersBefore(ss: seq<ColorString>, i: nat, j: nat): seq<Letter>
    requires i < |ss| && j <= |ss[i].text|
  {
    Letters(ss[..i]) + LettersOf(ss[i])[..j]
  }

  /** Moving on by one character. */
  lemma NextLetter(ss: seq<ColorString>, i: nat, j: nat)
    requires i < |ss| && j < |ss[i].text|
    ensures LettersBefore(ss, i, j + 1) == LettersBefore(ss, i, j) + [Letter(ss[i].text[j], ss[i].color)]
  {
  }

  /** The start and the end of a string. */
  lemma StringBounds(ss: seq<ColorString>, i: nat)
    requires i < |ss|
    ensures LettersBefore(ss, i, 0) == Letters(ss[..i])
    ensures LettersBefore(ss, i, |ss[i].text|) == Letters(ss[..i + 1])
  {
    assert LettersOf(ss[i])[..|ss[i].text|] == LettersOf(ss[i]);
    LettersSnoc(ss, i);
  }

  /** A failure inside the text is the failure of the whole text. */
  lemma FailureReachesEnd(f: FontData, ctx: Context, ss: seq<ColorString>, i: nat, j: nat)
    requires Sorted(f.glyphs) && i < |ss| && j <= |ss[i].text|
    requires Run(f, ctx, LettersBefore(ss, i, j)).failure.Some?
    ensures Run(f, ctx, Letters(ss)) == Run(f, ctx, LettersBefore(ss, i, j))
  {
    LettersSnoc(ss, i);
    LettersPrefix(ss, i + 1);
    FailureStays(f, ctx, LettersBefore(ss, i, j), Letters(ss));
  }

  /** After a failed lookup, further characters change nothing. */
  lemma {:induction false} FailureStays(f: FontData, ctx: Context, a: seq<Letter>, b: seq<Letter>)
    requires Sorted(f.glyphs) && a <= b && Run(f, ctx, a).failure.Some?
    ensures Run(f, ctx, b) == Run(f, ctx, a)
    decreases |b|
  {
    if |b| > |a| {
      FailureStays(f, ctx, a, b[..|b| - 1]);
    } else {
      assert a == b;
    }
  }

  /** A carriage return changes nothing; a line feed moves the pen to the
      start of the next line, line spacing further down. */
  lemma LineControls(f: FontData, ctx: Context, ls: seq<Letter>, color: Vec4)
    requires Sorted(f.glyphs) && Run(f, ctx, ls).failure.None?
    ensures Run(f, ctx, ls + [Letter('\r', color)]) == Run(f, ctx, ls)
    ensures Run(f, ctx, ls + [Letter('\n', color)]).pen == Vec2(0.0, Run(f, ctx, ls).pen.y + f.lineSpacing)
    ensures Run(f, ctx, ls + [Letter('\n', color)]).draws == Run(f, ctx, ls).draws
  {
    RunSnoc(f, ctx, ls, Letter('\r', color));
    RunSnoc(f, ctx, ls, Letter('\n', color));
  }

  /** Any other character is placed at the pen moved by the glyph's offset
      but never left of 0, and the pen then advances by the glyph's width
      and advance. */
  lemma GlyphAdvance(f: FontData, ctx: Context, ls: seq<Letter>, l: Letter, g: Glyph)
    requires Sorted(f.glyphs) && Run(f, ctx, ls).failure.None?
    requires l.c != '\r' && l.c != '\n' && FindGlyph(f.glyphs, f.defaultGlyph, l.c) == Ok(g)
    ensures Run(f, ctx, ls + [l]).pen ==
            Vec2(Max(0.0, Run(f, ctx, ls).pen.x + g.offsetX) + GetWidth(g) as real + g.advanceX, Run(f, ctx, ls).pen.y)
    ensures Run(f, ctx, ls + [l]).failure.None?
  {
    RunSnoc(f, ctx, ls, l);
  }

  /** The measured size never goes below zero, and the right and bottom of
      the bounds never below zero. */
  lemma {:induction false} ExtentNonNegative(f: FontData, ctx: Context, ls: seq<Letter>)
    requires Sorted(f.glyphs)
    ensures Run(f, ctx, ls).extent.x >= 0.0 && Run(f, ctx, ls).extent.y >= 0.0
    ensures Run(f, ctx, ls).bounds.right >= 0 && Run(f, ctx, ls).bounds.bottom >= 0
    decreases |ls|
  {
    if |ls| > 0 {
      ExtentNonNegative(f, ctx, ls[..|ls| - 1]);
    }
  }

  /** Layout b has gathered at least what layout a has: a size at least as
      large and bounds at least as wide on every side. */
  predicate Within(a: Layout, b: Layout)
  {
    a.extent.x <= b.extent.x && a.extent.y <= b.extent.y &&
    b.bounds.left <= a.bounds.left && b.bounds.top <= a.bounds.top &&
    a.bounds.right <= b.bounds.right && a.bounds.bottom <= b.bounds.bottom
  }

  /** The layout of a prefix is within the layout of the whole text: the
      size and the bounds only grow. */
  lemma {:induction false} RunGrows(f: FontData, ctx: Context, ls: seq<Letter>, i: nat)
    requires Sorted(f.glyphs) && i <= |ls|
    ensures Within(Run(f, ctx, ls[..i]), Run(f, ctx, ls))
    decreases |ls|
  {
    if i < |ls| {
      var init := ls[..|ls| - 1];
      RunGrows(f, ctx, init, i);
      assert init[..i] == ls[..i];
    } else {
      assert ls[..i] == ls;
    }
  }

  /** Layout r reaches as far as the glyph g placed with the pen at pen: the
      size covers its right edge and line bottom, the bounds its box. */
  predicate Covers(r: Layout, ctx: Context, lineSpacing: real, pen: Vec2, g: Glyph)
  {
    var x := Max(0.0, pen.x + g.offsetX);
    var w := GetWidth(g) as real;
    var h := GetHeight(g) as real;
    r.extent.x >= x + w && r.extent.y >= pen.y + Max(lineSpacing, h + g.offsetY) &&
    r.bounds.left <= Truncate(ctx.topLeft.x + x) &&
    r.bounds.top <= Truncate(ctx.topLeft.y + pen.y + g.offsetY) &&
    r.bounds.right >= Truncate(ctx.topLeft.x + x + w + Max(0.0, g.advanceX)) &&
    r.bounds.bottom >= Truncate(ctx.topLeft.y + pen.y + g.offsetY + h)
  }

  /** The step of a showing glyph covers that glyph. */
  lemma StepShowing(f: FontData, ctx: Context, s: Layout, l: Letter, g: Glyph)
    requires Sorted(f.glyphs) && s.failure.None? && l.c != '\r' && l.c != '\n'
    requires FindGlyph(f.glyphs, f.defaultGlyph, l.c) == Ok(g) && Shows(l.c, g)
    ensures Covers(Step(f, ctx, s, l), ctx, f.lineSpacing, s.pen, g)
  {
  }

  /** A layout that covers a glyph still covers it once it has grown. */
  lemma CoversWithin(a: Layout, b: Layout, ctx: Context, lineSpacing: real, pen: Vec2, g: Glyph)
    requires Covers(a, ctx, lineSpacing, pen, g) && Within(a, b)
    ensures Covers(b, ctx, lineSpacing, pen, g)
  {
  }

  /** The measured size and the draw bounds of the whole text cover every
      glyph that shows, wherever it stands in the text. */
  lemma ShowingGlyphInside(f: FontData, ctx: Context, ls: seq<Letter>, i: nat, g: Glyph)
    requires Sorted(f.glyphs) && i < |ls|
    requires Run(f, ctx, ls[..i]).failure.None? && ls[i].c != '\r' && ls[i].c != '\n'
    requires FindGlyph(f.glyphs, f.defaultGlyph, ls[i].c) == Ok(g) && Shows(ls[i].c, g)
    ensures Covers(Run(f, ctx, ls), ctx, f.lineSpacing, Run(f, ctx, ls[..i]).pen, g)
  {
    var s := Run(f, ctx, ls[..i]);
    StepShowing(f, ctx, s, ls[i], g);
    RunSnoc(f, ctx, ls[..i], ls[i]);
    assert ls[..i] + [ls[i]] == ls[..i + 1];
    RunGrows(f, ctx, ls, i + 1);
    CoversWithin(Run(f, ctx, ls[..i + 1]), Run(f, ctx, ls), ctx, f.lineSpacing, s.pen, g);
  }

  /** A character that shows is one whose glyph is found and that is not
      small white space. */
  predicate ShowsIn(f: FontData, c: char)
    requires Sorted(f.glyphs)
  {
    c != '\r' && c != '\n' &&
    match FindGlyph(f.glyphs, f.defaultGlyph, c)
    case Ok(g) => Shows(c, g)
    case Err(_) => false
  }

  /** The number of characters that show. */
  function CountShowing(f: FontData, ls: seq<Letter>): nat
    requires Sorted(f.glyphs)
  {
    if |ls| == 0 then 0
    else CountShowing(f, ls[..|ls| - 1]) + (if ShowsIn(f, ls[|ls| - 1].c) then 1 else 0)
  }

  /** A character adds one draw when it shows, and otherwise leaves the
      draws, the extent and the bounds as they were. */
  lemma StepDraws(f: FontData, ctx: Context, s: Layout, l: Letter)
    requires Sorted(f.glyphs) && s.failure.None?
    requires Step(f, ctx, s, l).failure.None?
    ensures ShowsIn(f, l.c) ==> |Step(f, ctx, s, l).draws| == |s.draws| + 1
    ensures !ShowsIn(f, l.c) ==> Step(f, ctx, s, l).draws == s.draws &&
                                 Step(f, ctx, s, l).extent == s.extent && Step(f, ctx, s, l).bounds == s.bounds
  {
  }

  /** Exactly one draw per showing character, and none when no character
      shows: then the extent stays zero and the bounds as they started. */
  lemma {:induction false} DrawsCountShowingCharacters(f: FontData, ctx: Context, ls: seq<Letter>)
    requires Sorted(f.glyphs)
    requires Run(f, ctx, ls).failure.None?
    ensures |Run(f, ctx, ls).draws| == CountShowing(f, ls)
    ensures CountShowing(f, ls) == 0 ==>
              Run(f, ctx, ls).extent == Vec2(0.0, 0.0) && Run(f, ctx, ls).bounds == START.bounds
    decreases |ls|
  {
    if |ls| > 0 {
      var p := ls[..|ls| - 1];
      assert Run(f, ctx, p).failure.None?;
      DrawsCountShowingCharacters(f, ctx, p);
      StepDraws(f, ctx, Run(f, ctx, p), ls[|ls| - 1]);
    }
  }

  /** Every draw uses the effects and the transform it was given, except for
      the rotation origin; with a colour override every draw has that
      colour. */
  lemma {:induction false} DrawsKeepContext(f: FontData, ctx: Context, ls: seq<Letter>)
    requires Sorted(f.glyphs)
    ensures forall d <- Run(f, ctx, ls).draws ::
              d.effects == ctx.effects && d.transform.translation == ctx.transform.translation &&
              (ctx.color.Some? ==> d.color == ctx.color.value)
    decreases |ls|
  {
    if |ls| > 0 {
      DrawsKeepContext(f, ctx, ls[..|ls| - 1]);
    }
  }

  /** Text in which nothing shows measures zero and is bounded by the empty
      rectangle at the origin. */
  lemma NothingShows(f: FontData, ss: seq<ColorString>, topLeft: Vec2)
    requires Sorted(f.glyphs)
    requires forall l <- Letters(ss) :: l.c == '\r' || l.c == '\n' ||
               (FindGlyph(f.glyphs, f.defaultGlyph, l.c).Ok? && !Shows(l.c, FindGlyph(f.glyphs, f.defaultGlyph, l.c).value))
    ensures MeasureTextOf(f, ss) == Ok(Vec2(0.0, 0.0))
    ensures DrawBoundsOf(f, ss, topLeft) == Ok(Rect(0, 0, 0, 0))
  {
    var ls := Letters(ss);
    NoFailure(f, PLAIN, ls);
    NoFailure(f, PLAIN.(topLeft := topLeft), ls);
    NoneShowing(f, ls);
    DrawsCountShowingCharacters(f, PLAIN, ls);
    DrawsCountShowingCharacters(f, PLAIN.(topLeft := topLeft), ls);
  }

  /** When no character shows, none is counted. */
  lemma {:induction false} NoneShowing(f: FontData, ls: seq<Letter>)
    requires Sorted(f.glyphs)
    requires forall l <- ls :: !ShowsIn(f, l.c)
    ensures CountShowing(f, ls) == 0
    decreases |ls|
  {
    if |ls| > 0 {
      assert forall l <- ls[..|ls| - 1] :: l in ls;
      NoneShowing(f, ls[..|ls| - 1]);
      assert ls[|ls| - 1] in ls;
    }
  }

  /** When every lookup succeeds, the layout does not fail. */
  lemma {:induction false} NoFailure(f: FontData, ctx: Context, ls: seq<Letter>)
    requires Sorted(f.glyphs)
    requires forall l <- ls :: l.c == '\r' || l.c == '\n' || FindGlyph(f.glyphs, f.defaultGlyph, l.c).Ok?
    ensures Run(f, ctx, ls).failure.None?
    decreases |ls|
  {
    if |ls| > 0 {
      assert forall l <- ls[..|ls| - 1] :: l in ls;
      NoFailure(f, ctx, ls[..|ls| - 1]);
      assert ls[|ls| - 1] in ls;
    }
  }

  //---------------------------------------------------------------------------
  // The font
  //---------------------------------------------------------------------------

  class SpriteFont {
    var glyphs: seq<Glyph>
    var defaultGlyph: Option<Glyph>
    var lineSpacing: real

    ghost predicate Valid()
      reads this
    {
      Sorted(glyphs)
    }

    function Data(): FontData
      reads this
    {
      FontData(glyphs, defaultGlyph, lineSpacing)
    }

    /** The member initialisers of the constructor: no glyphs, no default
        glyph, no extra line spacing. */
    constructor Empty()
      ensures glyphs == [] && defaultGlyph == None && lineSpacing == 0.0 && Valid()
    {
      glyphs, defaultGlyph, lineSpacing := [], None, 0.0;
    }

    /** Takes the glyphs, then fails unless they are sorted; on success sets
        the line spacing and the default character. */
    method InitializeSpriteFont(output: SpriteFontOutput) returns (r: Result<()>)
      modifies this
      ensures glyphs == output.glyphs
      ensures r.Ok? <==> Sorted(output.glyphs)
      ensures r.Err? ==> r.message == NOT_SORTED && defaultGlyph == old(defaultGlyph) && lineSpacing == old(lineSpacing)
      ensures r.Ok? ==> Valid() && lineSpacing == output.lineSpacing &&
                        defaultGlyph == DefaultGlyphFor(output.glyphs, output.defaultCharacter)
    {
      glyphs := output.glyphs;
      if !Sorted(glyphs) {
        return Err(NOT_SORTED);
      }
      SetLineSpacing(output.lineSpacing);
      SetDefaultCharacter(output.defaultCharacter);
      r := Ok(());
    }

    method SetLineSpacing(spacing: real)
      modifies this
      ensures lineSpacing == spacing && glyphs == old(glyphs) && defaultGlyph == old(defaultGlyph)
    {
      lineSpacing := spacing;
    }

    /** The default glyph becomes the glyph of the character when the font
        has one, and none otherwise. */
    method SetDefaultCharacter(c: char)
      requires Valid()
      modifies this
      ensures glyphs == old(glyphs) && lineSpacing == old(lineSpacing) && Valid()
      ensures defaultGlyph == DefaultGlyphFor(glyphs, c)
    {
      defaultGlyph := DefaultGlyphFor(glyphs, c);
    }

    function GetGlyph(c: char): (r: Result<Glyph>)
      requires Valid()
      reads this
      ensures r == FindGlyph(glyphs, defaultGlyph, c)
    {
      FindGlyph(glyphs, defaultGlyph, c)
    }

    function ContainsCharacter(c: char): (b: bool)
      requires Valid()
      reads this
      ensures b <==> exists i :: 0 <= i < |glyphs| && glyphs[i].character == c as int
    {
      HasCharacter(glyphs, c)
    }

    /** One character of MeasureText's loop: a carriage return is skipped, a
        line feed starts the next line, any other character is looked up,
        grows the size when it shows and moves the pen on. */
    method MeasureCharacter(c: char, ghost color: Vec4, ghost f: FontData, ghost done: seq<Letter>,
                            x: real, y: real, size: Vec2)
      returns (failure: Option<string>, x': real, y': real, size': Vec2)
      requires Valid() && f == Data()
      requires Run(f, PLAIN, done).failure.None? && Run(f, PLAIN, done).pen == Vec2(x, y) &&
               Run(f, PLAIN, done).extent == size
      ensures Run(f, PLAIN, done + [Letter(c, color)]).failure == failure
      ensures failure.None? ==> Run(f, PLAIN, done + [Letter(c, color)]).pen == Vec2(x', y') &&
                                Run(f, PLAIN, done + [Letter(c, color)]).extent == size'
    {
      RunSnoc(f, PLAIN, done, Letter(c, color));
      failure, x', y', size' := None, x, y, size;
      if c == '\r' {
      } else if c == '\n' {
        x' := 0.0;
        y' := y + lineSpacing;
      } else {
        var lookup := GetGlyph(c);
        if lookup.Err? {
          return Some(lookup.message), x, y, size;
        }
        var g := lookup.value;
        x' := Max(0.0, x + g.offsetX);
        var width := GetWidth(g) as real;
        var height := GetHeight(g) as real;
        if !IsSpace(c) || width > 1.0 || height > 1.0 {
          size' := Vec2(Max(size.x, x' + width), Max(size.y, y + Max(lineSpacing, height + g.offsetY)));
        }
        x' := x' + width + g.advanceX;
      }
    }

    /** SpriteFont::MeasureText: the strings one after another, character
        by character. */
    method MeasureText(strings: seq<ColorString>) returns (r: Result<Vec2>)
      requires Valid()
      ensures r == MeasureTextOf(Data(), strings)
    {
      ghost var f := Data();
      var result := Vec2(0.0, 0.0);
      ghost var st := START;
      var x, y := 0.0, 0.0;
      var i := 0;
      while i < |strings|
        invariant i <= |strings| && Valid() && f == Data()
        invariant st == Run(f, PLAIN, Letters(strings[..i]))
        invariant st.failure.None? && st.pen == Vec2(x, y) && st.extent == result
      {
        var text := strings[i].text;
        StringBounds(strings, i);
        var j := 0;
        while j < |text|
          invariant j <= |text| && Valid() && f == Data()
          invariant st == Run(f, PLAIN, LettersBefore(strings, i, j))
          invariant st.failure.None? && st.pen == Vec2(x, y) && st.extent == result
        {
          NextLetter(strings, i, j);
          var failure;
          failure, x, y, result := MeasureCharacter(text[j], strings[i].color, f, LettersBefore(strings, i, j), x, y, result);
          st := Run(f, PLAIN, LettersBefore(strings, i, j + 1));
          if failure.Some? {
            FailureReachesEnd(f, PLAIN, strings, i, j + 1);
            return Err(failure.value);
          }
          j := j + 1;
        }
        i := i + 1;
      }
      assert strings[..i] == strings;
      r := Ok(result);
    }

    /** One character of MeasureDrawBounds's loop. */
    method BoundCharacter(c: char, ghost color: Vec4, ghost f: FontData, ghost done: seq<Letter>, topLeft: Vec2,
                          x: real, y: real, bounds: Rect)
      returns (failure: Option<string>, x': real, y': real, bounds': Rect)
      requires Valid() && f == Data()
      requires Run(f, PLAIN.(topLeft := topLeft), done).failure.None? &&
               Run(f, PLAIN.(topLeft := topLeft), done).pen == Vec2(x, y) &&
               Run(f, PLAIN.(topLeft := topLeft), done).bounds == bounds
      ensures Run(f, PLAIN.(topLeft := topLeft), done + [Letter(c, color)]).failure == failure
      ensures failure.None? ==> Run(f, PLAIN.(topLeft := topLeft), done + [Letter(c, color)]).pen == Vec2(x', y') &&
                                Run(f, PLAIN.(topLeft := topLeft), done + [Letter(c, color)]).bounds == bounds'
    {
      RunSnoc(f, PLAIN.(topLeft := topLeft), done, Letter(c, color));
      failure, x', y', bounds' := None, x, y, bounds;
      if c == '\r' {
      } else if c == '\n' {
        x' := 0.0;
        y' := y + lineSpacing;
      } else {
        var lookup := GetGlyph(c);
        if lookup.Err? {
          return Some(lookup.message), x, y, bounds;
        }
        var g := lookup.value;
        x' := Max(0.0, x + g.offsetX);
        var width := GetWidth(g) as real;
        var height := GetHeight(g) as real;
        if !IsSpace(c) || width > 1.0 || height > 1.0 {
          var minX := topLeft.x + x';
          var minY := topLeft.y + y + g.offsetY;
          var maxX := minX + width + Max(0.0, g.advanceX);
          var maxY := minY + height;
          bounds' := Rect(MinInt(bounds.left, Truncate(minX)), MinInt(bounds.top, Truncate(minY)),
                          MaxInt(bounds.right, Truncate(maxX)), MaxInt(bounds.bottom, Truncate(maxY)));
        }
        x' := x' + width + g.advanceX;
      }
    }

    /** SpriteFont::MeasureDrawBounds: the box around what DrawText would
        draw at topLeft. */
    method MeasureDrawBounds(strings: seq<ColorString>, topLeft: Vec2) returns (r: Result<Rect>)
      requires Valid()
      ensures r == DrawBoundsOf(Data(), strings, topLeft)
    {
      ghost var f := Data();
      ghost var ctx := PLAIN.(topLeft := topLeft);
      var result := Rect(LONG_MAX, LONG_MAX, 0, 0);
      ghost var st := START;
      var x, y := 0.0, 0.0;
      var i := 0;
      while i < |strings|
        invariant i <= |strings| && Valid() && f == Data()
        invariant st == Run(f, ctx, Letters(strings[..i]))
        invariant st.failure.None? && st.pen == Vec2(x, y) && st.bounds == result
      {
        var text := strings[i].text;
        StringBounds(strings, i);
        var j := 0;
        while j < |text|
          invariant j <= |text| && Valid() && f == Data()
          invariant st == Run(f, ctx, LettersBefore(strings, i, j))
          invariant st.failure.None? && st.pen == Vec2(x, y) && st.bounds == result
        {
          NextLetter(strings, i, j);
          var failure;
          failure, x, y, result := BoundCharacter(text[j], strings[i].color, f, LettersBefore(strings, i, j), topLeft, x, y, result);
          st := Run(f, ctx, LettersBefore(strings, i, j + 1));
          if failure.Some? {
            FailureReachesEnd(f, ctx, strings, i, j + 1);
            return Err(failure.value);
          }
          j := j + 1;
        }
        i := i + 1;
      }
      assert strings[..i] == strings;
      if result.left == LONG_MAX {
        result := result.(left := 0, top := 0);
      }
      r := Ok(result);
    }

    /** Draws glyph g of character c at pen position (x, y) when it shows:
        with its sub-rectangle, placed by flipping its top-left corner for the
        effects and adding the base offset (and, when mirrored, the size of
        the sub-rectangle on the mirrored axes). */
    method DrawGlyph(batch: SpriteBatch, ctx: Context, c: char, stringColor: Vec4, g: Glyph, x: real, y: real)
      modifies batch
      ensures batch.draws == old(batch.draws) +
                             if Shows(c, g) then [GlyphDraw(ctx, Letter(c, stringColor), g, x, y)] else []
    {
      var width := GetWidth(g) as real;
      var height := GetHeight(g) as real;
      if !IsSpace(c) || width > 1.0 || height > 1.0 {
        var flip := AxisDirection(ctx.effects);
        var offset := Vec2(x * flip.x + ctx.baseOffset.x, (y + g.offsetY) * flip.y + ctx.baseOffset.y);
        var rect := g.subRectangle;
        if ctx.effects != NoEffect {
          var mirror := AxisIsMirrored(ctx.effects);
          offset := Vec2(((rect.right - rect.left) as real) * mirror.x + offset.x,
                         ((rect.bottom - rect.top) as real) * mirror.y + offset.y);
        }
        var drawColor := if ctx.color.Some? then ctx.color.value else stringColor;
        var d := DrawCall(drawColor, ctx.effects, ctx.transform.(rotationOrigin := offset), rect);
        assert d == GlyphDraw(ctx, Letter(c, stringColor), g, x, y);
        batch.Draw(d);
      }
    }

    /** One character of DrawText's loop: line controls move the pen, any
        other character is looked up, drawn when it shows and moves the pen
        on. */
    method DrawCharacter(batch: SpriteBatch, ctx: Context, c: char, stringColor: Vec4, ghost f: FontData,
                         ghost done: seq<Letter>, ghost before: seq<DrawCall>, x: real, y: real)
      returns (failure: Option<string>, x': real, y': real)
      requires Valid() && f == Data()
      requires Run(f, ctx, done).failure.None? && Run(f, ctx, done).pen == Vec2(x, y) &&
               batch.draws == before + Run(f, ctx, done).draws
      modifies batch
      ensures Run(f, ctx, done + [Letter(c, stringColor)]).failure == failure
      ensures failure.None? ==> Run(f, ctx, done + [Letter(c, stringColor)]).pen == Vec2(x', y')
      ensures batch.draws == before + Run(f, ctx, done + [Letter(c, stringColor)]).draws
    {
      RunSnoc(f, ctx, done, Letter(c, stringColor));
      failure, x', y' := None, x, y;
      if c == '\r' {
      } else if c == '\n' {
        x' := 0.0;
        y' := y + lineSpacing;
      } else {
        var lookup := GetGlyph(c);
        if lookup.Err? {
          return Some(lookup.message), x, y;
        }
        var g := lookup.value;
        x' := Max(0.0, x + g.offsetX);
        var width := GetWidth(g) as real;
        DrawGlyph(batch, ctx, c, stringColor, g, x', y);
        x' := x' + width + g.advanceX;
      }
    }

    /** The base offset of DrawText: the rotation origin, less the measured
        text on the mirrored axes when there are effects. */
    method DrawContext(strings: seq<ColorString>, transform: SpriteTransform, effects: SpriteEffect,
                       color: Option<Vec4>) returns (r: Result<Context>)
      requires Valid()
      ensures r == DrawContextOf(Data(), strings, transform, effects, color)
    {
      ghost var f := Data();
      var baseOffset := transform.rotationOrigin;
      if effects == NoEffect {
        return Ok(Context(Vec2(0.0, 0.0), baseOffset, effects, color, transform));
      }
      var size := MeasureText(strings);
      MeasuredContext(f, strings, transform, effects, color, size);
      if size.Err? {
        return Err(size.message);
      }
      var mirrored := AxisIsMirrored(effects);
      baseOffset := Vec2(baseOffset.x - size.value.x * mirrored.x, baseOffset.y - size.value.y * mirrored.y);
      r := Ok(Context(Vec2(0.0, 0.0), baseOffset, effects, color, transform));
    }

    /** One coloured string of SpriteFont::DrawText: a draw per showing
        character, stopping at the first failed lookup. */
    method DrawColorString(batch: SpriteBatch, ctx: Context, strings: seq<ColorString>, i: nat, ghost f: FontData,
                           ghost before: seq<DrawCall>, x: real, y: real)
      returns (failure: Option<string>, x': real, y': real)
      requires Valid() && f == Data() && i < |strings|
      requires Run(f, ctx, Letters(strings[..i])).failure.None? && Run(f, ctx, Letters(strings[..i])).pen == Vec2(x, y) &&
               batch.draws == before + Run(f, ctx, Letters(strings[..i])).draws
      modifies batch
      ensures failure.Some? ==> Run(f, ctx, Letters(strings)).failure == failure &&
                                batch.draws == before + Run(f, ctx, Letters(strings)).draws
      ensures failure.None? ==> Run(f, ctx, Letters(strings[..i + 1])).failure.None? &&
                                Run(f, ctx, Letters(strings[..i + 1])).pen == Vec2(x', y') &&
                                batch.draws == before + Run(f, ctx, Letters(strings[..i + 1])).draws
    {
      var text := strings[i].text;
      StringBounds(strings, i);
      x', y' := x, y;
      ghost var st := Run(f, ctx, LettersBefore(strings, i, 0));
      var j := 0;
      while j < |text|
        invariant j <= |text| && Valid() && f == Data()
        invariant st == Run(f, ctx, LettersBefore(strings, i, j))
        invariant st.failure.None? && st.pen == Vec2(x', y') && batch.draws == before + st.draws
      {
        NextLetter(strings, i, j);
        failure, x', y' := DrawCharacter(batch, ctx, text[j], strings[i].color, f, LettersBefore(strings, i, j), before, x', y');
        st := Run(f, ctx, LettersBefore(strings, i, j + 1));
        if failure.Some? {
          FailureReachesEnd(f, ctx, strings, i, j + 1);
          return;
        }
        j := j + 1;
      }
      failure := None;
    }

    /** SpriteFont::DrawText: the base offset first (measuring the text when
        an effect mirrors it), then one draw per showing character. */
    method DrawText(batch: SpriteBatch, strings: seq<ColorString>, transform: SpriteTransform,
                    effects: SpriteEffect, color: Option<Vec4>) returns (r: Result<()>)
      requires Valid()
      modifies batch
      ensures batch.draws == old(batch.draws) + DrawTextOf(Data(), strings, transform, effects, color).draws
      ensures r == DrawTextOf(Data(), strings, transform, effects, color).outcome
    {
      ghost var f := Data();
      var context := DrawContext(strings, transform, effects, color);
      if context.Err? {
        return Err(context.message);
      }
      var ctx := context.value;
      ghost var before := batch.draws;
      var x, y := 0.0, 0.0;
      var i := 0;
      while i < |strings|
        invariant i <= |strings| && Valid() && f == Data()
        invariant Run(f, ctx, Letters(strings[..i])).failure.None? && Run(f, ctx, Letters(strings[..i])).pen == Vec2(x, y)
        invariant batch.draws == before + Run(f, ctx, Letters(strings[..i])).draws
      {
        var failure;
        failure, x, y := DrawColorString(batch, ctx, strings, i, f, before, x, y);
        if failure.Some? {
          return Err(failure.value);
        }
        i := i + 1;
      }
      assert strings[..i] == strings;
      r := Ok(());
    }
  }

  /** The glyph of the character when the font has one, none otherwise. */
  function DefaultGlyphFor(glyphs: seq<Glyph>, c: char): (d: Option<Glyph>)
    requires Sorted(glyphs)
    ensures d.Some? <==> exists i :: 0 <= i < |glyphs| && glyphs[i].character == c as int
    ensures d.Some? ==> d.value.character == c as int
  {
    if HasCharacter(glyphs, c) then Some(FindGlyph(glyphs, None, c).value) else None
  }
}
