/**
 * An outlined sprite text: the text is drawn four times in the border
 * colour, moved one pixel diagonally in each direction, and then once on
 * top in its own colours.
 */
module OutlineSpriteTexts {
  import opened Common
  import opened Sprites
  import opened SpriteFonts

  /** The text a DrawString call is given: the plain characters (drawn in
      the colour passed with them) or the coloured strings. */
  datatype Text = Plain(chars: string) | WithColors(strings: seq<ColorString>)

  /** One SpriteFont::DrawString call; the colour is absent when the
      strings' own colours are used. */
  datatype DrawStringCall = DrawStringCall(text: Text, transform: SpriteTransform, color: Option<Vec4>,
                                           effects: SpriteEffect)

  /** The characters of all strings, without their colours. */
  function PlainText(strings: seq<ColorString>): (s: string)
    ensures |s| == |Letters(strings)|
    ensures forall i :: 0 <= i < |s| ==> s[i] == Letters(strings)[i].c
  {
    if |strings| == 0 then []
    else
      var init, last := strings[..|strings| - 1], strings[|strings| - 1];
      assert Letters(strings) == Letters(init) + LettersOf(last);
      PlainText(init) + last.text
  }

  class OutlineSpriteText {
    var transform: SpriteTransform
    var effects: SpriteEffect
    var strings: seq<ColorString>
    var borderColor: Vec4

    constructor (borderColor: Vec4, effects: SpriteEffect)
      ensures this.borderColor == borderColor && this.effects == effects && strings == []
    {
      this.borderColor, this.effects, strings := borderColor, effects, [];
      transform := SpriteTransform(Vec2(0.0, 0.0), Vec2(0.0, 0.0));
    }

    /** OutlineSpriteText::Draw: a local copy of the transform is moved to
        (+1, +1), (-1, +1), (-1, -1) and (+1, -1) for the four border
        draws; the text itself is drawn last with the sprite's transform.
        Nothing of the sprite changes. */
    method Draw() returns (calls: seq<DrawStringCall>)
      ensures |calls| == 5
      ensures forall k :: 0 <= k < 5 ==> calls[k].effects == effects
      ensures forall k :: 0 <= k < 4 ==>
                calls[k].text == Plain(PlainText(strings)) && calls[k].color == Some(borderColor) &&
                calls[k].transform.rotationOrigin == transform.rotationOrigin
      ensures calls[0].transform.translation == Add2(transform.translation, Vec2(1.0, 1.0))
      ensures calls[1].transform.translation == Add2(transform.translation, Vec2(-1.0, 1.0))
      ensures calls[2].transform.translation == Add2(transform.translation, Vec2(-1.0, -1.0))
      ensures calls[3].transform.translation == Add2(transform.translation, Vec2(1.0, -1.0))
      ensures calls[4] == DrawStringCall(WithColors(strings), transform, None, effects)
    {
      var text := PlainText(strings);
      var t := transform;
      calls := [];
      t := AddTranslation(t, Vec2(1.0, 1.0));
      calls := calls + [DrawStringCall(Plain(text), t, Some(borderColor), effects)];
      t := AddTranslationX(t, -2.0);
      calls := calls + [DrawStringCall(Plain(text), t, Some(borderColor), effects)];
      t := AddTranslationY(t, -2.0);
      calls := calls + [DrawStringCall(Plain(text), t, Some(borderColor), effects)];
      t := AddTranslationX(t, 2.0);
      calls := calls + [DrawStringCall(Plain(text), t, Some(borderColor), effects)];
      calls := calls + [DrawStringCall(WithColors(strings), transform, None, effects)];
    }
  }
}
