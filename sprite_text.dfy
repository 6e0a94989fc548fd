/**
 * A sprite text: coloured strings drawn with a sprite font, with sprite
 * effects, a text effect (none, drop shadow or outline) and its colour.
 */
module SpriteTexts {
  import opened Common
  import opened Sprites
  import opened SpriteFonts

  datatype TextEffect = NoTextEffect | DropShadow | Outline

  class SpriteText {
    var transform: SpriteTransform
    var effects: SpriteEffect
    var strings: seq<ColorString>
    var textEffectColor: Vec4
    var textEffect: TextEffect
    var font: SpriteFont?

    /** The constructors' bodies are not part of the model: this one takes a
        font and effects and starts without text. */
    constructor (font: SpriteFont?, effects: SpriteEffect)
      ensures this.font == font && this.effects == effects && strings == [] && textEffect == NoTextEffect
    {
      this.font, this.effects, strings, textEffect := font, effects, [], NoTextEffect;
      transform := SpriteTransform(Vec2(0.0, 0.0), Vec2(0.0, 0.0));
      textEffectColor := Vec4(0.0, 0.0, 0.0, 1.0);
    }

    function GetSpriteEffects(): SpriteEffect
      reads this
    {
      effects
    }

    method SetSpriteEffects(e: SpriteEffect)
      modifies this
      ensures GetSpriteEffects() == e
      ensures transform == old(transform) && strings == old(strings) && textEffect == old(textEffect)
      ensures textEffectColor == old(textEffectColor) && font == old(font)
    {
      effects := e;
    }

    method ClearText()
      modifies this
      ensures GetText() == []
      ensures transform == old(transform) && effects == old(effects) && textEffect == old(textEffect)
      ensures textEffectColor == old(textEffectColor) && font == old(font)
    {
      strings := [];
    }

    function GetText(): seq<ColorString>
      reads this
    {
      strings
    }

    /** push_back: one more string, last, the others as they were. */
    method AppendText(text: ColorString)
      modifies this
      ensures |GetText()| == |old(GetText())| + 1 && GetText()[|GetText()| - 1] == text
      ensures GetText()[..|old(GetText())|] == old(GetText())
      ensures transform == old(transform) && effects == old(effects) && textEffect == old(textEffect)
      ensures textEffectColor == old(textEffectColor) && font == old(font)
    {
      strings := strings + [text];
    }

    /** ClearText, then AppendText: exactly the one string. */
    method SetText(text: ColorString)
      modifies this
      ensures GetText() == [text]
      ensures transform == old(transform) && effects == old(effects) && textEffect == old(textEffect)
      ensures textEffectColor == old(textEffectColor) && font == old(font)
    {
      ClearText();
      AppendText(text);
    }

    function GetTextEffect(): TextEffect
      reads this
    {
      textEffect
    }

    method SetTextEffect(e: TextEffect)
      modifies this
      ensures GetTextEffect() == e
      ensures transform == old(transform) && effects == old(effects) && strings == old(strings)
      ensures textEffectColor == old(textEffectColor) && font == old(font)
    {
      textEffect := e;
    }

    function GetFont(): SpriteFont?
      reads this
    {
      font
    }

    method SetFont(f: SpriteFont?)
      modifies this
      ensures GetFont() == f
      ensures transform == old(transform) && effects == old(effects) && strings == old(strings)
      ensures textEffectColor == old(textEffectColor) && textEffect == old(textEffect)
    {
      font := f;
    }
  }

  /** Appending after clearing leaves exactly what was appended, in order. */
  method ClearThenAppend(t: SpriteText, a: ColorString, b: ColorString)
    modifies t
    ensures t.GetText() == [a, b]
  {
    t.ClearText();
    t.AppendText(a);
    t.AppendText(b);
    assert t.GetText()[..1] == [a];
  }
}
