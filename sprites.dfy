/**
 * The sprite vocabulary shared by fonts, texts and images: the mirroring
 * effects, the part of a sprite transform the model follows, and a sprite
 * batch that records the draws it is asked for.
 */
module Sprites {
  import opened Common
  import opened Glyphs

  /** A two-component vector (F32x2 / the first two lanes of an XMVECTOR). */
  datatype Vec2 = Vec2(x: real, y: real)

  function Add2(a: Vec2, b: Vec2): Vec2 { Vec2(a.x + b.x, a.y + b.y) }

  /** SpriteEffect: None = 0, MirrorX = 1, MirrorY = 2, MirrorXY = 3. */
  datatype SpriteEffect = NoEffect | MirrorX | MirrorY | MirrorXY

  /** The translation and the rotation origin of a SpriteTransform; its
      depth, rotation and scale are not followed. */
  datatype SpriteTransform = SpriteTransform(translation: Vec2, rotationOrigin: Vec2)

  /** SpriteTransform::AddTranslation. */
  function AddTranslation(t: SpriteTransform, v: Vec2): (r: SpriteTransform)
    ensures r.rotationOrigin == t.rotationOrigin
    ensures r.translation.x - t.translation.x == v.x && r.translation.y - t.translation.y == v.y
  {
    t.(translation := Add2(t.translation, v))
  }

  /** SpriteTransform::AddTranslationX. */
  function AddTranslationX(t: SpriteTransform, x: real): (r: SpriteTransform)
    ensures r == AddTranslation(t, Vec2(x, 0.0))
  {
    t.(translation := t.translation.(x := t.translation.x + x))
  }

  /** SpriteTransform::AddTranslationY. */
  function AddTranslationY(t: SpriteTransform, y: real): (r: SpriteTransform)
    ensures r == AddTranslation(t, Vec2(0.0, y))
  {
    t.(translation := t.translation.(y := t.translation.y + y))
  }

  /** One SpriteBatch::Draw of a texture region. */
  datatype DrawCall = DrawCall(color: Vec4, effects: SpriteEffect, transform: SpriteTransform, region: Rect)

  /** The draws a sprite batch has been asked for, in order. */
  class SpriteBatch {
    var draws: seq<DrawCall>

    constructor ()
      ensures draws == []
    {
      draws := [];
    }

    method Draw(d: DrawCall)
      modifies this
      ensures draws == old(draws) + [d]
    {
      draws := draws + [d];
    }
  }
}
