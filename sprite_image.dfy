/**
 * A sprite image: a transform, mirroring effects, a base colour, the region
 * of the base-colour texture it shows (all zeros meaning the whole texture)
 * and an optional base-colour texture.
 */
module SpriteImages {
  import opened Common
  import opened Glyphs
  import opened Sprites

  /** A texture and the shader resource view it hands out, if any. */
  datatype Texture = Texture(view: Option<nat>)

  /** The region that stands for the whole texture. */
  const MAXIMUM_REGION: Rect := Rect(0, 0, 0, 0)

  class SpriteImage {
    var transform: SpriteTransform
    var effects: SpriteEffect
    var baseColor: Vec4
    var region: Rect
    var texture: Option<Texture>

    /** The constructors' bodies are not part of the model: this one takes
        every field. */
    constructor (transform: SpriteTransform, effects: SpriteEffect, baseColor: Vec4, region: Rect,
                 texture: Option<Texture>)
      ensures this.transform == transform && this.effects == effects && this.baseColor == baseColor
      ensures this.region == region && this.texture == texture
    {
      this.transform, this.effects, this.baseColor := transform, effects, baseColor;
      this.region, this.texture := region, texture;
    }

    function GetSpriteEffects(): SpriteEffect
      reads this
    {
      effects
    }

    method SetSpriteEffects(e: SpriteEffect)
      modifies this
      ensures GetSpriteEffects() == e
      ensures transform == old(transform) && baseColor == old(baseColor) && region == old(region) && texture == old(texture)
    {
      effects := e;
    }

    function GetBaseColorTextureRegion(): Rect
      reads this
    {
      region
    }

    /** The region is the whole texture exactly when all four sides are 0. */
    predicate HasMaximumBaseColorTextureRegion()
      reads this
      ensures HasMaximumBaseColorTextureRegion() <==> region == MAXIMUM_REGION
    {
      0 == region.left && 0 == region.top && 0 == region.right && 0 == region.bottom
    }

    method SetMaximumBaseColorTextureRegion()
      modifies this
      ensures HasMaximumBaseColorTextureRegion()
      ensures transform == old(transform) && effects == old(effects) && baseColor == old(baseColor) && texture == old(texture)
    {
      region := Rect(0, 0, 0, 0);
    }

    method SetBaseColorTextureRegion(r: Rect)
      modifies this
      ensures GetBaseColorTextureRegion() == r
      ensures HasMaximumBaseColorTextureRegion() <==> r == MAXIMUM_REGION
      ensures transform == old(transform) && effects == old(effects) && baseColor == old(baseColor) && texture == old(texture)
    {
      region := r;
    }

    function GetBaseColorTexture(): Option<Texture>
      reads this
    {
      texture
    }

    /** The view of the texture, and none without a texture. */
    function GetBaseColorSRV(): (v: Option<nat>)
      reads this
      ensures texture.None? ==> v.None?
      ensures texture.Some? ==> v == texture.value.view
    {
      if texture.Some? then texture.value.view else None
    }

    method SetBaseColorTexture(t: Option<Texture>)
      modifies this
      ensures GetBaseColorTexture() == t
      ensures t.None? ==> GetBaseColorSRV().None?
      ensures transform == old(transform) && effects == old(effects) && baseColor == old(baseColor) && region == old(region)
    {
      texture := t;
    }
  }
}
