/**
 * Omni and ambient lights: non-negative radiometric quantities, their
 * spectra over the base colour, an omni light's range and clipping planes,
 * its shadow switch and the projection of its light camera.
 */
module Lights {
  import opened Common

  /** XM_PI; floating-point rounding of the constants is not modelled, so
      XM_1DIVPI is exactly its reciprocal. */
  const PI: real := 3.141592654
  const INV_PI: real := 1.0 / PI

  /** A scalar times a linear RGB colour, component by component. */
  function Spectrum(s: real, color: Vec3): (r: Vec3)
    ensures r.x == s * color.x && r.y == s * color.y && r.z == s * color.z
  {
    Mul(Splat(s), color)
  }

  /** The entries of the light-to-projection matrix that are not constant:
      the others are those of the identity, except that m23 is 1 and m33
      is 0. */
  datatype LightProjection = LightProjection(m22: real, m32: real)

  /** The depth the projection gives a point at view depth z: (z m22 + m32)
      divided by w, which is z. */
  function ProjectedDepth(p: LightProjection, z: real): real
    requires z != 0.0
  {
    (z * p.m22 + p.m32) / z
  }

  /** The perspective depth mapping between near and far; none when the
      two coincide (the division by zero of the single-precision code). */
  function DepthProjection(near: real, far: real): (r: Option<LightProjection>)
    ensures r.Some? <==> far != near
  {
    if far == near then None
    else
      var m22 := far / (far - near);
      Some(LightProjection(m22, -near * m22))
  }

  /** The projection sends the near plane to depth 0 and the far plane to
      depth 1. */
  lemma DepthRange(near: real, far: real)
    requires far != near && near != 0.0 && far != 0.0
    ensures ProjectedDepth(DepthProjection(near, far).value, near) == 0.0
    ensures ProjectedDepth(DepthProjection(near, far).value, far) == 1.0
  {
    var p := DepthProjection(near, far).value;
    var d := far - near;
    assert p.m22 * d == far;
    assert near * p.m22 + p.m32 == 0.0;
    assert far * p.m22 + p.m32 == p.m22 * d;
    assert ProjectedDepth(p, near) == 0.0 / near;
    assert ProjectedDepth(p, far) == far / far;
    assert far / far == 1.0;
  }

  class OmniLight {
    var baseColor: Vec3
    var intensity: real
    var clippingPlanes: (real, real)
    var shadows: bool

    ghost predicate Valid()
      reads this
    {
      intensity >= 0.0
    }

    /** The constructors' bodies are not part of the model: this one takes
        every field, the intensity through SetIntensity. */
    constructor (baseColor: Vec3, intensity: real, clippingPlanes: (real, real), shadows: bool)
      ensures this.baseColor == baseColor && this.intensity == Abs(intensity)
      ensures this.clippingPlanes == clippingPlanes && this.shadows == shadows && Valid()
    {
      this.baseColor, this.clippingPlanes, this.shadows := baseColor, clippingPlanes, shadows;
      this.intensity := Abs(intensity);
    }

    function GetIntensity(): (i: real)
      reads this
      requires Valid()
      ensures i >= 0.0
    {
      intensity
    }

    /** Stores the magnitude. */
    method SetIntensity(i: real)
      modifies this
      ensures intensity == Abs(i) && Valid()
      ensures baseColor == old(baseColor) && clippingPlanes == old(clippingPlanes) && shadows == old(shadows)
    {
      intensity := Abs(i);
    }

    /** Radiant power over the whole sphere: intensity / (4 pi). */
    function GetPower(): (p: real)
      reads this
      requires Valid()
      ensures p >= 0.0
      ensures p * 4.0 * PI == intensity
    {
      GetIntensity() * 0.25 * INV_PI
    }

    method SetPower(p: real)
      modifies this
      ensures Valid() && GetPower() == Abs(p)
      ensures baseColor == old(baseColor) && clippingPlanes == old(clippingPlanes) && shadows == old(shadows)
    {
      SetIntensity(p * 4.0 * PI);
      assert Abs(p * 4.0 * PI) == Abs(p) * 4.0 * PI;
    }

    function GetPowerSpectrum(): (s: Vec3)
      reads this
      requires Valid()
      ensures s == Spectrum(GetPower(), baseColor)
    {
      Mul(Splat(GetPower()), baseColor)
    }

    function GetIntensitySpectrum(): (s: Vec3)
      reads this
      requires Valid()
      ensures s == Spectrum(intensity, baseColor)
    {
      Mul(Splat(GetIntensity()), baseColor)
    }

    /** Writing through the reference GetBaseColor returns. */
    method SetBaseColor(c: Vec3)
      modifies this
      ensures baseColor == c
      ensures intensity == old(intensity) && clippingPlanes == old(clippingPlanes) && shadows == old(shadows)
    {
      baseColor := c;
    }

    /** The far clipping plane, in light space. */
    function GetRange(): (r: real)
      reads this
      ensures r == GetClippingPlanes().1
    {
      clippingPlanes.1
    }

    method SetRange(range: real)
      modifies this
      ensures GetRange() == range && clippingPlanes.0 == old(clippingPlanes.0)
      ensures baseColor == old(baseColor) && intensity == old(intensity) && shadows == old(shadows)
    {
      clippingPlanes := (clippingPlanes.0, range);
    }

    function GetClippingPlanes(): (real, real)
      reads this
    {
      clippingPlanes
    }

    method SetClippingPlanes(planes: (real, real))
      modifies this
      ensures GetClippingPlanes() == planes && GetRange() == planes.1
      ensures baseColor == old(baseColor) && intensity == old(intensity) && shadows == old(shadows)
    {
      clippingPlanes := planes;
    }

    function UseShadows(): (r: bool)
      reads this
      ensures r <==> shadows
    {
      shadows
    }

    method SetShadows(s: bool)
      modifies this
      ensures UseShadows() == s
      ensures baseColor == old(baseColor) && intensity == old(intensity) && clippingPlanes == old(clippingPlanes)
    {
      shadows := s;
    }

    method EnableShadows()
      modifies this
      ensures UseShadows()
      ensures baseColor == old(baseColor) && intensity == old(intensity) && clippingPlanes == old(clippingPlanes)
    {
      SetShadows(true);
    }

    method DissableShadows()
      modifies this
      ensures !UseShadows()
      ensures baseColor == old(baseColor) && intensity == old(intensity) && clippingPlanes == old(clippingPlanes)
    {
      SetShadows(false);
    }

    method ToggleShadows()
      modifies this
      ensures UseShadows() == !old(UseShadows())
      ensures baseColor == old(baseColor) && intensity == old(intensity) && clippingPlanes == old(clippingPlanes)
    {
      SetShadows(!shadows);
    }

    /** With the inverted depth buffer (the default) the clipping planes are
        read as (far, near), so the stored near plane lands on depth 1 and
        the range on depth 0; with DISABLE_INVERTED_Z_BUFFER they are read
        as (near, far). */
    function GetLightToProjectionMatrix(invertedZ: bool): (m: Option<LightProjection>)
      reads this
      ensures m.Some? <==> clippingPlanes.0 != clippingPlanes.1
      ensures m.Some? && clippingPlanes.0 != 0.0 && clippingPlanes.1 != 0.0 ==>
                ProjectedDepth(m.value, clippingPlanes.0) == (if invertedZ then 1.0 else 0.0) &&
                ProjectedDepth(m.value, GetRange()) == (if invertedZ then 0.0 else 1.0)
    {
      var (nearPlane, farPlane) := if invertedZ then (clippingPlanes.1, clippingPlanes.0) else clippingPlanes;
      var m := DepthProjection(nearPlane, farPlane);
      if m.Some? && nearPlane != 0.0 && farPlane != 0.0 then
        DepthRange(nearPlane, farPlane);
        m
      else m
    }
  }

  class AmbientLight {
    var baseColor: Vec3
    var radiance: real

    ghost predicate Valid()
      reads this
    {
      radiance >= 0.0
    }

    /** The constructors' bodies are not part of the model: this one takes
        both fields, the radiance through SetRadiance. */
    constructor (baseColor: Vec3, radiance: real)
      ensures this.baseColor == baseColor && this.radiance == Abs(radiance) && Valid()
    {
      this.baseColor, this.radiance := baseColor, Abs(radiance);
    }

    function GetRadiance(): (r: real)
      reads this
      requires Valid()
      ensures r >= 0.0
    {
      radiance
    }

    /** Stores the magnitude and leaves the base colour alone. */
    method SetRadiance(r: real)
      modifies this
      ensures Valid() && GetRadiance() == Abs(r) && baseColor == old(baseColor)
    {
      radiance := Abs(r);
    }

    function GetRadianceSpectrum(): (s: Vec3)
      reads this
      ensures s == Spectrum(radiance, baseColor)
    {
      Mul(Splat(radiance), baseColor)
    }

    /** Writing through the reference GetBaseColor returns leaves the
        radiance alone. */
    method SetBaseColor(c: Vec3)
      modifies this
      ensures baseColor == c && radiance == old(radiance)
    {
      baseColor := c;
    }
  }
}
