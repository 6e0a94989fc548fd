/**
 * The display configuration: display mode, anti-aliasing mode, windowed or
 * full-screen, and V-sync.
 */
module Display {
  import Common

  /** The anti-aliasing modes the engine's switch statements name. */
  datatype AntiAliasing = None | FXAA | MSAA_2x | MSAA_4x | MSAA_8x | SSAA_2x | SSAA_3x | SSAA_4x

  /** Multi-sample anti-aliasing: the 2x, 4x and 8x MSAA modes. */
  predicate IsMSAA(aa: AntiAliasing)
  {
    aa == MSAA_2x || aa == MSAA_4x || aa == MSAA_8x
  }

  /** Super-sample anti-aliasing: the 2x, 3x and 4x SSAA modes. */
  predicate IsSSAA(aa: AntiAliasing)
  {
    aa == SSAA_2x || aa == SSAA_3x || aa == SSAA_4x
  }

  /** A mode is never both multi-sampled and super-sampled, every sampled mode
      is an AA mode, and FXAA is neither. */
  lemma AAClassesDisjoint(aa: AntiAliasing)
    ensures !(IsMSAA(aa) && IsSSAA(aa))
    ensures IsMSAA(aa) || IsSSAA(aa) ==> aa != None
    ensures aa == FXAA ==> !IsMSAA(aa) && !IsSSAA(aa)
    ensures aa != None <==> aa == FXAA || IsMSAA(aa) || IsSSAA(aa)
  {
  }

  /** The part of a DXGI_MODE_DESC the configuration reads. */
  datatype DisplayMode = DisplayMode(width: nat, height: nat)

  class DisplayConfiguration {
    var displayMode: DisplayMode
    var aa: AntiAliasing
    var windowed: bool
    var vsync: bool

    /** DisplayConfiguration(adapter, output, display_mode); the adapter and
        output pointers are not modelled. */
    constructor (mode: DisplayMode)
      ensures displayMode == mode
      ensures aa == None && windowed && !vsync
    {
      displayMode := mode;
      aa := None;
      windowed := true;
      vsync := false;
    }

    /** GetDisplayResolution: the width and height of the current mode. */
    function GetDisplayResolution(): (r: (nat, nat))
      reads this
      ensures r.0 == displayMode.width && r.1 == displayMode.height
    {
      (displayMode.width, displayMode.height)
    }

    /** GetSSDisplayResolution: the resolution scaled by the AA mode's
        resolution multiplier (GetResolutionMultiplier, passed in), each
        product stored as a U32. */
    function GetSSDisplayResolution(multiplier: AntiAliasing -> nat): (r: (nat, nat))
      reads this
      ensures r.0 < Common.U32_LIMIT && r.1 < Common.U32_LIMIT
      ensures multiplier(aa) * displayMode.width < Common.U32_LIMIT ==>
                r.0 == multiplier(aa) * GetDisplayResolution().0
      ensures multiplier(aa) * displayMode.height < Common.U32_LIMIT ==>
                r.1 == multiplier(aa) * GetDisplayResolution().1
    {
      (Common.ToU32(multiplier(aa) * displayMode.width), Common.ToU32(multiplier(aa) * displayMode.height))
    }

    method SetDisplayMode(mode: DisplayMode)
      modifies this
      ensures displayMode == mode && GetDisplayResolution() == (mode.width, mode.height)
      ensures aa == old(aa) && windowed == old(windowed) && vsync == old(vsync)
    {
      displayMode := mode;
    }

    function UsesAA(): (r: bool)
      reads this
      ensures r <==> aa != None
    {
      aa != None
    }

    function UsesMSAA(): (r: bool)
      reads this
      ensures r ==> UsesAA() && !UsesSSAA()
    {
      IsMSAA(aa)
    }

    function UsesSSAA(): (r: bool)
      reads this
      ensures r ==> UsesAA()
    {
      IsSSAA(aa)
    }

    method SetAA(a: AntiAliasing)
      modifies this
      ensures aa == a
      ensures displayMode == old(displayMode) && windowed == old(windowed) && vsync == old(vsync)
    {
      aa := a;
    }

    function IsFullScreen(): (r: bool)
      reads this
      ensures r <==> !windowed
    {
      !windowed
    }

    method SetWindowed(w: bool)
      modifies this
      ensures windowed == w && IsFullScreen() == !w
      ensures displayMode == old(displayMode) && aa == old(aa) && vsync == old(vsync)
    {
      windowed := w;
    }

    /** SetFullScreen(f) is SetWindowed(!f). */
    method SetFullScreen(f: bool)
      modifies this
      ensures IsFullScreen() == f && windowed == !f
      ensures displayMode == old(displayMode) && aa == old(aa) && vsync == old(vsync)
    {
      SetWindowed(!f);
    }

    method SetVSync(v: bool)
      modifies this
      ensures vsync == v
      ensures displayMode == old(displayMode) && aa == old(aa) && windowed == old(windowed)
    {
      vsync := v;
    }
  }
}
