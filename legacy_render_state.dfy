/** The legacy FRenderState of src/gl/renderer/gl_renderstate.h, kept for
    the older renderer code: only the setters with bodies in that header.
    The blend, alpha and equation setters either buffer their value in a
    field for a later Apply or, when the gl_direct_state_change console
    variable is set, talk to the device at once; the variable is a
    parameter here. */
module LegacyRenderState {
  import opened GLValues
  import opened GLObjects
  import opened GLDevice

  class FRenderState {
    /** The device the direct setters talk to. */
    const dev: Device

    var mLightEnabled: bool
    const mNumLights: array<int>
    var mLightData: LightData?
    var mSrcBlend: int
    var mDstBlend: int
    var mAlphaFunc: int
    var mAlphaThreshold: Float
    var mAlphaTest: bool
    var mBlendEquation: int
    var m2D: bool
    var mFogColor: PalEntry

    /** The buffered values, as one record. */
    function Buffered(): (int, int, int, Float, bool, int)
      reads this
    {
      (mSrcBlend, mDstBlend, mAlphaFunc, mAlphaThreshold, mAlphaTest, mBlendEquation)
    }

    /** The constructor calls Reset, whose body is not part of this model, so
        only the three light counts' storage is known of the new object. */
    constructor (dev: Device)
      ensures this.dev == dev
      ensures fresh(mNumLights) && mNumLights.Length == 3
    {
      this.dev := dev;
      mNumLights := new int[3];
    }

    /** BlendFunc: buffered, or glBlendFunc at once. */
    method BlendFunc(src: int, dst: int, directStateChange: bool)
      modifies this`mSrcBlend, this`mDstBlend, dev
      ensures !directStateChange ==> Buffered() == old(Buffered()).(0 := src, 1 := dst) && dev.log == old(dev.log)
      ensures directStateChange ==> Buffered() == old(Buffered()) && dev.log == old(dev.log) + [GLCall.BlendFunc(src, dst)]
    {
      if !directStateChange {
        mSrcBlend := src;
        mDstBlend := dst;
      } else {
        dev.Call(GLCall.BlendFunc(src, dst));
      }
    }

    /** AlphaFunc: buffered, or glAlphaFunc at once. */
    method AlphaFunc(func: int, thresh: Float, directStateChange: bool)
      modifies this`mAlphaFunc, this`mAlphaThreshold, dev
      ensures !directStateChange ==> Buffered() == old(Buffered()).(2 := func, 3 := thresh) && dev.log == old(dev.log)
      ensures directStateChange ==> Buffered() == old(Buffered()) && dev.log == old(dev.log) + [GLCall.AlphaFunc(func, thresh)]
    {
      if !directStateChange {
        mAlphaFunc := func;
        mAlphaThreshold := thresh;
      } else {
        dev.Call(GLCall.AlphaFunc(func, thresh));
      }
    }

    /** EnableAlphaTest: buffered, or the alpha test switched at once. */
    method EnableAlphaTest(on: bool, directStateChange: bool)
      modifies this`mAlphaTest, dev
      ensures !directStateChange ==> Buffered() == old(Buffered()).(4 := on) && dev.log == old(dev.log)
      ensures directStateChange ==> Buffered() == old(Buffered())
                                    && dev.log == old(dev.log) + [if on then Enable(GL_ALPHA_TEST) else Disable(GL_ALPHA_TEST)]
    {
      if !directStateChange {
        mAlphaTest := on;
      } else {
        if on {
          dev.Call(Enable(GL_ALPHA_TEST));
        } else {
          dev.Call(Disable(GL_ALPHA_TEST));
        }
      }
    }

    /** BlendEquation: buffered, or glBlendEquation at once. */
    method BlendEquation(eq: int, directStateChange: bool)
      modifies this`mBlendEquation, dev
      ensures !directStateChange ==> Buffered() == old(Buffered()).(5 := eq) && dev.log == old(dev.log)
      ensures directStateChange ==> Buffered() == old(Buffered()) && dev.log == old(dev.log) + [GLCall.BlendEquation(eq)]
    {
      if !directStateChange {
        mBlendEquation := eq;
      } else {
        dev.Call(GLCall.BlendEquation(eq));
      }
    }

    /** EnableLight: records the flag and nothing else. */
    method EnableLight(on: bool)
      modifies this`mLightEnabled
      ensures mLightEnabled == on
    {
      mLightEnabled := on;
    }

    /** SetLights: copies the first three light counts of the caller's array
        and keeps the caller's light data by reference. */
    method SetLights(numlights: array<int>, lightdata: LightData?)
      requires mNumLights.Length == 3 && numlights.Length >= 3
      modifies mNumLights, this`mLightData
      ensures mNumLights[..] == old(numlights[..3])
      ensures mLightData == lightdata
    {
      ghost var counts := numlights[..3];
      mNumLights[0] := numlights[0];
      mNumLights[1] := numlights[1];
      mNumLights[2] := numlights[2];
      mLightData := lightdata;
      assert mNumLights[..] == [counts[0], counts[1], counts[2]];
    }

    method Set2DMode(on: bool)
      modifies this`m2D
      ensures m2D == on
    {
      m2D := on;
    }

    function GetFogColor(): PalEntry
      reads this
    {
      mFogColor
    }
  }
}
