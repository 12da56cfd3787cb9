/** FMaterial of src/common/textures/hw_material.h: a list of texture layers
    (the base layer first) with a few flags and accessors. */
module HWMaterial {
  import opened GLObjects

  /** CTF_Upscale, the scale flag AddTextureLayer sets. */
  const CTF_Upscale := 1

  /** MaterialLayerInfo: one texture layer and its flags. */
  datatype MaterialLayerInfo = MaterialLayerInfo(layerTexture: Texture?, scaleFlags: int, clampflags: int)

  class FMaterial {
    /** TArray<MaterialLayerInfo>, a growable array. */
    var mTextureLayers: seq<MaterialLayerInfo>
    var mShaderIndex: int
    var mLayerFlags: int
    var mScaleFlags: int
    var sourcetex: Texture?

    /** FMaterial(tex, scaleflags): its body is not part of this model, so
        only the member initialiser `mLayerFlags = 0` is known of the new
        object. */
    constructor (tex: Texture?, scaleflags: int)
      ensures GetLayerFlags() == 0
    {
      mLayerFlags := 0;
    }

    function GetLayerFlags(): int
      reads this
    {
      mLayerFlags
    }

    function GetShaderIndex(): int
      reads this
    {
      mShaderIndex
    }

    function GetScaleFlags(): int
      reads this
    {
      mScaleFlags
    }

    function Source(): Texture?
      reads this
    {
      sourcetex
    }

    function NumLayers(): int
      reads this
    {
      |mTextureLayers|
    }

    /** GetLayerArray: the layer list itself. */
    function GetLayerArray(): seq<MaterialLayerInfo>
      reads this
    {
      mTextureLayers
    }

    /** ClearLayers is `mTextureLayers.Resize(1)`: the base layer stays and
        every other layer goes; a list that was empty gets one layer whose
        fields are uninitialised. */
    method ClearLayers()
      modifies this`mTextureLayers
      ensures NumLayers() == 1
      ensures old(NumLayers()) >= 1 ==> mTextureLayers[0] == old(mTextureLayers[0])
    {
      if |mTextureLayers| >= 1 {
        mTextureLayers := mTextureLayers[..1];
      } else {
        var uninitialised: MaterialLayerInfo :| true;
        mTextureLayers := [uninitialised];
      }
    }

    /** AddTextureLayer pushes {tex, allowscale ? CTF_Upscale : 0, 0} at the
        end: one more layer and the earlier ones untouched. */
    method AddTextureLayer(tex: Texture?, allowscale: bool)
      modifies this`mTextureLayers
      ensures NumLayers() == old(NumLayers()) + 1
      ensures mTextureLayers[..old(NumLayers())] == old(mTextureLayers)
      ensures mTextureLayers[old(NumLayers())] == MaterialLayerInfo(tex, if allowscale then CTF_Upscale else 0, 0)
    {
      mTextureLayers := mTextureLayers + [MaterialLayerInfo(tex, if allowscale then CTF_Upscale else 0, 0)];
    }
  }
}
