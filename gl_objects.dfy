/** The collaborators the render state talks to but does not implement:
    textures, the engine's materials, vertex and index buffers, compiled
    shaders and the shader manager.  Each is reduced to the identity and
    the fields the render state reads or writes. */
module GLObjects {
  import opened GLValues
  import opened StateAttr

  /** A texture; the render state only asks whether it is a camera canvas. */
  class Texture {
    const bHasCanvas: bool

    constructor (hasCanvas: bool)
      ensures bHasCanvas == hasCanvas
    {
      bHasCanvas := hasCanvas;
    }
  }

  /** The engine's material (gl/textures/gl_material.h, not part of this
      model), bound through FMaterial::Bind and consulted through `tex`. */
  class GLMaterial {
    const tex: Texture?

    constructor (tex: Texture?)
      ensures this.tex == tex
    {
      this.tex := tex;
    }
  }

  /** A vertex buffer; only its identity matters here. */
  class VertexBuffer {
    constructor () { }
  }

  /** An index buffer; only its identity matters here. */
  class IndexBuffer {
    constructor () { }
  }

  /** The caller-owned light list handed to the legacy SetLights. */
  class LightData {
    constructor () { }
  }

  /** The uniform locations of one compiled shader; -1 means the variant has
      no such uniform. */
  datatype UniformIndices = UniformIndices(
    fogenabled: int, texturemode: int, camerapos: int, lightparms: int,
    fogcolor: int, glowtopcolor: int, glowbottomcolor: int, dlightcolor: int)

  /** One compiled shader variant with the values last pushed to its
      uniforms (the caches ApplyShader compares against). */
  class Shader {
    const idx: UniformIndices
    var currentfogenabled: int
    var currenttexturemode: int
    var currentfogcolor: PalEntry
    const currentcamerapos: StateVec

    /** The shader's own constructor is not part of this model: it fixes the
        locations, and its cache values are left as they come. */
    constructor (idx: UniformIndices)
      ensures this.idx == idx
      ensures fresh(currentcamerapos) && currentcamerapos.mLastChange == -1
    {
      this.idx := idx;
      currentcamerapos := new StateVec();
    }
  }

  /** The arguments of FShaderContainer::Bind that choose a variant. */
  datatype VariantKey = VariantKey(colormap: int, glow: bool, timer: Float, light: bool)

  /** The shader manager as an oracle: `effects` answers BindEffect, and
      `containers` answers Get with a container whose map answers Bind.  A
      missing key is a null result. */
  datatype ShaderManager = ShaderManager(
    effects: map<int, Shader>,
    containers: map<int, map<VariantKey, Shader>>)
  {
    /** Every shader the manager can hand out. */
    function Shaders(): set<Shader> {
      effects.Values + (set c, s | c in containers.Values && s in c.Values :: s)
    }
  }

  /** The parts of GLRenderer that the render state reads. */
  datatype Renderer = Renderer(
    shaderManager: Option<ShaderManager>,
    cameraX: Float, cameraY: Float, cameraZ: Float)
}
