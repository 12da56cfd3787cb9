/** The graphics device as an ordered trace of the calls issued to it, with
    the OpenGL enumerants the render state passes (values as in the OpenGL
    registry's gl.xml). */
module GLDevice {
  import opened GLValues
  import opened GLObjects

  // Blend factors
  const GL_ZERO := 0
  const GL_ONE := 1
  const GL_SRC_COLOR := 0x0300
  const GL_ONE_MINUS_SRC_COLOR := 0x0301
  const GL_SRC_ALPHA := 0x0302
  const GL_ONE_MINUS_SRC_ALPHA := 0x0303
  const GL_DST_ALPHA := 0x0304
  const GL_ONE_MINUS_DST_ALPHA := 0x0305
  const GL_DST_COLOR := 0x0306
  const GL_ONE_MINUS_DST_COLOR := 0x0307

  // Blend equations
  const GL_FUNC_ADD := 0x8006
  const GL_FUNC_SUBTRACT := 0x800A
  const GL_FUNC_REVERSE_SUBTRACT := 0x800B

  // Primitive modes
  const GL_POINTS := 0x0000
  const GL_LINES := 0x0001
  const GL_TRIANGLES := 0x0004
  const GL_TRIANGLE_STRIP := 0x0005
  const GL_TRIANGLE_FAN := 0x0006

  // Comparison functions and stencil operations
  const GL_LESS := 0x0201
  const GL_EQUAL := 0x0202
  const GL_LEQUAL := 0x0203
  const GL_ALWAYS := 0x0207
  const GL_KEEP := 0x1E00
  const GL_INCR := 0x1E02
  const GL_DECR := 0x1E03

  // Capabilities
  const GL_LINE_SMOOTH := 0x0B20
  const GL_CULL_FACE := 0x0B44
  const GL_DEPTH_TEST := 0x0B71
  const GL_STENCIL_TEST := 0x0B90
  const GL_ALPHA_TEST := 0x0BC0
  const GL_SCISSOR_TEST := 0x0C11
  const GL_CLIP_DISTANCE0 := 0x3000
  const GL_CLIP_DISTANCE3 := 0x3003
  const GL_CLIP_DISTANCE4 := 0x3004
  const GL_POLYGON_OFFSET_FILL := 0x8037
  const GL_MULTISAMPLE := 0x809D
  const GL_DEPTH_CLAMP := 0x864F

  // Front faces, clear bits, index type, colour attachments
  const GL_CW := 0x0900
  const GL_CCW := 0x0901
  const GL_DEPTH_BUFFER_BIT := 0x0100
  const GL_STENCIL_BUFFER_BIT := 0x0400
  const GL_COLOR_BUFFER_BIT := 0x4000
  const GL_UNSIGNED_INT := 0x1405
  const GL_COLOR_ATTACHMENT0 := 0x8CE0
  const GL_COLOR_ATTACHMENT1 := 0x8CE1
  const GL_COLOR_ATTACHMENT2 := 0x8CE2

  /** The generic vertex attributes the render state writes directly. */
  datatype Attrib = VATTR_COLOR | VATTR_NORMAL | VATTR_FOGPARAMS

  /** One call issued to the device, or to a collaborator that talks to it
      (a material, buffer or shader bind). */
  datatype GLCall =
    | Enable(cap: int)
    | Disable(cap: int)
    | BlendFunc(sfactor: int, dfactor: int)
    | BlendEquation(mode: int)
    | AlphaFunc(func: int, threshold: Float)
    | PolygonOffset(factor: Float, units: Float)
    | DepthMask(flag: bool)
    | DepthFunc(func: int)
    | ColorMask(red: bool, green: bool, blue: bool, alpha: bool)
    | StencilFunc(func: int, ref: int, mask: int)
    | StencilOp(sfail: int, dpfail: int, dppass: int)
    | FrontFace(mode: int)
    | Scissor(x: int, y: int, w: int, h: int)
    | Viewport(x: int, y: int, w: int, h: int)
      /** glClearDepth(1) */
    | ClearDepthOne
      /** glClearStencil(0) */
    | ClearStencilZero
      /** glClearColor(0, 0, 0, 1) */
    | ClearColorOpaqueBlack
    | Clear(mask: int)
    | DrawArrays(mode: int, first: int, count: int)
    | DrawElements(mode: int, count: int, indexType: int, offset: int)
    | DrawBuffers(n: int, bufs: seq<int>)
    | Uniform1i(location: int, value: int)
    | Uniform3fv(location: int, v: seq<Float>)
    | Uniform4fv(location: int, v: seq<Float>)
      /** glUniform4f(loc, r/255, g/255, b/255, a): the bytes of the colour
          and the alpha value, before the conversion to float */
    | UniformColor(location: int, r: int, g: int, b: int, a: int)
    | VertexAttrib4f(attr: Attrib, v: seq<Float>)
    | VertexAttrib4fv(attr: Attrib, v: seq<Float>)
      /** FMaterial::Bind(cm, clampmode, translation, overrideshader) */
    | MaterialBind(mat: GLMaterial, cm: int, clampMode: int, translation: int, overrideShader: int)
      /** GLVertexBuffer::Bind(offsets) */
    | VertexBufferBind(vb: VertexBuffer, offset0: int, offset1: int)
      /** GLIndexBuffer::Bind() */
    | IndexBufferBind(ib: IndexBuffer)
      /** FShaderManager::SetActiveShader(shader), None for nullptr */
    | SetActiveShader(shader: Option<Shader>)

  /** Regrouping the pieces of a trace. */
  lemma Regroup2(log: seq<GLCall>, a: seq<GLCall>, b: seq<GLCall>)
    ensures log + a + b == log + (a + b)
  {
  }

  lemma Regroup3(log: seq<GLCall>, a: seq<GLCall>, b: seq<GLCall>, c: seq<GLCall>)
    ensures log + a + b + c == log + (a + b + c)
  {
  }

  lemma Regroup4(log: seq<GLCall>, a: seq<GLCall>, b: seq<GLCall>, c: seq<GLCall>, d: seq<GLCall>)
    ensures log + a + b + c + d == log + (a + b + c + d)
  {
  }

  lemma Regroup7(log: seq<GLCall>, a: seq<GLCall>, b: seq<GLCall>, c: seq<GLCall>, d: seq<GLCall>,
                 e: seq<GLCall>, f: seq<GLCall>, g: seq<GLCall>)
    ensures log + (a + b) + c + (d + e + f + g) == log + (a + b + c + d + e + f + g)
  {
  }

  /** The device: the calls issued so far, in order. */
  class Device {
    var log: seq<GLCall>

    constructor ()
      ensures log == []
    {
      log := [];
    }

    /** Issues one call. */
    method Call(c: GLCall)
      modifies this
      ensures log == old(log) + [c]
    {
      log := log + [c];
    }
  }
}
