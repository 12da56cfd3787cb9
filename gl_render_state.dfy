/** FGLRenderState (src/common/rendering/gl/gl_renderstate.h and .cpp): the
    OpenGL backend's mirror of the requested render state.  The requested
    fields belong to the base class and are written by its setters, which
    are not part of this model; here they are public fields a caller
    assigns.  Each Apply step compares the requested value with its mirror
    and talks to the device only on a difference; every such method is
    proved to do exactly what the matching function of GLRenderRules says. */
module GLRenderState {
  import opened GLValues
  import opened StateAttr
  import opened GLObjects
  import opened GLDevice
  import opened GLRenderRules

  /** The globals ApplyShader consults: the renderer (GLRenderer, with its
      shader manager and camera), the gl_fogmode and gl_lightmode settings,
      the base class's GetTextureModeAndFlags, and the change counter of the
      stamped vectors. */
  datatype Env = Env(
    renderer: Option<Renderer>, fogMode: int, lightMode: int,
    textureModeAndFlags: int -> int, counter: ChangeCounter)
  {
    function Manager(): Option<ShaderManager> {
      if renderer.Some? then renderer.value.shaderManager else None
    }

    function ManagerShaders(): set<Shader> {
      if Manager().Some? then Manager().value.Shaders() else {}
    }

    function CameraCaches(): set<StateVec> {
      set s | s in ManagerShaders() :: s.currentcamerapos
    }
  }

  /** What ApplyShader does, decided before it runs. */
  datatype ShaderResult =
      /** no renderer or no shader manager: nothing is touched */
    | NoManager
      /** no shader resolved: the active shader is cleared */
    | Unbound(calls: seq<GLCall>)
      /** `shader` resolved; its cache becomes `cache` */
    | Bound(shader: Shader, cache: ShaderCache, cameraStamps: int, calls: seq<GLCall>)
  {
    /** The calls issued, none when there is no manager. */
    function Calls(): seq<GLCall> {
      if NoManager? then [] else calls
    }

    /** The active shader afterwards, from the one before. */
    function ActiveAfter(before: Shader?): Shader? {
      match this
      case NoManager => before
      case Unbound(_) => null
      case Bound(s, _, _, _) => s
    }

    /** The change counter afterwards, from its value before. */
    function CounterAfter(before: int): int {
      if Bound? then before + cameraStamps else before
    }
  }

  function CacheOf(s: Shader): ShaderCache
    reads s
  {
    ShaderCache(s.currentfogenabled, s.currenttexturemode, s.currentfogcolor)
  }

  /** The shader the manager picks for request `q`, if there is a manager. */
  function Selected(env: Env, q: ShaderRequest): Option<Shader> {
    if env.Manager().None? then None else SelectShader(env.Manager().value, q)
  }

  /** What ShaderOutcome depends on: the counter and the picked shader with
      its camera cache. */
  function OutcomeFrame(env: Env, q: ShaderRequest): set<object> {
    {env.counter} +
    match Selected(env, q)
    case None => {}
    case Some(s) => {s, s.currentcamerapos}
  }

  /** ApplyShader's outcome for request `q`, read off the selected shader's
      caches and the change counter.  The camera vector is Set under the
      stamp `counter + 1` and then Updated from the shader's cached vector,
      so the push happens whenever the cached stamp is not that fresh stamp,
      and what is pushed is the cached vector. */
  function ShaderOutcome(env: Env, q: ShaderRequest): ShaderResult
    reads OutcomeFrame(env, q)
  {
    if env.Manager().None? then NoManager
    else
      match SelectShader(env.Manager().value, q)
      case None => Unbound([SetActiveShader(None)] + StreamCalls(q.stream))
      case Some(s) =>
        var (cache, calls) := UniformOutcome(env, q, s);
        Bound(s, cache, if s.idx.camerapos >= 0 then 1 else 0,
              [SetActiveShader(Some(s))] + calls + StreamCalls(q.stream))
  }

  /** The uniform pushes for a resolved shader `s`, from its caches. */
  function UniformOutcome(env: Env, q: ShaderRequest, s: Shader): (ShaderCache, seq<GLCall>)
    reads s, s.currentcamerapos, env.counter
  {
    var cam := s.currentcamerapos;
    UniformStep(s.idx, CacheOf(s), cam.mLastChange != env.counter.value + 1, cam.vec,
                q, env.fogMode, env.lightMode, env.textureModeAndFlags(q.tempTM))
  }

  /** The camera push depends only on stamps: a shader cache stamped no
      later than the counter (every stamp handed out so far) always differs
      from the fresh stamp, so the camera uniform, when the shader has one,
      is pushed on every ApplyShader, and it carries the cached vector.  The
      counter is unbounded here; the source's 32-bit counter is not. */
  lemma CameraAlwaysPushed(env: Env, q: ShaderRequest)
    requires env.Manager().Some?
    requires forall s :: s in env.ManagerShaders() ==> s.currentcamerapos.StampedBy(env.counter)
    ensures var r := ShaderOutcome(env, q);
      r.Bound? && r.shader.idx.camerapos >= 0 ==>
        Uniform3fv(r.shader.idx.camerapos, r.shader.currentcamerapos.vec) in r.calls
  {
    var r := ShaderOutcome(env, q);
    if r.Bound? && r.shader.idx.camerapos >= 0 {
      var s := r.shader;
      var cam := s.currentcamerapos;
      assert cam.mLastChange != env.counter.value + 1;
      var (cache, calls) :=
        UniformStep(s.idx, CacheOf(s), true, cam.vec, q, env.fogMode, env.lightMode, env.textureModeAndFlags(q.tempTM));
      assert r.calls == [SetActiveShader(Some(s))] + calls + StreamCalls(q.stream);
      var fogPart := GateInt(s.idx.fogenabled, s.currentfogenabled, FogCode(q.fogEnabled, q.fogColor, env.fogMode)).1;
      var tmPart := GateInt(s.idx.texturemode, s.currenttexturemode, env.textureModeAndFlags(q.tempTM)).1;
      assert calls[|fogPart| + |tmPart|] == Uniform3fv(s.idx.camerapos, cam.vec);
    }
  }

  class FGLRenderState {
    /** The device every call goes to. */
    const dev: Device

    // ----- requested state (base class fields)
    var mRenderStyle: RenderStyle
    var mSplitEnabled: bool
    var mMaterial: MaterialRequest
    var mBias: Bias
    var mVertexBuffer: VertexBuffer?
    const mVertexOffsets: array<int>
    var mIndexBuffer: IndexBuffer?
    var mSpecialEffect: int
    var mTextureEnabled: bool
    var mColorMapSpecial: int
    var mLightIndex: int
    var mGlowEnabled: bool
    var mFogEnabled: bool
    var mFogColor: PalEntry
    var mLightParms: LightParms
    var mStreamData: StreamData

    // ----- this class's own fields
    var mLastDepthClamp: bool
    var mGlossiness: Float
    var mSpecularLevel: Float
    var mShaderTimer: Float
    var mEffectState: int
    var mTempTM: int
    var stRenderStyle: RenderStyle
    var stSrcBlend: int
    var stDstBlend: int
    var stAlphaTest: bool
    var stSplitEnabled: bool
    var stBlendEquation: int
    var activeShader: Shader?
    var mNumDrawBuffers: int
    var lastMaterial: GLMaterial?
    var lastClamp: int
    var lastTranslation: int
    var mCurrentVertexBuffer: VertexBuffer?
    const mCurrentVertexOffsets: array<int>
    var mCurrentIndexBuffer: IndexBuffer?

    /** Two offsets per offset array, one per binding point, and the two
        arrays are distinct. */
    predicate Valid()
    {
      mVertexOffsets.Length == 2 && mCurrentVertexOffsets.Length == 2 && mVertexOffsets != mCurrentVertexOffsets
    }

    function MirrorOf(): MaterialMirror
      reads this`lastMaterial, this`lastClamp, this`lastTranslation, this`mEffectState, this`mTempTM
    {
      MaterialMirror(MaterialCache(lastMaterial, lastClamp, lastTranslation), mEffectState, mTempTM)
    }

    function StateViewOf(): StateView
      reads this`mRenderStyle, this`mSplitEnabled, this`mMaterial, this`mBias, this`mColorMapSpecial,
            this`stRenderStyle, this`stSrcBlend, this`stDstBlend, this`stBlendEquation, this`stSplitEnabled,
            this`lastMaterial, this`lastClamp, this`lastTranslation, this`mEffectState, this`mTempTM
    {
      StateView(mRenderStyle, mSplitEnabled, mMaterial, mBias, mColorMapSpecial,
                stRenderStyle, Blend(stSrcBlend, stDstBlend, stBlendEquation), stSplitEnabled, MirrorOf())
    }

    function BufferViewOf(): BufferView
      reads this`mVertexBuffer, this`mIndexBuffer, this`mCurrentVertexBuffer, this`mCurrentIndexBuffer,
            mVertexOffsets, mCurrentVertexOffsets
      requires Valid()
    {
      BufferView(mVertexBuffer, mVertexOffsets[0], mVertexOffsets[1], mIndexBuffer,
                 mCurrentVertexBuffer, mCurrentVertexOffsets[0], mCurrentVertexOffsets[1], mCurrentIndexBuffer)
    }

    function ShaderRequestOf(): ShaderRequest
      reads this`mSpecialEffect, this`mTextureEnabled, this`mEffectState, this`mColorMapSpecial, this`mGlowEnabled,
            this`mShaderTimer, this`mLightIndex, this`mFogEnabled, this`mFogColor, this`mTempTM, this`mLightParms,
            this`mStreamData
    {
      ShaderRequest(mSpecialEffect, mTextureEnabled, mEffectState, mColorMapSpecial, mGlowEnabled,
                    mShaderTimer, mLightIndex, mFogEnabled, mFogColor, mTempTM, mLightParms, mStreamData)
    }

    /** Reset: the mirrors go to their initial values (`stSrcBlend`,
        `stDstBlend` and `stBlendEquation` to -1, the style to the default,
        depth clamp on, no active shader), both current buffers and both
        requested ones go to null and all four offsets to 0.  The base
        class's Reset is not part of this model. */
    method Reset(defaultStyle: RenderStyle)
      requires Valid()
      modifies this`mVertexBuffer, this`mCurrentVertexBuffer, this`mCurrentIndexBuffer, mVertexOffsets, mCurrentVertexOffsets
      modifies this`mGlossiness, this`mSpecularLevel, this`mShaderTimer, this`stRenderStyle, this`stSrcBlend,
               this`stDstBlend, this`stBlendEquation, this`stAlphaTest, this`mLastDepthClamp, this`mEffectState,
               this`activeShader
      ensures mVertexBuffer == null && mCurrentVertexBuffer == null && mCurrentIndexBuffer == null
      ensures mVertexOffsets[0] == 0 && mVertexOffsets[1] == 0 && mCurrentVertexOffsets[0] == 0 && mCurrentVertexOffsets[1] == 0
      ensures mGlossiness == FloatZero && mSpecularLevel == FloatZero && mShaderTimer == FloatZero
      ensures stRenderStyle == defaultStyle && stSrcBlend == -1 && stDstBlend == -1 && stBlendEquation == -1
      ensures !stAlphaTest && mLastDepthClamp && mEffectState == 0 && activeShader == null
    {
      ResetMirrors(defaultStyle);
      ResetBuffers();
    }

    /** The mirror half of Reset. */
    method ResetMirrors(defaultStyle: RenderStyle)
      modifies this`mGlossiness, this`mSpecularLevel, this`mShaderTimer, this`stRenderStyle, this`stSrcBlend,
               this`stDstBlend, this`stBlendEquation, this`stAlphaTest, this`mLastDepthClamp, this`mEffectState,
               this`activeShader
      ensures mGlossiness == FloatZero && mSpecularLevel == FloatZero && mShaderTimer == FloatZero
      ensures stRenderStyle == defaultStyle && stSrcBlend == -1 && stDstBlend == -1 && stBlendEquation == -1
      ensures !stAlphaTest && mLastDepthClamp && mEffectState == 0 && activeShader == null
    {
      mGlossiness, mSpecularLevel, mShaderTimer := FloatZero, FloatZero, FloatZero;
      stRenderStyle, stSrcBlend, stDstBlend, stBlendEquation := defaultStyle, -1, -1, -1;
      stAlphaTest, mLastDepthClamp := false, true;
      mEffectState, activeShader := 0, null;
    }

    /** The buffer half of Reset: no requested or current buffers and all
        four offsets 0. */
    method ResetBuffers()
      requires Valid()
      modifies this`mVertexBuffer, this`mCurrentVertexBuffer, this`mCurrentIndexBuffer, mVertexOffsets, mCurrentVertexOffsets
      ensures mVertexBuffer == null && mCurrentVertexBuffer == null && mCurrentIndexBuffer == null
      ensures mVertexOffsets[0] == 0 && mVertexOffsets[1] == 0 && mCurrentVertexOffsets[0] == 0 && mCurrentVertexOffsets[1] == 0
    {
      mVertexBuffer, mCurrentVertexBuffer, mCurrentIndexBuffer := null, null, null;
      mCurrentVertexOffsets[0], mVertexOffsets[0] := 0, 0;
      mCurrentVertexOffsets[1], mVertexOffsets[1] := 0, 0;
    }

    /** The constructor: the member initialisers (mTempTM normal, one draw
        buffer, no last material, clamp and translation 0), then Reset.  The
        base class's fields are left as its own Reset would leave them, which
        is not part of this model; stSplitEnabled has no initialiser. */
    constructor (dev: Device, defaultStyle: RenderStyle)
      ensures Valid() && this.dev == dev
      ensures fresh(mVertexOffsets) && fresh(mCurrentVertexOffsets)
      ensures mTempTM == TM_NORMAL && mNumDrawBuffers == 1
      ensures MirrorOf().cache == MaterialCache(null, 0, 0)
      ensures mVertexBuffer == null && mCurrentVertexBuffer == null && mCurrentIndexBuffer == null
      ensures mVertexOffsets[0] == 0 && mVertexOffsets[1] == 0 && mCurrentVertexOffsets[0] == 0 && mCurrentVertexOffsets[1] == 0
      ensures mGlossiness == FloatZero && mSpecularLevel == FloatZero
      ensures mShaderTimer == FloatZero && mEffectState == 0 && activeShader == null
      ensures stRenderStyle == defaultStyle && Blend(stSrcBlend, stDstBlend, stBlendEquation) == Blend(-1, -1, -1)
      ensures !stAlphaTest && mLastDepthClamp
    {
      this.dev := dev;
      mVertexOffsets := new int[2];
      mCurrentVertexOffsets := new int[2];
      mTempTM := TM_NORMAL;
      mNumDrawBuffers := 1;
      lastMaterial, lastClamp, lastTranslation := null, 0, 0;
      new;
      Reset(defaultStyle);
    }

    /** ClearLastMaterial: forgets the bound material, so the next
        ApplyMaterial with any material binds (GLRenderRules.ClearedCacheBinds). */
    method ClearLastMaterial()
      modifies this`lastMaterial
      ensures MirrorOf() == old(MirrorOf()).(cache := old(MirrorOf()).cache.(last := null))
    {
      lastMaterial := null;
    }

    /** ResetVertexBuffer: forgets both current buffers, so the next
        ApplyBuffers rebinds (GLRenderRules.ResetForcesRebind). */
    method ResetVertexBuffer()
      requires Valid()
      modifies this`mCurrentVertexBuffer, this`mCurrentIndexBuffer
      ensures Valid()
      ensures BufferViewOf() == old(BufferViewOf()).(curVb := null, curIb := null)
    {
      mCurrentVertexBuffer := null;
      mCurrentIndexBuffer := null;
    }

    method SetSpecular(glossiness: Float, specularLevel: Float)
      modifies this`mGlossiness, this`mSpecularLevel
      ensures mGlossiness == glossiness && mSpecularLevel == specularLevel
    {
      mGlossiness := glossiness;
      mSpecularLevel := specularLevel;
    }

    /** ApplyBlendMode: the blend state derived from the requested style goes
        to the mirror and to the device. */
    method ApplyBlendMode()
      modifies this`stSrcBlend, this`stDstBlend, this`stBlendEquation, dev
      ensures Blend(stSrcBlend, stDstBlend, stBlendEquation) == BlendFor(mRenderStyle)
      ensures dev.log == old(dev.log) + BlendCalls(BlendFor(mRenderStyle))
    {
      var srcblend := blendstyles[mRenderStyle.srcAlpha as int % STYLEALPHA_MAX];
      var dstblend := blendstyles[mRenderStyle.destAlpha as int % STYLEALPHA_MAX];
      var blendequation := renderops[mRenderStyle.blendOp as int % 16];
      if blendequation == -1 {
        srcblend := GL_DST_COLOR;
        dstblend := GL_ONE_MINUS_SRC_ALPHA;
        blendequation := GL_FUNC_ADD;
      }
      stSrcBlend := srcblend;
      stDstBlend := dstblend;
      dev.Call(BlendFunc(srcblend, dstblend));
      stBlendEquation := blendequation;
      dev.Call(GLCall.BlendEquation(blendequation));
    }

    /** ApplyMaterial: the cache comparison and bind of
        GLRenderRules.MaterialStep. */
    method ApplyMaterial(mat: GLMaterial?, clampmode: int, translation: int, overrideshader: int)
      modifies this`lastMaterial, this`lastClamp, this`lastTranslation, this`mEffectState, this`mTempTM, dev
      ensures MirrorOf() == MaterialStep(old(MirrorOf()), mColorMapSpecial, MaterialArgs(mat, clampmode, translation, overrideshader)).0
      ensures dev.log == old(dev.log) + MaterialStep(old(MirrorOf()), mColorMapSpecial, MaterialArgs(mat, clampmode, translation, overrideshader)).1
    {
      if mat == null {
        return;
      }
      if mat == lastMaterial && lastClamp == clampmode && translation == lastTranslation {
        return;
      }
      lastMaterial := mat;
      lastClamp := clampmode;
      lastTranslation := translation;
      var cm := CM_DEFAULT;
      if mColorMapSpecial > 0 {
        cm := mColorMapSpecial;
      }
      dev.Call(MaterialBind(mat, cm, clampmode, translation, overrideshader));
      mEffectState := if overrideshader >= 0 then overrideshader else 0;
      if mat.tex != null && mat.tex.bHasCanvas {
        mTempTM := TM_OPAQUE;
      } else {
        mTempTM := TM_NORMAL;
      }
    }

    /** ApplyState: GLRenderRules.ApplyStateStep on the state view, done
        as its four parts in order. */
    method ApplyState()
      modifies this`stRenderStyle, this`stSrcBlend, this`stDstBlend, this`stBlendEquation, this`stSplitEnabled,
               this`mMaterial, this`mBias,
               this`lastMaterial, this`lastClamp, this`lastTranslation, this`mEffectState, this`mTempTM, dev
      ensures StateViewOf() == ApplyStateStep(old(StateViewOf())).0
      ensures dev.log == old(dev.log) + ApplyStateStep(old(StateViewOf())).1
    {
      ghost var v0, log0 := StateViewOf(), dev.log;
      ApplyStylePart();
      ghost var v1 := StateViewOf();
      ApplySplitPart();
      ghost var v2 := StateViewOf();
      ApplyMaterialPart();
      ghost var v3 := StateViewOf();
      ApplyBiasPart();
      Regroup4(log0, StyleStep(v0).1, SplitStep(v1).1, MaterialPart(v2).1, BiasStep(v3).1);
    }

    /** The first part of ApplyState: a style whose AsDWORD differs from the
        mirrored one is applied and mirrored. */
    method ApplyStylePart()
      modifies this`stRenderStyle, this`stSrcBlend, this`stDstBlend, this`stBlendEquation, dev
      ensures StateViewOf() == StyleStep(old(StateViewOf())).0
      ensures dev.log == old(dev.log) + StyleStep(old(StateViewOf())).1
    {
      if mRenderStyle.AsDWORD() != stRenderStyle.AsDWORD() {
        ApplyBlendMode();
        stRenderStyle := mRenderStyle;
      }
    }

    /** The second part of ApplyState: clip distances 3 and 4 follow a
        changed split flag. */
    method ApplySplitPart()
      modifies this`stSplitEnabled, dev
      ensures StateViewOf() == SplitStep(old(StateViewOf())).0
      ensures dev.log == old(dev.log) + SplitStep(old(StateViewOf())).1
    {
      if mSplitEnabled != stSplitEnabled {
        if mSplitEnabled {
          dev.Call(Enable(GL_CLIP_DISTANCE3));
          dev.Call(Enable(GL_CLIP_DISTANCE4));
        } else {
          dev.Call(Disable(GL_CLIP_DISTANCE3));
          dev.Call(Disable(GL_CLIP_DISTANCE4));
        }
        stSplitEnabled := mSplitEnabled;
      }
    }

    /** The third part of ApplyState: a dirty material request is applied
        and marked clean. */
    method ApplyMaterialPart()
      modifies this`mMaterial, this`lastMaterial, this`lastClamp, this`lastTranslation, this`mEffectState, this`mTempTM, dev
      ensures StateViewOf() == MaterialPart(old(StateViewOf())).0
      ensures dev.log == old(dev.log) + MaterialPart(old(StateViewOf())).1
    {
      if mMaterial.mChanged {
        ApplyMaterial(mMaterial.mMaterial, mMaterial.mClampMode, mMaterial.mTranslation, mMaterial.mOverrideShader);
        mMaterial := mMaterial.(mChanged := false);
      }
    }

    /** The last part of ApplyState: a dirty bias sets polygon offset fill
        and the offset, and is marked clean. */
    method ApplyBiasPart()
      modifies this`mBias, dev
      ensures StateViewOf() == BiasStep(old(StateViewOf())).0
      ensures dev.log == old(dev.log) + BiasStep(old(StateViewOf())).1
    {
      if mBias.mChanged {
        if mBias.mFactor.IsZero() && mBias.mUnits.IsZero() {
          dev.Call(Disable(GL_POLYGON_OFFSET_FILL));
        } else {
          dev.Call(Enable(GL_POLYGON_OFFSET_FILL));
        }
        dev.Call(PolygonOffset(mBias.mFactor, mBias.mUnits));
        mBias := mBias.(mChanged := false);
      }
    }

    /** ApplyBuffers: GLRenderRules.ApplyBuffersStep on the buffer view; a
        rebind needs a vertex buffer, as the source asserts. */
    method ApplyBuffers()
      requires Valid() && BuffersBindable(BufferViewOf())
      modifies this`mCurrentVertexBuffer, mCurrentVertexOffsets, this`mCurrentIndexBuffer, dev
      ensures Valid()
      ensures BufferViewOf() == ApplyBuffersStep(old(BufferViewOf())).0
      ensures dev.log == old(dev.log) + ApplyBuffersStep(old(BufferViewOf())).1
    {
      if mVertexBuffer != mCurrentVertexBuffer || mVertexOffsets[0] != mCurrentVertexOffsets[0]
         || mVertexOffsets[1] != mCurrentVertexOffsets[1] {
        dev.Call(VertexBufferBind(mVertexBuffer, mVertexOffsets[0], mVertexOffsets[1]));
        mCurrentVertexBuffer := mVertexBuffer;
        mCurrentVertexOffsets[0] := mVertexOffsets[0];
        mCurrentVertexOffsets[1] := mVertexOffsets[1];
      }
      if mIndexBuffer != mCurrentIndexBuffer {
        if mIndexBuffer != null {
          dev.Call(IndexBufferBind(mIndexBuffer));
        }
        mCurrentIndexBuffer := mIndexBuffer;
      }
    }

    /** What ApplyShader leaves for the outcome `r`, given the active shader
        and the counter it started from: with no manager nothing changes;
        with no shader the active shader is cleared; with a shader it is the
        active one, its cache is the outcome's and the counter moved by the
        stamps the camera took. */
    predicate ShaderApplied(env: Env, r: ShaderResult, activeBefore: Shader?, counterBefore: int)
      reads this`activeShader, env.counter, if r.Bound? then {r.shader} else {}
    {
      && (activeShader, env.counter.value) == (r.ActiveAfter(activeBefore), r.CounterAfter(counterBefore))
      && (r.Bound? ==> CacheOf(r.shader) == r.cache)
    }

    /** The shader ApplyShader will select, as a frame: the only shader
        whose cache it may write. */
    function SelectedShader(env: Env): set<Shader>
      reads this
    {
      if env.Manager().None? then {}
      else match SelectShader(env.Manager().value, ShaderRequestOf())
        case None => {}
        case Some(s) => {s}
    }

    /** ApplyShader: selects a shader, pushes the uniforms it gates and the
        stream attributes, and answers whether a shader resolved; exactly
        ShaderOutcome of the state it starts from.  Only the selected shader's
        cache changes, and no shader's camera cache is written. */
    method ApplyShader(env: Env) returns (ok: bool)
      modifies this`activeShader, dev, env.counter, SelectedShader(env)
      ensures var r := old(ShaderOutcome(env, ShaderRequestOf()));
        && ok == r.Bound?
        && ShaderApplied(env, r, old(activeShader), old(env.counter.value))
        && dev.log == old(dev.log) + r.Calls()
    {
      if env.renderer.None? || env.renderer.value.shaderManager.None? {
        return false;
      }
      var renderer := env.renderer.value;
      var mgr := renderer.shaderManager.value;
      ghost var q := ShaderRequestOf();
      ghost var r := ShaderOutcome(env, q);
      var shader := SelectPart(mgr);
      ghost var calls: seq<GLCall>;
      if shader != null {
        assert ShaderRequestOf() == q;
        ghost var u := UniformOutcome(env, q, shader);
        ghost var logS := dev.log;
        PushUniforms(shader, env, renderer);
        assert dev.log == logS + u.1;
        calls := [SetActiveShader(Some(shader as Shader))] + u.1;
        Regroup2(old(dev.log), [SetActiveShader(Some(shader as Shader))], u.1);
        assert r == Bound(shader, u.0, if shader.idx.camerapos >= 0 then 1 else 0, calls + StreamCalls(q.stream));
      } else {
        activeShader := null;
        dev.Call(SetActiveShader(None));
        calls := [SetActiveShader(None)];
      }
      assert dev.log == old(dev.log) + calls;
      ghost var logB := dev.log;
      dev.Call(VertexAttrib4fv(VATTR_COLOR, mStreamData.uVertexColor.Elements()));
      dev.Call(VertexAttrib4fv(VATTR_NORMAL, mStreamData.uVertexNormal.Elements()));
      assert dev.log == logB + StreamCalls(q.stream);
      Regroup2(old(dev.log), calls, StreamCalls(q.stream));
      ok := shader != null;
    }

    /** The selection part of ApplyShader: BindEffect for a special effect,
        otherwise the container's Bind; a shader found becomes the active
        one. */
    method SelectPart(mgr: ShaderManager) returns (shader: Shader?)
      modifies this`activeShader, dev
      ensures shader == null <==> SelectShader(mgr, ShaderRequestOf()).None?
      ensures shader != null ==> SelectShader(mgr, ShaderRequestOf()) == Some(shader as Shader)
      ensures shader != null ==> activeShader == shader && dev.log == old(dev.log) + [SetActiveShader(Some(shader as Shader))]
      ensures shader == null ==> activeShader == old(activeShader) && dev.log == old(dev.log)
    {
      shader := null;
      if mSpecialEffect > EFF_NONE {
        if mSpecialEffect in mgr.effects {
          shader := mgr.effects[mSpecialEffect];
        }
        if shader != null {
          activeShader := shader;
          dev.Call(SetActiveShader(Some(shader)));
        }
      } else {
        var container := if mTextureEnabled then mEffectState else NoTextureContainer;
        if container in mgr.containers {
          var cm := CM_DEFAULT;
          if mColorMapSpecial > 0 {
            cm := mColorMapSpecial;
          }
          var lightEnabled := mLightIndex >= 0;
          var key := VariantKey(cm, mGlowEnabled, mShaderTimer, lightEnabled);
          if key in mgr.containers[container] {
            shader := mgr.containers[container][key];
          }
          if shader != null {
            activeShader := shader;
            dev.Call(SetActiveShader(Some(shader)));
          }
        }
      }
    }

    /** The uniform part of ApplyShader for a resolved shader: exactly
        GLRenderRules.UniformStep on its cache; the camera counts one stamp
        when the shader has a camera uniform. */
    method PushUniforms(shader: Shader, env: Env, renderer: Renderer)
      modifies shader`currentfogenabled, shader`currenttexturemode, shader`currentfogcolor, dev, env.counter
      ensures var step := old(UniformOutcome(env, ShaderRequestOf(), shader));
        CacheOf(shader) == step.0 && dev.log == old(dev.log) + step.1
      ensures env.counter.value == old(env.counter.value) + if shader.idx.camerapos >= 0 then 1 else 0
    {
      ghost var q := ShaderRequestOf();
      ghost var u := UniformOutcome(env, q, shader);
      ghost var updated := shader.currentcamerapos.mLastChange != env.counter.value + 1;
      ghost var cachedCamera := shader.currentcamerapos.vec;
      ghost var fog := GateInt(shader.idx.fogenabled, shader.currentfogenabled, FogCode(q.fogEnabled, q.fogColor, env.fogMode));
      ghost var tm := GateInt(shader.idx.texturemode, shader.currenttexturemode, env.textureModeAndFlags(q.tempTM));
      ghost var fc := GateColor(shader.idx.fogcolor, shader.currentfogcolor, q.fogColor);
      ghost var cam := CameraCalls(shader.idx, updated, cachedCamera);
      ghost var rest := LightParmsCalls(shader.idx, q.lightParms) + fc.1 + GlowCalls(shader.idx, q) + DynLightCalls(shader.idx, q, env.lightMode);
      assert u.0 == ShaderCache(fog.0, tm.0, fc.0);
      assert u.1 == fog.1 + tm.1 + cam + LightParmsCalls(shader.idx, q.lightParms) + fc.1 + GlowCalls(shader.idx, q) + DynLightCalls(shader.idx, q, env.lightMode);
      ghost var log0 := dev.log;
      PushModes(shader, env);
      assert dev.log == log0 + (fog.1 + tm.1);
      ghost var log1 := dev.log;
      PushCamera(shader, env.counter, renderer);
      assert dev.log == log1 + cam;
      ghost var log2 := dev.log;
      PushColours(shader, env.lightMode);
      assert dev.log == log2 + rest;
      Regroup7(log0, fog.1, tm.1, cam, LightParmsCalls(shader.idx, q.lightParms), fc.1, GlowCalls(shader.idx, q),
               DynLightCalls(shader.idx, q, env.lightMode));
    }

    /** The fog-enable and texture-mode uniforms, each pushed only when its
        location exists and the shader's cached value differs. */
    method PushModes(shader: Shader, env: Env)
      modifies shader`currentfogenabled, shader`currenttexturemode, dev
      ensures var fog := GateInt(shader.idx.fogenabled, old(shader.currentfogenabled), FogCode(mFogEnabled, mFogColor, env.fogMode));
              var tm := GateInt(shader.idx.texturemode, old(shader.currenttexturemode), env.textureModeAndFlags(mTempTM));
        && shader.currentfogenabled == fog.0 && shader.currenttexturemode == tm.0
        && dev.log == old(dev.log) + (fog.1 + tm.1)
    {
      var fogset := 0;
      if mFogEnabled {
        if mFogColor.RGB() == 0 {
          fogset := env.fogMode;
        } else {
          fogset := -env.fogMode;
        }
      }
      if fogset != shader.currentfogenabled && shader.idx.fogenabled >= 0 {
        shader.currentfogenabled := fogset;
        dev.Call(Uniform1i(shader.idx.fogenabled, fogset));
      }
      var textureMode := env.textureModeAndFlags(mTempTM);
      if textureMode != shader.currenttexturemode && shader.idx.texturemode >= 0 {
        shader.currenttexturemode := textureMode;
        dev.Call(Uniform1i(shader.idx.texturemode, textureMode));
      }
    }

    /** The camera uniform: a local vector is Set from the renderer's camera
        and then Updated from the shader's cached vector, which is what gets
        pushed when the stamps differ; the cache itself is never written. */
    method PushCamera(shader: Shader, counter: ChangeCounter, renderer: Renderer)
      modifies dev, counter
      ensures dev.log == old(dev.log) + CameraCalls(shader.idx, old(shader.currentcamerapos.mLastChange) != old(counter.value) + 1,
                                                    old(shader.currentcamerapos.vec))
      ensures counter.value == old(counter.value) + if shader.idx.camerapos >= 0 then 1 else 0
    {
      if shader.idx.camerapos >= 0 {
        var camPos := new StateVec();
        camPos.Set3(counter, renderer.cameraX, renderer.cameraY, renderer.cameraZ);
        var changed := camPos.Update(shader.currentcamerapos);
        if changed {
          dev.Call(Uniform3fv(shader.idx.camerapos, camPos.vec));
        }
      }
    }

    /** The light parameters (always, when the shader has the attribute),
        the fog colour (gated on the cached colour), the glow colours and the
        dynamic-light colour. */
    method PushColours(shader: Shader, lightMode: int)
      modifies shader`currentfogcolor, dev
      ensures var fc := GateColor(shader.idx.fogcolor, old(shader.currentfogcolor), mFogColor);
        && shader.currentfogcolor == fc.0
        && dev.log == old(dev.log) + (LightParmsCalls(shader.idx, mLightParms) + fc.1
                      + GlowCalls(shader.idx, ShaderRequestOf()) + DynLightCalls(shader.idx, ShaderRequestOf(), lightMode))
    {
      ghost var q := ShaderRequestOf();
      ghost var log0 := dev.log;
      ghost var fc := GateColor(shader.idx.fogcolor, shader.currentfogcolor, mFogColor);
      PushLightParms(shader);
      PushFogColour(shader);
      PushGlow(shader);
      PushDynLight(shader, lightMode);
      Regroup4(log0, LightParmsCalls(shader.idx, mLightParms), fc.1, GlowCalls(shader.idx, q), DynLightCalls(shader.idx, q, lightMode));
    }

    /** The light parameters go to the fog-parameter attribute whenever the
        shader has it. */
    method PushLightParms(shader: Shader)
      modifies dev
      ensures dev.log == old(dev.log) + LightParmsCalls(shader.idx, mLightParms)
    {
      if shader.idx.lightparms >= 0 {
        dev.Call(VertexAttrib4f(VATTR_FOGPARAMS, [mLightParms.p0, mLightParms.p1, mLightParms.p2, FloatZero]));
      }
    }

    /** The fog colour, pushed and cached when it differs from the cache. */
    method PushFogColour(shader: Shader)
      modifies shader`currentfogcolor, dev
      ensures var fc := GateColor(shader.idx.fogcolor, old(shader.currentfogcolor), mFogColor);
        && shader.currentfogcolor == fc.0 && dev.log == old(dev.log) + fc.1
    {
      var fogColor := mFogColor;
      if fogColor != shader.currentfogcolor && shader.idx.fogcolor >= 0 {
        shader.currentfogcolor := fogColor;
        dev.Call(UniformColor(shader.idx.fogcolor, fogColor.R(), fogColor.G(), fogColor.B(), 0));
      }
    }

    /** Both glow colours, when glow is on and the shader has both. */
    method PushGlow(shader: Shader)
      modifies dev
      ensures dev.log == old(dev.log) + GlowCalls(shader.idx, ShaderRequestOf())
    {
      if mGlowEnabled && shader.idx.glowtopcolor >= 0 && shader.idx.glowbottomcolor >= 0 {
        dev.Call(Uniform4fv(shader.idx.glowtopcolor, mStreamData.uGlowTopColor.Elements()));
        dev.Call(Uniform4fv(shader.idx.glowbottomcolor, mStreamData.uGlowBottomColor.Elements()));
      }
    }

    /** The dynamic-light colour, when a light list is bound and the light
        mode asks for it. */
    method PushDynLight(shader: Shader, lightMode: int)
      modifies dev
      ensures dev.log == old(dev.log) + DynLightCalls(shader.idx, ShaderRequestOf(), lightMode)
    {
      var lightEnabled := mLightIndex >= 0;
      if lightEnabled && shader.idx.dlightcolor >= 0 && lightMode == DynLightMode {
        dev.Call(Uniform3fv(shader.idx.dlightcolor, mStreamData.uDynLightColor.XYZ()));
      }
    }

    /** The calls Apply issues, from the state it started in: ApplyState's,
        then ApplyBuffers', then ApplyShader's.  ApplyShader works on the
        request as ApplyState leaves it, which is the final request (only
        ApplyMaterial writes request fields, the effect state and the texture
        mode), against the shader caches Apply started with. */
    twostate function AppliedCalls(env: Env): seq<GLCall>
      requires Valid() && old(BuffersBindable(BufferViewOf()))
      reads this, env.counter, env.ManagerShaders()
    {
      var q := ShaderRequestOf();
      old(ApplyStateStep(StateViewOf()).1 + ApplyBuffersStep(BufferViewOf()).1) + old(ShaderOutcome(env, q)).Calls()
    }

    /** The state Apply leaves, from the state it started in: both views,
        the active shader and the counter, and the selected shader's cache. */
    twostate predicate Applied(env: Env)
      requires Valid() && old(BuffersBindable(BufferViewOf()))
      reads this, mVertexOffsets, mCurrentVertexOffsets, env.counter, env.ManagerShaders()
    {
      var q := ShaderRequestOf();
      var r := old(ShaderOutcome(env, q));
      && (StateViewOf(), BufferViewOf(), activeShader, env.counter.value)
         == (old(ApplyStateStep(StateViewOf())).0, old(ApplyBuffersStep(BufferViewOf())).0,
             r.ActiveAfter(old(activeShader)), r.CounterAfter(old(env.counter.value)))
      && (r.Bound? ==> CacheOf(r.shader) == r.cache)
      && forall sh | sh in env.ManagerShaders() && !(r.Bound? && sh == r.shader) :: CacheOf(sh) == old(CacheOf(sh))
    }

    /** Apply: ApplyState, ApplyBuffers, ApplyShader in that order. */
    method Apply(env: Env)
      requires Valid() && BuffersBindable(BufferViewOf())
      modifies this`stRenderStyle, this`stSrcBlend, this`stDstBlend, this`stBlendEquation, this`stSplitEnabled,
               this`mMaterial, this`mBias,
               this`lastMaterial, this`lastClamp, this`lastTranslation, this`mEffectState, this`mTempTM,
               this`mCurrentVertexBuffer, mCurrentVertexOffsets, this`mCurrentIndexBuffer, this`activeShader,
               dev, env.counter, env.ManagerShaders()
      ensures Valid() && Applied(env)
      ensures dev.log == old(dev.log) + AppliedCalls(env)
    {
      ghost var log0 := dev.log;
      ghost var s := ApplyStateStep(StateViewOf());
      ghost var b := ApplyBuffersStep(BufferViewOf());
      ApplyStateAndBuffers(env);
      ghost var log1 := dev.log;
      ghost var q := ShaderRequestOf();
      ghost var r := ShaderOutcome(env, q);
      assert r == old(ShaderOutcome(env, q));
      var ok := ApplyShaderKeepingViews(env);
      assert ShaderRequestOf() == q;
      assert dev.log == log1 + r.Calls();
      Regroup2(log0, s.1 + b.1, r.Calls());
    }

    /** ApplyShader as Apply's third step, with the views it leaves alone. */
    method ApplyShaderKeepingViews(env: Env) returns (ok: bool)
      requires Valid()
      modifies this`activeShader, dev, env.counter, SelectedShader(env)
      ensures var r := old(ShaderOutcome(env, ShaderRequestOf()));
        && ok == r.Bound?
        && ShaderApplied(env, r, old(activeShader), old(env.counter.value))
        && dev.log == old(dev.log) + r.Calls()
        && forall sh | sh in env.ManagerShaders() && !(r.Bound? && sh == r.shader) :: CacheOf(sh) == old(CacheOf(sh))
      ensures StateViewOf() == old(StateViewOf()) && BufferViewOf() == old(BufferViewOf())
      ensures ShaderRequestOf() == old(ShaderRequestOf())
    {
      ok := ApplyShader(env);
    }

    /** The first two steps of Apply. */
    method ApplyStateAndBuffers(env: Env)
      requires Valid() && BuffersBindable(BufferViewOf())
      modifies this`stRenderStyle, this`stSrcBlend, this`stDstBlend, this`stBlendEquation, this`stSplitEnabled,
               this`mMaterial, this`mBias,
               this`lastMaterial, this`lastClamp, this`lastTranslation, this`mEffectState, this`mTempTM,
               this`mCurrentVertexBuffer, mCurrentVertexOffsets, this`mCurrentIndexBuffer, dev
      ensures Valid()
      ensures StateViewOf() == old(ApplyStateStep(StateViewOf())).0
      ensures BufferViewOf() == old(ApplyBuffersStep(BufferViewOf())).0
      ensures dev.log == old(dev.log) + old(ApplyStateStep(StateViewOf()).1 + ApplyBuffersStep(BufferViewOf()).1)
      ensures forall sh | sh in env.ManagerShaders() :: CacheOf(sh) == old(CacheOf(sh))
    {
      ghost var log0 := dev.log;
      ghost var s := ApplyStateStep(StateViewOf());
      ghost var b := ApplyBuffersStep(BufferViewOf());
      ApplyState();
      assert BufferViewOf() == old(BufferViewOf());
      ApplyBuffers();
      Regroup2(log0, s.1, b.1);
    }

    /** Nothing Apply may change has changed. */
    twostate predicate NotApplied(env: Env)
      reads this, mCurrentVertexOffsets, env.counter, env.ManagerShaders()
    {
      && unchanged(this`stRenderStyle, this`stSrcBlend, this`stDstBlend, this`stBlendEquation, this`stSplitEnabled,
                   this`mMaterial, this`mBias, this`lastMaterial, this`lastClamp, this`lastTranslation,
                   this`mEffectState, this`mTempTM, this`mCurrentVertexBuffer, this`mCurrentIndexBuffer,
                   this`activeShader)
      && unchanged(mCurrentVertexOffsets) && unchanged(env.counter)
      && forall sh | sh in env.ManagerShaders() :: unchanged(sh)
    }

    /** EnableDrawBuffers: GLRenderRules.DrawBuffersStep on mNumDrawBuffers,
        then Apply when asked. */
    method EnableDrawBuffers(count: int, apply: bool, env: Env)
      requires apply ==> Valid() && BuffersBindable(BufferViewOf())
      modifies this`stRenderStyle, this`stSrcBlend, this`stDstBlend, this`stBlendEquation, this`stSplitEnabled,
               this`mMaterial, this`mBias,
               this`lastMaterial, this`lastClamp, this`lastTranslation, this`mEffectState, this`mTempTM,
               this`mCurrentVertexBuffer, mCurrentVertexOffsets, this`mCurrentIndexBuffer, this`activeShader,
               dev, env.counter, env.ManagerShaders(), this`mNumDrawBuffers
      ensures mNumDrawBuffers == DrawBuffersStep(old(mNumDrawBuffers), count).0
      ensures apply ==> Valid() && Applied(env)
                        && dev.log == old(dev.log) + DrawBuffersStep(old(mNumDrawBuffers), count).1 + AppliedCalls(env)
      ensures !apply ==> NotApplied(env) && dev.log == old(dev.log) + DrawBuffersStep(old(mNumDrawBuffers), count).1
    {
      if apply {
        SetDrawBuffersAndApply(count, env);
      } else {
        SetDrawBuffers(count, env);
      }
    }

    /** EnableDrawBuffers with its Apply. */
    method SetDrawBuffersAndApply(count: int, env: Env)
      requires Valid() && BuffersBindable(BufferViewOf())
      modifies this`stRenderStyle, this`stSrcBlend, this`stDstBlend, this`stBlendEquation, this`stSplitEnabled,
               this`mMaterial, this`mBias,
               this`lastMaterial, this`lastClamp, this`lastTranslation, this`mEffectState, this`mTempTM,
               this`mCurrentVertexBuffer, mCurrentVertexOffsets, this`mCurrentIndexBuffer, this`activeShader,
               dev, env.counter, env.ManagerShaders(), this`mNumDrawBuffers
      ensures mNumDrawBuffers == DrawBuffersStep(old(mNumDrawBuffers), count).0
      ensures Valid() && Applied(env)
      ensures dev.log == old(dev.log) + DrawBuffersStep(old(mNumDrawBuffers), count).1 + AppliedCalls(env)
    {
      SetDrawBuffers(count, env);
      Apply(env);
    }

    /** The draw-buffer half of EnableDrawBuffers, which leaves what Apply
        reads alone. */
    method SetDrawBuffers(count: int, env: Env)
      modifies this`mNumDrawBuffers, dev
      ensures mNumDrawBuffers == DrawBuffersStep(old(mNumDrawBuffers), count).0
      ensures dev.log == old(dev.log) + DrawBuffersStep(old(mNumDrawBuffers), count).1
      ensures StateViewOf() == old(StateViewOf())
      ensures Valid() ==> BufferViewOf() == old(BufferViewOf())
      ensures forall q :: ShaderOutcome(env, q) == old(ShaderOutcome(env, q))
    {
      var n := if count < MaxDrawBuffers then count else MaxDrawBuffers;
      if mNumDrawBuffers != n {
        dev.Call(DrawBuffers(n, drawBuffers));
        mNumDrawBuffers := n;
      }
    }

    /** Draw: Apply when asked, then glDrawArrays with the mode dt2gl names. */
    method Draw(dt: int, index: int, count: int, apply: bool, env: Env)
      requires 0 <= dt < |dt2gl|
      requires apply ==> Valid() && BuffersBindable(BufferViewOf())
      modifies this`stRenderStyle, this`stSrcBlend, this`stDstBlend, this`stBlendEquation, this`stSplitEnabled,
               this`mMaterial, this`mBias,
               this`lastMaterial, this`lastClamp, this`lastTranslation, this`mEffectState, this`mTempTM,
               this`mCurrentVertexBuffer, mCurrentVertexOffsets, this`mCurrentIndexBuffer, this`activeShader,
               dev, env.counter, env.ManagerShaders()
      ensures apply ==> Valid() && Applied(env)
                        && dev.log == old(dev.log) + AppliedCalls(env) + [DrawArrays(dt2gl[dt], index, count)]
      ensures !apply ==> NotApplied(env) && dev.log == old(dev.log) + [DrawArrays(dt2gl[dt], index, count)]
    {
      if apply {
        Apply(env);
      }
      dev.Call(DrawArrays(dt2gl[dt], index, count));
    }

    /** DrawIndexed: Apply when asked, then glDrawElements over 32-bit
        indices starting at byte offset index * 4. */
    method DrawIndexed(dt: int, index: int, count: int, apply: bool, env: Env)
      requires 0 <= dt < |dt2gl|
      requires apply ==> Valid() && BuffersBindable(BufferViewOf())
      modifies this`stRenderStyle, this`stSrcBlend, this`stDstBlend, this`stBlendEquation, this`stSplitEnabled,
               this`mMaterial, this`mBias,
               this`lastMaterial, this`lastClamp, this`lastTranslation, this`mEffectState, this`mTempTM,
               this`mCurrentVertexBuffer, mCurrentVertexOffsets, this`mCurrentIndexBuffer, this`activeShader,
               dev, env.counter, env.ManagerShaders()
      ensures apply ==> Valid() && Applied(env)
                        && dev.log == old(dev.log) + AppliedCalls(env) + [DrawElements(dt2gl[dt], count, GL_UNSIGNED_INT, index * 4)]
      ensures !apply ==> NotApplied(env) && dev.log == old(dev.log) + [DrawElements(dt2gl[dt], count, GL_UNSIGNED_INT, index * 4)]
    {
      if apply {
        Apply(env);
      }
      dev.Call(DrawElements(dt2gl[dt], count, GL_UNSIGNED_INT, index * 4));
    }

    /** SetDepthClamp: switches depth clamping, records the new setting and
        answers the previous one. */
    method SetDepthClamp(on: bool) returns (res: bool)
      modifies this`mLastDepthClamp, dev
      ensures res == old(mLastDepthClamp) && mLastDepthClamp == on
      ensures dev.log == old(dev.log) + [Toggle(GL_DEPTH_CLAMP, on)]
    {
      res := mLastDepthClamp;
      if !on {
        dev.Call(Disable(GL_DEPTH_CLAMP));
      } else {
        dev.Call(Enable(GL_DEPTH_CLAMP));
      }
      mLastDepthClamp := on;
    }

    method SetDepthMask(on: bool)
      modifies dev
      ensures dev.log == old(dev.log) + [DepthMask(on)]
    {
      dev.Call(DepthMask(on));
    }

    /** SetDepthFunc: the comparison df2gl names. */
    method SetDepthFunc(func: int)
      requires 0 <= func < |df2gl|
      modifies dev
      ensures dev.log == old(dev.log) + [DepthFunc(df2gl[func])]
    {
      dev.Call(DepthFunc(df2gl[func]));
    }

    method SetColorMask(r: bool, g: bool, b: bool, a: bool)
      modifies dev
      ensures dev.log == old(dev.log) + [ColorMask(r, g, b, a)]
    {
      dev.Call(ColorMask(r, g, b, a));
    }

    /** SetStencil: GLRenderRules.StencilCalls. */
    method SetStencil(offs: int, op: int, flags: int)
      requires 0 <= op < |op2gl|
      modifies dev
      ensures dev.log == old(dev.log) + StencilCalls(offs, op, flags)
    {
      var stencilValue := 0;
      dev.Call(StencilFunc(GL_EQUAL, stencilValue + offs, -1));
      dev.Call(StencilOp(GL_KEEP, GL_KEEP, op2gl[op]));
      if flags != -1 {
        var cmon := !HasBit(flags, SF_ColorMaskOff);
        dev.Call(ColorMask(cmon, cmon, cmon, cmon));
        dev.Call(DepthMask(!HasBit(flags, SF_DepthMaskOff)));
      }
    }

    method ToggleState(state: int, on: bool)
      modifies dev
      ensures dev.log == old(dev.log) + [Toggle(state, on)]
    {
      if on {
        dev.Call(Enable(state));
      } else {
        dev.Call(Disable(state));
      }
    }

    /** SetCulling: GLRenderRules.CullCalls. */
    method SetCulling(mode: int)
      modifies dev
      ensures dev.log == old(dev.log) + CullCalls(mode)
    {
      if mode != Cull_None {
        dev.Call(Enable(GL_CULL_FACE));
        dev.Call(FrontFace(if mode == Cull_CCW then GL_CCW else GL_CW));
      } else {
        dev.Call(Disable(GL_CULL_FACE));
      }
    }

    /** EnableClipDistance: toggles clip distance `num`. */
    method EnableClipDistance(num: int, state: bool)
      modifies dev
      ensures dev.log == old(dev.log) + [Toggle(GL_CLIP_DISTANCE0 + num, state)]
    {
      ToggleState(GL_CLIP_DISTANCE0 + num, state);
    }

    /** Clear: GLRenderRules.ClearCalls; the mask is or-ed together bit by
        bit, and as the three bits are distinct each `|=` adds its bit. */
    method Clear(targets: int)
      modifies dev
      ensures dev.log == old(dev.log) + ClearCalls(targets)
    {
      ghost var log0 := dev.log;
      var gltarget := 0;
      if HasBit(targets, CT_Depth) {
        gltarget := gltarget + GL_DEPTH_BUFFER_BIT;
        dev.Call(ClearDepthOne);
      }
      ghost var depth := if HasBit(targets, CT_Depth) then [ClearDepthOne] else [];
      assert dev.log == log0 + depth;
      if HasBit(targets, CT_Stencil) {
        gltarget := gltarget + GL_STENCIL_BUFFER_BIT;
        dev.Call(ClearStencilZero);
      }
      ghost var stencil := if HasBit(targets, CT_Stencil) then [ClearStencilZero] else [];
      assert dev.log == log0 + depth + stencil;
      if HasBit(targets, CT_Color) {
        gltarget := gltarget + GL_COLOR_BUFFER_BIT;
        dev.Call(ClearColorOpaqueBlack);
      }
      ghost var color := if HasBit(targets, CT_Color) then [ClearColorOpaqueBlack] else [];
      assert dev.log == log0 + depth + stencil + color;
      assert gltarget == ClearMask(targets);
      dev.Call(GLCall.Clear(gltarget));
      Regroup4(log0, depth, stencil, color, [GLCall.Clear(gltarget)]);
    }

    method EnableStencil(on: bool)
      modifies dev
      ensures dev.log == old(dev.log) + [Toggle(GL_STENCIL_TEST, on)]
    {
      ToggleState(GL_STENCIL_TEST, on);
    }

    /** SetScissor: GLRenderRules.ScissorCalls. */
    method SetScissor(x: int, y: int, w: int, h: int)
      modifies dev
      ensures dev.log == old(dev.log) + ScissorCalls(x, y, w, h)
    {
      if w > -1 {
        dev.Call(Enable(GL_SCISSOR_TEST));
        dev.Call(Scissor(x, y, w, h));
      } else {
        dev.Call(Disable(GL_SCISSOR_TEST));
      }
    }

    method SetViewport(x: int, y: int, w: int, h: int)
      modifies dev
      ensures dev.log == old(dev.log) + [Viewport(x, y, w, h)]
    {
      dev.Call(Viewport(x, y, w, h));
    }

    method EnableDepthTest(on: bool)
      modifies dev
      ensures dev.log == old(dev.log) + [Toggle(GL_DEPTH_TEST, on)]
    {
      ToggleState(GL_DEPTH_TEST, on);
    }

    method EnableMultisampling(on: bool)
      modifies dev
      ensures dev.log == old(dev.log) + [Toggle(GL_MULTISAMPLE, on)]
    {
      ToggleState(GL_MULTISAMPLE, on);
    }

    method EnableLineSmooth(on: bool)
      modifies dev
      ensures dev.log == old(dev.log) + [Toggle(GL_LINE_SMOOTH, on)]
    {
      ToggleState(GL_LINE_SMOOTH, on);
    }
  }
}
