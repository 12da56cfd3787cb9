/** The pure side of FGLRenderState: the fixed lookup tables, and for each
    compare-then-emit step a function from the state before the step to the
    state after it and the device calls it issues.  The methods of
    GLRenderState.FGLRenderState are proved to behave as these functions
    say; the lemmas here are what the functions promise. */
module GLRenderRules {
  import opened GLValues
  import opened GLObjects
  import opened GLDevice

  /** EFF_NONE, the first enumerator of EEffect in gl/renderer/gl_renderstate.h. */
  const EFF_NONE := 0
  // Assumed values of enumerators whose headers (hw_renderstate.h,
  // renderstyle.h, gl_colormap.h) are not part of this model: the first
  // enumerator of each enum is 0 and the flag enums are powers of two in
  // declaration order; TM_OPAQUE is the third texture mode and only needs to
  // differ from TM_NORMAL; STYLEALPHA_MAX is the length of blendstyles.
  const CM_DEFAULT := 0
  const TM_NORMAL := 0
  const TM_OPAQUE := 2
  const STYLEALPHA_MAX := 10
  const Cull_None := 0
  const Cull_CCW := 1
  const Cull_CW := 2
  const CT_Depth := 1
  const CT_Stencil := 2
  const CT_Color := 4
  const SF_ColorMaskOff := 1
  const SF_DepthMaskOff := 2

  /** The shader container ApplyShader asks for when texturing is off. */
  const NoTextureContainer := 4
  /** The gl_lightmode value under which the dynamic-light colour is pushed. */
  const DynLightMode := 8
  /** The most colour attachments EnableDrawBuffers enables. */
  const MaxDrawBuffers := 3

  // ===== Render style and blending ==========================================

  /** FRenderStyle: four bytes that the code also reads as one word. */
  datatype RenderStyle = RenderStyle(blendOp: uint8, srcAlpha: uint8, destAlpha: uint8, flags: uint8) {
    /** `AsDWORD`: the four bytes as one little-endian 32-bit word. */
    function AsDWORD(): int {
      blendOp as int + 0x100 * (srcAlpha as int + 0x100 * (destAlpha as int + 0x100 * flags as int))
    }
  }

  /** One byte below a non-negative rest: both parts are recovered. */
  lemma ByteSplit(lo1: int, hi1: int, lo2: int, hi2: int)
    requires 0 <= lo1 < 0x100 && 0 <= lo2 < 0x100
    requires lo1 + 0x100 * hi1 == lo2 + 0x100 * hi2
    ensures lo1 == lo2 && hi1 == hi2
  {
  }

  /** Comparing AsDWORD is comparing the whole style. */
  lemma AsDWORDInjective(a: RenderStyle, b: RenderStyle)
    ensures a.AsDWORD() == b.AsDWORD() <==> a == b
  {
    if a.AsDWORD() == b.AsDWORD() {
      var a2, b2 := a.destAlpha as int + 0x100 * a.flags as int, b.destAlpha as int + 0x100 * b.flags as int;
      var a1, b1 := a.srcAlpha as int + 0x100 * a2, b.srcAlpha as int + 0x100 * b2;
      ByteSplit(a.blendOp as int, a1, b.blendOp as int, b1);
      ByteSplit(a.srcAlpha as int, a2, b.srcAlpha as int, b2);
      ByteSplit(a.destAlpha as int, a.flags as int, b.destAlpha as int, b.flags as int);
    }
  }

  const blendstyles: seq<int> := [
    GL_ZERO, GL_ONE, GL_SRC_ALPHA, GL_ONE_MINUS_SRC_ALPHA, GL_SRC_COLOR,
    GL_ONE_MINUS_SRC_COLOR, GL_DST_COLOR, GL_ONE_MINUS_DST_COLOR, GL_DST_ALPHA,
    GL_ONE_MINUS_DST_ALPHA]

  /** Blend equation per blend op; -1 marks the fuzz styles. */
  const renderops: seq<int> := [
    0, GL_FUNC_ADD, GL_FUNC_SUBTRACT, GL_FUNC_REVERSE_SUBTRACT, -1, -1, -1, -1,
    -1, -1, -1, -1, -1, -1, -1, -1]

  /** The three values of glBlendFunc and glBlendEquation. */
  datatype Blend = Blend(src: int, dst: int, equation: int)

  /** What a fuzz style is drawn with. */
  const FuzzBlend := Blend(GL_DST_COLOR, GL_ONE_MINUS_SRC_ALPHA, GL_FUNC_ADD)

  /** The blend state ApplyBlendMode derives from a style: the factors from
      `blendstyles[alpha % STYLEALPHA_MAX]`, the equation from
      `renderops[BlendOp & 15]` (on a byte, `& 15` is `% 16`), and FuzzBlend
      in place of all three when the equation entry is -1.  The result is
      always a real blend factor pair and never the -1 marker. */
  function BlendFor(s: RenderStyle): (b: Blend)
    ensures b.src in blendstyles && b.dst in blendstyles
    ensures b.equation in {0, GL_FUNC_ADD, GL_FUNC_SUBTRACT, GL_FUNC_REVERSE_SUBTRACT}
  {
    var srcblend := blendstyles[s.srcAlpha as int % STYLEALPHA_MAX];
    var dstblend := blendstyles[s.destAlpha as int % STYLEALPHA_MAX];
    var blendequation := renderops[s.blendOp as int % 16];
    if blendequation == -1 then FuzzBlend else Blend(srcblend, dstblend, blendequation)
  }

  /** The fuzz override: every blend op whose low four bits are 4 or more
      (and only those) is a fuzz style, and it is drawn with FuzzBlend
      whatever its nominal factors; the other ops look the three values up. */
  lemma FuzzOverride(s: RenderStyle)
    ensures renderops[s.blendOp as int % 16] == -1 <==> s.blendOp as int % 16 >= 4
    ensures s.blendOp as int % 16 >= 4 ==> BlendFor(s) == FuzzBlend
    ensures s.blendOp as int % 16 < 4 ==>
      BlendFor(s) == Blend(blendstyles[s.srcAlpha as int % STYLEALPHA_MAX],
                           blendstyles[s.destAlpha as int % STYLEALPHA_MAX],
                           renderops[s.blendOp as int % 16])
  {
  }

  /** The two calls ApplyBlendMode issues. */
  function BlendCalls(b: Blend): seq<GLCall> {
    [BlendFunc(b.src, b.dst), BlendEquation(b.equation)]
  }

  // ===== Material binding cache =============================================

  /** The last (material, clamp, translation) triple bound. */
  datatype MaterialCache = MaterialCache(last: GLMaterial?, clamp: int, translation: int)

  /** What ApplyMaterial writes: the cache, mEffectState and mTempTM. */
  datatype MaterialMirror = MaterialMirror(cache: MaterialCache, effectState: int, tempTM: int)

  /** The arguments of one ApplyMaterial call. */
  datatype MaterialArgs = MaterialArgs(mat: GLMaterial?, clampMode: int, translation: int, overrideShader: int)

  /** ApplyMaterial binds unless the material is null or the triple is the
      cached one; the override shader is not part of the key. */
  predicate NeedsBind(c: MaterialCache, a: MaterialArgs) {
    a.mat != null && !(a.mat == c.last && c.clamp == a.clampMode && a.translation == c.translation)
  }

  /** The colormap passed to FMaterial::Bind and to container Bind. */
  function ColormapFor(colorMapSpecial: int): int {
    if colorMapSpecial > 0 then colorMapSpecial else CM_DEFAULT
  }

  /** mTempTM after a bind: opaque for a camera canvas, normal otherwise. */
  function TextureModeFor(mat: GLMaterial): int {
    if mat.tex != null && mat.tex.bHasCanvas then TM_OPAQUE else TM_NORMAL
  }

  /** One ApplyMaterial step. */
  function MaterialStep(m: MaterialMirror, colorMapSpecial: int, a: MaterialArgs): (MaterialMirror, seq<GLCall>) {
    if !NeedsBind(m.cache, a) then (m, [])
    else
      (MaterialMirror(MaterialCache(a.mat, a.clampMode, a.translation),
                      if a.overrideShader >= 0 then a.overrideShader else 0,
                      TextureModeFor(a.mat)),
       [MaterialBind(a.mat, ColormapFor(colorMapSpecial), a.clampMode, a.translation, a.overrideShader)])
  }

  /** What ApplyMaterial does: a null material or the cached triple changes
      nothing and emits nothing; any other call stores the whole triple,
      issues exactly one Bind with the colormap `mColorMapSpecial > 0 ?
      mColorMapSpecial : CM_DEFAULT`, sets the effect state to the override
      shader when it is not negative and to 0 otherwise, and sets mTempTM
      to TM_OPAQUE exactly for a material whose texture is a canvas. */
  lemma MaterialStepRule(m: MaterialMirror, colorMapSpecial: int, a: MaterialArgs)
    ensures a.mat == null ==> MaterialStep(m, colorMapSpecial, a) == (m, [])
    ensures !NeedsBind(m.cache, a) ==> MaterialStep(m, colorMapSpecial, a) == (m, [])
    ensures NeedsBind(m.cache, a) ==>
      var (m', calls) := MaterialStep(m, colorMapSpecial, a);
      && m'.cache == MaterialCache(a.mat, a.clampMode, a.translation)
      && calls == [MaterialBind(a.mat, ColormapFor(colorMapSpecial), a.clampMode, a.translation, a.overrideShader)]
      && (a.overrideShader >= 0 ==> m'.effectState == a.overrideShader)
      && (a.overrideShader < 0 ==> m'.effectState == 0)
      && m'.tempTM == (if a.mat.tex != null && a.mat.tex.bHasCanvas then TM_OPAQUE else TM_NORMAL)
  {
  }

  /** Once a triple is bound (or was already), the same triple does not bind again. */
  lemma MaterialStepSettles(m: MaterialMirror, colorMapSpecial: int, a: MaterialArgs)
    ensures !NeedsBind(MaterialStep(m, colorMapSpecial, a).0.cache, a)
  {
  }

  /** The calls of a run of ApplyMaterial calls. */
  function MaterialRunCalls(m: MaterialMirror, colorMapSpecial: int, run: seq<MaterialArgs>): seq<GLCall>
    decreases |run|
  {
    if run == [] then []
    else
      var (m', calls) := MaterialStep(m, colorMapSpecial, run[0]);
      calls + MaterialRunCalls(m', colorMapSpecial, run[1..])
  }

  /** All requests of a run name the same (material, clamp, translation). */
  predicate SameTriple(run: seq<MaterialArgs>) {
    forall i :: 0 <= i < |run| ==>
      run[i].mat == run[0].mat && run[i].clampMode == run[0].clampMode && run[i].translation == run[0].translation
  }

  /** A run none of whose requests needs a bind emits nothing. */
  lemma {:induction false} SettledRunIsSilent(m: MaterialMirror, colorMapSpecial: int, run: seq<MaterialArgs>)
    requires forall i :: 0 <= i < |run| ==> !NeedsBind(m.cache, run[i])
    ensures MaterialRunCalls(m, colorMapSpecial, run) == []
    decreases |run|
  {
    if run != [] {
      assert !NeedsBind(m.cache, run[0]);
      assert MaterialStep(m, colorMapSpecial, run[0]) == (m, []);
      assert forall i :: 0 <= i < |run[1..]| ==> run[1..][i] == run[i + 1];
      SettledRunIsSilent(m, colorMapSpecial, run[1..]);
    }
  }

  /** Minimality: a run of identical triples, of any length, emits exactly
      what its first call emits, so it binds at most once (exactly once when
      the triple is new), even if the override shaders differ. */
  lemma {:induction false} IdenticalRunBindsOnce(m: MaterialMirror, colorMapSpecial: int, run: seq<MaterialArgs>)
    requires run != [] && SameTriple(run)
    ensures MaterialRunCalls(m, colorMapSpecial, run) == MaterialStep(m, colorMapSpecial, run[0]).1
    ensures |MaterialRunCalls(m, colorMapSpecial, run)| == if NeedsBind(m.cache, run[0]) then 1 else 0
  {
    var (m', calls) := MaterialStep(m, colorMapSpecial, run[0]);
    var rest := run[1..];
    forall i | 0 <= i < |rest|
      ensures !NeedsBind(m'.cache, rest[i])
    {
      assert rest[i] == run[i + 1];
    }
    SettledRunIsSilent(m', colorMapSpecial, rest);
  }

  /** After ClearLastMaterial, any non-null material binds on the next call. */
  lemma ClearedCacheBinds(m: MaterialMirror, colorMapSpecial: int, a: MaterialArgs)
    requires a.mat != null
    ensures |MaterialStep(m.(cache := m.cache.(last := null)), colorMapSpecial, a).1| == 1
  {
  }

  // ===== ApplyState ==========================================================

  /** The base class's mMaterial record. */
  datatype MaterialRequest = MaterialRequest(
    mMaterial: GLMaterial?, mClampMode: int, mTranslation: int, mOverrideShader: int, mChanged: bool)
  {
    function Args(): MaterialArgs {
      MaterialArgs(mMaterial, mClampMode, mTranslation, mOverrideShader)
    }
  }

  /** The base class's mBias record: the polygon offset. */
  datatype Bias = Bias(mFactor: Float, mUnits: Float, mChanged: bool)

  /** The fields ApplyState reads and writes: the requested style, split,
      material and bias, then the mirrored style, blend state and split and
      the material mirror. */
  datatype StateView = StateView(
    style: RenderStyle, split: bool, material: MaterialRequest, bias: Bias, colorMapSpecial: int,
    stStyle: RenderStyle, stBlend: Blend, stSplit: bool, mirror: MaterialMirror)

  /** Clip distances 3 and 4 are switched together. */
  function SplitCalls(on: bool): seq<GLCall> {
    if on then [Enable(GL_CLIP_DISTANCE3), Enable(GL_CLIP_DISTANCE4)]
    else [Disable(GL_CLIP_DISTANCE3), Disable(GL_CLIP_DISTANCE4)]
  }

  /** Polygon offset fill is off exactly for a zero bias, and the offset
      itself is always sent. */
  function BiasCalls(b: Bias): seq<GLCall> {
    [if b.mFactor.IsZero() && b.mUnits.IsZero() then Disable(GL_POLYGON_OFFSET_FILL) else Enable(GL_POLYGON_OFFSET_FILL),
     PolygonOffset(b.mFactor, b.mUnits)]
  }

  function StyleStep(v: StateView): (StateView, seq<GLCall>) {
    if v.style.AsDWORD() != v.stStyle.AsDWORD() then
      (v.(stBlend := BlendFor(v.style), stStyle := v.style), BlendCalls(BlendFor(v.style)))
    else (v, [])
  }

  function SplitStep(v: StateView): (StateView, seq<GLCall>) {
    if v.split != v.stSplit then (v.(stSplit := v.split), SplitCalls(v.split)) else (v, [])
  }

  function MaterialPart(v: StateView): (StateView, seq<GLCall>) {
    if v.material.mChanged then
      var (m, calls) := MaterialStep(v.mirror, v.colorMapSpecial, v.material.Args());
      (v.(mirror := m, material := v.material.(mChanged := false)), calls)
    else (v, [])
  }

  function BiasStep(v: StateView): (StateView, seq<GLCall>) {
    if v.bias.mChanged then (v.(bias := v.bias.(mChanged := false)), BiasCalls(v.bias)) else (v, [])
  }

  /** ApplyState: style, then split, then material, then bias.  Afterwards
      the mirrored style and split equal the requested ones, both dirty flags
      are clear and nothing requested has changed otherwise; the blend state
      is recomputed exactly when the style differed. */
  function ApplyStateStep(v: StateView): (r: (StateView, seq<GLCall>))
    ensures r.0.stStyle == v.style && r.0.stSplit == v.split
    ensures !r.0.material.mChanged && !r.0.bias.mChanged
    ensures r.0.style == v.style && r.0.split == v.split && r.0.colorMapSpecial == v.colorMapSpecial
    ensures r.0.material == v.material.(mChanged := false) && r.0.bias == v.bias.(mChanged := false)
    ensures r.0.stBlend == if v.style != v.stStyle then BlendFor(v.style) else v.stBlend
  {
    AsDWORDInjective(v.style, v.stStyle);
    var (v1, c1) := StyleStep(v);
    var (v2, c2) := SplitStep(v1);
    var (v3, c3) := MaterialPart(v2);
    var (v4, c4) := BiasStep(v3);
    (v4, c1 + c2 + c3 + c4)
  }

  /** Idempotence: a second ApplyState with nothing changed in between
      changes nothing and emits nothing. */
  lemma ApplyStateSettles(v: StateView)
    ensures ApplyStateStep(ApplyStateStep(v).0) == (ApplyStateStep(v).0, [])
  {
  }

  /** What each part of ApplyState emits, in order: the two blend calls only
      for a changed style; both clip distances only for a changed split; the
      material step only for a dirty material; the bias calls only for a
      dirty bias. */
  lemma ApplyStateCalls(v: StateView)
    ensures ApplyStateStep(v).1 ==
      (if v.style != v.stStyle then BlendCalls(BlendFor(v.style)) else [])
      + (if v.split != v.stSplit then SplitCalls(v.split) else [])
      + (if v.material.mChanged then MaterialStep(v.mirror, v.colorMapSpecial, v.material.Args()).1 else [])
      + (if v.bias.mChanged then BiasCalls(v.bias) else [])
  {
    AsDWORDInjective(v.style, v.stStyle);
  }

  /** The bias rule: polygon offset fill is disabled exactly when factor and
      units are both zero (either sign), enabled otherwise, and glPolygonOffset
      follows either way. */
  lemma BiasRule(b: Bias)
    ensures |BiasCalls(b)| == 2 && BiasCalls(b)[1] == PolygonOffset(b.mFactor, b.mUnits)
    ensures BiasCalls(b)[0] == Disable(GL_POLYGON_OFFSET_FILL) <==> b.mFactor.IsZero() && b.mUnits.IsZero()
    ensures BiasCalls(b)[0] == Enable(GL_POLYGON_OFFSET_FILL) <==> !(b.mFactor.IsZero() && b.mUnits.IsZero())
  {
  }

  // ===== ApplyBuffers ========================================================

  /** The requested vertex buffer, its two offsets and the index buffer, then
      the mirrored ones. */
  datatype BufferView = BufferView(
    vb: VertexBuffer?, off0: int, off1: int, ib: IndexBuffer?,
    curVb: VertexBuffer?, curOff0: int, curOff1: int, curIb: IndexBuffer?)

  predicate VertexRebind(v: BufferView) {
    v.vb != v.curVb || v.off0 != v.curOff0 || v.off1 != v.curOff1
  }

  /** What ApplyBuffers asserts: a rebind needs a vertex buffer. */
  predicate BuffersBindable(v: BufferView) {
    VertexRebind(v) ==> v.vb != null
  }

  /** ApplyBuffers: the vertex buffer is rebound at both offsets when it or
      either offset differs, and its three mirror fields are updated
      together; the index buffer is compared on its own and a null one is
      mirrored without a bind.  Afterwards every mirror field equals the
      requested one. */
  function ApplyBuffersStep(v: BufferView): (r: (BufferView, seq<GLCall>))
    requires BuffersBindable(v)
    ensures r.0 == v.(curVb := v.vb, curOff0 := v.off0, curOff1 := v.off1, curIb := v.ib)
    ensures r.1 ==
      (if VertexRebind(v) then [VertexBufferBind(v.vb, v.off0, v.off1)] else [])
      + (if v.ib != v.curIb && v.ib != null then [IndexBufferBind(v.ib)] else [])
  {
    var (v1, c1) :=
      if VertexRebind(v) then (v.(curVb := v.vb, curOff0 := v.off0, curOff1 := v.off1), [VertexBufferBind(v.vb, v.off0, v.off1)])
      else (v, []);
    var (v2, c2) :=
      if v1.ib != v1.curIb then (v1.(curIb := v1.ib), if v1.ib != null then [IndexBufferBind(v1.ib)] else [])
      else (v1, []);
    (v2, c1 + c2)
  }

  /** Idempotence: a repeated ApplyBuffers is a no-op. */
  lemma ApplyBuffersSettles(v: BufferView)
    requires BuffersBindable(v)
    ensures BuffersBindable(ApplyBuffersStep(v).0)
    ensures ApplyBuffersStep(ApplyBuffersStep(v).0) == (ApplyBuffersStep(v).0, [])
  {
  }

  /** After ResetVertexBuffer (both current buffers null), the next
      ApplyBuffers rebinds a non-null vertex buffer at its offsets and a
      non-null index buffer. */
  lemma ResetForcesRebind(v: BufferView)
    requires v.vb != null
    ensures BuffersBindable(v.(curVb := null, curIb := null))
    ensures var calls := ApplyBuffersStep(v.(curVb := null, curIb := null)).1;
      && calls[0] == VertexBufferBind(v.vb, v.off0, v.off1)
      && (v.ib != null ==> calls == [VertexBufferBind(v.vb, v.off0, v.off1), IndexBufferBind(v.ib)])
  {
  }

  /** After ResetVertexBuffer, a non-null index buffer is bound on the next
      ApplyBuffers whatever the vertex buffer is. */
  lemma ResetRebindsIndexBuffer(v: BufferView)
    requires BuffersBindable(v.(curVb := null, curIb := null)) && v.ib != null
    ensures IndexBufferBind(v.ib) in ApplyBuffersStep(v.(curVb := null, curIb := null)).1
  {
  }

  /** Changing either offset, or both, of the bound buffer rebinds once, at
      both new offsets. */
  lemma OffsetChangeRebindsBoth(v: BufferView, o0: int, o1: int)
    requires v.vb != null && v.curVb == v.vb && v.curIb == v.ib && v.curOff0 == v.off0 && v.curOff1 == v.off1
    requires (o0, o1) != (v.off0, v.off1)
    ensures BuffersBindable(v.(off0 := o0, off1 := o1))
    ensures ApplyBuffersStep(v.(off0 := o0, off1 := o1)).1 == [VertexBufferBind(v.vb, o0, o1)]
  {
  }

  // ===== ApplyShader =========================================================

  /** mLightParms[0..2]. */
  datatype LightParms = LightParms(p0: Float, p1: Float, p2: Float)

  /** mStreamData: the per-draw attribute and colour values. */
  datatype StreamData = StreamData(
    uVertexColor: Vec4, uVertexNormal: Vec4, uGlowTopColor: Vec4, uGlowBottomColor: Vec4, uDynLightColor: Vec4)

  /** The fields ApplyShader reads. */
  datatype ShaderRequest = ShaderRequest(
    specialEffect: int, textureEnabled: bool, effectState: int, colorMapSpecial: int,
    glowEnabled: bool, shaderTimer: Float, lightIndex: int, fogEnabled: bool,
    fogColor: PalEntry, tempTM: int, lightParms: LightParms, stream: StreamData)

  function Lookup<K, V>(m: map<K, V>, k: K): Option<V> {
    if k in m then Some(m[k]) else None
  }

  /** Shader selection: the effect shader for a special effect; otherwise
      the container for `mTextureEnabled ? mEffectState : 4`, asked for the
      variant of (colormap, glow, timer, mLightIndex >= 0).  The result is
      always one of the manager's shaders. */
  function SelectShader(mgr: ShaderManager, q: ShaderRequest): (r: Option<Shader>)
    ensures r.Some? ==> r.value in mgr.Shaders()
  {
    if q.specialEffect > EFF_NONE then Lookup(mgr.effects, q.specialEffect)
    else
      var container := if q.textureEnabled then q.effectState else NoTextureContainer;
      var key := VariantKey(ColormapFor(q.colorMapSpecial), q.glowEnabled, q.shaderTimer, q.lightIndex >= 0);
      if container in mgr.containers && key in mgr.containers[container] then
        var variants := mgr.containers[container];
        assert variants in mgr.containers.Values && variants[key] in variants.Values;
        assert variants[key] in (set c, s | c in mgr.containers.Values && s in c.Values :: s);
        Some(variants[key])
      else None
  }

  /** A shader's cached uniform values. */
  datatype ShaderCache = ShaderCache(fogenabled: int, texturemode: int, fogcolor: PalEntry)

  /** The fog-enable code: 0 without fog, `+gl_fogmode` for black fog and
      `-gl_fogmode` for any other colour. */
  function FogCode(fogEnabled: bool, fogColor: PalEntry, fogMode: int): int {
    if !fogEnabled then 0
    else if fogColor.RGB() == 0 then fogMode
    else -fogMode
  }

  /** The fog sign as written: black fog (RGB 0, whatever the alpha) gives
      the positive mode, any other colour the negated one. */
  lemma FogSign(fogEnabled: bool, fogColor: PalEntry, fogMode: int)
    ensures !fogEnabled ==> FogCode(fogEnabled, fogColor, fogMode) == 0
    ensures fogEnabled && fogColor.RGB() == 0 ==> FogCode(fogEnabled, fogColor, fogMode) == fogMode
    ensures fogEnabled && fogColor.RGB() != 0 ==> FogCode(fogEnabled, fogColor, fogMode) == -fogMode
  {
  }

  /** One cached integer uniform: it is pushed exactly when the location
      exists and the value differs from the cache, and the cache then holds
      the value. */
  function GateInt(location: int, cached: int, value: int): (r: (int, seq<GLCall>))
    ensures r.1 != [] <==> location >= 0 && value != cached
    ensures r.1 != [] ==> r.1 == [Uniform1i(location, value)] && r.0 == value
    ensures r.1 == [] ==> r.0 == cached
  {
    if value != cached && location >= 0 then (value, [Uniform1i(location, value)]) else (cached, [])
  }

  /** The fog colour uniform: pushed exactly when the location exists and
      the colour (all four bytes) differs from the cache, as its red, green
      and blue with alpha 0. */
  function GateColor(location: int, cached: PalEntry, value: PalEntry): (r: (PalEntry, seq<GLCall>))
    ensures r.1 != [] <==> location >= 0 && value != cached
    ensures r.1 != [] ==> r.1 == [UniformColor(location, value.R(), value.G(), value.B(), 0)] && r.0 == value
    ensures r.1 == [] ==> r.0 == cached
  {
    if value != cached && location >= 0 then (value, [UniformColor(location, value.R(), value.G(), value.B(), 0)])
    else (cached, [])
  }

  /** The camera uniform, pushed when the location exists and the Update
      from the shader's cache reported a change; the vector pushed is the
      one Update copied, the shader's cached one. */
  function CameraCalls(idx: UniformIndices, updated: bool, cachedCamera: seq<Float>): seq<GLCall> {
    if idx.camerapos >= 0 && updated then [Uniform3fv(idx.camerapos, cachedCamera)] else []
  }

  function LightParmsCalls(idx: UniformIndices, p: LightParms): seq<GLCall> {
    if idx.lightparms >= 0 then [VertexAttrib4f(VATTR_FOGPARAMS, [p.p0, p.p1, p.p2, FloatZero])] else []
  }

  function GlowCalls(idx: UniformIndices, q: ShaderRequest): seq<GLCall> {
    if q.glowEnabled && idx.glowtopcolor >= 0 && idx.glowbottomcolor >= 0 then
      [Uniform4fv(idx.glowtopcolor, q.stream.uGlowTopColor.Elements()),
       Uniform4fv(idx.glowbottomcolor, q.stream.uGlowBottomColor.Elements())]
    else []
  }

  function DynLightCalls(idx: UniformIndices, q: ShaderRequest, lightMode: int): seq<GLCall> {
    if q.lightIndex >= 0 && idx.dlightcolor >= 0 && lightMode == DynLightMode then
      [Uniform3fv(idx.dlightcolor, q.stream.uDynLightColor.XYZ())]
    else []
  }

  /** The uniform pushes after a shader resolved, in the code's order:
      fog code, texture mode, camera, light parameters, fog colour, glow,
      dynamic light; with the shader's updated cache. */
  function UniformStep(idx: UniformIndices, c: ShaderCache, cameraUpdated: bool, cachedCamera: seq<Float>,
                       q: ShaderRequest, fogMode: int, lightMode: int, textureMode: int): (ShaderCache, seq<GLCall>)
  {
    var (fog, c1) := GateInt(idx.fogenabled, c.fogenabled, FogCode(q.fogEnabled, q.fogColor, fogMode));
    var (tm, c2) := GateInt(idx.texturemode, c.texturemode, textureMode);
    var (fc, c5) := GateColor(idx.fogcolor, c.fogcolor, q.fogColor);
    (ShaderCache(fog, tm, fc),
     c1 + c2 + CameraCalls(idx, cameraUpdated, cachedCamera) + LightParmsCalls(idx, q.lightParms)
     + c5 + GlowCalls(idx, q) + DynLightCalls(idx, q, lightMode))
  }

  /** The pushes no cache holds back. */
  function UncachedCalls(idx: UniformIndices, cameraUpdated: bool, cachedCamera: seq<Float>,
                         q: ShaderRequest, lightMode: int): seq<GLCall> {
    CameraCalls(idx, cameraUpdated, cachedCamera) + LightParmsCalls(idx, q.lightParms)
    + GlowCalls(idx, q) + DynLightCalls(idx, q, lightMode)
  }

  /** Uniform gating: with the same inputs a second time, the fog code,
      texture mode and fog colour are not pushed again and the cache stays;
      only the uncached pushes repeat. */
  lemma UniformsSettle(idx: UniformIndices, c: ShaderCache, updated1: bool, updated2: bool, cachedCamera: seq<Float>,
                       q: ShaderRequest, fogMode: int, lightMode: int, textureMode: int)
    ensures var first := UniformStep(idx, c, updated1, cachedCamera, q, fogMode, lightMode, textureMode);
      UniformStep(idx, first.0, updated2, cachedCamera, q, fogMode, lightMode, textureMode)
        == (first.0, UncachedCalls(idx, updated2, cachedCamera, q, lightMode))
  {
    var first := UniformStep(idx, c, updated1, cachedCamera, q, fogMode, lightMode, textureMode);
    var fog := FogCode(q.fogEnabled, q.fogColor, fogMode);
    var g1 := GateInt(idx.fogenabled, first.0.fogenabled, fog);
    var g2 := GateInt(idx.texturemode, first.0.texturemode, textureMode);
    var g5 := GateColor(idx.fogcolor, first.0.fogcolor, q.fogColor);
    assert g1 == (first.0.fogenabled, []);
    assert g2 == (first.0.texturemode, []);
    assert g5 == (first.0.fogcolor, []);
    var second := UniformStep(idx, first.0, updated2, cachedCamera, q, fogMode, lightMode, textureMode);
    assert second.0 == first.0;
    assert second.1 == [] + [] + CameraCalls(idx, updated2, cachedCamera) + LightParmsCalls(idx, q.lightParms)
      + [] + GlowCalls(idx, q) + DynLightCalls(idx, q, lightMode);
    DropEmpty(CameraCalls(idx, updated2, cachedCamera), LightParmsCalls(idx, q.lightParms),
              GlowCalls(idx, q), DynLightCalls(idx, q, lightMode));
  }

  lemma DropEmpty(a: seq<GLCall>, b: seq<GLCall>, c: seq<GLCall>, d: seq<GLCall>)
    ensures [] + [] + a + b + [] + c + d == a + b + c + d
  {
    calc {
      [] + [] + a + b + [] + c + d;
      a + b + [] + c + d;
      { assert a + b + [] == a + b; }
      a + b + c + d;
    }
  }

  /** What ApplyShader issues for the stream data whatever the selection. */
  function StreamCalls(s: StreamData): seq<GLCall> {
    [VertexAttrib4fv(VATTR_COLOR, s.uVertexColor.Elements()),
     VertexAttrib4fv(VATTR_NORMAL, s.uVertexNormal.Elements())]
  }

  // ===== Smaller tables and rules ===========================================

  /** dt2gl: primitive type to GL mode. */
  const dt2gl: seq<int> := [GL_POINTS, GL_LINES, GL_TRIANGLES, GL_TRIANGLE_FAN, GL_TRIANGLE_STRIP]
  /** df2gl: depth function to GL comparison. */
  const df2gl: seq<int> := [GL_LESS, GL_LEQUAL, GL_ALWAYS]
  /** op2gl: stencil operation to GL operation. */
  const op2gl: seq<int> := [GL_KEEP, GL_INCR, GL_DECR]

  /** `x & bit` is non-zero, for a power of two `bit` and a two's-complement
      `x` (Dafny's `/` rounds down for a positive divisor). */
  predicate HasBit(x: int, bit: int)
    requires bit > 0
  {
    (x / bit) % 2 == 1
  }

  /** The mask Clear passes to glClear: each GL buffer bit is set exactly
      when its CT_ flag is set in the targets, and no other bit is. */
  function ClearMask(targets: int): (r: int)
    ensures HasBit(r, GL_DEPTH_BUFFER_BIT) <==> HasBit(targets, CT_Depth)
    ensures HasBit(r, GL_STENCIL_BUFFER_BIT) <==> HasBit(targets, CT_Stencil)
    ensures HasBit(r, GL_COLOR_BUFFER_BIT) <==> HasBit(targets, CT_Color)
    ensures r == (if HasBit(r, GL_DEPTH_BUFFER_BIT) then GL_DEPTH_BUFFER_BIT else 0)
               + (if HasBit(r, GL_STENCIL_BUFFER_BIT) then GL_STENCIL_BUFFER_BIT else 0)
               + (if HasBit(r, GL_COLOR_BUFFER_BIT) then GL_COLOR_BUFFER_BIT else 0)
  {
    (if HasBit(targets, CT_Depth) then GL_DEPTH_BUFFER_BIT else 0)
    + (if HasBit(targets, CT_Stencil) then GL_STENCIL_BUFFER_BIT else 0)
    + (if HasBit(targets, CT_Color) then GL_COLOR_BUFFER_BIT else 0)
  }

  /** The number of draw buffers EnableDrawBuffers uses: min(count, 3). */
  function DrawBufferCount(count: int): (r: int)
    ensures r <= count && r <= MaxDrawBuffers
    ensures r == count || r == MaxDrawBuffers
  {
    if count < MaxDrawBuffers then count else MaxDrawBuffers
  }

  /** The attachment list handed to glDrawBuffers. */
  const drawBuffers: seq<int> := [GL_COLOR_ATTACHMENT0, GL_COLOR_ATTACHMENT1, GL_COLOR_ATTACHMENT2]

  /** One EnableDrawBuffers step on mNumDrawBuffers. */
  function DrawBuffersStep(current: int, count: int): (int, seq<GLCall>) {
    var n := DrawBufferCount(count);
    if current != n then (n, [DrawBuffers(n, drawBuffers)]) else (current, [])
  }

  /** A repeated EnableDrawBuffers with the same count emits once; a call
      emits nothing exactly when the effective count is the stored one, so on
      a fresh object (mNumDrawBuffers 1) exactly a count of 1 emits nothing. */
  lemma DrawBuffersSettle(current: int, count: int)
    ensures DrawBuffersStep(DrawBuffersStep(current, count).0, count) == (DrawBuffersStep(current, count).0, [])
    ensures DrawBuffersStep(current, count).1 == [] <==> current == DrawBufferCount(count)
    ensures DrawBuffersStep(1, count).1 == [] <==> count == 1
  {
  }

  /** ToggleState: glEnable when on, glDisable when off. */
  function Toggle(cap: int, on: bool): (c: GLCall)
    ensures c.Enable? <==> on
    ensures c.Enable? || c.Disable?
    ensures c.cap == cap
  {
    if on then Enable(cap) else Disable(cap)
  }

  /** SetStencil: the equality test against `offs` over every bit and the
      operation on depth pass; a `flags` other than -1 also sets the colour
      mask (all four channels on exactly when SF_ColorMaskOff is clear) and
      the depth mask (on exactly when SF_DepthMaskOff is clear). */
  function StencilCalls(offs: int, op: int, flags: int): (r: seq<GLCall>)
    requires 0 <= op < |op2gl|
    ensures |r| == if flags == -1 then 2 else 4
    ensures r[0] == StencilFunc(GL_EQUAL, offs, -1)
    ensures r[1] == StencilOp(GL_KEEP, GL_KEEP, op2gl[op])
    ensures flags != -1 ==> r[2].ColorMask? && r[3].DepthMask?
    ensures flags != -1 ==> r[2].red == r[2].green == r[2].blue == r[2].alpha
    ensures flags != -1 ==> (r[2].red <==> !HasBit(flags, SF_ColorMaskOff))
    ensures flags != -1 ==> (r[3].flag <==> !HasBit(flags, SF_DepthMaskOff))
  {
    var stencilValue := 0;
    var head := [StencilFunc(GL_EQUAL, stencilValue + offs, -1), StencilOp(GL_KEEP, GL_KEEP, op2gl[op])];
    if flags != -1 then
      var cmon := !HasBit(flags, SF_ColorMaskOff);
      head + [ColorMask(cmon, cmon, cmon, cmon), DepthMask(!HasBit(flags, SF_DepthMaskOff))]
    else head
  }

  /** SetCulling: any mode but Cull_None enables face culling with the
      front face it names; Cull_None disables culling and touches nothing
      else. */
  function CullCalls(mode: int): (r: seq<GLCall>)
    ensures mode == Cull_None <==> r == [Disable(GL_CULL_FACE)]
    ensures mode != Cull_None ==> |r| == 2 && r[0] == Enable(GL_CULL_FACE) && r[1].FrontFace?
    ensures mode != Cull_None ==> (r[1].mode == GL_CCW <==> mode == Cull_CCW)
  {
    if mode != Cull_None then [Enable(GL_CULL_FACE), FrontFace(if mode == Cull_CCW then GL_CCW else GL_CW)]
    else [Disable(GL_CULL_FACE)]
  }

  /** SetScissor: a width above -1 enables the scissor test with the box;
      otherwise the test is disabled. */
  function ScissorCalls(x: int, y: int, w: int, h: int): (r: seq<GLCall>)
    ensures w > -1 <==> Enable(GL_SCISSOR_TEST) in r
    ensures w > -1 <==> Scissor(x, y, w, h) in r
    ensures w <= -1 <==> r == [Disable(GL_SCISSOR_TEST)]
  {
    if w > -1 then [Enable(GL_SCISSOR_TEST), Scissor(x, y, w, h)] else [Disable(GL_SCISSOR_TEST)]
  }

  /** Clear: a clear value for each buffer named in the targets (depth 1,
      stencil 0, opaque black), then one glClear with exactly those buffers'
      bits. */
  function ClearCalls(targets: int): (r: seq<GLCall>)
    ensures |r| >= 1 && r[|r| - 1] == Clear(ClearMask(targets))
    ensures |r| == 1 + (if HasBit(targets, CT_Depth) then 1 else 0) + (if HasBit(targets, CT_Stencil) then 1 else 0)
                     + (if HasBit(targets, CT_Color) then 1 else 0)
    ensures ClearDepthOne in r <==> HasBit(targets, CT_Depth)
    ensures ClearStencilZero in r <==> HasBit(targets, CT_Stencil)
    ensures ClearColorOpaqueBlack in r <==> HasBit(targets, CT_Color)
  {
    (if HasBit(targets, CT_Depth) then [ClearDepthOne] else [])
    + (if HasBit(targets, CT_Stencil) then [ClearStencilZero] else [])
    + (if HasBit(targets, CT_Color) then [ClearColorOpaqueBlack] else [])
    + [Clear(ClearMask(targets))]
  }
}
