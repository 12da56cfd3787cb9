# GZDoom-style OpenGL render-state mirror, modelled in Dafny

This project models the render-state mirror of the OpenGL backend. It covers:

- `FGLRenderState` (`src/common/rendering/gl/gl_renderstate.cpp` and `.h`);
- the change-stamped values `FStateAttr` / `FStateVec3` / `FStateVec4`;
- the legacy `FRenderState` setters (`src/gl/renderer/gl_renderstate.h`);
- the texture-layer list of `FMaterial` (`src/common/textures/hw_material.h`).

The render state keeps a software copy of what it last sent to the device. It talks to the device only when a requested value differs from that copy. The OpenGL device is a `Device` object whose `log` is the ordered trace of calls issued to it (`GLDevice.GLCall`). Calls into the collaborators (material bind, vertex and index buffer bind, `SetActiveShader`) are trace events too.

Every `Apply*` method of `FGLRenderState` is an imperative method on the class's fields, proved against a specification of its new mirror and of the calls it appends to the trace:

- `ApplyState`, `ApplyBlendMode`, `ApplyMaterial` and `ApplyBuffers` do exactly what a pure step function of `GLRenderRules` says;
- `ApplyShader` does what `GLRenderState.ShaderOutcome` says, a function of the selected shader's caches and the change counter, which reads the heap;
- `Apply` is specified by the two-state predicates `Applied` and `AppliedCalls`, which compose the three steps.

The properties the code promises are proved as lemmas about those specifications:

- the material cache binds a run of identical triples once;
- `ApplyState` and `ApplyBuffers` are idempotent;
- `ResetVertexBuffer` forces a rebind;
- the blend-mode table has its fuzz override;
- uniforms are gated by the per-shader caches;
- the fog sign is as written;
- the camera push happens on every call (with the counter unbounded, see below).

Modules:

- `GLValues`: floats as their 32-bit patterns, `PalEntry`, `Option`.
- `StateAttr`: `ChangeCounter` (the static counter shared by all stamped values, as an explicit object) and `StateVec`.
- `GLObjects`: textures, materials, buffers, shaders with their uniform indices and caches, and the shader manager as a map-based oracle.
- `GLDevice`: the GL enumerants, the call trace and the device.
- `GLRenderRules`: tables and specification functions, with their lemmas.
- `GLRenderState`: the `FGLRenderState` class.
- `LegacyRenderState`: the legacy `FRenderState` setters.
- `HWMaterial`: the `FMaterial` layer list.

Globals become inputs:

- `gl_fogmode` and `gl_lightmode` are fields of `GLRenderState.Env`, and so are the renderer with its shader manager, the base class's `GetTextureModeAndFlags`, and the change counter.
- `gl_direct_state_change` is a parameter of each legacy setter.
- `DefaultRenderStyle()` is a parameter of `Reset` and of the constructor.
- The requested-state fields of the base class `HardwareRenderer::FRenderState` become public fields of `FGLRenderState`, which a caller assigns.

Three behaviours of the code that a reader might not expect, modelled as written:

- **Fog sign.** Black fog (RGB 0) gives `+gl_fogmode` and any other colour gives `-gl_fogmode` (`gl_renderstate.cpp:154-161`). `GLRenderRules.FogSign` states this rule.
- **Camera position.** `camPos.Update(&shader->currentcamerapos)` copies the shader's cached vector into the local one. So the vector pushed is the cached one, and the cache is never written. A fresh `Set` stamp never equals a stamp already handed out, so the push happens on every `ApplyShader` whose shader has the uniform. `GLRenderState.CameraAlwaysPushed` states this for the unbounded counter of the model. The source's counter is a 32-bit `int`; see `CameraAlwaysPushed` under "## Left out".
- **Apply twice.** A repeated `Apply` with nothing changed is not a no-op. `ApplyState` and `ApplyBuffers` settle (`ApplyStateSettles`, `ApplyBuffersSettles`), and the cached uniforms settle (`UniformsSettle`). But `ApplyShader` re-issues `SetActiveShader`, both stream vertex attributes, the camera, the light parameters, the glow colours and the dynamic light on every call.

## Model

| member | source | states |
|---|---|---|
| StateAttr.ChangeCounter.constructor | src/gl/renderer/gl_renderstate.h:18 | the shared counter, a static int, starts at 0 |
| StateAttr.StateVec.constructor | src/gl/renderer/gl_renderstate.h:21-24 | a default stamped value has stamp -1 |
| StateAttr.StampsOnly | src/gl/renderer/gl_renderstate.h:26-34 | `==` holds exactly when the stamps agree, whatever the components; `!=` is its negation |
| StateAttr.StateVec.Set3 | src/gl/renderer/gl_renderstate.h:52-58 | stores (x, z, y) with Y and Z swapped; the counter goes up by one and the stamp is its new value |
| StateAttr.StateVec.Set4 | src/gl/renderer/gl_renderstate.h:75-82 | stores the four components in the order given under the fresh stamp |
| StateAttr.StateVec.Update | src/gl/renderer/gl_renderstate.h:42-50 | reports a change exactly when the stamps differ, and then becomes an exact copy of the other value (components and stamp); otherwise nothing changes; the other value is never written |
| StateAttr.RepeatedSetIsAChange | src/gl/renderer/gl_renderstate.h:52-58 | two Sets of identical components take strictly increasing stamps, and an Update after each reports a change both times |
| StateAttr.UpdateTwice | src/gl/renderer/gl_renderstate.h:42-50 | an immediate second Update from the same source reports no change, and the two values then compare equal |
| GLRenderRules.AsDWORDInjective | src/common/rendering/gl/gl_renderstate.cpp:250 | two render styles with the same AsDWORD are the same style, so the AsDWORD comparison detects every style change |
| GLRenderRules.BlendFor | src/common/rendering/gl/gl_renderstate.cpp:368-384 | the blend derived from a style always has factors from the blendstyles table and an equation from the renderops table (0, GL_FUNC_ADD, GL_FUNC_SUBTRACT or GL_FUNC_REVERSE_SUBTRACT), never the -1 marker |
| GLRenderRules.FuzzOverride | src/common/rendering/gl/gl_renderstate.cpp:369-381 | the ops whose low four bits are 4 or more are exactly the -1 (fuzz) entries, and they get (GL_DST_COLOR, GL_ONE_MINUS_SRC_ALPHA, GL_FUNC_ADD); the others take the three table lookups |
| GLRenderState.FGLRenderState.ApplyBlendMode | src/common/rendering/gl/gl_renderstate.cpp:366-389 | the blend mirrors equal the blend derived from the requested style, and exactly one glBlendFunc and one glBlendEquation carrying those values are issued |
| GLRenderRules.MaterialStepRule | src/common/rendering/gl/gl_renderstate.cpp:325-357 | a null material or the cached (material, clamp, translation) changes nothing and issues nothing; otherwise the whole triple is cached, one Bind is issued with colormap `mColorMapSpecial > 0 ? mColorMapSpecial : CM_DEFAULT`, the effect state becomes the override shader if not negative and else 0, and mTempTM becomes TM_OPAQUE for a canvas texture and TM_NORMAL otherwise |
| GLRenderRules.MaterialStepSettles | src/common/rendering/gl/gl_renderstate.cpp:329-333 | once a triple has been applied, the same triple needs no bind |
| GLRenderRules.SettledRunIsSilent | src/common/rendering/gl/gl_renderstate.cpp:329-333 | a run of calls none of which needs a bind issues nothing |
| GLRenderRules.IdenticalRunBindsOnce | src/common/rendering/gl/gl_renderstate.cpp:325-342 | a run of identical triples, of any length and with any override shaders, issues exactly what its first call issues: one Bind if the triple is new, none otherwise |
| GLRenderRules.ClearedCacheBinds | src/common/rendering/gl/gl_renderstate.h:95-98 | once the cached material is cleared, any non-null material binds on the next call |
| GLRenderState.FGLRenderState.ApplyMaterial | src/common/rendering/gl/gl_renderstate.cpp:322-358 | the new mirror and the calls are those of the material step, from the old mirror and the arguments |
| GLRenderRules.ApplyStateStep | src/common/rendering/gl/gl_renderstate.cpp:247-290 | afterwards the mirrored style and split equal the requested ones, both dirty flags are clear, nothing requested changes otherwise, and the blend state is recomputed exactly when the style differed |
| GLRenderRules.ApplyStateCalls | src/common/rendering/gl/gl_renderstate.cpp:250-289 | the calls are, in order: the two blend calls only for a changed style; both clip distances 3 and 4 only for a changed split; the material step only for a dirty material; the bias calls only for a dirty bias |
| GLRenderRules.ApplyStateSettles | src/common/rendering/gl/gl_renderstate.cpp:247-290 | a second ApplyState with nothing changed in between changes nothing and issues nothing |
| GLRenderRules.BiasRule | src/common/rendering/gl/gl_renderstate.cpp:277-288 | a dirty bias disables polygon offset fill exactly when factor and units are both zero, enables it otherwise, and always issues glPolygonOffset |
| GLRenderState.FGLRenderState.ApplyState | src/common/rendering/gl/gl_renderstate.cpp:247-290 | the new state view and the calls are those of the ApplyState step from the old view |
| GLRenderRules.ApplyBuffersStep | src/common/rendering/gl/gl_renderstate.cpp:292-307 | a vertex rebind at both offsets exactly when the buffer or either offset differs; an index bind exactly when the index buffer differs and is not null; afterwards every mirror field equals its requested one, a null index buffer included |
| GLRenderRules.ApplyBuffersSettles | src/common/rendering/gl/gl_renderstate.cpp:292-307 | a repeated ApplyBuffers is a no-op |
| GLRenderRules.ResetForcesRebind | src/common/rendering/gl/gl_renderstate.h:106-111 | after both current buffers are nulled, the next ApplyBuffers rebinds a non-null vertex buffer at its offsets, and a non-null index buffer too |
| GLRenderRules.ResetRebindsIndexBuffer | src/common/rendering/gl/gl_renderstate.cpp:302-305 | after both current buffers are nulled, the next ApplyBuffers binds a non-null index buffer whatever the vertex buffer is |
| GLRenderRules.OffsetChangeRebindsBoth | src/common/rendering/gl/gl_renderstate.cpp:294-300 | changing either offset, or both, of the bound vertex buffer rebinds it once, at both new offsets |
| GLRenderState.FGLRenderState.ApplyBuffers | src/common/rendering/gl/gl_renderstate.cpp:292-307 | the new buffer view and the calls are those of the ApplyBuffers step; it needs a vertex buffer whenever it rebinds, as the code asserts |
| GLRenderRules.SelectShader | src/common/rendering/gl/gl_renderstate.cpp:110-145 | a special effect takes its effect shader; otherwise the container `mTextureEnabled ? mEffectState : 4` is asked for the variant (colormap, glow, timer, `mLightIndex >= 0`); the result is always one of the manager's shaders |
| GLRenderState.FGLRenderState.SelectPart | src/common/rendering/gl/gl_renderstate.cpp:110-145 | a shader results exactly when the selection finds one; it becomes active and goes to SetActiveShader, and nothing happens without one |
| GLRenderRules.FogSign | src/common/rendering/gl/gl_renderstate.cpp:150-161 | the fog code is 0 without fog, +gl_fogmode for black fog and -gl_fogmode for any other colour |
| GLRenderRules.GateInt | src/common/rendering/gl/gl_renderstate.cpp:164-175 | an integer uniform is pushed exactly when its location exists and the value differs from the cache, and the cache then holds the value |
| GLRenderRules.GateColor | src/common/rendering/gl/gl_renderstate.cpp:204-211 | the fog colour is pushed exactly when its location exists and the colour differs from the cache, as its red, green and blue bytes with alpha 0, and the cache then holds it |
| GLRenderRules.UniformsSettle | src/common/rendering/gl/gl_renderstate.cpp:150-225 | pushing the same inputs again leaves the cache as it is and repeats only the uncached pushes (camera, light parameters, glow, dynamic light) |
| GLRenderState.FGLRenderState.PushModes | src/common/rendering/gl/gl_renderstate.cpp:150-175 | the fog-enable and texture-mode caches and calls are those of the two gates |
| GLRenderState.FGLRenderState.PushCamera | src/common/rendering/gl/gl_renderstate.cpp:177-194 | the camera call is issued when the uniform exists and the shader's cached stamp is not the fresh one, it carries the cached vector, the counter moves by one exactly when the uniform exists, and the shader's cache is not written |
| GLRenderState.FGLRenderState.PushLightParms | src/common/rendering/gl/gl_renderstate.cpp:196-202 | the light parameters go to the fog-parameter attribute whenever the shader has that uniform |
| GLRenderState.FGLRenderState.PushFogColour | src/common/rendering/gl/gl_renderstate.cpp:204-211 | the fog-colour cache and call are those of the colour gate |
| GLRenderState.FGLRenderState.PushGlow | src/common/rendering/gl/gl_renderstate.cpp:213-218 | both glow colours are pushed when glow is on and the shader has both uniforms |
| GLRenderState.FGLRenderState.PushDynLight | src/common/rendering/gl/gl_renderstate.cpp:220-225 | the dynamic-light colour is pushed when a light list is bound, the shader has the uniform and gl_lightmode is 8 |
| GLRenderState.FGLRenderState.PushColours | src/common/rendering/gl/gl_renderstate.cpp:196-225 | light parameters, fog colour, glow and dynamic light, in that order |
| GLRenderState.FGLRenderState.PushUniforms | src/common/rendering/gl/gl_renderstate.cpp:150-225 | the new shader cache and the calls are those of the uniform step for the resolved shader, and the counter moves as the camera Set demands |
| GLRenderState.CameraAlwaysPushed | src/common/rendering/gl/gl_renderstate.cpp:177-194 | with every shader cache stamped no later than the counter, a resolved shader with a camera uniform always receives the camera push (the counter being unbounded), carrying its own cached vector |
| GLRenderState.FGLRenderState.ApplyShader | src/common/rendering/gl/gl_renderstate.cpp:102-239 | false and no effect without a renderer or shader manager; an unresolved shader clears the active shader; true exactly when a shader resolved, which becomes active with its uniforms gated; the stream attributes are issued whenever there is a manager |
| GLRenderState.FGLRenderState.Apply | src/common/rendering/gl/gl_renderstate.cpp:309-314 | ApplyState, then ApplyBuffers, then ApplyShader: the state and buffer views are their steps' results, the shader result is ApplyShader's, every manager shader it did not select is untouched, and the calls are the three steps' calls in order |
| GLRenderState.FGLRenderState.constructor | src/common/rendering/gl/gl_renderstate.h:58-91 | the member initialisers (mTempTM normal, one draw buffer, an empty material cache), then Reset's defaults (null buffers and zero offsets, blend mirrors -1, the default style, depth clamp on, zero timer, glossiness and specular level, effect state 0, no active shader, alpha test off) |
| GLRenderState.FGLRenderState.Reset | src/common/rendering/gl/gl_renderstate.cpp:76-93 | the requested vertex buffer and both current buffers null and all four offsets 0, blend mirrors -1, the default style, depth clamp on, effect state 0, no active shader, alpha test off, zero timer and specular values |
| GLRenderState.FGLRenderState.ClearLastMaterial | src/common/rendering/gl/gl_renderstate.h:95-98 | only the cached material becomes null |
| GLRenderState.FGLRenderState.ResetVertexBuffer | src/common/rendering/gl/gl_renderstate.h:106-111 | only the two current-buffer mirrors become null |
| GLRenderState.FGLRenderState.SetSpecular | src/common/rendering/gl/gl_renderstate.h:113-117 | stores glossiness and specular level |
| GLRenderRules.DrawBufferCount | src/common/rendering/gl/gl_renderstate.h:121 | the effective count is min(count, 3) |
| GLRenderRules.DrawBuffersSettle | src/common/rendering/gl/gl_renderstate.h:119-128 | a repeated call with the same count issues nothing the second time; a call issues nothing exactly when min(count, 3) is the stored count, so on a fresh object exactly a count of 1 issues nothing |
| GLRenderState.FGLRenderState.EnableDrawBuffers | src/common/rendering/gl/gl_renderstate.h:119-129 | glDrawBuffers only when the effective count differs from the stored one, which then takes it; Apply when asked, and otherwise nothing Apply would touch changes |
| GLRenderState.FGLRenderState.Draw | src/common/rendering/gl/gl_renderstate.cpp:399-406 | Apply when asked, then glDrawArrays with the mode the topology table names |
| GLRenderState.FGLRenderState.DrawIndexed | src/common/rendering/gl/gl_renderstate.cpp:408-415 | Apply when asked, then glDrawElements with 32-bit indices at byte offset `index * 4` |
| GLRenderState.FGLRenderState.SetDepthClamp | src/common/rendering/gl/gl_renderstate.cpp:581-588 | switches depth clamping, records the new setting and returns the previous one |
| GLRenderState.FGLRenderState.SetDepthMask | src/common/rendering/gl/gl_renderstate.cpp:417-420 | one glDepthMask |
| GLRenderState.FGLRenderState.SetDepthFunc | src/common/rendering/gl/gl_renderstate.cpp:422-426 | one glDepthFunc with the comparison the depth-function table names |
| GLRenderState.FGLRenderState.SetColorMask | src/common/rendering/gl/gl_renderstate.cpp:433-436 | one glColorMask |
| GLRenderRules.StencilCalls | src/common/rendering/gl/gl_renderstate.cpp:438-455 | an equality test against the offset over every bit and the table operation on depth pass; a flags value other than -1 adds a colour mask (all four channels on exactly when SF_ColorMaskOff is clear) and a depth mask (on exactly when SF_DepthMaskOff is clear) |
| GLRenderState.FGLRenderState.SetStencil | src/common/rendering/gl/gl_renderstate.cpp:438-455 | issues the stencil calls |
| GLRenderRules.Toggle | src/common/rendering/gl/gl_renderstate.cpp:457-467 | glEnable exactly when on, glDisable otherwise, of the capability named |
| GLRenderState.FGLRenderState.ToggleState | src/common/rendering/gl/gl_renderstate.cpp:457-467 | one toggle of the capability |
| GLRenderRules.CullCalls | src/common/rendering/gl/gl_renderstate.cpp:469-480 | Cull_None (and only it) disables culling and does nothing else; any other mode enables culling with front face GL_CCW exactly for Cull_CCW and GL_CW otherwise |
| GLRenderState.FGLRenderState.SetCulling | src/common/rendering/gl/gl_renderstate.cpp:469-480 | issues the culling calls |
| GLRenderState.FGLRenderState.EnableClipDistance | src/common/rendering/gl/gl_renderstate.cpp:482-487 | toggles clip distance `num` |
| GLRenderRules.ClearMask | src/common/rendering/gl/gl_renderstate.cpp:492-509 | each GL buffer bit is set exactly when its CT_ flag is in the targets, and no other bit is set |
| GLRenderRules.ClearCalls | src/common/rendering/gl/gl_renderstate.cpp:489-510 | a clear value for exactly the buffers named (depth 1, stencil 0, opaque black), then one glClear with the matching mask: exactly one call per named buffer plus the glClear |
| GLRenderState.FGLRenderState.Clear | src/common/rendering/gl/gl_renderstate.cpp:489-510 | the mask built bit by bit, with the clear calls |
| GLRenderState.FGLRenderState.EnableStencil | src/common/rendering/gl/gl_renderstate.cpp:512-515 | toggles the stencil test |
| GLRenderRules.ScissorCalls | src/common/rendering/gl/gl_renderstate.cpp:517-528 | a width above -1 enables the scissor test with the box, any other width only disables it |
| GLRenderState.FGLRenderState.SetScissor | src/common/rendering/gl/gl_renderstate.cpp:517-528 | issues the scissor calls |
| GLRenderState.FGLRenderState.SetViewport | src/common/rendering/gl/gl_renderstate.cpp:530-533 | one glViewport |
| GLRenderState.FGLRenderState.EnableDepthTest | src/common/rendering/gl/gl_renderstate.cpp:535-538 | toggles the depth test |
| GLRenderState.FGLRenderState.EnableMultisampling | src/common/rendering/gl/gl_renderstate.cpp:540-543 | toggles multisampling |
| GLRenderState.FGLRenderState.EnableLineSmooth | src/common/rendering/gl/gl_renderstate.cpp:545-548 | toggles line smoothing |
| LegacyRenderState.FRenderState.BlendFunc | src/gl/renderer/gl_renderstate.h:187-198 | without direct state change only the two blend fields are written and nothing is issued; with it one glBlendFunc is issued and no field changes |
| LegacyRenderState.FRenderState.AlphaFunc | src/gl/renderer/gl_renderstate.h:200-211 | the same split for the alpha function and threshold |
| LegacyRenderState.FRenderState.EnableAlphaTest | src/gl/renderer/gl_renderstate.h:213-224 | the same split for the alpha test, which goes to glEnable or glDisable |
| LegacyRenderState.FRenderState.BlendEquation | src/gl/renderer/gl_renderstate.h:226-236 | the same split for the blend equation |
| LegacyRenderState.FRenderState.EnableLight | src/gl/renderer/gl_renderstate.h:159-164 | only the light flag is written |
| LegacyRenderState.FRenderState.SetLights | src/gl/renderer/gl_renderstate.h:171-179 | exactly the first three light counts are copied, and the light data is kept by reference |
| LegacyRenderState.FRenderState.Set2DMode | src/gl/renderer/gl_renderstate.h:238-241 | only the 2D flag is written |
| HWMaterial.FMaterial.constructor | src/common/textures/hw_material.h:28 | a new material's layer flags are 0 |
| HWMaterial.FMaterial.ClearLayers | src/common/textures/hw_material.h:53-56 | exactly one layer remains, and the base layer is kept when there was one |
| HWMaterial.FMaterial.AddTextureLayer | src/common/textures/hw_material.h:58-63 | one more layer, pushed at the end as {tex, allowscale ? 1 : 0, 0}, and every earlier layer unchanged |

## Left out

- `ClearScreen` (`gl_renderstate.cpp:555-572`): it reads device state back with `glIsEnabled` and issues a raw draw, and the device is only a trace of calls here.
- `SetDepthRange` (`gl_renderstate.cpp:428-431`) and all float arithmetic: floats are opaque 32-bit patterns. This covers the unused `fogDensity` computation, the `/255` conversion of the fog colour (the trace keeps the bytes), the detail scale and the matrix conversion. The bias test for zero is done on the bit pattern (+0 or -0).
- The `HardwareRenderer::FRenderState::SetMaterial` wrapper (`gl_renderstate.cpp:595-605`): it is a type-punning cast between two material types over foreign code.
- The `reinterpret_cast<::FMaterial*>` in `ApplyState` (`gl_renderstate.cpp:273`) is the identity here: the material request already holds a `GLMaterial?`.
- `Printf`, the first-reset banner of `Reset` and the `gl_renderstate_info` console command: console output only.
- `src/common/rendering/gl/gl_samplers.h`: declarations only, with no bodies.
- The base class `HardwareRenderer::FRenderState`, its `Reset` and its setters are not part of this model. Its requested-state fields are public inputs here, so the constructor states nothing about them.
- The collaborators are oracles:
  - the shader manager and its containers are maps from keys to shaders;
  - `FMaterial::Bind`, the buffer binds and `SetActiveShader` are trace events;
  - `GetTextureModeAndFlags` is a function parameter.
- The legacy `FRenderState` constructor calls a `Reset` whose body is not shown, and so do its declared-only methods (`SetupShader`, `Apply`, `SetFog`, …). They are not part of this model.
- Integer width: the model does not wrap `index * 4` in `DrawIndexed` or `stencilValue + offs` in `SetStencil` at 32 bits; both stay far below the limit for real vertex and stencil values.
- CameraAlwaysPushed: the change counter is unbounded here, but in the source it is a 32-bit `static int` (`gl/renderer/gl_renderstate.h:18`) that goes up on every camera `Set` (`gl_renderstate.cpp:184`), roughly once per draw. Its overflow after 2^31 Sets is undefined behaviour. If it wraps, the (2^32 − 1)-th Set hands out stamp -1, which equals the never-written cache stamp, so `Update` reports no change and the push at `gl_renderstate.cpp:190-193` is skipped. The model does not capture that case.
- The `maxBoundMaterial` and light or bone index mirrors (`gl_renderstate.h:77-79`): no modelled code reads or writes them.
- Enumerator values. Two have a basis in the modelled files:
  - `EFF_NONE` = 0 is the first enumerator of `EEffect` (`gl/renderer/gl_renderstate.h:88`);
  - `STYLEALPHA_MAX` = 10 is the length of the `blendstyles` table that `ApplyBlendMode` indexes modulo it (`gl_renderstate.cpp:368-373`).
- The other enumerator values are assumptions, because their headers (`hw_renderstate.h`, `renderstyle.h`, `gl_colormap.h`) are not part of this model:
  - the first enumerator of each enum is 0: `CM_DEFAULT`, `TM_NORMAL`, `Cull_None`;
  - the rest follow in declaration order: `Cull_CCW`/`Cull_CW` = 1/2, and `TM_OPAQUE` = 2 as the third texture mode; the model only needs it to differ from `TM_NORMAL`;
  - the flag enums are powers of two in declaration order: `CT_Depth`/`CT_Stencil`/`CT_Color` = 1/2/4, and `SF_ColorMaskOff`/`SF_DepthMaskOff` = 1/2.
- `FMaterial`'s accessors (`GetLayerFlags`, `GetShaderIndex`, `GetScaleFlags`, `Source`, `NumLayers`, `GetLayerArray`) and `FRenderState::GetFogColor` are functions returning the stored field. As functions they cannot mutate anything, and they carry no contract of their own.
- `FMaterial`'s constructor body and `GetLayer`/`ValidateTexture` are declared only. Nothing is known of a new material beyond `mLayerFlags = 0`.
- `HWMaterial.FMaterial.ClearLayers`: when the list was empty, `Resize(1)` leaves one uninitialised layer, so nothing is stated about its contents.
