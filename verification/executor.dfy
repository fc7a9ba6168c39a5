/** The command-queue executor: SetDrawState, SetCopyState and
    GL_RunCommandQueue. One pass over the command list keeps a "last applied"
    cache (colour, blend, shader, texturing flag, bound texture, viewport,
    clip rectangle, clear colour) and emits a GL call only when the cached
    value differs. Vertex data is a flat sequence of coordinates that each
    draw command indexes with `first` and `count`. */
module Executor {
  import opened GLTypes
  import opened Translate
  import opened Renderer

  /** A texture as a draw command refers to it: `id` stands for the
      SDL_Texture pointer, `yuvMode` for what
      SDL_GetYUVConversionModeForResolution returns for its size. */
  datatype TexRef = TexRef(id: nat, format: PixelFormat, w: nat, h: nat,
                           yuvMode: ConversionMode, data: TextureData)

  /** cmd->data.draw */
  datatype Draw = Draw(first: nat, count: nat, color: Color, blend: BlendMode, texture: Option<TexRef>)

  /** SDL_RenderCommand */
  datatype Command =
    | SetDrawColor
    | SetViewport(viewport: Rect)
    | SetClipRect(clip: Rect, enabled: bool)
    | Clear(color: Color)
    | DrawPoints(draw: Draw)
    | DrawLines(draw: Draw)
    | FillRects(draw: Draw)
    | Copy(draw: Draw)
    | CopyEx(draw: Draw)
    | NoOp

  /** The cache SetDrawState compares against and updates. */
  datatype DrawCache = DrawCache(color: nat, blend: BlendMode, shader: Shader, texturing: bool)

  /** The locals GL_RunCommandQueue carries from one command to the next. */
  datatype ExecState = ExecState(viewport: Rect, clipEnabled: bool, clipRect: Rect,
                                 clearColor: nat, cache: DrawCache, bound: Option<nat>)

  /** What stays fixed during one run: renderer capabilities, the renderer's
      own viewport, clip rectangle, clip flag and colour when the run starts, whether a
      target is bound, the drawable height, and the platform's line-endpoint
      rule (`lastPointOpen` for Mac OS X and Windows). */
  datatype Context = Context(hasShaders: bool, textype: TextureTarget, isTarget: bool,
                             drawableH: int, rendererViewport: Rect, rendererClip: Rect,
                             clippingEnabled: bool, rendererColor: Color, lastPointOpen: bool)

  /** The cache already holds what a draw command asks for. */
  predicate InState(ctx: Context, cache: DrawCache, d: Draw, shader: Shader)
  {
    PackColor(d.color) == cache.color && d.blend == cache.blend &&
    (!ctx.hasShaders || shader == cache.shader) &&
    d.texture.Some? == cache.texturing
  }

  /** The glBlendFuncSeparate call for a blend mode. */
  function BlendFuncEvent(mode: BlendMode): Event
  {
    var c := BlendComponents(mode);
    BlendFuncSeparateEv(GetBlendFunc(c.srcColor), GetBlendFunc(c.dstColor),
                        GetBlendFunc(c.srcAlpha), GetBlendFunc(c.dstAlpha))
  }

  function BlendEquationEvent(mode: BlendMode): Event
  {
    BlendEquationEv(GetBlendEquation(BlendComponents(mode).colorOp))
  }

  predicate IsBlendEvent(e: Event)
  {
    e == EnableEv(CapBlend) || e == DisableEv(CapBlend) || e.BlendFuncSeparateEv? || e.BlendEquationEv?
  }

  /** SetDrawState: bring colour, blend mode, shader and texturing in line
      with a draw command, emitting only what differs from the cache. The
      texturing flag is cleared on both the enable and the disable path, so
      it can never become true. The calls are DrawStateEvents, whose lemmas
      below say which calls are made for which change. */
  method SetDrawState(ctx: Context, d: Draw, shader: Shader, cache: DrawCache)
    returns (next: DrawCache, ev: seq<Event>)
    ensures ev == DrawStateEvents(ctx, cache, d, shader)
    ensures next == DrawStateNext(ctx, cache, d, shader)
    ensures ev == [] <==> InState(ctx, cache, d, shader)
  {
    var color := PackColor(d.color);
    var colorEv := ColorChange(cache.color, color);
    var blendEv := BlendChange(cache.blend, d.blend);
    var shaderEv := ShaderChange(ctx.hasShaders, cache.shader, shader);
    var texEv: seq<Event> := [];
    var texturing := cache.texturing;
    if d.texture.Some? != cache.texturing {
      if d.texture.None? {
        texEv := [DisableEv(CapTexture(ctx.textype))];
        texturing := false;
      } else {
        texEv := [EnableEv(CapTexture(ctx.textype))];
        texturing := false;
      }
    }
    next := DrawCache(color, d.blend, if ctx.hasShaders then shader else cache.shader, texturing);
    ev := colorEv + blendEv + shaderEv + texEv;
    DrawStateElision(ctx, cache, d, shader);
  }

  /** glEnable/glDisable of the texture target when (texture != NULL)
      differs from the texturing flag. */
  function TexturingChange(textype: TextureTarget, texturing: bool, textured: bool): (ev: seq<Event>)
    ensures ev == [] <==> texturing == textured
  {
    if textured == texturing then []
    else if !textured then [DisableEv(CapTexture(textype))]
    else [EnableEv(CapTexture(textype))]
  }

  /** The calls SetDrawState makes, in order: colour, blend, shader, texturing. */
  function DrawStateEvents(ctx: Context, cache: DrawCache, d: Draw, shader: Shader): seq<Event>
  {
    ColorChange(cache.color, PackColor(d.color)) + BlendChange(cache.blend, d.blend)
    + ShaderChange(ctx.hasShaders, cache.shader, shader)
    + TexturingChange(ctx.textype, cache.texturing, d.texture.Some?)
  }

  /** The cache SetDrawState leaves: the command's colour and blend mode,
      its shader when shaders exist, and a texturing flag that is only ever
      cleared. */
  function DrawStateNext(ctx: Context, cache: DrawCache, d: Draw, shader: Shader): DrawCache
  {
    DrawCache(PackColor(d.color), d.blend, if ctx.hasShaders then shader else cache.shader,
              cache.texturing && d.texture.Some?)
  }

  /** Nothing is emitted exactly when the cache already matches. */
  lemma DrawStateElision(ctx: Context, cache: DrawCache, d: Draw, shader: Shader)
    ensures DrawStateEvents(ctx, cache, d, shader) == [] <==> InState(ctx, cache, d, shader)
  {
  }

  /** glColor4f comes first and only for a changed colour; the shader is
      selected only when it changed; no other colour or shader is set. */
  lemma DrawStateColorAndShader(ctx: Context, cache: DrawCache, d: Draw, shader: Shader)
    ensures var ev := DrawStateEvents(ctx, cache, d, shader);
      (ColorEv(PackColor(d.color)) in ev <==> PackColor(d.color) != cache.color) &&
      (PackColor(d.color) != cache.color ==> ev[0] == ColorEv(PackColor(d.color))) &&
      (forall e :: e in ev && e.ColorEv? ==> e == ColorEv(PackColor(d.color))) &&
      (SelectShaderEv(shader) in ev <==> ctx.hasShaders && shader != cache.shader) &&
      (forall e :: e in ev && e.SelectShaderEv? ==> e == SelectShaderEv(shader))
  {
  }

  lemma DrawStateBlend(ctx: Context, cache: DrawCache, d: Draw, shader: Shader)
    ensures var ev := DrawStateEvents(ctx, cache, d, shader);
      (d.blend == cache.blend ==> forall e :: e in ev ==> !IsBlendEvent(e)) &&
      (d.blend != cache.blend && d.blend == NoBlend ==> DisableEv(CapBlend) in ev) &&
      (d.blend != cache.blend && d.blend != NoBlend ==>
         EnableEv(CapBlend) in ev && BlendFuncEvent(d.blend) in ev && BlendEquationEvent(d.blend) in ev)
  {
  }

  /** The texture target is switched last, and only in the direction
      (texture != NULL) asks for when it differs from the flag. */
  lemma DrawStateTexturing(ctx: Context, cache: DrawCache, d: Draw, shader: Shader)
    ensures var ev := DrawStateEvents(ctx, cache, d, shader);
      (d.texture.None? && cache.texturing ==> ev[|ev| - 1] == DisableEv(CapTexture(ctx.textype))) &&
      (d.texture.Some? && !cache.texturing ==> ev[|ev| - 1] == EnableEv(CapTexture(ctx.textype))) &&
      (forall e :: e in ev ==> IsStateEvent(e)) &&
      (DisableEv(CapTexture(ctx.textype)) in ev ==> cache.texturing && d.texture.None?) &&
      (EnableEv(CapTexture(ctx.textype)) in ev ==> !cache.texturing && d.texture.Some?)
  {
  }

  /** SetDrawState never clears, and disables the texture target only when
      the texturing flag was set. */
  lemma DrawStateNoClear(ctx: Context, cache: DrawCache, d: Draw, shader: Shader)
    ensures ClearEv !in DrawStateEvents(ctx, cache, d, shader)
    ensures DisableEv(CapTexture(ctx.textype)) in DrawStateEvents(ctx, cache, d, shader) ==> cache.texturing
  {
    ConcatFacts(ColorChange(cache.color, PackColor(d.color)), BlendChange(cache.blend, d.blend),
                ShaderChange(ctx.hasShaders, cache.shader, shader),
                TexturingChange(ctx.textype, cache.texturing, d.texture.Some?));
  }

  /** The calls SetDrawState can make: colour, blend, shader and texturing. */
  predicate IsStateEvent(e: Event)
  {
    e.ColorEv? || IsBlendEvent(e) || e.SelectShaderEv? || e.EnableEv? || e.DisableEv?
  }

  /** glColor4f when the packed colour differs from the cached one. */
  function ColorChange(cached: nat, color: nat): (ev: seq<Event>)
    ensures ev == [] <==> cached == color
    ensures forall e :: e in ev ==> e == ColorEv(color)
    ensures cached != color ==> ColorEv(color) in ev
  {
    if color != cached then [ColorEv(color)] else []
  }

  /** The blend calls when the mode differs from the cached one: disabling
      for NONE, otherwise enabling with the translated factors and equation. */
  function BlendChange(cached: BlendMode, mode: BlendMode): (ev: seq<Event>)
    ensures ev == [] <==> cached == mode
    ensures forall e :: e in ev ==> IsBlendEvent(e)
    ensures cached != mode && mode == NoBlend ==> DisableEv(CapBlend) in ev
    ensures cached != mode && mode != NoBlend ==>
      EnableEv(CapBlend) in ev && BlendFuncEvent(mode) in ev && BlendEquationEvent(mode) in ev
  {
    if mode == cached then []
    else if mode == NoBlend then [DisableEv(CapBlend)]
    else [EnableEv(CapBlend), BlendFuncEvent(mode), BlendEquationEvent(mode)]
  }

  /** GL_SelectShader when shaders exist and the shader differs. */
  function ShaderChange(hasShaders: bool, cached: Shader, shader: Shader): (ev: seq<Event>)
    ensures ev == [] <==> !hasShaders || cached == shader
    ensures forall e :: e in ev ==> e == SelectShaderEv(shader)
    ensures hasShaders && cached != shader ==> SelectShaderEv(shader) in ev
  {
    if hasShaders && shader != cached then [SelectShaderEv(shader)] else []
  }

  /** Membership in the four-part result of SetDrawState. */
  lemma ConcatFacts(a: seq<Event>, b: seq<Event>, c: seq<Event>, d: seq<Event>)
    ensures a + b + c + d == [] <==> a == [] && b == [] && c == [] && d == []
    ensures forall e :: e in a + b + c + d <==> e in a || e in b || e in c || e in d
  {
  }

  predicate IsYuvShader(s: Shader) { s == ShaderYuvJpeg || s == ShaderYuvBT601 || s == ShaderYuvBT709 }
  predicate IsNV12Shader(s: Shader) { s == ShaderNV12Jpeg || s == ShaderNV12BT601 || s == ShaderNV12BT709 }
  predicate IsNV21Shader(s: Shader) { s == ShaderNV21Jpeg || s == ShaderNV21BT601 || s == ShaderNV21BT709 }

  /** The YUV conversion a shader implements; ModeOther for the RGB ones. */
  function ShaderConversion(s: Shader): ConversionMode
  {
    match s
    case ShaderYuvJpeg => ModeJpeg
    case ShaderNV12Jpeg => ModeJpeg
    case ShaderNV21Jpeg => ModeJpeg
    case ShaderYuvBT601 => ModeBT601
    case ShaderNV12BT601 => ModeBT601
    case ShaderNV21BT601 => ModeBT601
    case ShaderYuvBT709 => ModeBT709
    case ShaderNV12BT709 => ModeBT709
    case ShaderNV21BT709 => ModeBT709
    case _ => ModeOther
  }

  /** The shader choice of SetCopyState: SHADER_RGB unless shaders exist and
      the texture is planar (yuv) or semi-planar (nv12); then the conversion
      mode picks JPEG, BT601 or BT709 and the texture picks the YUV, NV12 or
      NV21 variant. An unsupported mode keeps SHADER_RGB. */
  function ChooseShader(hasShaders: bool, t: TexRef): (s: Shader)
    ensures s != ShaderRGB <==> hasShaders && (t.data.yuv || t.data.nv12) && t.yuvMode != ModeOther
    ensures s != ShaderRGB ==> ShaderConversion(s) == t.yuvMode
    ensures IsYuvShader(s) <==> s != ShaderRGB && t.data.yuv
    ensures IsNV12Shader(s) <==> s != ShaderRGB && !t.data.yuv && t.format == NV12
    ensures IsNV21Shader(s) <==> s != ShaderRGB && !t.data.yuv && t.format != NV12
  {
    if hasShaders && (t.data.yuv || t.data.nv12) then
      match t.yuvMode
      case ModeJpeg =>
        if t.data.yuv then ShaderYuvJpeg else if t.format == NV12 then ShaderNV12Jpeg else ShaderNV21Jpeg
      case ModeBT601 =>
        if t.data.yuv then ShaderYuvBT601 else if t.format == NV12 then ShaderNV12BT601 else ShaderNV21BT601
      case ModeBT709 =>
        if t.data.yuv then ShaderYuvBT709 else if t.format == NV12 then ShaderNV12BT709 else ShaderNV21BT709
      case ModeOther => ShaderRGB
    else ShaderRGB
  }

  /** A family and a conversion mode name exactly one shader, so ChooseShader's
      contract determines its result. */
  lemma ShaderDeterminedByFamilyAndMode(s1: Shader, s2: Shader)
    requires (IsYuvShader(s1) && IsYuvShader(s2)) || (IsNV12Shader(s1) && IsNV12Shader(s2)) ||
             (IsNV21Shader(s1) && IsNV21Shader(s2))
    requires ShaderConversion(s1) == ShaderConversion(s2)
    ensures s1 == s2
  {
  }

  /** The texture bindings SetCopyState makes for a newly used texture: V on
      unit 2 and U on unit 1 for planar textures, UV on unit 1 for
      semi-planar ones, then the main texture on unit 0. */
  function BindingEvents(textype: TextureTarget, data: TextureData): (ev: seq<Event>)
    ensures |ev| >= 2 && ev[|ev| - 2..] == [ActiveTextureEv(0), BindTextureEv(textype, data.texture)]
    ensures |ev| == 2 + (if data.yuv then 4 else 0) + (if data.nv12 then 2 else 0)
    ensures data.yuv ==> ev[..4] == [ActiveTextureEv(2), BindTextureEv(textype, data.vtexture),
                                     ActiveTextureEv(1), BindTextureEv(textype, data.utexture)]
    ensures !data.yuv && data.nv12 ==> ev[..2] == [ActiveTextureEv(1), BindTextureEv(textype, data.utexture)]
    ensures forall e :: e in ev ==> e.ActiveTextureEv? || e.BindTextureEv?
  {
    (if data.yuv then [ActiveTextureEv(2), BindTextureEv(textype, data.vtexture),
                       ActiveTextureEv(1), BindTextureEv(textype, data.utexture)] else [])
    + (if data.nv12 then [ActiveTextureEv(1), BindTextureEv(textype, data.utexture)] else [])
    + [ActiveTextureEv(0), BindTextureEv(textype, data.texture)]
  }

  /** The calls of SetCopyState: the draw state for the chosen shader, then
      the bindings when another texture (or none) is bound. */
  function CopyStateEvents(ctx: Context, d: Draw, st: ExecState): seq<Event>
    requires d.texture.Some?
  {
    var t := d.texture.value;
    DrawStateEvents(ctx, st.cache, d, ChooseShader(ctx.hasShaders, t))
    + (if st.bound == Some(t.id) then [] else BindingEvents(ctx.textype, t.data))
  }

  /** SetCopyState: draw state with the chosen shader, then bind the texture's
      GL textures unless it is the one already bound; afterwards it is. */
  method SetCopyState(ctx: Context, d: Draw, st: ExecState) returns (next: ExecState, ev: seq<Event>)
    requires d.texture.Some?
    ensures ev == CopyStateEvents(ctx, d, st)
    ensures next == st.(cache := DrawStateNext(ctx, st.cache, d, ChooseShader(ctx.hasShaders, d.texture.value)),
                        bound := Some(d.texture.value.id))
  {
    var t := d.texture.value;
    var shader := ChooseShader(ctx.hasShaders, t);
    var cache, stateEv := SetDrawState(ctx, d, shader, st.cache);
    var bindEv: seq<Event> := [];
    if st.bound != Some(t.id) {
      bindEv := BindingEvents(ctx.textype, t.data);
    }
    next := st.(cache := cache, bound := Some(t.id));
    ev := stateEv + bindEv;
  }

  /** A copy makes no call at all exactly when the cache matches it and its
      texture is the one bound. */
  lemma CopyStateElision(ctx: Context, d: Draw, st: ExecState)
    requires d.texture.Some?
    ensures CopyStateEvents(ctx, d, st) == [] <==>
      InState(ctx, st.cache, d, ChooseShader(ctx.hasShaders, d.texture.value)) && st.bound == Some(d.texture.value.id)
  {
    DrawStateElision(ctx, st.cache, d, ChooseShader(ctx.hasShaders, d.texture.value));
  }

  /** A copy of the texture already bound makes no glActiveTexture and no
      glBindTexture call. */
  lemma CopyStateKeepsBinding(ctx: Context, d: Draw, st: ExecState)
    requires d.texture.Some? && st.bound == Some(d.texture.value.id)
    ensures forall e :: e in CopyStateEvents(ctx, d, st) ==> !e.BindTextureEv? && !e.ActiveTextureEv?
  {
    DrawStateTexturing(ctx, st.cache, d, ChooseShader(ctx.hasShaders, d.texture.value));
  }

  /** A copy of another texture binds, right after the draw state, V on unit 2
      and U on unit 1 for a planar texture or UV on unit 1 for a semi-planar
      one, and always the main texture on unit 0 last. */
  lemma CopyStateBindings(ctx: Context, d: Draw, st: ExecState)
    requires d.texture.Some? && st.bound != Some(d.texture.value.id)
    ensures var t := d.texture.value;
      var ev := CopyStateEvents(ctx, d, st);
      var k := |DrawStateEvents(ctx, st.cache, d, ChooseShader(ctx.hasShaders, t))|;
      |ev| >= k + 2 && ev[|ev| - 2..] == [ActiveTextureEv(0), BindTextureEv(ctx.textype, t.data.texture)] &&
      (t.data.yuv ==>
         ev[k..k + 4] == [ActiveTextureEv(2), BindTextureEv(ctx.textype, t.data.vtexture),
                          ActiveTextureEv(1), BindTextureEv(ctx.textype, t.data.utexture)]) &&
      (!t.data.yuv && t.data.nv12 ==>
         ev[k..k + 2] == [ActiveTextureEv(1), BindTextureEv(ctx.textype, t.data.utexture)])
  {
    var t := d.texture.value;
    var stateEv := DrawStateEvents(ctx, st.cache, d, ChooseShader(ctx.hasShaders, t));
    var bindEv := BindingEvents(ctx.textype, t.data);
    SuffixAfter(stateEv, bindEv);
  }

  lemma SuffixAfter(a: seq<Event>, b: seq<Event>)
    ensures (a + b)[|a|..] == b
    ensures |b| >= 2 ==> (a + b)[|a + b| - 2..] == b[|b| - 2..]
    ensures forall n: nat :: |a| + n <= |a + b| ==> (a + b)[|a|..|a| + n] == b[..n]
  {
    forall n: nat | |a| + n <= |a + b|
      ensures (a + b)[|a|..|a| + n] == b[..n]
    {
      assert forall i :: 0 <= i < n ==> (a + b)[|a| + i] == b[i];
    }
  }

  /** The state part of a copy never clears, and it disables the texture
      target only when the texturing flag was set. */
  lemma CopyStateNoClear(ctx: Context, d: Draw, st: ExecState)
    requires d.texture.Some?
    ensures ClearEv !in CopyStateEvents(ctx, d, st)
    ensures DisableEv(CapTexture(ctx.textype)) in CopyStateEvents(ctx, d, st) ==> st.cache.texturing
  {
    var t := d.texture.value;
    var shader := ChooseShader(ctx.hasShaders, t);
    DrawStateNoClear(ctx, st.cache, d, shader);
    var bindEv: seq<Event> := if st.bound == Some(t.id) then [] else BindingEvents(ctx.textype, t.data);
    ConcatFacts(DrawStateEvents(ctx, st.cache, d, shader), bindEv, [], []);
  }

  /** SDL's top-down y for a rectangle of height h, in GL's coordinates: the
      same for a render target, measured from the bottom of the drawable for
      the window. */
  function FlipY(ctx: Context, y: int, h: int): int
  {
    if ctx.isTarget then y else ctx.drawableH - y - h
  }

  /** Flipping twice gives the original y back, so no position is lost. */
  lemma FlipYInvolution(ctx: Context, y: int, h: int)
    ensures FlipY(ctx, FlipY(ctx, y, h), h) == y
  {
  }

  /** glScissor for a clip rectangle given relative to the viewport. */
  function ScissorEvent(ctx: Context, viewport: Rect, clip: Rect): Event
  {
    ScissorEv(viewport.x + clip.x, FlipY(ctx, viewport.y + clip.y, clip.h), clip.w, clip.h)
  }

  /** A clip rectangle inside the viewport gives a scissor box inside the GL
      viewport box, for the window and for a target alike. */
  lemma ScissorInsideViewport(ctx: Context, viewport: Rect, clip: Rect)
    requires 0 <= clip.x && 0 <= clip.y && 0 <= clip.w && 0 <= clip.h
    requires clip.x + clip.w <= viewport.w && clip.y + clip.h <= viewport.h
    ensures var s := ScissorEvent(ctx, viewport, clip);
      var gy := FlipY(ctx, viewport.y, viewport.h);
      viewport.x <= s.x && s.x + s.w <= viewport.x + viewport.w &&
      gy <= s.y && s.y + s.h <= gy + viewport.h
  {
  }

  /** Reprogramming the projection for a viewport: the GL viewport with its
      y flipped, and (for a non-empty viewport) an orthographic projection
      built from the renderer's own viewport, not from the new one. */
  function ViewportEvents(ctx: Context, vp: Rect): (ev: seq<Event>)
    ensures |ev| == (if vp.w != 0 && vp.h != 0 then 5 else 4)
    ensures ev[0] == MatrixModeEv(Projection) && ev[|ev| - 1] == MatrixModeEv(ModelView)
    ensures ev[2] == ViewportEv(vp.x, FlipY(ctx, vp.y, vp.h), vp.w, vp.h)
    ensures vp.w != 0 && vp.h != 0 ==>
      var rv := ctx.rendererViewport;
      ev[3] == OrthoEv(0, rv.w, if ctx.isTarget then 0 else rv.h, if ctx.isTarget then rv.h else 0)
    ensures ClearEv !in ev && forall e :: e in ev ==> !e.DisableEv?
  {
    var rv := ctx.rendererViewport;
    [MatrixModeEv(Projection), LoadIdentityEv, ViewportEv(vp.x, FlipY(ctx, vp.y, vp.h), vp.w, vp.h)]
    + (if vp.w != 0 && vp.h != 0
       then [OrthoEv(0, rv.w, if ctx.isTarget then 0 else rv.h, if ctx.isTarget then rv.h else 0)]
       else [])
    + [MatrixModeEv(ModelView)]
  }

  /** The number of glClear calls in a stretch of the trace. */
  function ClearCount(ev: seq<Event>): nat
  {
    if ev == [] then 0 else (if ev[0] == ClearEv then 1 else 0) + ClearCount(ev[1..])
  }

  lemma {:induction false} ClearCountAppend(a: seq<Event>, b: seq<Event>)
    ensures ClearCount(a + b) == ClearCount(a) + ClearCount(b)
  {
    if a == [] {
      assert a + b == b;
    } else {
      assert (a + b)[0] == a[0];
      assert (a + b)[1..] == a[1..] + b;
      ClearCountAppend(a[1..], b);
    }
  }

  /** A stretch with one glClear between two stretches without any. */
  lemma ClearCountOne(a: seq<Event>, b: seq<Event>)
    requires ClearEv !in a && ClearEv !in b
    ensures ClearCount(a + [ClearEv] + b) == 1
  {
    ClearCountAppend(a + [ClearEv], b);
    ClearCountAppend(a, [ClearEv]);
    ClearCountNone(a);
    ClearCountNone(b);
  }

  lemma {:induction false} ClearCountNone(ev: seq<Event>)
    requires ClearEv !in ev
    ensures ClearCount(ev) == 0
  {
    if ev != [] {
      assert ClearEv !in ev[1..] by {
        forall e | e in ev[1..] ensures e != ClearEv {
          assert e in ev;
        }
      }
      ClearCountNone(ev[1..]);
    }
  }

  /** glVertex2f for `count` points stored as (x, y) pairs from `first`. */
  function VertexEvents(v: seq<int>, first: nat, count: nat): (ev: seq<Event>)
    requires first + 2 * count <= |v|
    ensures |ev| == count
    ensures forall i :: 0 <= i < count ==> ev[i] == VertexEv(v[first + 2 * i], v[first + 2 * i + 1])
    ensures forall e :: e in ev ==> e.VertexEv?
    decreases count
  {
    if count == 0 then []
    else VertexEvents(v, first, count - 1) + [VertexEv(v[first + 2 * (count - 1)], v[first + 2 * (count - 1) + 1])]
  }

  /** The vertex loop of the point and line commands: walk the coordinates two
      at a time. */
  method VertexRun(v: seq<int>, first: nat, count: nat) returns (ev: seq<Event>)
    requires first + 2 * count <= |v|
    ensures ev == VertexEvents(v, first, count)
  {
    ev := [];
    var i := 0;
    var p := first;
    while i < count
      invariant 0 <= i <= count && p == first + 2 * i
      invariant ev == VertexEvents(v, first, i)
    {
      ev := ev + [VertexEv(v[p], v[p + 1])];
      i := i + 1;
      p := p + 2;
    }
  }

  /** glRectf for `count` rectangles stored as (x1, y1, x2, y2) from `first`. */
  function RectEvents(v: seq<int>, first: nat, count: nat): (ev: seq<Event>)
    requires first + 4 * count <= |v|
    ensures |ev| == count
    ensures forall i :: 0 <= i < count ==>
      ev[i] == RectEv(v[first + 4 * i], v[first + 4 * i + 1], v[first + 4 * i + 2], v[first + 4 * i + 3])
    ensures forall e :: e in ev ==> e.RectEv?
    decreases count
  {
    if count == 0 then []
    else
      var p := first + 4 * (count - 1);
      RectEvents(v, first, count - 1) + [RectEv(v[p], v[p + 1], v[p + 2], v[p + 3])]
  }

  /** The rectangle loop of the fill command: walk the coordinates four at a time. */
  method RectRun(v: seq<int>, first: nat, count: nat) returns (ev: seq<Event>)
    requires first + 4 * count <= |v|
    ensures ev == RectEvents(v, first, count)
  {
    ev := [];
    var i := 0;
    var p := first;
    while i < count
      invariant 0 <= i <= count && p == first + 4 * i
      invariant ev == RectEvents(v, first, i)
    {
      ev := ev + [RectEv(v[p], v[p + 1], v[p + 2], v[p + 3])];
      i := i + 1;
      p := p + 4;
    }
  }

  /** A polyline whose first and last points coincide and which has more than
      two points is drawn as a line loop. */
  predicate IsClosed(v: seq<int>, d: Draw)
    requires d.count >= 1 && d.first + 2 * d.count <= |v|
  {
    d.count > 2 && v[d.first] == v[d.first + 2 * (d.count - 1)] &&
    v[d.first + 1] == v[d.first + 2 * d.count - 1]
  }

  /** The extra point that closes a half-open line strip. On Mac OS X and
      Windows it is the last point; elsewhere the right-most endpoint, then
      the bottom-most one, each only when the endpoints differ on that axis. */
  function EndpointVertices(lastPointOpen: bool, x1: int, y1: int, x2: int, y2: int): (ev: seq<Event>)
    ensures lastPointOpen ==> ev == [VertexEv(x2, y2)]
    ensures !lastPointOpen ==> |ev| <= 2 && forall e :: e in ev ==> e == VertexEv(x1, y1) || e == VertexEv(x2, y2)
    ensures !lastPointOpen && x1 == x2 && y1 == y2 ==> ev == []
    ensures !lastPointOpen && (x1 > x2 || y1 > y2) ==> VertexEv(x1, y1) in ev
    ensures !lastPointOpen && (x2 > x1 || y2 > y1) ==> VertexEv(x2, y2) in ev
    ensures forall e :: e in ev ==> e.VertexEv?
  {
    if lastPointOpen then [VertexEv(x2, y2)]
    else
      (if x1 > x2 then [VertexEv(x1, y1)] else if x2 > x1 then [VertexEv(x2, y2)] else [])
      + (if y1 > y2 then [VertexEv(x1, y1)] else if y2 > y1 then [VertexEv(x2, y2)] else [])
  }

  /** What the line command draws after its state: a loop of count-1
      vertices for a closed polyline, otherwise a strip of all count vertices
      followed by the endpoint as a point. */
  function LineEvents(ctx: Context, v: seq<int>, d: Draw): seq<Event>
    requires d.count >= 1 && d.first + 2 * d.count <= |v|
  {
    var last := d.first + 2 * (d.count - 1);
    if IsClosed(v, d) then
      [BeginEv(LineLoop)] + VertexEvents(v, d.first, d.count - 1) + [EndEv]
    else
      StripEvents(v, d.first, d.count)
      + (EndpointVertices(ctx.lastPointOpen, v[d.first], v[d.first + 1], v[last], v[last + 1]) + [EndEv])
  }

  /** The line strip through all points, and the glBegin of the point batch
      that follows it. */
  function StripEvents(v: seq<int>, first: nat, count: nat): seq<Event>
    requires first + 2 * count <= |v|
  {
    [BeginEv(LineStrip)] + VertexEvents(v, first, count) + [EndEv, BeginEv(Points)]
  }

  /** A closed polyline is drawn as one loop through its first count-1 points. */
  lemma LineLoopShape(ctx: Context, v: seq<int>, d: Draw)
    requires d.count >= 1 && d.first + 2 * d.count <= |v| && IsClosed(v, d)
    ensures var ev := LineEvents(ctx, v, d);
      |ev| == d.count + 1 && ev[0] == BeginEv(LineLoop) && ev[d.count] == EndEv &&
      forall i :: 0 <= i < d.count - 1 ==> ev[1 + i] == VertexEv(v[d.first + 2 * i], v[d.first + 2 * i + 1])
  {
    var verts := VertexEvents(v, d.first, d.count - 1);
    var ev := LineEvents(ctx, v, d);
    assert ev == [BeginEv(LineLoop)] + verts + [EndEv];
    assert |ev| == d.count + 1;
    forall i | 0 <= i < d.count - 1
      ensures ev[1 + i] == VertexEv(v[d.first + 2 * i], v[d.first + 2 * i + 1])
    {
      assert ev[1 + i] == verts[i];
    }
  }

  /** The strip part: glBegin, the count vertices in order, glEnd, and the
      glBegin of the point batch. */
  lemma StripShape(v: seq<int>, first: nat, count: nat)
    requires first + 2 * count <= |v|
    ensures var s := StripEvents(v, first, count);
      |s| == count + 3 && s[0] == BeginEv(LineStrip) && s[count + 1] == EndEv &&
      s[count + 2] == BeginEv(Points) &&
      forall i :: 0 <= i < count ==> s[1 + i] == VertexEv(v[first + 2 * i], v[first + 2 * i + 1])
  {
    var verts := VertexEvents(v, first, count);
    var s := StripEvents(v, first, count);
    forall i | 0 <= i < count
      ensures s[1 + i] == verts[i]
    {
    }
  }

  /** An open polyline is drawn as a strip through all count points, then a
      point batch for the endpoint the strip leaves open. */
  lemma LineStripShape(ctx: Context, v: seq<int>, d: Draw)
    requires d.count >= 1 && d.first + 2 * d.count <= |v| && !IsClosed(v, d)
    ensures var ev := LineEvents(ctx, v, d);
      |ev| >= d.count + 4 && ev[0] == BeginEv(LineStrip) && ev[d.count + 1] == EndEv &&
      ev[d.count + 2] == BeginEv(Points) && ev[|ev| - 1] == EndEv &&
      forall i :: 0 <= i < d.count ==> ev[1 + i] == VertexEv(v[d.first + 2 * i], v[d.first + 2 * i + 1])
  {
    var last := d.first + 2 * (d.count - 1);
    StripShape(v, d.first, d.count);
    PrefixIndex(StripEvents(v, d.first, d.count),
                EndpointVertices(ctx.lastPointOpen, v[d.first], v[d.first + 1], v[last], v[last + 1]) + [EndEv]);
  }

  lemma PrefixIndex(a: seq<Event>, b: seq<Event>)
    ensures forall k :: 0 <= k < |a| ==> (a + b)[k] == a[k]
    ensures |a + b| == |a| + |b|
  {
  }

  /** The line events are all glBegin, glEnd and glVertex calls. */
  lemma LineEventsKinds(ctx: Context, v: seq<int>, d: Draw)
    requires d.count >= 1 && d.first + 2 * d.count <= |v|
    ensures forall e :: e in LineEvents(ctx, v, d) ==> e.BeginEv? || e.EndEv? || e.VertexEv?
  {
    var last := d.first + 2 * (d.count - 1);
    if IsClosed(v, d) {
      ConcatFacts([BeginEv(LineLoop)], VertexEvents(v, d.first, d.count - 1), [EndEv], []);
    } else {
      var extra := EndpointVertices(ctx.lastPointOpen, v[d.first], v[d.first + 1], v[last], v[last + 1]);
      ConcatFacts([BeginEv(LineStrip)], VertexEvents(v, d.first, d.count), [EndEv, BeginEv(Points)], []);
      ConcatFacts(StripEvents(v, d.first, d.count), extra, [EndEv], []);
    }
  }

  /** A closed polyline of n points draws the same n-1 distinct segments as
      the loop: its loop vertices are the polyline without its repeated last
      point. */
  lemma ClosedLoopDropsRepeatedPoint(v: seq<int>, d: Draw)
    requires d.count >= 1 && d.first + 2 * d.count <= |v| && IsClosed(v, d)
    ensures VertexEvents(v, d.first, d.count) ==
      VertexEvents(v, d.first, d.count - 1) + [VertexEvents(v, d.first, d.count - 1)[0]]
  {
    var all := VertexEvents(v, d.first, d.count);
    var loop := VertexEvents(v, d.first, d.count - 1);
    assert all[d.count - 1] == loop[0];
    assert all == loop + [loop[0]] by {
      forall i | 0 <= i < d.count - 1 ensures all[i] == loop[i] { }
    }
  }

  /** Corner k of a copy quad, k = 0..3 in strip order: x is the maximum
      for the odd corners, y for the last two. */
  function CornerVertex(v: seq<int>, first: nat, k: nat): Event
    requires first + 8 <= |v| && k < 4
  {
    VertexEv(if k == 1 || k == 3 then v[first + 2] else v[first],
             if k >= 2 then v[first + 3] else v[first + 1])
  }

  /** The texture coordinate of corner k, chosen like its position. */
  function CornerTexCoord(v: seq<int>, first: nat, k: nat): Event
    requires first + 8 <= |v| && k < 4
  {
    TexCoordEv(if k == 1 || k == 3 then v[first + 5] else v[first + 4],
               if k >= 2 then v[first + 7] else v[first + 6])
  }

  /** The textured quad of a copy: a triangle strip through the four corners
      (min,min), (max,min), (min,max), (max,max), each preceded by the
      matching texture coordinate. Coordinates are (minx, miny, maxx, maxy,
      minu, maxu, minv, maxv) from `first`. */
  function QuadEvents(v: seq<int>, first: nat): (ev: seq<Event>)
    requires first + 8 <= |v|
    ensures ClearEv !in ev && forall e :: e in ev ==> !e.DisableEv?
  {
    var minx, miny, maxx, maxy := v[first], v[first + 1], v[first + 2], v[first + 3];
    var minu, maxu, minv, maxv := v[first + 4], v[first + 5], v[first + 6], v[first + 7];
    [BeginEv(TriangleStrip),
     TexCoordEv(minu, minv), VertexEv(minx, miny),
     TexCoordEv(maxu, minv), VertexEv(maxx, miny),
     TexCoordEv(minu, maxv), VertexEv(minx, maxy),
     TexCoordEv(maxu, maxv), VertexEv(maxx, maxy),
     EndEv]
  }

  /** The quad is one triangle strip whose four vertices are the corners,
      each preceded by its own texture coordinate. */
  lemma QuadCorners(v: seq<int>, first: nat)
    requires first + 8 <= |v|
    ensures var ev := QuadEvents(v, first);
      |ev| == 10 && ev[0] == BeginEv(TriangleStrip) && ev[9] == EndEv &&
      forall k :: 0 <= k < 4 ==>
        ev[2 * k + 1] == CornerTexCoord(v, first, k) && ev[2 * k + 2] == CornerVertex(v, first, k)
  {
  }

  /** The calls of the rotated copy: the quad under a pushed translation to
      (v[first+8], v[first+9]) and a rotation by v[first+10]. */
  function CopyExEvents(v: seq<int>, first: nat): (ev: seq<Event>)
    requires first + 11 <= |v|
    ensures ClearEv !in ev && forall e :: e in ev ==> !e.DisableEv?
  {
    var quad := QuadEvents(v, first);
    var push := [PushMatrixEv, TranslateEv(v[first + 8], v[first + 9]), RotateEv(v[first + 10])];
    ConcatFacts(push, quad, [PopMatrixEv], []);
    push + quad + [PopMatrixEv]
  }

  /** Vertex data a command reads lies inside the buffer, and copies carry a
      texture. */
  predicate Fits(c: Command, n: nat)
  {
    match c
    case DrawPoints(d) => d.first + 2 * d.count <= n
    case DrawLines(d) => d.count >= 1 && d.first + 2 * d.count <= n
    case FillRects(d) => d.first + 4 * d.count <= n
    case Copy(d) => d.first + 8 <= n && d.texture.Some?
    case CopyEx(d) => d.first + 11 <= n && d.texture.Some?
    case _ => true
  }

  /** The draw parameters of a drawing command. */
  function DrawOf(c: Command): Option<Draw>
  {
    match c
    case DrawPoints(d) => Some(d)
    case DrawLines(d) => Some(d)
    case FillRects(d) => Some(d)
    case Copy(d) => Some(d)
    case CopyEx(d) => Some(d)
    case _ => None
  }

  /** SDL_RENDERCMD_SETVIEWPORT: reprogram the projection only for a new rect. */
  method ExecSetViewport(ctx: Context, vp: Rect, st: ExecState) returns (next: ExecState, ev: seq<Event>)
    ensures next == st.(viewport := vp)
    ensures vp == st.viewport ==> ev == []
    ensures vp != st.viewport ==> ev == ViewportEvents(ctx, vp)
  {
    next := st;
    ev := [];
    if vp != st.viewport {
      next := next.(viewport := vp);
      ev := ViewportEvents(ctx, vp);
    }
  }

  /** SDL_RENDERCMD_SETCLIPRECT: toggle the scissor test only when the flag
      changes; reprogram (and remember) the scissor box only when clipping is
      on and the rectangle changed. */
  method ExecSetClipRect(ctx: Context, clip: Rect, enabled: bool, st: ExecState)
    returns (next: ExecState, ev: seq<Event>)
    ensures next == st.(clipEnabled := enabled, clipRect := if enabled then clip else st.clipRect)
    ensures ev == ClipEvents(ctx, clip, enabled, st)
  {
    var changed := clip != st.clipRect;
    next := st;
    var toggle: seq<Event> := [];
    var scissor: seq<Event> := [];
    if st.clipEnabled != enabled {
      next := next.(clipEnabled := enabled);
      if enabled {
        toggle := [EnableEv(CapScissorTest)];
      } else {
        toggle := [DisableEv(CapScissorTest)];
      }
    }
    if enabled && changed {
      next := next.(clipRect := clip);
      scissor := [ScissorEvent(ctx, st.viewport, clip)];
    }
    ev := toggle + scissor;
  }

  /** The calls of the clip command: the scissor-test toggle when the flag
      changes, then the scissor box when clipping is on and the rectangle is new. */
  function ClipEvents(ctx: Context, clip: Rect, enabled: bool, st: ExecState): seq<Event>
  {
    (if enabled == st.clipEnabled then []
     else if enabled then [EnableEv(CapScissorTest)] else [DisableEv(CapScissorTest)])
    + (if enabled && clip != st.clipRect then [ScissorEvent(ctx, st.viewport, clip)] else [])
  }

  /** The clip command calls nothing exactly when flag and rectangle are
      unchanged; it enables the scissor test only when turning clipping on,
      disables it only when turning it off, and programs only the scissor box
      of the new rectangle. */
  lemma ClipEventsFacts(ctx: Context, clip: Rect, enabled: bool, st: ExecState)
    ensures var ev := ClipEvents(ctx, clip, enabled, st);
      (ev == [] <==> enabled == st.clipEnabled && (!enabled || clip == st.clipRect)) &&
      (EnableEv(CapScissorTest) in ev <==> enabled && !st.clipEnabled) &&
      (DisableEv(CapScissorTest) in ev <==> !enabled && st.clipEnabled) &&
      (ScissorEvent(ctx, st.viewport, clip) in ev <==> enabled && clip != st.clipRect) &&
      (forall e :: e in ev && e.ScissorEv? ==> e == ScissorEvent(ctx, st.viewport, clip)) &&
      ClearEv !in ev && DisableEv(CapTexture(ctx.textype)) !in ev
  {
  }

  /** SDL_RENDERCMD_CLEAR: set the clear colour only when it changed; the
      scissor test is lifted around glClear when clipping was on at the start
      of the run, whatever the clip commands since have set. */
  method ExecClear(ctx: Context, color: Color, st: ExecState) returns (next: ExecState, ev: seq<Event>)
    ensures next == st.(clearColor := PackColor(color))
    ensures ev == ClearEvents(ctx.clippingEnabled, PackColor(color), st.clearColor)
  {
    var packed := PackColor(color);
    var colorEv: seq<Event> := [];
    if packed != st.clearColor {
      colorEv := [ClearColorEv(packed)];
    }
    next := st.(clearColor := packed);
    if ctx.clippingEnabled {
      ev := colorEv + [DisableEv(CapScissorTest), ClearEv, EnableEv(CapScissorTest)];
    } else {
      ev := colorEv + [ClearEv];
    }
  }

  /** The calls of the clear command: glClearColor when the colour changed,
      then glClear, lifting the scissor test around it when clipping is on. */
  function ClearEvents(clipping: bool, packed: nat, current: nat): seq<Event>
  {
    (if packed != current then [ClearColorEv(packed)] else [])
    + (if clipping then [DisableEv(CapScissorTest), ClearEv, EnableEv(CapScissorTest)] else [ClearEv])
  }

  lemma ClearEventsColor(clipping: bool, packed: nat, current: nat)
    ensures ClearColorEv(packed) in ClearEvents(clipping, packed, current) <==> packed != current
    ensures forall e :: e in ClearEvents(clipping, packed, current) ==> !e.EnableEv? || e.cap == CapScissorTest
    ensures forall e :: e in ClearEvents(clipping, packed, current) ==> !e.DisableEv? || e.cap == CapScissorTest
  {
  }

  lemma ClearEventsCount(clipping: bool, packed: nat, current: nat)
    ensures ClearCount(ClearEvents(clipping, packed, current)) == 1
  {
    var colorEv: seq<Event> := if packed != current then [ClearColorEv(packed)] else [];
    if clipping {
      assert ClearEvents(clipping, packed, current)
        == (colorEv + [DisableEv(CapScissorTest)]) + [ClearEv] + [EnableEv(CapScissorTest)];
      ClearCountOne(colorEv + [DisableEv(CapScissorTest)], [EnableEv(CapScissorTest)]);
    } else {
      assert ClearEvents(clipping, packed, current) == colorEv + [ClearEv] + [];
      ClearCountOne(colorEv, []);
    }
  }

  lemma ClearEventsScissor(clipping: bool, packed: nat, current: nat)
    ensures var ev := ClearEvents(clipping, packed, current);
      clipping ==> |ev| >= 3 && ev[|ev| - 3..] == [DisableEv(CapScissorTest), ClearEv, EnableEv(CapScissorTest)]
    ensures var ev := ClearEvents(clipping, packed, current);
      !clipping ==> |ev| >= 1 && ev[|ev| - 1] == ClearEv &&
                    EnableEv(CapScissorTest) !in ev && DisableEv(CapScissorTest) !in ev
  {
  }

  /** SDL_RENDERCMD_DRAW_POINTS */
  method ExecDrawPoints(ctx: Context, d: Draw, st: ExecState, v: seq<int>) returns (next: ExecState, ev: seq<Event>)
    requires d.first + 2 * d.count <= |v|
    ensures next == st.(cache := DrawStateNext(ctx, st.cache, d, ShaderSolid))
    ensures ev == DrawStateEvents(ctx, st.cache, d, ShaderSolid) + ([BeginEv(Points)] + VertexEvents(v, d.first, d.count) + [EndEv])
  {
    var cache, stateEv := SetDrawState(ctx, d, ShaderSolid, st.cache);
    var verts := VertexRun(v, d.first, d.count);
    next := st.(cache := cache);
    ev := stateEv + ([BeginEv(Points)] + verts + [EndEv]);
  }

  /** SDL_RENDERCMD_DRAW_LINES: a closed polyline of more than two points as a
      loop without its repeated point, anything else as a strip plus the
      endpoint the strip leaves open. */
  method ExecDrawLines(ctx: Context, d: Draw, st: ExecState, v: seq<int>) returns (next: ExecState, ev: seq<Event>)
    requires d.count >= 1 && d.first + 2 * d.count <= |v|
    ensures next == st.(cache := DrawStateNext(ctx, st.cache, d, ShaderSolid))
    ensures ev == DrawStateEvents(ctx, st.cache, d, ShaderSolid) + LineEvents(ctx, v, d)
  {
    var cache, stateEv := SetDrawState(ctx, d, ShaderSolid, st.cache);
    var body := LineRun(ctx, v, d);
    next := st.(cache := cache);
    ev := stateEv + body;
  }

  /** The vertex part of the line command: drop the repeated point of a
      closed polyline and draw a loop, or draw a strip and close it with the
      endpoint. */
  method LineRun(ctx: Context, v: seq<int>, d: Draw) returns (body: seq<Event>)
    requires d.count >= 1 && d.first + 2 * d.count <= |v|
    ensures body == LineEvents(ctx, v, d)
  {
    var f := d.first;
    var count := d.count;
    if count > 2 && v[f] == v[f + 2 * (count - 1)] && v[f + 1] == v[f + 2 * count - 1] {
      assert IsClosed(v, d);
      count := count - 1;
      var verts := VertexRun(v, f, count);
      body := [BeginEv(LineLoop)] + verts + [EndEv];
    } else {
      assert !IsClosed(v, d);
      var verts := VertexRun(v, f, count);
      var last := f + 2 * (count - 1);
      var strip := [BeginEv(LineStrip)] + verts + [EndEv, BeginEv(Points)];
      assert strip == StripEvents(v, f, count);
      body := strip + (EndpointVertices(ctx.lastPointOpen, v[f], v[f + 1], v[last], v[last + 1]) + [EndEv]);
    }
  }

  /** The line command's vertex calls as the C code makes them: the strip
      loop advances `verts` past the polyline, and the endpoint batch then
      reads its coordinates through that advanced pointer, count points
      further on than the polyline itself. */
  function LineEventsAsWritten(ctx: Context, v: seq<int>, d: Draw): (ev: seq<Event>)
    requires d.count >= 1 && d.first + 4 * d.count <= |v|
    ensures IsClosed(v, d) ==> ev == LineEvents(ctx, v, d)
    ensures !IsClosed(v, d) ==> |ev| >= d.count + 3 && ev[..d.count + 3] == StripEvents(v, d.first, d.count)
  {
    if IsClosed(v, d) then
      [BeginEv(LineLoop)] + VertexEvents(v, d.first, d.count - 1) + [EndEv]
    else
      var p := d.first + 2 * d.count;
      StripEvents(v, d.first, d.count)
      + (EndpointVertices(ctx.lastPointOpen, v[p], v[p + 1], v[p + 2 * (d.count - 1)], v[p + 2 * d.count - 1]) + [EndEv])
  }

  /** The open polyline (0,0)-(5,0), followed in the buffer by (7,7) and
      (9,9): the strip ends at (5,0), so the endpoint to add is (5,0), but the
      code as written adds (9,9) twice, a point of the next command's data. */
  lemma EndpointReadPastCommand()
    ensures var ctx := Context(false, Texture2D, false, 0, Rect(0, 0, 0, 0), Rect(0, 0, 0, 0), false,
                               Color(0, 0, 0, 0), false);
      var v := [0, 0, 5, 0, 7, 7, 9, 9];
      var d := Draw(0, 2, Color(0, 0, 0, 0), NoBlend, None);
      LineEventsAsWritten(ctx, v, d)[5..] == [VertexEv(9, 9), VertexEv(9, 9), EndEv] &&
      LineEvents(ctx, v, d)[5..] == [VertexEv(5, 0), EndEv]
  {
    var v := [0, 0, 5, 0, 7, 7, 9, 9];
    assert VertexEvents(v, 0, 2) == [VertexEv(0, 0), VertexEv(5, 0)];
  }

  /** Every point the endpoint batch of an open polyline draws is the
      polyline's first or last point. */
  lemma StripEndpointIsPolylineEnd(ctx: Context, v: seq<int>, d: Draw)
    requires d.count >= 1 && d.first + 2 * d.count <= |v| && !IsClosed(v, d)
    ensures var ev := LineEvents(ctx, v, d);
      var last := d.first + 2 * (d.count - 1);
      forall i :: d.count + 3 <= i < |ev| - 1 ==>
        ev[i] == VertexEv(v[d.first], v[d.first + 1]) || ev[i] == VertexEv(v[last], v[last + 1])
  {
    var last := d.first + 2 * (d.count - 1);
    var strip := StripEvents(v, d.first, d.count);
    var extra := EndpointVertices(ctx.lastPointOpen, v[d.first], v[d.first + 1], v[last], v[last + 1]);
    var ev := LineEvents(ctx, v, d);
    assert |strip| == d.count + 3;
    assert ev == strip + (extra + [EndEv]);
    forall i | d.count + 3 <= i < |ev| - 1
      ensures ev[i] == VertexEv(v[d.first], v[d.first + 1]) || ev[i] == VertexEv(v[last], v[last + 1])
    {
      assert ev[i] == extra[i - (d.count + 3)];
      assert extra[i - (d.count + 3)] in extra;
    }
  }

  /** SDL_RENDERCMD_FILL_RECTS */
  method ExecFillRects(ctx: Context, d: Draw, st: ExecState, v: seq<int>) returns (next: ExecState, ev: seq<Event>)
    requires d.first + 4 * d.count <= |v|
    ensures next == st.(cache := DrawStateNext(ctx, st.cache, d, ShaderSolid))
    ensures ev == DrawStateEvents(ctx, st.cache, d, ShaderSolid) + RectEvents(v, d.first, d.count)
  {
    var cache, stateEv := SetDrawState(ctx, d, ShaderSolid, st.cache);
    var rects := RectRun(v, d.first, d.count);
    next := st.(cache := cache);
    ev := stateEv + rects;
  }

  /** SDL_RENDERCMD_COPY */
  method ExecCopy(ctx: Context, d: Draw, st: ExecState, v: seq<int>) returns (next: ExecState, ev: seq<Event>)
    requires d.first + 8 <= |v| && d.texture.Some?
    ensures next == st.(cache := DrawStateNext(ctx, st.cache, d, ChooseShader(ctx.hasShaders, d.texture.value)),
                        bound := Some(d.texture.value.id))
    ensures ev == CopyStateEvents(ctx, d, st) + QuadEvents(v, d.first)
  {
    var stateEv;
    next, stateEv := SetCopyState(ctx, d, st);
    ev := stateEv + QuadEvents(v, d.first);
  }

  /** SDL_RENDERCMD_COPY_EX: the copy state, then the rotated quad. */
  method ExecCopyEx(ctx: Context, d: Draw, st: ExecState, v: seq<int>) returns (next: ExecState, ev: seq<Event>)
    requires d.first + 11 <= |v| && d.texture.Some?
    ensures next == st.(cache := DrawStateNext(ctx, st.cache, d, ChooseShader(ctx.hasShaders, d.texture.value)),
                        bound := Some(d.texture.value.id))
    ensures ev == CopyStateEvents(ctx, d, st) + CopyExEvents(v, d.first)
  {
    var stateEv;
    next, stateEv := SetCopyState(ctx, d, st);
    ev := stateEv + CopyExEvents(v, d.first);
  }

  /** The locals one command leaves and the GL calls it makes. */
  datatype Effect = Effect(next: ExecState, ev: seq<Event>)

  /** The shader a drawing command runs with: its texture's for a copy, the
      solid one for everything else. */
  function DrawShader(ctx: Context, c: Command): Shader
  {
    if (c.Copy? || c.CopyEx?) && c.draw.texture.Some? then ChooseShader(ctx.hasShaders, c.draw.texture.value)
    else ShaderSolid
  }

  /** The calls a drawing command makes once its state is set: vertex, rect
      and quad calls, never a glClear or a glDisable. */
  function DrawBody(ctx: Context, c: Command, v: seq<int>): (ev: seq<Event>)
    requires DrawOf(c).Some? && Fits(c, |v|)
    ensures ClearEv !in ev && forall e :: e in ev ==> !e.DisableEv?
  {
    match c
    case DrawPoints(d) =>
      ConcatFacts([BeginEv(Points)], VertexEvents(v, d.first, d.count), [EndEv], []);
      [BeginEv(Points)] + VertexEvents(v, d.first, d.count) + [EndEv]
    case DrawLines(d) =>
      LineEventsKinds(ctx, v, d);
      LineEvents(ctx, v, d)
    case FillRects(d) => RectEvents(v, d.first, d.count)
    case Copy(d) => QuadEvents(v, d.first)
    case CopyEx(d) => CopyExEvents(v, d.first)
  }

  /** A drawing command: its state calls (for a copy with the texture
      bindings, after which its texture is the bound one), then its body. */
  function DrawStep(ctx: Context, c: Command, st: ExecState, v: seq<int>): Effect
    requires DrawOf(c).Some? && Fits(c, |v|)
  {
    var d := DrawOf(c).value;
    var shader := DrawShader(ctx, c);
    var next := st.(cache := DrawStateNext(ctx, st.cache, d, shader));
    if c.Copy? || c.CopyEx? then
      Effect(next.(bound := Some(d.texture.value.id)), CopyStateEvents(ctx, d, st) + DrawBody(ctx, c, v))
    else
      Effect(next, DrawStateEvents(ctx, st.cache, d, shader) + DrawBody(ctx, c, v))
  }

  /** One iteration of the command loop, as a function of the command and
      the locals before it. */
  function Step(ctx: Context, c: Command, st: ExecState, v: seq<int>): Effect
    requires Fits(c, |v|)
  {
    match c
    case SetDrawColor => Effect(st, [])
    case NoOp => Effect(st, [])
    case SetViewport(vp) =>
      if vp == st.viewport then Effect(st, []) else Effect(st.(viewport := vp), ViewportEvents(ctx, vp))
    case SetClipRect(clip, enabled) =>
      Effect(st.(clipEnabled := enabled, clipRect := if enabled then clip else st.clipRect),
             ClipEvents(ctx, clip, enabled, st))
    case Clear(color) =>
      Effect(st.(clearColor := PackColor(color)), ClearEvents(ctx.clippingEnabled, PackColor(color), st.clearColor))
    case _ => DrawStep(ctx, c, st, v)
  }

  /** What one command leaves in the executor's locals and emits, as far as
      the whole-queue properties need it. */
  predicate StepEffect(ctx: Context, c: Command, st: ExecState, next: ExecState, ev: seq<Event>)
  {
    next.viewport == (if c.SetViewport? then c.viewport else st.viewport) &&
    next.clipEnabled == (if c.SetClipRect? then c.enabled else st.clipEnabled) &&
    next.clipRect == (if c.SetClipRect? && c.enabled then c.clip else st.clipRect) &&
    next.clearColor == (if c.Clear? then PackColor(c.color) else st.clearColor) &&
    next.bound == (if (c.Copy? || c.CopyEx?) && c.draw.texture.Some? then Some(c.draw.texture.value.id) else st.bound) &&
    (DrawOf(c).Some? ==> next.cache.color == PackColor(DrawOf(c).value.color) &&
                         next.cache.blend == DrawOf(c).value.blend &&
                         next.cache.shader == (if ctx.hasShaders then DrawShader(ctx, c) else st.cache.shader)) &&
    (DrawOf(c).None? ==> next.cache == st.cache) &&
    (next.cache.texturing ==> st.cache.texturing) &&
    ClearCount(ev) == (if c.Clear? then 1 else 0) &&
    (!st.cache.texturing ==> DisableEv(CapTexture(ctx.textype)) !in ev)
  }

  /** Each command sets the locals its kind is about and no other, makes one
      glClear if it is a clear and none otherwise, never sets the texturing
      flag, and disables texturing only when the flag was set. */
  lemma StepFacts(ctx: Context, c: Command, st: ExecState, v: seq<int>)
    requires Fits(c, |v|)
    ensures StepEffect(ctx, c, st, Step(ctx, c, st, v).next, Step(ctx, c, st, v).ev)
  {
    var ev := Step(ctx, c, st, v).ev;
    match c {
      case SetDrawColor =>
      case NoOp =>
      case SetViewport(vp) =>
        ClearCountNone(ev);
      case SetClipRect(clip, enabled) =>
        ClipEventsFacts(ctx, clip, enabled, st);
        ClearCountNone(ev);
      case Clear(color) =>
        ClearEventsCount(ctx.clippingEnabled, PackColor(color), st.clearColor);
        ClearEventsColor(ctx.clippingEnabled, PackColor(color), st.clearColor);
      case DrawPoints(d) =>
        SolidStep(ctx, c, st, v);
        DrawStateNoClear(ctx, st.cache, d, ShaderSolid);
        ConcatFacts(DrawStateEvents(ctx, st.cache, d, ShaderSolid), DrawBody(ctx, c, v), [], []);
        ClearCountNone(ev);
      case DrawLines(d) =>
        SolidStep(ctx, c, st, v);
        DrawStateNoClear(ctx, st.cache, d, ShaderSolid);
        ConcatFacts(DrawStateEvents(ctx, st.cache, d, ShaderSolid), DrawBody(ctx, c, v), [], []);
        ClearCountNone(ev);
      case FillRects(d) =>
        SolidStep(ctx, c, st, v);
        DrawStateNoClear(ctx, st.cache, d, ShaderSolid);
        ConcatFacts(DrawStateEvents(ctx, st.cache, d, ShaderSolid), DrawBody(ctx, c, v), [], []);
        ClearCountNone(ev);
      case Copy(d) =>
        CopyStateNoClear(ctx, d, st);
        ConcatFacts(CopyStateEvents(ctx, d, st), DrawBody(ctx, c, v), [], []);
        ClearCountNone(ev);
      case CopyEx(d) =>
        CopyStateNoClear(ctx, d, st);
        ConcatFacts(CopyStateEvents(ctx, d, st), DrawBody(ctx, c, v), [], []);
        ClearCountNone(ev);
    }
  }

  /** The calls of a point, line or rectangle command: its state for the
      solid shader, then its body. */
  lemma SolidStep(ctx: Context, c: Command, st: ExecState, v: seq<int>)
    requires (c.DrawPoints? || c.DrawLines? || c.FillRects?) && Fits(c, |v|)
    ensures Step(ctx, c, st, v).ev == DrawStateEvents(ctx, st.cache, c.draw, ShaderSolid) + DrawBody(ctx, c, v)
  {
    assert Step(ctx, c, st, v) == DrawStep(ctx, c, st, v);
    assert DrawOf(c).value == c.draw && DrawShader(ctx, c) == ShaderSolid;
  }

  /** One iteration of the command loop: dispatch on the command kind. */
  method Execute(ctx: Context, c: Command, st: ExecState, v: seq<int>) returns (next: ExecState, ev: seq<Event>)
    requires Fits(c, |v|)
    ensures Effect(next, ev) == Step(ctx, c, st, v)
  {
    match c {
      case SetDrawColor =>
        next, ev := st, [];
      case SetViewport(vp) =>
        next, ev := ExecSetViewport(ctx, vp, st);
      case SetClipRect(clip, enabled) =>
        next, ev := ExecSetClipRect(ctx, clip, enabled, st);
      case Clear(color) =>
        next, ev := ExecClear(ctx, color, st);
      case DrawPoints(d) =>
        next, ev := ExecDrawPoints(ctx, d, st, v);
      case DrawLines(d) =>
        next, ev := ExecDrawLines(ctx, d, st, v);
      case FillRects(d) =>
        next, ev := ExecFillRects(ctx, d, st, v);
      case Copy(d) =>
        next, ev := ExecCopy(ctx, d, st, v);
      case CopyEx(d) =>
        next, ev := ExecCopyEx(ctx, d, st, v);
      case NoOp =>
        next, ev := st, [];
    }
  }

  /** The locals at the start of GL_RunCommandQueue: the renderer's viewport,
      clip rectangle, clip flag and colour; blend and shader invalid so the
      first draw sets them; texturing off; no texture bound. */
  function InitialState(ctx: Context): ExecState
  {
    var color := PackColor(ctx.rendererColor);
    ExecState(ctx.rendererViewport, ctx.clippingEnabled, ctx.rendererClip, color,
              DrawCache(color, InvalidBlend, ShaderInvalid, false), None)
  }

  /** The GL state GL_RunCommandQueue sets before the first command. */
  function Prelude(ctx: Context): seq<Event>
  {
    var color := PackColor(ctx.rendererColor);
    [ClearColorEv(color), ColorEv(color)] + ViewportEvents(ctx, ctx.rendererViewport)
    + [LoadIdentityEv,
       if ctx.clippingEnabled then EnableEv(CapScissorTest) else DisableEv(CapScissorTest),
       DisableEv(CapTexture(ctx.textype)),
       ScissorEvent(ctx, ctx.rendererViewport, ctx.rendererClip)]
  }

  /** The prelude puts GL in the state the executor's initial locals
      describe: clear and draw colour from the renderer's colour, the
      renderer's viewport (y flipped), the scissor test as the clipping flag
      says, texturing off, and the scissor box of the renderer's clip last. */
  lemma PreludeMatchesInitialState(ctx: Context)
    ensures var ev := Prelude(ctx);
      var init := InitialState(ctx);
      ev[0] == ClearColorEv(init.clearColor) && ev[1] == ColorEv(init.cache.color) &&
      ViewportEv(init.viewport.x, FlipY(ctx, init.viewport.y, init.viewport.h),
                 init.viewport.w, init.viewport.h) in ev &&
      (if init.clipEnabled then EnableEv(CapScissorTest) else DisableEv(CapScissorTest)) in ev &&
      DisableEv(CapTexture(ctx.textype)) in ev && !init.cache.texturing &&
      ev[|ev| - 1] == ScissorEvent(ctx, init.viewport, init.clipRect)
  {
    var vpEv := ViewportEvents(ctx, ctx.rendererViewport);
    assert vpEv[2] in vpEv;
  }

  /** The rect of the last viewport command, or `init` when there is none. */
  function LastViewport(cmds: seq<Command>, init: Rect): Rect
  {
    if cmds == [] then init
    else if cmds[|cmds| - 1].SetViewport? then cmds[|cmds| - 1].viewport
    else LastViewport(cmds[..|cmds| - 1], init)
  }

  /** The flag of the last clip command, or `init` when there is none. */
  function LastClipEnabled(cmds: seq<Command>, init: bool): bool
  {
    if cmds == [] then init
    else if cmds[|cmds| - 1].SetClipRect? then cmds[|cmds| - 1].enabled
    else LastClipEnabled(cmds[..|cmds| - 1], init)
  }

  /** The rect of the last clip command that turned clipping on, or `init`. */
  function LastClipRect(cmds: seq<Command>, init: Rect): Rect
  {
    if cmds == [] then init
    else if cmds[|cmds| - 1].SetClipRect? && cmds[|cmds| - 1].enabled then cmds[|cmds| - 1].clip
    else LastClipRect(cmds[..|cmds| - 1], init)
  }

  /** The packed colour of the last clear command, or `init`. */
  function LastClearColor(cmds: seq<Command>, init: nat): nat
  {
    if cmds == [] then init
    else if cmds[|cmds| - 1].Clear? then PackColor(cmds[|cmds| - 1].color)
    else LastClearColor(cmds[..|cmds| - 1], init)
  }

  /** The texture of the last copy command, if any. */
  function LastBound(cmds: seq<Command>): Option<nat>
  {
    if cmds == [] then None
    else
      var c := cmds[|cmds| - 1];
      if (c.Copy? || c.CopyEx?) && c.draw.texture.Some? then Some(c.draw.texture.value.id)
      else LastBound(cmds[..|cmds| - 1])
  }

  /** The parameters of the last drawing command, if any. */
  function LastDraw(cmds: seq<Command>): Option<Draw>
  {
    if cmds == [] then None
    else if DrawOf(cmds[|cmds| - 1]).Some? then DrawOf(cmds[|cmds| - 1])
    else LastDraw(cmds[..|cmds| - 1])
  }

  /** The shader of the last drawing command, or the invalid one. */
  function LastShader(ctx: Context, cmds: seq<Command>): Shader
  {
    if cmds == [] then ShaderInvalid
    else if DrawOf(cmds[|cmds| - 1]).Some? then DrawShader(ctx, cmds[|cmds| - 1])
    else LastShader(ctx, cmds[..|cmds| - 1])
  }

  function ClearCommands(cmds: seq<Command>): nat
  {
    if cmds == [] then 0
    else ClearCommands(cmds[..|cmds| - 1]) + (if cmds[|cmds| - 1].Clear? then 1 else 0)
  }

  /** The executor's locals hold, for each kind of command in `cmds`, the
      value the last such command set, or the initial value; texturing is off. */
  ghost predicate Tracks(ctx: Context, cmds: seq<Command>, st: ExecState)
  {
    var init := InitialState(ctx);
    st.viewport == LastViewport(cmds, init.viewport) &&
    st.clipEnabled == LastClipEnabled(cmds, init.clipEnabled) &&
    st.clipRect == LastClipRect(cmds, init.clipRect) &&
    st.clearColor == LastClearColor(cmds, init.clearColor) &&
    st.bound == LastBound(cmds) &&
    st.cache.color == (if LastDraw(cmds).Some? then PackColor(LastDraw(cmds).value.color) else init.cache.color) &&
    st.cache.blend == (if LastDraw(cmds).Some? then LastDraw(cmds).value.blend else InvalidBlend) &&
    st.cache.shader == (if ctx.hasShaders then LastShader(ctx, cmds) else ShaderInvalid) &&
    !st.cache.texturing
  }

  /** One command keeps Tracks and the clear count in step with the commands. */
  lemma TracksStep(ctx: Context, cmds: seq<Command>, c: Command, st: ExecState, next: ExecState, ev: seq<Event>)
    requires Tracks(ctx, cmds, st) && StepEffect(ctx, c, st, next, ev)
    ensures Tracks(ctx, cmds + [c], next)
    ensures ClearCommands(cmds + [c]) == ClearCommands(cmds) + ClearCount(ev)
  {
    assert (cmds + [c])[..|cmds|] == cmds;
  }

  /** Every command's vertex data lies inside the buffer. */
  predicate AllFit(cmds: seq<Command>, n: nat)
  {
    forall i :: 0 <= i < |cmds| ==> Fits(cmds[i], n)
  }

  /** The command loop as a function: the locals after `cmds`, starting from
      the renderer's state, and every GL call the commands made, in order. */
  function Run(ctx: Context, cmds: seq<Command>, v: seq<int>): Effect
    requires AllFit(cmds, |v|)
  {
    if cmds == [] then Effect(InitialState(ctx), [])
    else
      var prev := Run(ctx, cmds[..|cmds| - 1], v);
      var step := Step(ctx, cmds[|cmds| - 1], prev.next, v);
      Effect(step.next, prev.ev + step.ev)
  }

  /** A whole queue makes one glClear per clear command, never disables
      texturing, and leaves the locals holding the last value each kind of
      command set. */
  lemma {:induction false} RunFacts(ctx: Context, cmds: seq<Command>, v: seq<int>)
    requires AllFit(cmds, |v|)
    ensures ClearCount(Run(ctx, cmds, v).ev) == ClearCommands(cmds)
    ensures DisableEv(CapTexture(ctx.textype)) !in Run(ctx, cmds, v).ev
    ensures Tracks(ctx, cmds, Run(ctx, cmds, v).next)
  {
    if cmds != [] {
      var prefix := cmds[..|cmds| - 1];
      var c := cmds[|cmds| - 1];
      RunFacts(ctx, prefix, v);
      var prev := Run(ctx, prefix, v);
      var step := Step(ctx, c, prev.next, v);
      StepFacts(ctx, c, prev.next, v);
      ClearCountAppend(prev.ev, step.ev);
      assert cmds == prefix + [c];
      TracksStep(ctx, prefix, c, prev.next, step.next, step.ev);
    }
  }

  lemma RunSnoc(ctx: Context, cmds: seq<Command>, c: Command, v: seq<int>)
    requires AllFit(cmds, |v|) && Fits(c, |v|)
    ensures Run(ctx, cmds + [c], v) ==
      Effect(Step(ctx, c, Run(ctx, cmds, v).next, v).next, Run(ctx, cmds, v).ev + Step(ctx, c, Run(ctx, cmds, v).next, v).ev)
  {
    assert (cmds + [c])[..|cmds|] == cmds;
  }

  /** A point, line or rectangle command with the colour and blend mode of
      the last drawing command, after a drawing command that also used the
      solid shader, makes no state call: the queue adds only its vertex calls. */
  lemma RunElidesUnchangedDrawState(ctx: Context, cmds: seq<Command>, c: Command, v: seq<int>)
    requires AllFit(cmds, |v|) && Fits(c, |v|)
    requires (c.DrawPoints? || c.DrawLines? || c.FillRects?) && c.draw.texture.None?
    requires LastDraw(cmds).Some? && PackColor(c.draw.color) == PackColor(LastDraw(cmds).value.color)
    requires c.draw.blend == LastDraw(cmds).value.blend
    requires !ctx.hasShaders || LastShader(ctx, cmds) == ShaderSolid
    ensures Run(ctx, cmds + [c], v).ev == Run(ctx, cmds, v).ev + DrawBody(ctx, c, v)
  {
    var st := Run(ctx, cmds, v).next;
    RunSnoc(ctx, cmds, c, v);
    RunFacts(ctx, cmds, v);
    assert InState(ctx, st.cache, c.draw, ShaderSolid);
    DrawStateElision(ctx, st.cache, c.draw, ShaderSolid);
    SolidStep(ctx, c, st, v);
    assert Step(ctx, c, st, v).ev == DrawBody(ctx, c, v);
  }

  /** A copy of the texture already bound, with the colour, blend mode and
      shader already set, still re-enables the texture target: the
      texturing flag is never left set, so the only state call is glEnable. */
  lemma RunCopyReEnablesTexturing(ctx: Context, cmds: seq<Command>, d: Draw, v: seq<int>)
    requires AllFit(cmds, |v|) && Fits(Copy(d), |v|)
    requires d.texture.Some? && LastBound(cmds) == Some(d.texture.value.id)
    requires LastDraw(cmds).Some? && PackColor(d.color) == PackColor(LastDraw(cmds).value.color)
    requires d.blend == LastDraw(cmds).value.blend
    requires !ctx.hasShaders || LastShader(ctx, cmds) == ChooseShader(ctx.hasShaders, d.texture.value)
    ensures Run(ctx, cmds + [Copy(d)], v).ev ==
      Run(ctx, cmds, v).ev + [EnableEv(CapTexture(ctx.textype))] + QuadEvents(v, d.first)
  {
    RunSnoc(ctx, cmds, Copy(d), v);
    RunFacts(ctx, cmds, v);
  }

  /** A viewport command repeating the current viewport changes nothing and
      makes no call. */
  lemma RunElidesRepeatedViewport(ctx: Context, cmds: seq<Command>, vp: Rect, v: seq<int>)
    requires AllFit(cmds, |v|) && LastViewport(cmds, ctx.rendererViewport) == vp
    ensures Run(ctx, cmds + [SetViewport(vp)], v) == Run(ctx, cmds, v)
  {
    RunSnoc(ctx, cmds, SetViewport(vp), v);
    RunFacts(ctx, cmds, v);
  }

  /** A clip command repeating the current flag (and, with clipping on, the
      current rectangle) changes nothing and makes no call. */
  lemma RunElidesRepeatedClip(ctx: Context, cmds: seq<Command>, clip: Rect, enabled: bool, v: seq<int>)
    requires AllFit(cmds, |v|) && LastClipEnabled(cmds, ctx.clippingEnabled) == enabled
    requires enabled ==> LastClipRect(cmds, ctx.rendererClip) == clip
    ensures Run(ctx, cmds + [SetClipRect(clip, enabled)], v) == Run(ctx, cmds, v)
  {
    RunSnoc(ctx, cmds, SetClipRect(clip, enabled), v);
    RunFacts(ctx, cmds, v);
  }

  /** GL_RunCommandQueue: activate the context, set up the GL state from the
      renderer, run every command in order against the local cache, and
      report the GL error status. `emitted` is what the commands added to the
      trace after the prelude: exactly the calls of Run. `raised` are the
      errors the prelude's and the commands' GL calls raise; since activation
      cleared the earlier ones, the status is -1 exactly when the final check
      finds some of these. */
  method RunCommandQueue(r: RenderData, ctx: Context, cmds: seq<Command>, v: seq<int>, makeCurrentOk: bool,
                         raised: seq<GLError>)
    returns (status: int, final: ExecState, emitted: seq<Event>)
    requires r.Valid() && ctx.hasShaders == r.hasShaders && ctx.textype == r.textype
    requires AllFit(cmds, |v|) && NoSuccessRaised(raised)
    modifies r`trace, r`errorMessages, r`pendingErrors
    ensures r.Valid()
    ensures !makeCurrentOk ==> status == -1 && r.trace == old(r.trace) && emitted == []
    ensures !makeCurrentOk ==> r.errorMessages == old(r.errorMessages) && r.pendingErrors == old(r.pendingErrors)
    ensures makeCurrentOk ==> status == (if r.CheckFails(raised) then -1 else 0) && !r.ErrorsPending()
    ensures makeCurrentOk ==> r.trace == old(r.trace) + Prelude(ctx) + emitted
    ensures makeCurrentOk ==> Effect(final, emitted) == Run(ctx, cmds, v)
  {
    status := r.ActivateRenderer(makeCurrentOk);
    if status < 0 {
      return -1, InitialState(ctx), [];
    }
    r.trace := r.trace + Prelude(ctx);
    final, emitted := RunCommands(ctx, cmds, v);
    r.trace := r.trace + emitted;
    r.RaiseErrors(raised);
    status := r.CheckError("");
  }

  /** The command loop of GL_RunCommandQueue: execute each command in order
      against the executor's locals, starting from the renderer's state, and
      collect the GL calls made; RunFacts says what they amount to. */
  method RunCommands(ctx: Context, cmds: seq<Command>, v: seq<int>) returns (final: ExecState, emitted: seq<Event>)
    requires AllFit(cmds, |v|)
    ensures Effect(final, emitted) == Run(ctx, cmds, v)
  {
    var st := InitialState(ctx);
    emitted := [];
    var i := 0;
    while i < |cmds|
      invariant 0 <= i <= |cmds|
      invariant Effect(st, emitted) == Run(ctx, cmds[..i], v)
    {
      var next, ev := Execute(ctx, cmds[i], st, v);
      assert cmds[..i + 1][..i] == cmds[..i];
      emitted := emitted + ev;
      st := next;
      i := i + 1;
    }
    assert cmds[..i] == cmds;
    final := st;
  }
}
