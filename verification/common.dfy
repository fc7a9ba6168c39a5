/** Shared vocabulary of the OpenGL 2D render backend model: SDL-side enums
    (pixel formats, blend modes, shaders, rectangles, colours) and the GL-side
    events that the backend issues. GL itself is modelled as an append-only
    trace of `Event` values. */
module GLTypes {

  datatype Option<T> = None | Some(value: T)

  type Byte = x: int | 0 <= x < 256

  /** SDL_Rect: x, y, w, h as C ints. */
  datatype Rect = Rect(x: int, y: int, w: int, h: int)

  /** The pixel formats this backend distinguishes. Every other SDL format is
      `OtherFormat`, carrying its SDL_BYTESPERPIXEL value. */
  datatype PixelFormat = ARGB8888 | YV12 | IYUV | NV12 | NV21 | OtherFormat(bpp: nat)

  /** SDL_BYTESPERPIXEL for the formats above: ARGB8888 is 4 bytes, the planar
      and semi-planar YUV formats count 1 byte per luma sample. */
  function BytesPerPixel(f: PixelFormat): nat
  {
    match f
    case ARGB8888 => 4
    case YV12 => 1
    case IYUV => 1
    case NV12 => 1
    case NV21 => 1
    case OtherFormat(b) => b
  }

  predicate IsThreePlane(f: PixelFormat) { f == YV12 || f == IYUV }
  predicate IsTwoPlane(f: PixelFormat) { f == NV12 || f == NV21 }

  datatype TextureAccess = Static | Streaming | Target

  /** GL texture target held in the renderer's `textype`. */
  datatype TextureTarget = Texture2D | TextureRectangle

  /** SDL_BlendMode. The predefined NONE and INVALID words are kept apart;
      every other mode is represented by its six components. */
  datatype BlendMode =
    | NoBlend
    | InvalidBlend
    | Composed(srcColor: int, dstColor: int, colorOp: int,
               srcAlpha: int, dstAlpha: int, alphaOp: int)

  // SDL_BlendFactor codes
  const FACTOR_ZERO := 0x1
  const FACTOR_ONE := 0x2
  const FACTOR_SRC_COLOR := 0x3
  const FACTOR_ONE_MINUS_SRC_COLOR := 0x4
  const FACTOR_SRC_ALPHA := 0x5
  const FACTOR_ONE_MINUS_SRC_ALPHA := 0x6
  const FACTOR_DST_COLOR := 0x7
  const FACTOR_ONE_MINUS_DST_COLOR := 0x8
  const FACTOR_DST_ALPHA := 0x9
  const FACTOR_ONE_MINUS_DST_ALPHA := 0xA

  // SDL_BlendOperation codes
  const OP_ADD := 0x1
  const OP_SUBTRACT := 0x2
  const OP_REV_SUBTRACT := 0x3
  const OP_MINIMUM := 0x4
  const OP_MAXIMUM := 0x5

  /** The six components SDL_GetBlendMode*Factor / *Operation extract, in the
      order (srcColor, dstColor, colorOp, srcAlpha, dstAlpha, alphaOp).
      NONE expands to its long form; INVALID (0x7FFFFFFF) to 0xF everywhere. */
  datatype Components = Components(srcColor: int, dstColor: int, colorOp: int,
                                   srcAlpha: int, dstAlpha: int, alphaOp: int)

  function BlendComponents(m: BlendMode): Components
  {
    match m
    case NoBlend => Components(FACTOR_ONE, FACTOR_ZERO, OP_ADD, FACTOR_ONE, FACTOR_ZERO, OP_ADD)
    case InvalidBlend => Components(0xF, 0xF, 0xF, 0xF, 0xF, 0xF)
    case Composed(sc, dc, co, sa, da, ao) => Components(sc, dc, co, sa, da, ao)
  }

  /** GL_Shader from the shader subsystem. */
  datatype Shader =
    | ShaderInvalid | ShaderNone | ShaderSolid | ShaderRGB
    | ShaderYuvJpeg | ShaderYuvBT601 | ShaderYuvBT709
    | ShaderNV12Jpeg | ShaderNV12BT601 | ShaderNV12BT709
    | ShaderNV21Jpeg | ShaderNV21BT601 | ShaderNV21BT709

  /** What SDL_GetYUVConversionModeForResolution returned for a texture. */
  datatype ConversionMode = ModeJpeg | ModeBT601 | ModeBT709 | ModeOther

  /** An RGBA draw or clear colour, one byte per channel. */
  datatype Color = Color(r: Byte, g: Byte, b: Byte, a: Byte)

  /** The 32-bit word ((a << 24) | (r << 16) | (g << 8) | b) that the command
      executor caches and compares. */
  function PackColor(c: Color): (w: nat)
    ensures w < 0x1_0000_0000
  {
    c.a * 0x100_0000 + c.r * 0x1_0000 + c.g * 0x100 + c.b
  }

  /** Reads the channels back out of a packed word. */
  function UnpackColor(w: nat): Color
    requires w < 0x1_0000_0000
  {
    Color((w / 0x1_0000) % 0x100, (w / 0x100) % 0x100, w % 0x100, w / 0x100_0000)
  }

  /** Packing loses nothing: the cached word determines the colour. */
  lemma PackColorRoundTrip(c: Color)
    ensures UnpackColor(PackColor(c)) == c
  {
    var w := PackColor(c);
    assert w / 0x100_0000 == c.a;
    assert w % 0x100_0000 == c.r * 0x1_0000 + c.g * 0x100 + c.b;
    assert (w / 0x1_0000) == c.a * 0x100 + c.r;
    assert (w / 0x100) == c.a * 0x1_0000 + c.r * 0x100 + c.g;
  }

  lemma PackColorInjective(c1: Color, c2: Color)
    ensures PackColor(c1) == PackColor(c2) <==> c1 == c2
  {
    if PackColor(c1) == PackColor(c2) {
      PackColorRoundTrip(c1);
      PackColorRoundTrip(c2);
    }
  }

  /** GL capabilities toggled with glEnable / glDisable. */
  datatype Cap = CapBlend | CapScissorTest | CapTexture(target: TextureTarget)

  datatype MatrixMode = Projection | ModelView

  datatype Primitive = Points | LineStrip | LineLoop | TriangleStrip

  /** One GL call, as recorded in the trace. Float arguments (colours scaled by
      1/255, texture coordinates, angles) are kept as the integers or words
      they were computed from. */
  datatype Event =
    | ClearColorEv(color: nat)
    | ColorEv(color: nat)
    | EnableEv(cap: Cap)
    | DisableEv(cap: Cap)
    | BlendFuncSeparateEv(srcRGB: int, dstRGB: int, srcAlpha: int, dstAlpha: int)
    | BlendEquationEv(equation: int)
    | SelectShaderEv(shader: Shader)
    | ActiveTextureEv(unit: nat)
    | BindTextureEv(target: TextureTarget, name: nat)
    | MatrixModeEv(mode: MatrixMode)
    | LoadIdentityEv
    | ViewportEv(x: int, y: int, w: int, h: int)
    | OrthoEv(left: int, right: int, bottom: int, top: int)
    | ScissorEv(x: int, y: int, w: int, h: int)
    | ClearEv
    | BeginEv(prim: Primitive)
    | VertexEv(x: int, y: int)
    | TexCoordEv(u: int, v: int)
    | EndEv
    | RectEv(x1: int, y1: int, x2: int, y2: int)
    | PushMatrixEv
    | PopMatrixEv
    | TranslateEv(x: int, y: int)
    | RotateEv(angle: int)
    | GenTextureEv(name: nat)
    | DeleteTextureEv(name: nat)
    | TexImageEv(target: TextureTarget, w: int, h: int, internalFormat: int)
    | TexSubImageEv(target: TextureTarget, rect: Rect, offset: int, rowLength: int)
    | GenFramebufferEv(name: nat)
    | DeleteFramebufferEv(name: nat)
    | PixelStoreEv(pname: int, param: int)
    | ReadPixelsEv(rect: Rect)
    | DestroyShadersEv
    | DeleteContextEv
}
