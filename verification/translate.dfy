/** The backend's translation tables: SDL blend factors and operations to GL
    enums, the blend-mode support test, SDL pixel formats to GL upload formats,
    and GL error codes to their symbolic names. Each table is total, with
    GL_INVALID_ENUM (or "UNKNOWN", or no format) for inputs it does not map. */
module Translate {
  import opened GLTypes

  // GL enum values used by the tables
  const GL_ZERO := 0
  const GL_ONE := 1
  const GL_SRC_COLOR := 0x0300
  const GL_ONE_MINUS_SRC_COLOR := 0x0301
  const GL_SRC_ALPHA := 0x0302
  const GL_ONE_MINUS_SRC_ALPHA := 0x0303
  const GL_DST_ALPHA := 0x0304
  const GL_ONE_MINUS_DST_ALPHA := 0x0305
  const GL_DST_COLOR := 0x0306
  const GL_ONE_MINUS_DST_COLOR := 0x0307

  const GL_NO_ERROR := 0
  const GL_INVALID_ENUM := 0x0500
  const GL_INVALID_VALUE := 0x0501
  const GL_INVALID_OPERATION := 0x0502
  const GL_STACK_OVERFLOW := 0x0503
  const GL_STACK_UNDERFLOW := 0x0504
  const GL_OUT_OF_MEMORY := 0x0505
  const GL_TABLE_TOO_LARGE := 0x8031

  const GL_FUNC_ADD := 0x8006
  const GL_FUNC_SUBTRACT := 0x800A
  const GL_FUNC_REVERSE_SUBTRACT := 0x800B

  const GL_RGBA8 := 0x8058
  const GL_BGRA := 0x80E1
  const GL_UNSIGNED_INT_8_8_8_8_REV := 0x8367
  const GL_LUMINANCE := 0x1909
  const GL_LUMINANCE_ALPHA := 0x190A
  const GL_UNSIGNED_BYTE := 0x1401

  /** The ten SDL blend factors, ZERO (0x1) to ONE_MINUS_DST_ALPHA (0xA). */
  predicate IsBlendFactor(f: int) { FACTOR_ZERO <= f <= FACTOR_ONE_MINUS_DST_ALPHA }

  /** The three operations a fixed-function GL blend equation can express. */
  predicate IsGLBlendOperation(op: int) { op == OP_ADD || op == OP_SUBTRACT || op == OP_REV_SUBTRACT }

  /** The GL blend factors GetBlendFunc can produce. */
  predicate IsGLBlendFactor(e: int)
  {
    e == GL_ZERO || e == GL_ONE || GL_SRC_COLOR <= e <= GL_ONE_MINUS_DST_COLOR
  }

  /** GetBlendFunc: an SDL blend factor to its GL enum, GL_INVALID_ENUM otherwise. */
  function GetBlendFunc(factor: int): (r: int)
    ensures r == GL_INVALID_ENUM <==> !IsBlendFactor(factor)
    ensures r != GL_INVALID_ENUM ==> IsGLBlendFactor(r)
  {
    if factor == FACTOR_ZERO then GL_ZERO
    else if factor == FACTOR_ONE then GL_ONE
    else if factor == FACTOR_SRC_COLOR then GL_SRC_COLOR
    else if factor == FACTOR_ONE_MINUS_SRC_COLOR then GL_ONE_MINUS_SRC_COLOR
    else if factor == FACTOR_SRC_ALPHA then GL_SRC_ALPHA
    else if factor == FACTOR_ONE_MINUS_SRC_ALPHA then GL_ONE_MINUS_SRC_ALPHA
    else if factor == FACTOR_DST_COLOR then GL_DST_COLOR
    else if factor == FACTOR_ONE_MINUS_DST_COLOR then GL_ONE_MINUS_DST_COLOR
    else if factor == FACTOR_DST_ALPHA then GL_DST_ALPHA
    else if factor == FACTOR_ONE_MINUS_DST_ALPHA then GL_ONE_MINUS_DST_ALPHA
    else GL_INVALID_ENUM
  }

  /** Distinct SDL factors map to distinct GL factors: the table loses nothing. */
  lemma GetBlendFuncInjective(f1: int, f2: int)
    requires IsBlendFactor(f1) && IsBlendFactor(f2)
    ensures GetBlendFunc(f1) == GetBlendFunc(f2) ==> f1 == f2
  {
  }

  /** GetBlendEquation: an SDL blend operation to its GL equation,
      GL_INVALID_ENUM for MINIMUM, MAXIMUM and anything else. */
  function GetBlendEquation(op: int): (r: int)
    ensures r == GL_INVALID_ENUM <==> !IsGLBlendOperation(op)
    ensures r != GL_INVALID_ENUM ==> r == GL_FUNC_ADD || r == GL_FUNC_SUBTRACT || r == GL_FUNC_REVERSE_SUBTRACT
  {
    if op == OP_ADD then GL_FUNC_ADD
    else if op == OP_SUBTRACT then GL_FUNC_SUBTRACT
    else if op == OP_REV_SUBTRACT then GL_FUNC_REVERSE_SUBTRACT
    else GL_INVALID_ENUM
  }

  lemma GetBlendEquationInjective(o1: int, o2: int)
    requires IsGLBlendOperation(o1) && IsGLBlendOperation(o2)
    ensures GetBlendEquation(o1) == GetBlendEquation(o2) ==> o1 == o2
  {
  }

  /** GL_SupportsBlendMode: every component must translate, and the colour and
      alpha operations must agree (glBlendEquation sets one equation for both). */
  function SupportsBlendMode(mode: BlendMode): (r: bool)
    ensures r <==>
      var c := BlendComponents(mode);
      IsBlendFactor(c.srcColor) && IsBlendFactor(c.dstColor) &&
      IsBlendFactor(c.srcAlpha) && IsBlendFactor(c.dstAlpha) &&
      IsGLBlendOperation(c.colorOp) && IsGLBlendOperation(c.alphaOp) &&
      c.colorOp == c.alphaOp
  {
    var c := BlendComponents(mode);
    if GetBlendFunc(c.srcColor) == GL_INVALID_ENUM ||
       GetBlendFunc(c.srcAlpha) == GL_INVALID_ENUM ||
       GetBlendEquation(c.colorOp) == GL_INVALID_ENUM ||
       GetBlendFunc(c.dstColor) == GL_INVALID_ENUM ||
       GetBlendFunc(c.dstAlpha) == GL_INVALID_ENUM ||
       GetBlendEquation(c.alphaOp) == GL_INVALID_ENUM
    then false
    else c.colorOp == c.alphaOp
  }

  /** NONE is supported, INVALID is not, and a mode whose colour and alpha
      operations differ never is. */
  lemma SupportsBlendModeCases(sc: int, dc: int, co: int, sa: int, da: int, ao: int)
    ensures SupportsBlendMode(NoBlend)
    ensures !SupportsBlendMode(InvalidBlend)
    ensures co != ao ==> !SupportsBlendMode(Composed(sc, dc, co, sa, da, ao))
    ensures (IsBlendFactor(sc) && IsBlendFactor(dc) && IsBlendFactor(sa) && IsBlendFactor(da) &&
             IsGLBlendOperation(co)) ==> SupportsBlendMode(Composed(sc, dc, co, sa, da, co))
  {
  }

  /** The (internalFormat, format, type) triple glTexImage2D receives. */
  datatype GLFormat = GLFormat(internalFormat: int, format: int, formatType: int)

  /** convert_format: ARGB8888 uploads as BGRA bytes into an RGBA8 texture; the
      four YUV formats upload as single-byte luminance. Nothing else is
      supported (the Mac-only UYVY case is not part of this model). */
  function ConvertFormat(f: PixelFormat): (r: Option<GLFormat>)
    ensures r.Some? <==> f == ARGB8888 || IsThreePlane(f) || IsTwoPlane(f)
    ensures r.Some? && f != ARGB8888 ==>
      r.value == GLFormat(GL_LUMINANCE, GL_LUMINANCE, GL_UNSIGNED_BYTE)
  {
    match f
    case ARGB8888 => Some(GLFormat(GL_RGBA8, GL_BGRA, GL_UNSIGNED_INT_8_8_8_8_REV))
    case YV12 => Some(GLFormat(GL_LUMINANCE, GL_LUMINANCE, GL_UNSIGNED_BYTE))
    case IYUV => Some(GLFormat(GL_LUMINANCE, GL_LUMINANCE, GL_UNSIGNED_BYTE))
    case NV12 => Some(GLFormat(GL_LUMINANCE, GL_LUMINANCE, GL_UNSIGNED_BYTE))
    case NV21 => Some(GLFormat(GL_LUMINANCE, GL_LUMINANCE, GL_UNSIGNED_BYTE))
    case OtherFormat(_) => None
  }

  /** The eight GL error codes GL_TranslateError names. */
  predicate IsKnownError(code: int)
  {
    code == GL_INVALID_ENUM || code == GL_INVALID_VALUE || code == GL_INVALID_OPERATION ||
    code == GL_OUT_OF_MEMORY || code == GL_NO_ERROR || code == GL_STACK_OVERFLOW ||
    code == GL_STACK_UNDERFLOW || code == GL_TABLE_TOO_LARGE
  }

  /** GL_TranslateError: the symbolic name of a GL error code, "UNKNOWN" otherwise. */
  function TranslateError(code: int): (name: string)
    ensures name == "UNKNOWN" <==> !IsKnownError(code)
    ensures IsKnownError(code) ==> |name| > 3 && name[..3] == "GL_"
  {
    if code == GL_INVALID_ENUM then "GL_INVALID_ENUM"
    else if code == GL_INVALID_VALUE then "GL_INVALID_VALUE"
    else if code == GL_INVALID_OPERATION then "GL_INVALID_OPERATION"
    else if code == GL_OUT_OF_MEMORY then "GL_OUT_OF_MEMORY"
    else if code == GL_NO_ERROR then "GL_NO_ERROR"
    else if code == GL_STACK_OVERFLOW then "GL_STACK_OVERFLOW"
    else if code == GL_STACK_UNDERFLOW then "GL_STACK_UNDERFLOW"
    else if code == GL_TABLE_TOO_LARGE then "GL_TABLE_TOO_LARGE"
    else "UNKNOWN"
  }

  /** Different known codes get different names, so the name identifies the code. */
  lemma TranslateErrorInjective(c1: int, c2: int)
    requires IsKnownError(c1) && IsKnownError(c2)
    ensures TranslateError(c1) == TranslateError(c2) ==> c1 == c2
  {
  }
}
