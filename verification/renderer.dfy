/** The renderer's driver data (GL_RenderData) and texture data
    (GL_TextureData): the framebuffer cache keyed by size, the debug error
    list, and the texture lifecycle (create, update, lock, unlock, destroy).
    GL calls are appended to `trace`; names that glGen* hands out are drawn
    from the counter `nextName`; the driver's glGetError queue is
    `pendingErrors`. */
module Renderer {
  import opened GLTypes
  import opened Translate
  import opened TextureLayout

  const GL_DEBUG_TYPE_ERROR_ARB := 0x824C

  /** One GL_FBOList node: a framebuffer object for targets of size w x h. */
  datatype Fbo = Fbo(w: nat, h: nat, name: nat)

  predicate SizeIs(f: Fbo, w: nat, h: nat) { f.w == w && f.h == h }

  /** No two cached framebuffers share a size. */
  predicate UniqueSizes(fbs: seq<Fbo>)
  {
    forall i, j :: 0 <= i < j < |fbs| ==> !(fbs[i].w == fbs[j].w && fbs[i].h == fbs[j].h)
  }

  predicate HasSize(fbs: seq<Fbo>, w: nat, h: nat)
  {
    exists k :: 0 <= k < |fbs| && SizeIs(fbs[k], w, h)
  }

  /** One SDL_SetError call made while reporting errors. */
  datatype Report = Report(prefix: string, what: string)

  /** Why GL_CreateTexture failed, or that it succeeded. */
  datatype CreateStatus = Created | TargetsUnsupported | FormatUnsupported | OutOfMemory | GLFailed

  /** GL_TextureData. `pixels` is the size of the streaming pixel buffer
      (None when there is none); `scale` stands for texw/texh. */
  datatype TextureData = TextureData(
    texture: nat, scale: UvScale, format: int, formatType: int,
    pixels: Option<int>, pitch: int, lockedRect: Rect,
    yuv: bool, nv12: bool, utexture: nat, vtexture: nat, fbo: Option<Fbo>)

  /** An SDL_Texture as the backend sees it. */
  class Texture {
    const format: PixelFormat
    const access: TextureAccess
    const w: nat
    const h: nat
    var driverdata: Option<TextureData>

    constructor (format: PixelFormat, access: TextureAccess, w: nat, h: nat)
      ensures this.format == format && this.access == access
      ensures this.w == w && this.h == h && driverdata == None
    {
      this.format := format;
      this.access := access;
      this.w := w;
      this.h := h;
      driverdata := None;
    }
  }

  /** The deletions the teardown walk performs, in list order. */
  function DeleteFramebufferEvents(fbs: seq<Fbo>): (ev: seq<Event>)
    ensures |ev| == |fbs|
  {
    if fbs == [] then [] else [DeleteFramebufferEv(fbs[0].name)] + DeleteFramebufferEvents(fbs[1..])
  }

  /** GL_NO_ERROR is never queued as a pending error. */
  predicate NoSuccessPending(errs: seq<int>)
  {
    forall i :: 0 <= i < |errs| ==> errs[i] != GL_NO_ERROR
  }

  /** One error the driver raises during a GL call: the code glGetError
      hands back, and the text the debug-output callback receives. */
  datatype GLError = GLError(code: int, message: string)

  /** The driver never raises GL_NO_ERROR. */
  predicate NoSuccessRaised(raised: seq<GLError>)
  {
    forall i :: 0 <= i < |raised| ==> raised[i].code != GL_NO_ERROR
  }

  function Codes(raised: seq<GLError>): (codes: seq<int>)
    ensures |codes| == |raised| && forall i :: 0 <= i < |raised| ==> codes[i] == raised[i].code
  {
    if raised == [] then [] else [raised[0].code] + Codes(raised[1..])
  }

  function Messages(raised: seq<GLError>): (msgs: seq<string>)
    ensures |msgs| == |raised| && forall i :: 0 <= i < |raised| ==> msgs[i] == raised[i].message
  {
    if raised == [] then [] else [raised[0].message] + Messages(raised[1..])
  }

  /** The GL calls of one texture upload: bind the plane's texture, then
      glTexSubImage2D at `base` plus the upload's offset. */
  function UploadEvents(target: TextureTarget, data: TextureData, plan: seq<Upload>, base: int): (ev: seq<Event>)
    ensures |ev| == 2 * |plan|
  {
    if plan == [] then []
    else
      [BindTextureEv(target, PlaneName(data, plan[0].plane)),
       TexSubImageEv(target, plan[0].rect, base + plan[0].offset, plan[0].rowLength)]
      + UploadEvents(target, data, plan[1..], base)
  }

  /** Each upload of the plan binds its plane's texture and then sends its
      rectangle from `base` plus its offset, in plan order. */
  lemma {:induction false} UploadEventsPairs(target: TextureTarget, data: TextureData, plan: seq<Upload>, base: int)
    ensures var ev := UploadEvents(target, data, plan, base);
      forall i :: 0 <= i < |plan| ==>
        ev[2 * i] == BindTextureEv(target, PlaneName(data, plan[i].plane)) &&
        ev[2 * i + 1] == TexSubImageEv(target, plan[i].rect, base + plan[i].offset, plan[i].rowLength)
  {
    if plan != [] {
      UploadEventsPairs(target, data, plan[1..], base);
      var ev := UploadEvents(target, data, plan, base);
      var rest := UploadEvents(target, data, plan[1..], base);
      var head := [BindTextureEv(target, PlaneName(data, plan[0].plane)),
                   TexSubImageEv(target, plan[0].rect, base + plan[0].offset, plan[0].rowLength)];
      assert ev == head + rest;
      forall i | 0 <= i < |plan|
        ensures ev[2 * i] == BindTextureEv(target, PlaneName(data, plan[i].plane))
        ensures ev[2 * i + 1] == TexSubImageEv(target, plan[i].rect, base + plan[i].offset, plan[i].rowLength)
      {
        if i > 0 {
          assert plan[i] == plan[1..][i - 1];
          assert ev[2 * i] == rest[2 * (i - 1)];
          assert ev[2 * i + 1] == rest[2 * (i - 1) + 1];
        }
      }
    }
  }

  /** Creating one texture image: enable texturing, bind, glTexImage2D, disable. */
  function TextureImageEvents(target: TextureTarget, name: nat, w: int, h: int, internalFormat: int): seq<Event>
  {
    [EnableEv(CapTexture(target)), BindTextureEv(target, name),
     TexImageEv(target, w, h, internalFormat), DisableEv(CapTexture(target))]
  }

  /** The GL calls that create the auxiliary textures of a YUV format, with
      the sizes AuxTextureSizes gives; none for other formats. */
  function AuxTextureEvents(target: TextureTarget, format: PixelFormat, a: Allocation,
                            u: nat, v: nat, internalFormat: int): seq<Event>
  {
    var sizes := AuxTextureSizes(format, a.tw, a.th);
    if IsThreePlane(format) then
      [GenTextureEv(u), GenTextureEv(v), EnableEv(CapTexture(target)),
       BindTextureEv(target, u), TexImageEv(target, sizes[0].0, sizes[0].1, internalFormat),
       BindTextureEv(target, v), TexImageEv(target, sizes[1].0, sizes[1].1, internalFormat),
       DisableEv(CapTexture(target))]
    else if IsTwoPlane(format) then
      [GenTextureEv(u), EnableEv(CapTexture(target)),
       BindTextureEv(target, u), TexImageEv(target, sizes[0].0, sizes[0].1, GL_LUMINANCE_ALPHA),
       DisableEv(CapTexture(target))]
    else []
  }

  /** The framebuffer a render target texture adds to the cache, if any. */
  function NewFboEvents(tex: Texture, fbs: seq<Fbo>, allocOk: bool, next: nat): seq<Event>
  {
    if tex.access == Target && !HasSize(fbs, tex.w, tex.h) && allocOk then [GenFramebufferEv(next)] else []
  }

  function PlaneName(data: TextureData, p: Plane): nat
  {
    match p
    case MainPlane => data.texture
    case UPlane => data.utexture
    case VPlane => data.vtexture
  }

  /** GL_RenderData: capabilities found at creation, the framebuffer cache,
      the debug error list, and the GL trace. */
  class RenderData {
    const debugEnabled: bool
    const debugOutputSupported: bool
    const npotSupported: bool
    const rectangleSupported: bool
    const fboSupported: bool
    const hasShaders: bool
    const hasContext: bool
    const textype: TextureTarget

    var framebuffers: seq<Fbo>
    var errorMessages: seq<string>
    var pendingErrors: seq<int>
    var nextName: nat
    var trace: seq<Event>

    ghost predicate Valid()
      reads this`framebuffers, this`nextName, this`pendingErrors
    {
      UniqueSizes(framebuffers) &&
      NamesBelow(framebuffers, nextName) &&
      NoSuccessPending(pendingErrors) &&
      (npotSupported ==> !rectangleSupported) &&
      textype == (if rectangleSupported then TextureRectangle else Texture2D) &&
      nextName > 0
    }

    /** The capability bookkeeping of GL_CreateRenderer: debug output only on
        a debug context, non-power-of-two textures preferred over rectangle
        textures (which switch `textype`), and an empty framebuffer list. The
        extension queries are parameters. When SDL_GL_CreateContext fails
        (`contextCreated` false) the zeroed driver data has no context and no
        capabilities; GL_DestroyRenderer is then called on it. */
    constructor (contextCreated: bool, debugContext: bool, debugOutputExt: bool, npotExt: bool,
                 rectangleExt: bool, fboExt: bool, shadersCreated: bool)
      ensures Valid()
      ensures hasContext == contextCreated
      ensures debugEnabled == (contextCreated && debugContext)
      ensures debugOutputSupported == (contextCreated && debugContext && debugOutputExt)
      ensures npotSupported == (contextCreated && npotExt)
      ensures rectangleSupported == (contextCreated && !npotExt && rectangleExt)
      ensures fboSupported == (contextCreated && fboExt) && hasShaders == (contextCreated && shadersCreated)
      ensures framebuffers == [] && errorMessages == [] && pendingErrors == [] && trace == []
    {
      var ok := contextCreated;
      debugEnabled := ok && debugContext;
      debugOutputSupported := ok && debugContext && debugOutputExt;
      npotSupported := ok && npotExt;
      rectangleSupported := ok && !npotExt && rectangleExt;
      textype := if ok && !npotExt && rectangleExt then TextureRectangle else Texture2D;
      fboSupported := ok && fboExt;
      hasShaders := ok && shadersCreated;
      hasContext := ok;
      framebuffers := [];
      errorMessages := [];
      pendingErrors := [];
      nextName := 1;
      trace := [];
    }

    /** GL_GetFBO: the cached framebuffer of size w x h, or a new one pushed
        on the front of the list; None only when the node allocation fails. */
    method GetFBO(w: nat, h: nat, allocOk: bool) returns (r: Option<Fbo>)
      requires Valid()
      modifies this`framebuffers, this`trace, this`nextName
      ensures Valid()
      ensures r.Some? ==> SizeIs(r.value, w, h) && r.value in framebuffers
      ensures HasSize(old(framebuffers), w, h) ==>
        r.Some? && framebuffers == old(framebuffers) && trace == old(trace) && nextName == old(nextName)
      ensures !HasSize(old(framebuffers), w, h) && allocOk ==>
        r == Some(Fbo(w, h, old(nextName))) &&
        framebuffers == [r.value] + old(framebuffers) &&
        trace == old(trace) + [GenFramebufferEv(old(nextName))] && nextName == old(nextName) + 1
      ensures !HasSize(old(framebuffers), w, h) && !allocOk ==>
        r == None && framebuffers == old(framebuffers) && trace == old(trace) && nextName == old(nextName)
    {
      var i := 0;
      while i < |framebuffers| && (framebuffers[i].w != w || framebuffers[i].h != h)
        invariant 0 <= i <= |framebuffers|
        invariant forall k :: 0 <= k < i ==> !SizeIs(framebuffers[k], w, h)
      {
        i := i + 1;
      }
      if i < |framebuffers| {
        r := Some(framebuffers[i]);
      } else if allocOk {
        var node := Fbo(w, h, nextName);
        trace := trace + [GenFramebufferEv(nextName)];
        nextName := nextName + 1;
        framebuffers := [node] + framebuffers;
        r := Some(node);
      } else {
        r := None;
      }
    }

    /** The teardown walk of GL_DestroyRenderer: delete every framebuffer from
        the head on, checking for GL errors after each deletion. */
    method FreeFramebuffers()
      requires Valid()
      modifies this`framebuffers, this`trace, this`errorMessages, this`pendingErrors
      ensures Valid()
      ensures framebuffers == []
      ensures trace == old(trace) + DeleteFramebufferEvents(old(framebuffers))
    {
      while framebuffers != []
        invariant Valid()
        invariant trace + DeleteFramebufferEvents(framebuffers) ==
                  old(trace) + DeleteFramebufferEvents(old(framebuffers))
        decreases |framebuffers|
      {
        ghost var before := trace;
        ghost var pending := framebuffers;
        FreeFirstFramebuffer();
        assert DeleteFramebufferEvents(pending) ==
               [DeleteFramebufferEv(pending[0].name)] + DeleteFramebufferEvents(framebuffers);
        assert trace + DeleteFramebufferEvents(framebuffers) == before + DeleteFramebufferEvents(pending);
      }
      assert trace + [] == trace;
    }

    /** One step of the teardown walk: delete the head framebuffer, check for
        errors, unlink it. */
    method FreeFirstFramebuffer()
      requires Valid() && framebuffers != []
      modifies this`framebuffers, this`trace, this`errorMessages, this`pendingErrors
      ensures Valid()
      ensures framebuffers == old(framebuffers)[1..]
      ensures trace == old(trace) + [DeleteFramebufferEv(old(framebuffers)[0].name)]
    {
      var node := framebuffers[0];
      trace := trace + [DeleteFramebufferEv(node.name)];
      var _ := CheckError("");
      FboListTail(framebuffers, nextName);
      framebuffers := framebuffers[1..];
    }

    /** GL_DestroyRenderer (driver-data part): activate the context when
        there is one (`makeCurrentOk` as in ActivateRenderer), clear the error list, destroy the shader context, then,
        with a context, free the framebuffer list and delete the context. */
    method DestroyRenderer(makeCurrentOk: bool)
      requires Valid()
      modifies this`framebuffers, this`trace, this`errorMessages, this`pendingErrors
      ensures Valid()
      ensures hasContext ==> framebuffers == []
      ensures !hasContext ==> framebuffers == old(framebuffers)
      ensures trace == old(trace)
        + (if hasShaders then [DestroyShadersEv] else [])
        + (if hasContext then DeleteFramebufferEvents(old(framebuffers)) + [DeleteContextEv] else [])
    {
      if hasContext {
        var _ := ActivateRenderer(makeCurrentOk);
      }
      ClearErrors();
      if hasShaders {
        trace := trace + [DestroyShadersEv];
      }
      if hasContext {
        FreeFramebuffers();
        trace := trace + [DeleteContextEv];
      }
    }

    /** Whether GL_CheckAllErrors would report something now: with a debug
        context, a recorded debug message (with debug output) or a pending
        glGetError code (without). */
    predicate ErrorsPending()
      reads this`errorMessages, this`pendingErrors
    {
      debugEnabled && (if debugOutputSupported then errorMessages != [] else pendingErrors != [])
    }

    /** Whether a GL_CheckError made after the error state was cleared fails
        because of the errors raised since: only a debug context checks. */
    predicate CheckFails(raised: seq<GLError>)
    {
      debugEnabled && raised != []
    }

    /** The driver raising errors during the GL calls just made: each code is
        queued for glGetError and, with debug output, its message reaches
        GL_HandleDebugMessage as an error-type message. */
    method RaiseErrors(raised: seq<GLError>)
      requires Valid() && NoSuccessRaised(raised)
      modifies this`errorMessages, this`pendingErrors
      ensures Valid()
      ensures pendingErrors == old(pendingErrors) + Codes(raised)
      ensures errorMessages == old(errorMessages) + (if debugOutputSupported then Messages(raised) else [])
      ensures ErrorsPending() <==> old(ErrorsPending()) || CheckFails(raised)
    {
      pendingErrors := pendingErrors + Codes(raised);
      if debugOutputSupported {
        errorMessages := errorMessages + Messages(raised);
      }
    }

    /** GL_ActivateRenderer: fails when the context is not current and cannot
        be made current (`makeCurrentOk` false); otherwise clears the errors. */
    method ActivateRenderer(makeCurrentOk: bool) returns (status: int)
      requires Valid()
      modifies this`errorMessages, this`pendingErrors
      ensures Valid()
      ensures status == (if makeCurrentOk then 0 else -1)
      ensures !makeCurrentOk ==> errorMessages == old(errorMessages) && pendingErrors == old(pendingErrors)
      ensures makeCurrentOk && debugEnabled && debugOutputSupported ==>
        errorMessages == [] && pendingErrors == old(pendingErrors)
      ensures makeCurrentOk && debugEnabled && !debugOutputSupported ==>
        pendingErrors == [] && errorMessages == old(errorMessages)
      ensures !debugEnabled ==> errorMessages == old(errorMessages) && pendingErrors == old(pendingErrors)
      ensures makeCurrentOk ==> !ErrorsPending()
    {
      if !makeCurrentOk {
        return -1;
      }
      ClearErrors();
      status := 0;
    }

    /** GL_HandleDebugMessage: an error-type message is appended to the error
        list when the list can grow; other types are only passed on. */
    method HandleDebugMessage(msgType: int, message: string, reallocOk: bool)
      requires Valid()
      modifies this`errorMessages
      ensures Valid()
      ensures errorMessages ==
        if msgType == GL_DEBUG_TYPE_ERROR_ARB && reallocOk then old(errorMessages) + [message]
        else old(errorMessages)
    {
      if msgType == GL_DEBUG_TYPE_ERROR_ARB {
        if reallocOk {
          errorMessages := errorMessages + [message];
        }
      }
    }

    /** GL_ClearErrors: nothing without a debug context; with debug output the
        recorded messages are dropped, otherwise glGetError is drained. */
    method ClearErrors()
      requires Valid()
      modifies this`errorMessages, this`pendingErrors
      ensures Valid()
      ensures debugEnabled && debugOutputSupported ==> errorMessages == [] && pendingErrors == old(pendingErrors)
      ensures debugEnabled && !debugOutputSupported ==> pendingErrors == [] && errorMessages == old(errorMessages)
      ensures !debugEnabled ==> errorMessages == old(errorMessages) && pendingErrors == old(pendingErrors)
      ensures !ErrorsPending()
    {
      if !debugEnabled {
        return;
      }
      if debugOutputSupported {
        if |errorMessages| > 0 {
          errorMessages := [];
        }
      } else {
        while GetError() != GL_NO_ERROR
          invariant Valid()
          invariant errorMessages == old(errorMessages)
          decreases |pendingErrors|
        {
          pendingErrors := pendingErrors[1..];
        }
      }
    }

    /** glGetError: the oldest pending error, GL_NO_ERROR when there is none. */
    function GetError(): (e: int)
      reads this
      requires Valid()
      ensures e == GL_NO_ERROR <==> pendingErrors == []
    {
      if pendingErrors == [] then GL_NO_ERROR else pendingErrors[0]
    }

    /** GL_CheckAllErrors: without a debug context nothing is reported. With
        debug output, one report per recorded message, then the list is
        cleared; otherwise one report per glGetError code, named by
        GL_TranslateError, under "generic" when the prefix is empty. The result
        is -1 exactly when something was reported. */
    method CheckAllErrors(prefix: string) returns (ret: int, reported: seq<Report>)
      requires Valid()
      modifies this`errorMessages, this`pendingErrors
      ensures Valid()
      ensures ret == (if reported == [] then 0 else -1)
      ensures !debugEnabled ==>
        reported == [] && errorMessages == old(errorMessages) && pendingErrors == old(pendingErrors)
      ensures debugEnabled && debugOutputSupported ==>
        errorMessages == [] && pendingErrors == old(pendingErrors) &&
        |reported| == |old(errorMessages)| &&
        forall i :: 0 <= i < |reported| ==> reported[i] == Report(prefix, old(errorMessages)[i])
      ensures debugEnabled && !debugOutputSupported ==>
        pendingErrors == [] && errorMessages == old(errorMessages) &&
        |reported| == |old(pendingErrors)| &&
        forall i :: 0 <= i < |reported| ==>
          reported[i] == Report(if prefix == "" then "generic" else prefix,
                                TranslateError(old(pendingErrors)[i]))
    {
      reported := [];
      if !debugEnabled {
        return 0, reported;
      }
      if debugOutputSupported {
        if |errorMessages| > 0 {
          reported := ReportMessages(prefix, errorMessages);
          ClearErrors();
        }
      } else {
        reported := DrainErrors(prefix);
      }
      ret := if reported == [] then 0 else -1;
    }

    /** GL_CheckError: GL_CheckAllErrors where only the status is kept. It
        fails exactly when errors were pending, and leaves none pending. */
    method CheckError(prefix: string) returns (ret: int)
      requires Valid()
      modifies this`errorMessages, this`pendingErrors
      ensures Valid()
      ensures ret == (if old(ErrorsPending()) then -1 else 0)
      ensures !ErrorsPending()
      ensures debugEnabled && debugOutputSupported ==> errorMessages == [] && pendingErrors == old(pendingErrors)
      ensures debugEnabled && !debugOutputSupported ==> pendingErrors == [] && errorMessages == old(errorMessages)
      ensures !debugEnabled ==> errorMessages == old(errorMessages) && pendingErrors == old(pendingErrors)
    {
      var reported;
      ret, reported := CheckAllErrors(prefix);
    }

    /** The glGetError loop of GL_CheckAllErrors: report and pop codes until
        GL_NO_ERROR, switching an empty prefix to "generic" at the first one. */
    method DrainErrors(prefix: string) returns (reported: seq<Report>)
      requires Valid()
      modifies this`pendingErrors
      ensures Valid() && pendingErrors == []
      ensures |reported| == |old(pendingErrors)|
      ensures forall i :: 0 <= i < |reported| ==>
        reported[i] == Report(if prefix == "" then "generic" else prefix, TranslateError(old(pendingErrors)[i]))
    {
      reported := [];
      var p := prefix;
      ghost var seen: seq<int> := [];
      while true
        invariant Valid()
        invariant old(pendingErrors) == seen + pendingErrors
        invariant |reported| == |seen|
        invariant seen != [] ==> p == (if prefix == "" then "generic" else prefix)
        invariant seen == [] ==> p == prefix
        invariant forall k :: 0 <= k < |seen| ==>
          reported[k] == Report(if prefix == "" then "generic" else prefix, TranslateError(seen[k]))
        decreases |pendingErrors|
      {
        var error := GetError();
        if error != GL_NO_ERROR {
          pendingErrors := pendingErrors[1..];
          if p == "" {
            p := "generic";
          }
          reported := reported + [Report(p, TranslateError(error))];
          seen := seen + [error];
        } else {
          break;
        }
      }
      assert seen + [] == seen;
    }

    /** GL_CreateTexture. `makeCurrentOk` is the outcome of making the
        context current, allocation failures are the `*Ok` parameters, and
        `genErrors`, `imageErrors` and `finalErrors` are the errors the GL
        calls raise before each of the last three error checks. Creation
        fails for an unsupported target or format, for a failed allocation, and
        when a check reports errors; otherwise the texture is created. */
    method CreateTexture(tex: Texture, makeCurrentOk: bool, callocOk: bool, pixelsOk: bool, fboAllocOk: bool,
                         genErrors: seq<GLError>, imageErrors: seq<GLError>, finalErrors: seq<GLError>)
      returns (status: CreateStatus)
      requires Valid() && tex.driverdata == None
      requires NoSuccessRaised(genErrors) && NoSuccessRaised(imageErrors) && NoSuccessRaised(finalErrors)
      modifies this`framebuffers, this`trace, this`nextName, this`errorMessages, this`pendingErrors, tex
      ensures Valid()
      ensures status == TargetsUnsupported <==> tex.access == Target && !fboSupported
      ensures status == FormatUnsupported <==>
        !(tex.access == Target && !fboSupported) && ConvertFormat(tex.format).None?
      ensures !(tex.access == Target && !fboSupported) && ConvertFormat(tex.format).Some? ==>
        (status == OutOfMemory <==> !callocOk || (tex.access == Streaming && !pixelsOk))
      ensures status == Created <==>
        !(tex.access == Target && !fboSupported) && ConvertFormat(tex.format).Some? &&
        callocOk && (tex.access == Streaming ==> pixelsOk) &&
        !CheckFails(genErrors) && !CheckFails(imageErrors) && !CheckFails(finalErrors)
      ensures status in {TargetsUnsupported, FormatUnsupported, OutOfMemory} ==>
        tex.driverdata == None && trace == old(trace) && framebuffers == old(framebuffers)
      ensures status == Created ==>
        var fboEvents := NewFboEvents(tex, old(framebuffers), fboAllocOk, old(nextName));
        var name := old(nextName) + |fboEvents|;
        var a := AllocatedSize(npotSupported, rectangleSupported, tex.w, tex.h);
        var f := ConvertFormat(tex.format).value;
        TextureCreated(tex, name) &&
        trace == old(trace) + fboEvents + [GenTextureEv(name)]
          + TextureImageEvents(textype, name, a.tw, a.th, f.internalFormat)
          + AuxTextureEvents(textype, tex.format, a, tex.driverdata.value.utexture,
                             tex.driverdata.value.vtexture, f.internalFormat)
    {
      var _ := ActivateRenderer(makeCurrentOk);
      if tex.access == Target && !fboSupported {
        return TargetsUnsupported;
      }
      var fmt := ConvertFormat(tex.format);
      if fmt.None? {
        return FormatUnsupported;
      }
      if !callocOk {
        return OutOfMemory;
      }
      status := CreateTextureData(tex, fmt.value, pixelsOk, fboAllocOk, genErrors, imageErrors, finalErrors);
    }

    /** GL_CreateTexture once the driver data is allocated: the streaming
        buffer, the framebuffer of a target, a check that clears the errors
        raised so far, then the GL texture objects. */
    method CreateTextureData(tex: Texture, f: GLFormat, pixelsOk: bool, fboAllocOk: bool,
                             genErrors: seq<GLError>, imageErrors: seq<GLError>, finalErrors: seq<GLError>)
      returns (status: CreateStatus)
      requires Valid() && tex.driverdata == None
      requires NoSuccessRaised(genErrors) && NoSuccessRaised(imageErrors) && NoSuccessRaised(finalErrors)
      modifies this`framebuffers, this`trace, this`nextName, this`errorMessages, this`pendingErrors, tex
      ensures Valid()
      ensures status == OutOfMemory || status == Created || status == GLFailed
      ensures status == OutOfMemory <==> tex.access == Streaming && !pixelsOk
      ensures status == Created <==>
        (tex.access == Streaming ==> pixelsOk) &&
        !CheckFails(genErrors) && !CheckFails(imageErrors) && !CheckFails(finalErrors)
      ensures status == OutOfMemory ==>
        tex.driverdata == None && trace == old(trace) && framebuffers == old(framebuffers)
      ensures status == Created ==>
        var fboEvents := NewFboEvents(tex, old(framebuffers), fboAllocOk, old(nextName));
        var name := old(nextName) + |fboEvents|;
        var a := AllocatedSize(npotSupported, rectangleSupported, tex.w, tex.h);
        TextureCreated(tex, name) &&
        trace == old(trace) + fboEvents + [GenTextureEv(name)]
          + TextureImageEvents(textype, name, a.tw, a.th, f.internalFormat)
          + AuxTextureEvents(textype, tex.format, a, tex.driverdata.value.utexture,
                             tex.driverdata.value.vtexture, f.internalFormat)
    {
      var bufferOk, pixels, pitch := StreamingBuffer(tex, pixelsOk);
      if !bufferOk {
        return OutOfMemory;
      }
      var fbo := TargetFramebuffer(tex, fboAllocOk);
      ghost var fboEvents := NewFboEvents(tex, old(framebuffers), fboAllocOk, old(nextName));
      assert trace == old(trace) + fboEvents && nextName == old(nextName) + |fboEvents|;
      var _ := CheckError("");
      status := CreateTextureObjects(tex, f, pixels, pitch, fbo, genErrors, imageErrors, finalErrors);
    }

    /** The streaming step of GL_CreateTexture: a streaming texture gets a
        pitch of w * bytes-per-pixel and a pixel buffer (`pixelsOk` false when
        its allocation fails); other textures get neither. */
    method StreamingBuffer(tex: Texture, pixelsOk: bool) returns (ok: bool, pixels: Option<int>, pitch: int)
      ensures ok <==> tex.access != Streaming || pixelsOk
      ensures ok ==> pixels == (if tex.access == Streaming then Some(StreamingBufferSize(tex.format, tex.w, tex.h)) else None)
      ensures ok ==> pitch == (if tex.access == Streaming then StreamingPitch(tex.format, tex.w) else 0)
    {
      ok, pixels, pitch := true, None, 0;
      if tex.access == Streaming {
        pitch := tex.w * BytesPerPixel(tex.format);
        if !pixelsOk {
          return false, None, pitch;
        }
        pixels := Some(StreamingBufferSize(tex.format, tex.w, tex.h));
      }
    }

    /** The framebuffer step of GL_CreateTexture: a render target takes the
        cached framebuffer of its size, or a new one. */
    method TargetFramebuffer(tex: Texture, allocOk: bool) returns (fbo: Option<Fbo>)
      requires Valid()
      modifies this`framebuffers, this`trace, this`nextName
      ensures Valid()
      ensures trace == old(trace) + NewFboEvents(tex, old(framebuffers), allocOk, old(nextName))
      ensures nextName == old(nextName) + |NewFboEvents(tex, old(framebuffers), allocOk, old(nextName))|
      ensures tex.access == Target && fbo.Some? ==> SizeIs(fbo.value, tex.w, tex.h)
      ensures tex.access != Target ==> fbo == None
    {
      fbo := None;
      if tex.access == Target {
        fbo := GetFBO(tex.w, tex.h, allocOk);
      }
    }

    /** The second half of GL_CreateTexture, entered with no errors pending:
        generate the main texture, give it its image at the allocated size,
        then the auxiliary textures, checking for errors after each step. */
    method CreateTextureObjects(tex: Texture, f: GLFormat, pixels: Option<int>, pitch: int, fbo: Option<Fbo>,
                                genErrors: seq<GLError>, imageErrors: seq<GLError>, finalErrors: seq<GLError>)
      returns (status: CreateStatus)
      requires Valid() && tex.driverdata == None && !ErrorsPending()
      requires NoSuccessRaised(genErrors) && NoSuccessRaised(imageErrors) && NoSuccessRaised(finalErrors)
      requires pixels == (if tex.access == Streaming then Some(StreamingBufferSize(tex.format, tex.w, tex.h)) else None)
      requires pitch == (if tex.access == Streaming then StreamingPitch(tex.format, tex.w) else 0)
      requires tex.access == Target && fbo.Some? ==> SizeIs(fbo.value, tex.w, tex.h)
      requires tex.access != Target ==> fbo == None
      modifies this`trace, this`nextName, this`errorMessages, this`pendingErrors, tex
      ensures Valid() && !ErrorsPending()
      ensures status == Created || status == GLFailed
      ensures tex.driverdata.Some? <==> !CheckFails(genErrors)
      ensures status == Created <==> !CheckFails(genErrors) && !CheckFails(imageErrors) && !CheckFails(finalErrors)
      ensures status == Created ==> TextureCreated(tex, old(nextName))
      ensures status == Created ==>
        var a := AllocatedSize(npotSupported, rectangleSupported, tex.w, tex.h);
        var name := old(nextName);
        var d := tex.driverdata.value;
        d == TextureData(name, a.scale, f.format, f.formatType, pixels, pitch, Rect(0, 0, 0, 0),
                         IsThreePlane(tex.format), IsTwoPlane(tex.format), d.utexture, d.vtexture, fbo) &&
        (d.yuv ==> d.utexture == name + 1 && d.vtexture == name + 2) &&
        (d.nv12 ==> d.utexture == name + 1 && d.vtexture == 0) &&
        (!d.yuv && !d.nv12 ==> d.utexture == 0 && d.vtexture == 0) &&
        trace == old(trace) + [GenTextureEv(name)]
          + TextureImageEvents(textype, name, a.tw, a.th, f.internalFormat)
          + AuxTextureEvents(textype, tex.format, a, d.utexture, d.vtexture, f.internalFormat)
    {
      var name := GenTexture();
      RaiseErrors(genErrors);
      var check := CheckError("glGenTextures()");
      if check < 0 {
        return GLFailed;
      }
      status := CreateTextureImages(tex, name, f, pixels, pitch, fbo, imageErrors, finalErrors);
    }

    /** GL_CreateTexture after glGenTextures handed out `name` and its check
        passed: the driver data, the main texture's image, a check, the
        auxiliary textures, and the final check. */
    method CreateTextureImages(tex: Texture, name: nat, f: GLFormat, pixels: Option<int>, pitch: int,
                               fbo: Option<Fbo>, imageErrors: seq<GLError>, finalErrors: seq<GLError>)
      returns (status: CreateStatus)
      requires Valid() && !ErrorsPending() && name + 1 == nextName
      requires NoSuccessRaised(imageErrors) && NoSuccessRaised(finalErrors)
      modifies this`trace, this`nextName, this`errorMessages, this`pendingErrors, tex
      ensures Valid() && !ErrorsPending()
      ensures status == Created || status == GLFailed
      ensures tex.driverdata.Some?
      ensures status == Created <==> !CheckFails(imageErrors) && !CheckFails(finalErrors)
      ensures status == Created ==>
        var a := AllocatedSize(npotSupported, rectangleSupported, tex.w, tex.h);
        var d := tex.driverdata.value;
        d == TextureData(name, a.scale, f.format, f.formatType, pixels, pitch, Rect(0, 0, 0, 0),
                         IsThreePlane(tex.format), IsTwoPlane(tex.format), d.utexture, d.vtexture, fbo) &&
        (d.yuv ==> d.utexture == name + 1 && d.vtexture == name + 2) &&
        (d.nv12 ==> d.utexture == name + 1 && d.vtexture == 0) &&
        (!d.yuv && !d.nv12 ==> d.utexture == 0 && d.vtexture == 0) &&
        trace == old(trace)
          + TextureImageEvents(textype, name, a.tw, a.th, f.internalFormat)
          + AuxTextureEvents(textype, tex.format, a, d.utexture, d.vtexture, f.internalFormat)
    {
      var size := MainAllocation(tex.w, tex.h);
      var data := TextureData(name, size.scale, f.format, f.formatType,
                              pixels, pitch, Rect(0, 0, 0, 0), false, false, 0, 0, fbo);
      tex.driverdata := Some(data);
      trace := trace + TextureImageEvents(textype, name, size.tw, size.th, f.internalFormat);
      RaiseErrors(imageErrors);
      var check := CheckError("glTexImage2D()");
      if check < 0 {
        return GLFailed;
      }
      var yuv, nv12, u, v := CreateAuxTextures(tex.format, size, f.internalFormat);
      data := data.(yuv := yuv, nv12 := nv12, utexture := u, vtexture := v);
      tex.driverdata := Some(data);
      RaiseErrors(finalErrors);
      check := CheckError("");
      status := if check < 0 then GLFailed else Created;
    }

    /** glGenTextures for one texture: a fresh name. */
    method GenTexture() returns (name: nat)
      requires Valid()
      modifies this`trace, this`nextName
      ensures Valid()
      ensures name == old(nextName) && nextName == old(nextName) + 1
      ensures trace == old(trace) + [GenTextureEv(name)]
    {
      name := nextName;
      nextName := nextName + 1;
      trace := trace + [GenTextureEv(name)];
    }

    /** The U and V textures of YV12/IYUV and the interleaved UV texture of
        NV12/NV21, each at half the main allocation rounded up. */
    method CreateAuxTextures(format: PixelFormat, a: Allocation, internalFormat: int)
      returns (yuv: bool, nv12: bool, u: nat, v: nat)
      requires Valid()
      modifies this`trace, this`nextName
      ensures Valid()
      ensures yuv == IsThreePlane(format) && nv12 == IsTwoPlane(format)
      ensures yuv ==> u == old(nextName) && v == old(nextName) + 1 && nextName == old(nextName) + 2
      ensures nv12 ==> u == old(nextName) && v == 0 && nextName == old(nextName) + 1
      ensures !yuv && !nv12 ==> u == 0 && v == 0 && nextName == old(nextName)
      ensures trace == old(trace) + AuxTextureEvents(textype, format, a, u, v, internalFormat)
    {
      yuv, nv12, u, v := false, false, 0, 0;
      if IsThreePlane(format) {
        yuv := true;
        u, v := nextName, nextName + 1;
        nextName := nextName + 2;
      }
      if IsTwoPlane(format) {
        nv12 := true;
        u := nextName;
        nextName := nextName + 1;
      }
      trace := trace + AuxTextureEvents(textype, format, a, u, v, internalFormat);
    }

    /** The main texture's size under this renderer's allocation policy,
        rounding up with power_of_2 when neither extension is present. */
    method MainAllocation(w: nat, h: nat) returns (a: Allocation)
      requires Valid()
      ensures a == AllocatedSize(npotSupported, rectangleSupported, w, h)
    {
      if npotSupported {
        a := Allocation(w, h, UnitScale);
      } else if rectangleSupported {
        a := Allocation(w, h, TexelScale(w, h));
      } else {
        var tw := PowerOf2(w);
        var th := PowerOf2(h);
        a := Allocation(tw, th, FractionScale(w, tw, h, th));
      }
    }

    /** What a successful GL_CreateTexture leaves in the texture data: the
        main texture name and UV scale of the allocation policy, the streaming
        buffer and pitch, the framebuffer of a target, and exactly the
        auxiliary textures the format needs, with fresh names. */
    ghost predicate TextureCreated(tex: Texture, name: nat)
      reads tex
    {
      var a := AllocatedSize(npotSupported, rectangleSupported, tex.w, tex.h);
      tex.driverdata.Some? &&
      var d := tex.driverdata.value;
      d.texture == name && d.scale == a.scale &&
      d.yuv == IsThreePlane(tex.format) && d.nv12 == IsTwoPlane(tex.format) &&
      d.pixels == (if tex.access == Streaming then Some(StreamingBufferSize(tex.format, tex.w, tex.h)) else None) &&
      d.pitch == (if tex.access == Streaming then StreamingPitch(tex.format, tex.w) else 0) &&
      (tex.access == Target && d.fbo.Some? ==> SizeIs(d.fbo.value, tex.w, tex.h)) &&
      (tex.access != Target ==> d.fbo == None) &&
      (d.yuv ==> d.utexture == name + 1 && d.vtexture == name + 2) &&
      (d.nv12 ==> d.utexture == name + 1 && d.vtexture == 0) &&
      (!d.yuv && !d.nv12 ==> d.utexture == 0 && d.vtexture == 0)
    }

    /** GL_UpdateTexture: upload `rect` from a buffer at byte `base` with
        `pitch`, plane by plane as UpdatePlan lays them out. `raised` are the
        errors the upload's GL calls raise. The status is -1 exactly when the
        final check finds errors: those raised, or, when the context could not
        be made current and the errors were therefore not cleared, errors
        pending before the call. */
    method UpdateTexture(tex: Texture, rect: Rect, base: int, pitch: int, makeCurrentOk: bool,
                         raised: seq<GLError>) returns (ret: int)
      requires Valid() && tex.driverdata.Some? && NoSuccessRaised(raised)
      requires NonNegative(rect) && pitch >= 0 && BytesPerPixel(tex.format) > 0
      modifies this`trace, this`errorMessages, this`pendingErrors
      ensures Valid() && !ErrorsPending()
      ensures trace == old(trace) + [EnableEv(CapTexture(textype))]
        + UploadEvents(textype, tex.driverdata.value, UpdatePlan(tex.format, rect, pitch), base)
        + [DisableEv(CapTexture(textype))]
      ensures ret == (if CheckFails(raised) || (!makeCurrentOk && old(ErrorsPending())) then -1 else 0)
    {
      var _ := ActivateRenderer(makeCurrentOk);
      var data := tex.driverdata.value;
      var plan := UpdatePlan(tex.format, rect, pitch);
      trace := trace + [EnableEv(CapTexture(textype))] + UploadEvents(textype, data, plan, base)
                     + [DisableEv(CapTexture(textype))];
      RaiseErrors(raised);
      ret := CheckError("glTexSubImage2D()");
    }

    /** GL_UpdateTextureYUV: the Y, U and V planes from three separate
        buffers, with the status of GL_UpdateTexture. */
    method UpdateTextureYUV(tex: Texture, rect: Rect, yPitch: int, uPitch: int, vPitch: int,
                            makeCurrentOk: bool, raised: seq<GLError>) returns (ret: int)
      requires Valid() && tex.driverdata.Some? && NoSuccessRaised(raised)
      modifies this`trace, this`errorMessages, this`pendingErrors
      ensures Valid() && !ErrorsPending()
      ensures trace == old(trace) + [EnableEv(CapTexture(textype))]
        + UploadEvents(textype, tex.driverdata.value, UpdateYUVPlan(rect, yPitch, uPitch, vPitch), 0)
        + [DisableEv(CapTexture(textype))]
      ensures ret == (if CheckFails(raised) || (!makeCurrentOk && old(ErrorsPending())) then -1 else 0)
    {
      var _ := ActivateRenderer(makeCurrentOk);
      var data := tex.driverdata.value;
      trace := trace + [EnableEv(CapTexture(textype))]
                     + UploadEvents(textype, data, UpdateYUVPlan(rect, yPitch, uPitch, vPitch), 0)
                     + [DisableEv(CapTexture(textype))];
      RaiseErrors(raised);
      ret := CheckError("glTexSubImage2D()");
    }

    /** GL_DestroyTexture: activate the renderer; then nothing when the
        texture has no driver data; otherwise delete the main texture (when it has a name) and, for
        YV12/IYUV only, the U and V textures, then drop the driver data. */
    method DestroyTexture(tex: Texture, makeCurrentOk: bool)
      requires Valid()
      modifies this`errorMessages, this`pendingErrors, this`trace, tex
      ensures Valid()
      ensures makeCurrentOk ==> !ErrorsPending()
      ensures !makeCurrentOk ==> errorMessages == old(errorMessages) && pendingErrors == old(pendingErrors)
      ensures tex.driverdata == None
      ensures old(tex.driverdata).None? ==> trace == old(trace)
      ensures old(tex.driverdata).Some? ==>
        var d := old(tex.driverdata).value;
        trace == old(trace)
          + (if d.texture != 0 then [DeleteTextureEv(d.texture)] else [])
          + (if d.yuv then [DeleteTextureEv(d.utexture), DeleteTextureEv(d.vtexture)] else [])
    {
      var _ := ActivateRenderer(makeCurrentOk);
      if tex.driverdata.None? {
        return;
      }
      var data := tex.driverdata.value;
      if data.texture != 0 {
        trace := trace + [DeleteTextureEv(data.texture)];
      }
      if data.yuv {
        trace := trace + [DeleteTextureEv(data.utexture), DeleteTextureEv(data.vtexture)];
      }
      tex.driverdata := None;
    }
  }

  /** Every cached framebuffer has a name GL handed out before `next`. */
  predicate NamesBelow(fbs: seq<Fbo>, next: nat)
  {
    forall i :: 0 <= i < |fbs| ==> 0 < fbs[i].name < next
  }

  /** The message loop of GL_CheckAllErrors with debug output: one report
      per recorded message, in order, under the caller's prefix. */
  method ReportMessages(prefix: string, msgs: seq<string>) returns (reported: seq<Report>)
    ensures |reported| == |msgs|
    ensures forall i :: 0 <= i < |msgs| ==> reported[i] == Report(prefix, msgs[i])
  {
    reported := [];
    var i := 0;
    while i < |msgs|
      invariant 0 <= i <= |msgs|
      invariant |reported| == i
      invariant forall k :: 0 <= k < i ==> reported[k] == Report(prefix, msgs[k])
    {
      reported := reported + [Report(prefix, msgs[i])];
      i := i + 1;
    }
  }

  lemma FboListTail(fbs: seq<Fbo>, next: nat)
    requires fbs != [] && UniqueSizes(fbs) && NamesBelow(fbs, next)
    ensures UniqueSizes(fbs[1..]) && NamesBelow(fbs[1..], next)
  {
    forall i, j | 0 <= i < j < |fbs| - 1
      ensures !(fbs[1..][i].w == fbs[1..][j].w && fbs[1..][i].h == fbs[1..][j].h)
    {
      assert fbs[1..][i] == fbs[i + 1] && fbs[1..][j] == fbs[j + 1];
    }
  }

  /** GL_LockTexture: remember the rectangle and hand out the buffer offset of
      its first pixel together with the buffer pitch. */
  method LockTexture(tex: Texture, rect: Rect) returns (offset: int, pitch: int)
    requires tex.driverdata.Some?
    modifies tex
    ensures tex.driverdata == Some(old(tex.driverdata).value.(lockedRect := rect))
    ensures pitch == old(tex.driverdata).value.pitch
    ensures offset == LockOffset(rect, pitch, BytesPerPixel(tex.format))
  {
    var data := tex.driverdata.value;
    tex.driverdata := Some(data.(lockedRect := rect));
    pitch := data.pitch;
    offset := rect.y * data.pitch + rect.x * BytesPerPixel(tex.format);
  }

  /** GL_UnlockTexture: re-upload the locked rectangle from the pixel buffer,
      starting at the offset GL_LockTexture handed out, with the buffer pitch.
      The status of the upload is dropped, as the source's void function does. */
  method UnlockTexture(r: RenderData, tex: Texture, makeCurrentOk: bool, raised: seq<GLError>)
    requires r.Valid() && tex.driverdata.Some? && NoSuccessRaised(raised)
    requires NonNegative(tex.driverdata.value.lockedRect) && tex.driverdata.value.pitch >= 0
    requires BytesPerPixel(tex.format) > 0
    modifies r`trace, r`errorMessages, r`pendingErrors
    ensures r.Valid() && !r.ErrorsPending()
    ensures var d := tex.driverdata.value;
      r.trace == old(r.trace) + [EnableEv(CapTexture(r.textype))]
        + UploadEvents(r.textype, d, UpdatePlan(tex.format, d.lockedRect, d.pitch),
                       LockOffset(d.lockedRect, d.pitch, BytesPerPixel(tex.format)))
        + [DisableEv(CapTexture(r.textype))]
  {
    var data := tex.driverdata.value;
    var rect := data.lockedRect;
    var base := rect.y * data.pitch + rect.x * BytesPerPixel(tex.format);
    var _ := r.UpdateTexture(tex, rect, base, data.pitch, makeCurrentOk, raised);
  }
}
