/** Texture sizing and memory-layout arithmetic of the OpenGL backend:
    rounding up to a power of two, the three-way allocation policy, the
    streaming pixel buffer size, the auxiliary chroma textures, the plane
    offsets and sub-rectangles of texture updates, and the lock offset. */
module TextureLayout {
  import opened GLTypes

  /** v is a positive power of two. */
  ghost predicate IsPow2(v: int)
    decreases if v < 0 then 0 else v
  {
    v == 1 || (v > 1 && v % 2 == 0 && IsPow2(v / 2))
  }

  /** The least power of two that is at least n (1 for n <= 1). */
  function NextPow2(n: int): (r: nat)
    decreases if n < 0 then 0 else n
  {
    if n <= 1 then 1 else 2 * NextPow2((n + 1) / 2)
  }

  /** NextPow2 is a power of two, covers n, and halving it would not. */
  lemma {:induction false} NextPow2Spec(n: int)
    ensures IsPow2(NextPow2(n))
    ensures NextPow2(n) >= n
    ensures NextPow2(n) == 1 || NextPow2(n) / 2 < n
    decreases if n < 0 then 0 else n
  {
    if n > 1 {
      NextPow2Spec((n + 1) / 2);
    }
  }

  /** Any power of two that covers n, with half of it below n, is NextPow2(n). */
  lemma {:induction false} NextPow2Unique(v: int, n: int)
    requires IsPow2(v) && v >= n
    requires v == 1 || v / 2 < n
    ensures v == NextPow2(n)
    decreases if v < 0 then 0 else v
  {
    if n > 1 {
      assert v != 1;
      NextPow2Unique(v / 2, (n + 1) / 2);
    }
  }

  /** power_of_2: doubles from 1 until the value reaches the input. */
  method PowerOf2(input: int) returns (value: int)
    ensures value == NextPow2(input)
    ensures IsPow2(value) && value >= input
    ensures value == 1 || value / 2 < input
  {
    value := 1;
    while value < input
      invariant IsPow2(value)
      invariant value == 1 || value / 2 < input
      decreases input - value
    {
      value := value * 2;
      assert value / 2 * 2 == value;
    }
    NextPow2Unique(value, input);
  }

  /** How texture coordinates are scaled: by 1.0 (any size allowed), by the
      texel size (rectangle textures take unnormalised coordinates), or by
      w/tw and h/th when the texture was rounded up to tw x th. */
  datatype UvScale = UnitScale | TexelScale(w: int, h: int) | FractionScale(w: int, tw: int, h: int, th: int)

  /** The size GL allocates for a w x h texture and the UV scale stored for it. */
  datatype Allocation = Allocation(tw: int, th: int, scale: UvScale)

  /** The allocation policy of GL_CreateTexture, in priority order:
      non-power-of-two textures, then rectangle textures, then rounding up. */
  function AllocatedSize(npotSupported: bool, rectangleSupported: bool, w: int, h: int): (a: Allocation)
    ensures npotSupported || rectangleSupported ==> a.tw == w && a.th == h
    ensures npotSupported ==> a.scale == UnitScale
    ensures !npotSupported && rectangleSupported ==> a.scale == TexelScale(w, h)
    ensures !npotSupported && !rectangleSupported ==>
      IsPow2(a.tw) && a.tw >= w && (a.tw == 1 || a.tw / 2 < w) &&
      IsPow2(a.th) && a.th >= h && (a.th == 1 || a.th / 2 < h) &&
      a.scale == FractionScale(w, a.tw, h, a.th)
  {
    if npotSupported then Allocation(w, h, UnitScale)
    else if rectangleSupported then Allocation(w, h, TexelScale(w, h))
    else
      NextPow2Spec(w);
      NextPow2Spec(h);
      Allocation(NextPow2(w), NextPow2(h), FractionScale(w, NextPow2(w), h, NextPow2(h)))
  }

  /** Rounding up never changes a size that already is a power of two. */
  lemma NextPow2Idempotent(n: int)
    ensures NextPow2(NextPow2(n)) == NextPow2(n)
  {
    NextPow2Spec(n);
    var v := NextPow2(n);
    NextPow2Unique(v, v);
  }

  /** Bytes of one chroma plane for a luma plane of h rows of pitch bytes:
      ceil(h/2) rows of ceil(pitch/2) bytes. */
  function ChromaPlaneSize(h: int, pitch: int): int
  {
    ((h + 1) / 2) * ((pitch + 1) / 2)
  }

  /** Row pitch of a streaming texture's pixel buffer. */
  function StreamingPitch(format: PixelFormat, w: int): int
  {
    w * BytesPerPixel(format)
  }

  /** Size of the pixel buffer GL_CreateTexture allocates for a streaming
      texture: h rows of pitch bytes, plus twice the chroma plane size for
      YV12/IYUV (separate U and V planes) and for NV12/NV21 alike (one plane
      of interleaved U/V byte pairs). */
  function StreamingBufferSize(format: PixelFormat, w: int, h: int): int
  {
    var pitch := StreamingPitch(format, w);
    var size := h * pitch;
    var size := if IsThreePlane(format) then size + 2 * ChromaPlaneSize(h, pitch) else size;
    if IsTwoPlane(format) then size + 2 * ChromaPlaneSize(h, pitch) else size
  }

  /** The auxiliary textures GL_CreateTexture allocates beside the main one,
      as (width, height), from the allocated main size tw x th. */
  function AuxTextureSizes(format: PixelFormat, tw: int, th: int): (sizes: seq<(int, int)>)
    ensures IsThreePlane(format) ==> |sizes| == 2
    ensures IsTwoPlane(format) ==> |sizes| == 1
    ensures !IsThreePlane(format) && !IsTwoPlane(format) ==> sizes == []
    ensures tw >= 0 && th >= 0 ==>
      forall i :: 0 <= i < |sizes| ==>
        tw <= 2 * sizes[i].0 <= tw + 1 && th <= 2 * sizes[i].1 <= th + 1
  {
    var half := ((tw + 1) / 2, (th + 1) / 2);
    if IsThreePlane(format) then [half, half]
    else if IsTwoPlane(format) then [half]
    else []
  }

  /** Which GL texture of a texture an upload goes to. */
  datatype Plane = MainPlane | UPlane | VPlane

  /** One glTexSubImage2D call of a texture update: target texture, byte
      offset into the caller's pixels, destination rectangle, the
      GL_UNPACK_ROW_LENGTH in texels, and bytes per texel. */
  datatype Upload = Upload(plane: Plane, offset: int, rect: Rect, rowLength: int, texelBytes: nat)

  /** The chroma rectangle of a luma rectangle: (x/2, y/2, ceil(w/2), ceil(h/2)). */
  function ChromaRect(r: Rect): Rect
  {
    Rect(r.x / 2, r.y / 2, (r.w + 1) / 2, (r.h + 1) / 2)
  }

  /** For a non-negative rectangle whose origin is on even coordinates, the
      chroma rectangle scaled back up by 2 starts at the same place, covers the
      luma rectangle, and overshoots it by at most one sample. */
  lemma ChromaRectCovers(r: Rect)
    requires NonNegative(r) && r.x % 2 == 0 && r.y % 2 == 0
    ensures var c := ChromaRect(r);
      2 * c.x == r.x && 2 * c.y == r.y &&
      r.x + r.w <= 2 * (c.x + c.w) <= r.x + r.w + 1 &&
      r.y + r.h <= 2 * (c.y + c.h) <= r.y + r.h + 1
  {
  }

  predicate NonNegative(r: Rect) { r.x >= 0 && r.y >= 0 && r.w >= 0 && r.h >= 0 }

  /** GL_UpdateTexture: the main plane at offset 0; for YV12/IYUV the two
      chroma planes follow at rect.h*pitch and a further
      ceil(rect.h/2)*ceil(pitch/2) bytes on, YV12 filling V first and IYUV U
      first; for NV12/NV21 one plane of 2-byte U/V pairs at rect.h*pitch. */
  function UpdatePlan(format: PixelFormat, rect: Rect, pitch: int): (plan: seq<Upload>)
    requires NonNegative(rect) && pitch >= 0 && BytesPerPixel(format) > 0
    ensures |plan| == if IsThreePlane(format) then 3 else if IsTwoPlane(format) then 2 else 1
    ensures plan[0].plane == MainPlane && plan[0].offset == 0 && plan[0].rect == rect
    ensures forall i :: 1 <= i < |plan| ==>
      plan[i].rect == ChromaRect(rect) && plan[i].rowLength == (pitch + 1) / 2 &&
      plan[i].offset >= rect.h * pitch
    ensures format == YV12 ==> plan[1].plane == VPlane && plan[2].plane == UPlane
    ensures format == IYUV ==> plan[1].plane == UPlane && plan[2].plane == VPlane
    ensures IsTwoPlane(format) ==> plan[1].plane == UPlane && plan[1].texelBytes == 2
    ensures |plan| > 1 ==> plan[1].offset == rect.h * pitch
    ensures |plan| == 3 ==> plan[2].offset == rect.h * pitch + ChromaPlaneSize(rect.h, pitch)
  {
    var bpp := BytesPerPixel(format);
    var main := Upload(MainPlane, 0, rect, pitch / bpp, bpp);
    var chroma := ChromaRect(rect);
    var rowLength := (pitch + 1) / 2;
    var second := rect.h * pitch;
    if IsThreePlane(format) then
      var third := second + ChromaPlaneSize(rect.h, pitch);
      [main,
       Upload(if format == YV12 then VPlane else UPlane, second, chroma, rowLength, 1),
       Upload(if format == YV12 then UPlane else VPlane, third, chroma, rowLength, 1)]
    else if IsTwoPlane(format) then
      [main, Upload(UPlane, second, chroma, rowLength, 2)]
    else
      [main]
  }

  /** The bytes an upload spans in the source buffer: rect.h rows of
      rowLength texels. */
  function Extent(u: Upload): int
  {
    u.offset + u.rect.h * (u.rowLength * u.texelBytes)
  }

  /** Updating a whole multi-plane streaming texture from its own pixel buffer
      reads the planes back to back, and the last one ends exactly at the end
      of the buffer GL_CreateTexture allocated. */
  lemma {:induction false} FullUpdateTilesBuffer(format: PixelFormat, w: int, h: int)
    requires IsThreePlane(format) || IsTwoPlane(format)
    requires w >= 0 && h >= 0
    ensures var pitch := StreamingPitch(format, w);
      var plan := UpdatePlan(format, Rect(0, 0, w, h), pitch);
      Extent(plan[0]) == plan[1].offset &&
      (|plan| == 3 ==> Extent(plan[1]) == plan[2].offset) &&
      Extent(plan[|plan| - 1]) == StreamingBufferSize(format, w, h)
  {
    var pitch := StreamingPitch(format, w);
    assert pitch == w;
    var rect := Rect(0, 0, w, h);
    var plan := UpdatePlan(format, rect, pitch);
    var c := ChromaPlaneSize(h, pitch);
    var rows, cols := (h + 1) / 2, (pitch + 1) / 2;
    assert StreamingBufferSize(format, w, h) == h * pitch + 2 * c;
    assert Extent(plan[0]) == h * pitch by {
      assert plan[0] == Upload(MainPlane, 0, rect, pitch, 1);
    }
    if IsThreePlane(format) {
      assert plan[1].rect.h == rows && plan[1].rowLength == cols && plan[1].texelBytes == 1;
      assert plan[2].rect.h == rows && plan[2].rowLength == cols && plan[2].texelBytes == 1;
      assert Extent(plan[1]) == h * pitch + c by {
        assert c == rows * cols;
      }
      assert Extent(plan[2]) == h * pitch + 2 * c by {
        assert c == rows * cols;
      }
    } else {
      assert plan[1] == Upload(UPlane, h * pitch, ChromaRect(rect), cols, 2);
      assert Extent(plan[1]) == h * pitch + 2 * c by {
        assert c == rows * cols;
        PairedRows(rows, cols);
      }
    }
  }

  lemma PairedRows(rows: int, cols: int)
    ensures rows * (cols * 2) == 2 * (rows * cols)
  {
  }

  /** GL_UpdateTextureYUV: three separate planes, each from its own pointer
      with its own pitch; U always goes to the U texture and V to the V one. */
  function UpdateYUVPlan(rect: Rect, yPitch: int, uPitch: int, vPitch: int): (plan: seq<Upload>)
    ensures |plan| == 3
    ensures plan[0] == Upload(MainPlane, 0, rect, yPitch, 1)
    ensures plan[1].plane == UPlane && plan[2].plane == VPlane
    ensures plan[1].rect == ChromaRect(rect) == plan[2].rect
    ensures plan[1].rowLength == uPitch && plan[2].rowLength == vPitch
  {
    var chroma := ChromaRect(rect);
    [Upload(MainPlane, 0, rect, yPitch, 1),
     Upload(UPlane, 0, chroma, uPitch, 1),
     Upload(VPlane, 0, chroma, vPitch, 1)]
  }

  /** GL_LockTexture: where the locked rectangle starts in the pixel buffer. */
  function LockOffset(rect: Rect, pitch: int, bpp: int): int
  {
    rect.y * pitch + rect.x * bpp
  }

  /** Within a w x h texture whose rows are pitch = w*bpp bytes, every row of
      a locked rectangle lies inside the main plane of the pixel buffer. */
  lemma {:induction false} LockedRowsInside(rect: Rect, w: int, h: int, bpp: nat, row: int)
    requires NonNegative(rect) && rect.x + rect.w <= w && rect.y + rect.h <= h
    requires 0 <= row < rect.h
    ensures var pitch := w * bpp;
      0 <= LockOffset(rect, pitch, bpp) + row * pitch &&
      LockOffset(rect, pitch, bpp) + row * pitch + rect.w * bpp <= h * pitch
  {
    var pitch := w * bpp;
    var line := rect.y + row;
    assert LockOffset(rect, pitch, bpp) + row * pitch == line * pitch + rect.x * bpp;
    assert line + 1 <= h;
    assert (rect.x + rect.w) * bpp <= w * bpp by {
      MulMonotone(rect.x + rect.w, w, bpp);
    }
    assert (line + 1) * pitch <= h * pitch by {
      MulMonotone(line + 1, h, pitch);
    }
    assert line * pitch + (rect.x + rect.w) * bpp <= line * pitch + pitch;
  }

  lemma MulMonotone(a: int, b: int, k: nat)
    requires a <= b
    ensures a * k <= b * k
  {
  }
}
