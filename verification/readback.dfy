/** GL_RenderReadPixels: read a rectangle of the current render target back
    into a temporary buffer, flip its rows to top-down order when reading from
    the window, and hand the buffer to the pixel converter. The drawable is
    given as its rows, indexed in GL's bottom-up order; a row here is the
    span of the read rectangle's columns, so one memcpy moves one row. */
module ReadBack {
  import opened GLTypes
  import opened Translate
  import opened Renderer

  const GL_PACK_ROW_LENGTH := 0x0D02
  const GL_PACK_ALIGNMENT := 0x0D05

  /** `s` in reverse row order. */
  function Reversed<T>(s: seq<T>): (r: seq<T>)
    ensures |r| == |s|
    ensures forall i :: 0 <= i < |s| ==> r[i] == s[|s| - 1 - i]
  {
    if s == [] then [] else Reversed(s[1..]) + [s[0]]
  }

  /** Reversing keeps every row: the flip is a permutation of the buffer. */
  lemma {:induction false} ReversedPermutes<T>(s: seq<T>)
    ensures multiset(Reversed(s)) == multiset(s)
  {
    if s != [] {
      ReversedPermutes(s[1..]);
      assert s == [s[0]] + s[1..];
    }
  }

  /** Flipping twice restores the buffer. */
  lemma {:induction false} ReversedInvolution<T>(s: seq<T>)
    ensures Reversed(Reversed(s)) == s
  {
    var t := Reversed(s);
    var u := Reversed(t);
    forall i | 0 <= i < |s|
      ensures u[i] == s[i]
    {
      assert u[i] == t[|s| - 1 - i];
    }
  }

  /** An odd-height buffer keeps its middle row in place. */
  lemma ReversedMiddle<T>(s: seq<T>)
    requires |s| % 2 == 1
    ensures Reversed(s)[|s| / 2] == s[|s| / 2]
  {
    var m := |s| / 2;
    assert |s| - 1 - m == m;
  }

  /** The row-flip loop of GL_RenderReadPixels: `rows = h / 2` swaps through
      a temporary row, `dst` walking down from the first row and `src` up
      from the last. */
  method FlipRows(buf: array<seq<Byte>>)
    modifies buf
    ensures buf[..] == Reversed(old(buf[..]))
  {
    ghost var orig := buf[..];
    var h := buf.Length;
    var dst, src := 0, h - 1;
    var rows := h / 2;
    while rows > 0
      invariant 0 <= rows <= h / 2
      invariant dst == h / 2 - rows && src == h - 1 - dst
      invariant forall i :: 0 <= i < dst ==> buf[i] == orig[h - 1 - i] && buf[h - 1 - i] == orig[i]
      invariant forall i :: dst <= i <= src ==> buf[i] == orig[i]
      decreases rows
    {
      var tmp := buf[dst];
      buf[dst] := buf[src];
      buf[src] := tmp;
      dst := dst + 1;
      src := src - 1;
      rows := rows - 1;
    }
    assert forall i :: 0 <= i < h ==> buf[i] == orig[h - 1 - i] by {
      forall i | 0 <= i < h
        ensures buf[i] == orig[h - 1 - i]
      {
        if i >= h - h / 2 {
          var j := h - 1 - i;
          assert 0 <= j < dst && h - 1 - j == i;
        }
      }
    }
  }

  /** The format of what is read: the target texture's format, or ARGB8888
      for the window. */
  function TempFormat(target: Option<PixelFormat>): PixelFormat
  {
    if target.Some? then target.value else ARGB8888
  }

  /** The GL row (counted from the bottom) that SDL calls row `r` (counted
      from the top): the window's GL origin is its bottom-left corner, while
      a target is drawn with SDL's rows in GL order. */
  function DrawableRow(isTarget: bool, height: int, r: int): int
  {
    if isTarget then r else height - 1 - r
  }

  /** The y that glReadPixels receives for a rectangle. */
  function ReadY(isTarget: bool, height: int, rect: Rect): (y: int)
    ensures !isTarget ==> y + rect.h == height - rect.y
  {
    if isTarget then rect.y else (height - rect.y) - rect.h
  }

  /** glReadPixels stores GL row `ReadY + j` as buffer row j; after the flip
      of the window case, buffer row i holds SDL row rect.y + i. */
  lemma ReadRowsTopDown(isTarget: bool, height: int, rect: Rect, i: int)
    requires 0 <= i < rect.h
    ensures var j := if isTarget then i else rect.h - 1 - i;
      ReadY(isTarget, height, rect) + j == DrawableRow(isTarget, height, rect.y + i)
  {
  }

  /** The rectangle's rows in SDL's top-down order. */
  predicate TopDown(pixels: seq<seq<Byte>>, fb: seq<seq<Byte>>, isTarget: bool, rect: Rect)
    requires 0 <= rect.y && 0 <= rect.h && rect.y + rect.h <= |fb|
  {
    |pixels| == rect.h &&
    forall i :: 0 <= i < rect.h ==> pixels[i] == fb[DrawableRow(isTarget, |fb|, rect.y + i)]
  }

  /** The buffer glReadPixels fills (GL row y + j as row j), flipped when
      reading from the window. */
  method ReadRows(fb: seq<seq<Byte>>, isTarget: bool, rect: Rect) returns (pixels: seq<seq<Byte>>)
    requires 0 < rect.h && 0 <= rect.y && rect.y + rect.h <= |fb|
    ensures pixels != [] && TopDown(pixels, fb, isTarget, rect)
  {
    var y := ReadY(isTarget, |fb|, rect);
    var buf := new seq<Byte>[rect.h](j requires 0 <= j < rect.h => fb[y + j]);
    if !isTarget {
      FlipRows(buf);
    }
    pixels := buf[..];
    forall i | 0 <= i < rect.h
      ensures pixels[i] == fb[DrawableRow(isTarget, |fb|, rect.y + i)]
    {
      ReadRowsTopDown(isTarget, |fb|, rect, i);
    }
  }

  /** GL_RenderReadPixels. `fb` is the drawable, `mallocOk` whether the
      temporary buffer could be allocated, `convertStatus` what
      SDL_ConvertPixels returns, `raised` the errors glReadPixels and the
      pixel-store calls raise. `pixels` is the temporary buffer handed to the
      converter, empty on every path that returns before it. The error check
      fails on the errors raised, and, when the context could not be made
      current, on errors left pending before the call. */
  method RenderReadPixels(r: RenderData, makeCurrentOk: bool, target: Option<PixelFormat>,
                          rect: Rect, fb: seq<seq<Byte>>, mallocOk: bool, convertStatus: int,
                          raised: seq<GLError>)
    returns (status: int, pixels: seq<seq<Byte>>)
    requires r.Valid() && NoSuccessRaised(raised)
    requires 0 <= rect.w && 0 <= rect.h && 0 <= rect.y && rect.y + rect.h <= |fb|
    modifies r`trace, r`errorMessages, r`pendingErrors
    ensures r.Valid()
    ensures ConvertFormat(TempFormat(target)).None? ==> status == -1 && pixels == [] && r.trace == old(r.trace)
    ensures ConvertFormat(TempFormat(target)).Some? && (rect.w == 0 || rect.h == 0) ==>
      status == 0 && pixels == [] && r.trace == old(r.trace)
    ensures ConvertFormat(TempFormat(target)).Some? && rect.w != 0 && rect.h != 0 && !mallocOk ==>
      status == -1 && pixels == [] && r.trace == old(r.trace)
    ensures ConvertFormat(TempFormat(target)).Some? && rect.w != 0 && rect.h != 0 && mallocOk ==>
      r.trace == old(r.trace) + [PixelStoreEv(GL_PACK_ALIGNMENT, 1), PixelStoreEv(GL_PACK_ROW_LENGTH, rect.w),
                                 ReadPixelsEv(Rect(rect.x, ReadY(target.Some?, |fb|, rect), rect.w, rect.h))]
    ensures ConvertFormat(TempFormat(target)).Some? && rect.w != 0 && rect.h != 0 && mallocOk ==>
      (pixels != [] <==> !(r.CheckFails(raised) || (!makeCurrentOk && old(r.ErrorsPending())))) &&
      (pixels == [] ==> status == -1)
    ensures pixels == [] ==> status == 0 || status == -1
    ensures pixels != [] ==> status == convertStatus && TopDown(pixels, fb, target.Some?, rect)
  {
    var activated := r.ActivateRenderer(makeCurrentOk);
    var format := TempFormat(target);
    if ConvertFormat(format).None? {
      return -1, [];
    }
    if rect.w == 0 || rect.h == 0 {
      return 0, [];
    }
    var bpp := BytesPerPixel(format);
    var pitch := rect.w * bpp;
    if !mallocOk {
      return -1, [];
    }
    var height := |fb|;
    var y := ReadY(target.Some?, height, rect);
    r.trace := r.trace + [PixelStoreEv(GL_PACK_ALIGNMENT, 1), PixelStoreEv(GL_PACK_ROW_LENGTH, pitch / bpp),
                          ReadPixelsEv(Rect(rect.x, y, rect.w, rect.h))];
    r.RaiseErrors(raised);
    var check := r.CheckError("glReadPixels()");
    if check < 0 {
      return -1, [];
    }
    pixels := ReadRows(fb, target.Some?, rect);
    status := convertStatus;
  }
}
