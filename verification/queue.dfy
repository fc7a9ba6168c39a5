/** GL_QueueCopyEx: the eleven vertex words a rotated copy stores for the
    executor. The corners are relative to the rotation centre, and a flip
    swaps the minimum and maximum of its axis. Texture coordinates are
    computed in floating point by the source and are taken here as given
    words. */
module Queue {
  import opened GLTypes
  import opened Executor

  /** SDL_RendererFlip: the HORIZONTAL and VERTICAL bits. */
  datatype Flip = Flip(horizontal: bool, vertical: bool)

  /** The words (minx, miny, maxx, maxy, minu, maxu, minv, maxv, dst.x + cx,
      dst.y + cy, angle). */
  function CopyExVertices(dst: Rect, cx: int, cy: int, flip: Flip, uv: seq<int>, angle: int): (v: seq<int>)
    requires |uv| == 4
    ensures |v| == 11 && v[4..8] == uv
  {
    var minx := if flip.horizontal then dst.w - cx else -cx;
    var maxx := if flip.horizontal then -cx else dst.w - cx;
    var miny := if flip.vertical then dst.h - cy else -cy;
    var maxy := if flip.vertical then -cy else dst.h - cy;
    [minx, miny, maxx, maxy] + uv + [dst.x + cx, dst.y + cy, angle]
  }

  /** GL_QueueCopyEx: no vertex space (`allocOk` false) fails the command;
      otherwise the command draws one quad from the stored words. */
  function QueueCopyEx(allocOk: bool, dst: Rect, cx: int, cy: int, flip: Flip, uv: seq<int>, angle: int)
    : (r: Option<seq<int>>)
    requires |uv| == 4
    ensures r.None? <==> !allocOk
    ensures r.Some? ==> |r.value| == 11
  {
    if allocOk then Some(CopyExVertices(dst, cx, cy, flip, uv, angle)) else None
  }

  /** Whatever the flip, the executor translates to dst + centre and rotates
      by the angle, and the quad's corners then span exactly the destination
      rectangle: the flip only changes which corner is which. */
  lemma CopyExCoversDestination(dst: Rect, cx: int, cy: int, flip: Flip, uv: seq<int>, angle: int)
    requires |uv| == 4
    ensures var v := CopyExVertices(dst, cx, cy, flip, uv, angle);
      var ev := CopyExEvents(v, 0);
      ev[1] == TranslateEv(dst.x + cx, dst.y + cy) && ev[2] == RotateEv(angle) &&
      {v[0] + v[8], v[2] + v[8]} == {dst.x, dst.x + dst.w} &&
      {v[1] + v[9], v[3] + v[9]} == {dst.y, dst.y + dst.h}
  {
  }

  /** A horizontal flip swaps minx and maxx and nothing else; a vertical flip
      swaps miny and maxy and nothing else. */
  lemma CopyExFlipSwaps(dst: Rect, cx: int, cy: int, h: bool, w: bool, uv: seq<int>, angle: int)
    requires |uv| == 4
    ensures var a := CopyExVertices(dst, cx, cy, Flip(false, w), uv, angle);
      var b := CopyExVertices(dst, cx, cy, Flip(true, w), uv, angle);
      b == a[0 := a[2]][2 := a[0]]
    ensures var a := CopyExVertices(dst, cx, cy, Flip(h, false), uv, angle);
      var b := CopyExVertices(dst, cx, cy, Flip(h, true), uv, angle);
      b == a[1 := a[3]][3 := a[1]]
  {
  }
}
