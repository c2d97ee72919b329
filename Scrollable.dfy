/** The viewport controller: pending drag deltas, the once-per-frame update
    callback, the clamped offset flush, the render-drift counter with the
    cache-validity flag, and the geometry of the two bar entities. */
module Scrollable {
  import opened ScrollMath

  /** Margin, in pixels, by which the cache surface overhangs the viewport on
      every edge; offsets drifting by at most this much are served from it. */
  const ExtraDrawSize: int := 10

  /** The camera a render pass was made for. JavaScript distinguishes the
      `null` the controller starts with from the `undefined` passed by a
      render without camera, so the two are different references here. */
  datatype CameraRef = NullRef | Undefined | Camera(id: int)

  /** The off-screen surface the content is painted into. */
  datatype Surface = Surface(width: int, height: int)

  /** The source rectangle's origin of the blit of the cached surface into
      the viewport: drawImage(surface, srcX, srcY, width, height, 0, 0). */
  datatype Blit = Blit(srcX: int, srcY: int)

  /** One axis of the offset model: the content offset, the pending drag
      delta and the drift accumulated since the cache was last painted. */
  datatype AxisScroll = AxisScroll(offset: int, delta: int, drift: int)

  /** The flush of one axis: an enabled axis moves by the pending delta,
      clamped to the scroll range; a disabled one keeps its offset. Either
      way the pending delta is consumed and the drift follows the offset. */
  function FlushAxis(a: AxisScroll, enabled: bool, view: int, extent: int): (r: AxisScroll)
    ensures r.delta == 0
    ensures enabled ==> MinOffset(view, extent) <= r.offset <= 0
    ensures enabled && MinOffset(view, extent) <= a.offset + a.delta <= 0 ==> r.offset == a.offset + a.delta
    ensures !enabled ==> r.offset == a.offset
    ensures r.drift - a.drift == r.offset - a.offset
    ensures a.delta == 0 && (enabled ==> MinOffset(view, extent) <= a.offset <= 0) ==> r == a
  {
    var offset := if enabled then ClampOffset(a.offset + a.delta, view, extent) else a.offset;
    AxisScroll(offset, 0, a.drift + (offset - a.offset))
  }

  /** Flushing a second time, with no new delta and the same extent, changes nothing. */
  lemma FlushIsIdempotent(a: AxisScroll, enabled: bool, view: int, extent: int)
    ensures var once := FlushAxis(a, enabled, view, extent);
            FlushAxis(once, enabled, view, extent) == once
  {
  }

  /** A drift the cache margin can still absorb. */
  predicate WithinMargin(drift: int)
  {
    Abs(drift) <= ExtraDrawSize
  }

  /** Position of a bar along its axis: Math.round(view * offset / extent).
      For an offset within the scroll range it lies in [-view, 0]. */
  function BarOffset(view: int, offset: int, extent: int): (r: int)
    requires extent > 0
    ensures 0 <= view && MinOffset(view, extent) <= offset <= 0 ==> -view <= r <= 0
  {
    BarOffsetInView(view, offset, extent);
    RoundHalfUp(view * offset, extent)
  }

  lemma BarOffsetInView(view: int, offset: int, extent: int)
    requires extent > 0
    ensures 0 <= view && MinOffset(view, extent) <= offset <= 0 ==>
              -view <= RoundHalfUp(view * offset, extent) <= 0
  {
    if 0 <= view <= extent && MinOffset(view, extent) <= offset <= 0 {
      MulBounds(view, offset, view - extent, 0);
      MulMonotoneRight(view, -extent, view - extent);
      RoundBetween(view * offset, extent, -view, 0);
    } else if 0 <= view && MinOffset(view, extent) <= offset <= 0 {
      // The content fits in the view, so the only offset in range is 0.
      assert view * offset == 0;
      RoundBetween(0, extent, 0, 0);
    }
  }

  /** Length of a bar: Math.round(view * view / extent). It fits in the view
      when the content is at least as long as the view. */
  function BarLength(view: int, extent: int): (r: int)
    requires extent > 0
    ensures 0 <= view <= extent ==> 0 <= r <= view
  {
    BarLengthInView(view, extent);
    RoundHalfUp(view * view, extent)
  }

  lemma BarLengthInView(view: int, extent: int)
    requires extent > 0
    ensures 0 <= view <= extent ==> 0 <= RoundHalfUp(view * view, extent) <= view
  {
    if 0 <= view <= extent {
      MulBounds(view, view, 0, extent);
      RoundBetween(view * view, extent, 0, view);
    }
  }

  /** A bar entity (`g.E`) positioned directly by the controller. Every
      `modified()` call on it is counted in `modifications`. */
  class BarEntity {
    var x: int
    var y: int
    var width: int
    var height: int
    var modifications: nat

    constructor ()
      ensures x == 0 && y == 0 && width == 0 && height == 0 && modifications == 0
    {
      x, y, width, height, modifications := 0, 0, 0, 0, 0;
    }
  }

  class Scrollable {
    const width: nat
    const height: nat
    const vertical: bool
    const horizontal: bool
    const touchScroll: bool
    const horizontalBar: BarEntity
    const verticalBar: BarEntity

    // Position of the offset container, which carries the scrolled content.
    var offsetX: int
    var offsetY: int
    // Drag deltas not yet applied.
    var deltaX: int
    var deltaY: int
    // Offset change since the cache surface was last painted.
    var renderOffsetX: int
    var renderOffsetY: int
    var isCached: bool
    var surface: Option<Surface>
    var renderedCamera: CameraRef
    // Extent of the content, as last measured by the update callback.
    var contentBoundingWidth: int
    var contentBoundingHeight: int
    var updateRequested: bool
    // Number of update callbacks handed to the host and not yet run.
    var pendingCallbacks: nat
    var destroyed: bool

    // The offsets at which the cache surface was last painted.
    ghost var paintedOffsetX: int
    ghost var paintedOffsetY: int

    ghost predicate Valid()
      reads this
    {
      && horizontalBar != verticalBar
      && pendingCallbacks <= 1
      && (pendingCallbacks == 1 ==> updateRequested)
      && (!destroyed && updateRequested ==> pendingCallbacks == 1)
      && offsetX <= 0 && offsetY <= 0
      && (!horizontal ==> offsetX == 0)
      && (!vertical ==> offsetY == 0)
      && (isCached ==> CacheCovers())
      && (!destroyed ==> renderOffsetX == offsetX - paintedOffsetX && renderOffsetY == offsetY - paintedOffsetY)
    }

    /** The cached surface can serve the current offsets: the drift is within
        the margin and the surface overhangs the viewport by the margin. */
    ghost predicate CacheCovers()
      reads this
    {
      && WithinMargin(renderOffsetX) && WithinMargin(renderOffsetY)
      && surface.Some?
      && surface.value.width >= width + 2 * ExtraDrawSize
      && surface.value.height >= height + 2 * ExtraDrawSize
    }

    ghost function AxisX(): AxisScroll
      reads this
    {
      AxisScroll(offsetX, deltaX, renderOffsetX)
    }

    ghost function AxisY(): AxisScroll
      reads this
    {
      AxisScroll(offsetY, deltaY, renderOffsetY)
    }

    /** The bars show the current offsets against the measured extent. The
        vertical bar's length is taken against the content WIDTH, as in the
        source. */
    ghost predicate BarsShowOffsets()
      reads this, horizontalBar, verticalBar
      requires contentBoundingWidth > 0 && contentBoundingHeight > 0
    {
      && horizontalBar.x == BarOffset(width, offsetX, contentBoundingWidth)
      && horizontalBar.width == BarLength(width, contentBoundingWidth)
      && verticalBar.y == BarOffset(height, offsetY, contentBoundingHeight)
      && verticalBar.height == BarLength(height, contentBoundingWidth)
    }

    constructor (width: nat, height: nat, vertical: bool, horizontal: bool, touchScroll: bool)
      ensures Valid() && fresh(horizontalBar) && fresh(verticalBar)
      ensures this.width == width && this.height == height
      ensures this.vertical == vertical && this.horizontal == horizontal && this.touchScroll == touchScroll
      ensures offsetX == 0 && offsetY == 0 && deltaX == 0 && deltaY == 0
      ensures renderOffsetX == 0 && renderOffsetY == 0 && !isCached && surface == None
      ensures renderedCamera == NullRef && contentBoundingWidth == 0 && contentBoundingHeight == 0
      ensures !updateRequested && pendingCallbacks == 0 && !destroyed
      ensures horizontalBar.x == 0 && horizontalBar.y == 0 && horizontalBar.width == 0 && horizontalBar.height == 0
      ensures horizontalBar.modifications == 0
      ensures verticalBar.x == 0 && verticalBar.y == 0 && verticalBar.width == 0 && verticalBar.height == 0
      ensures verticalBar.modifications == 0
    {
      this.width, this.height := width, height;
      this.vertical, this.horizontal, this.touchScroll := vertical, horizontal, touchScroll;
      horizontalBar := new BarEntity();
      verticalBar := new BarEntity();
      offsetX, offsetY, deltaX, deltaY := 0, 0, 0, 0;
      renderOffsetX, renderOffsetY := 0, 0;
      isCached, surface, renderedCamera := false, None, NullRef;
      contentBoundingWidth, contentBoundingHeight := 0, 0;
      updateRequested, pendingCallbacks, destroyed := false, 0, false;
      paintedOffsetX, paintedOffsetY := 0, 0;
    }

    /** The `verticalBar` accessor, which hands out the horizontal bar. */
    method VerticalBar() returns (bar: BarEntity)
      requires Valid()
      ensures bar == horizontalBar && bar != verticalBar
    {
      bar := horizontalBar;
    }

    /** Asks the host for one update callback in the next frame, unless one
        is already pending. */
    method RequestUpdateScrollBar()
      requires Valid()
      modifies this`updateRequested, this`pendingCallbacks
      ensures Valid()
      ensures updateRequested && pendingCallbacks <= 1
      ensures old(updateRequested) ==> pendingCallbacks == old(pendingCallbacks)
      ensures !old(updateRequested) ==> pendingCallbacks == 1
    {
      if updateRequested {
        return;
      }
      updateRequested := true;
      pendingCallbacks := pendingCallbacks + 1;
    }

    /** A structural change of the content requests an update. */
    method HandleContentModified()
      requires Valid()
      modifies this`updateRequested, this`pendingCallbacks
      ensures Valid()
      ensures updateRequested && pendingCallbacks <= 1
      ensures old(updateRequested) ==> pendingCallbacks == old(pendingCallbacks)
      ensures !old(updateRequested) ==> pendingCallbacks == 1
    {
      RequestUpdateScrollBar();
    }

    /** A drag over the viewport adds its movement to the pending deltas and
        requests an update. The handler is subscribed only on a
        touch-scrollable viewport. */
    method HandlePointMove(dx: int, dy: int)
      requires Valid() && touchScroll
      modifies this`deltaX, this`deltaY, this`updateRequested, this`pendingCallbacks
      ensures Valid()
      ensures deltaX == old(deltaX) + dx && deltaY == old(deltaY) + dy
      ensures updateRequested && pendingCallbacks <= 1
      ensures old(updateRequested) ==> pendingCallbacks == old(pendingCallbacks)
      ensures !old(updateRequested) ==> pendingCallbacks == 1
    {
      deltaX := deltaX + dx;
      deltaY := deltaY + dy;
      RequestUpdateScrollBar();
    }

    /** Applies the pending deltas to the offsets, clamped to the scroll
        range, adds the realized change to the drift, and drops the cache
        once the drift leaves the margin on either axis. */
    method FlushScrollDelta()
      requires Valid() && !destroyed
      modifies this`offsetX, this`offsetY, this`deltaX, this`deltaY
      modifies this`renderOffsetX, this`renderOffsetY, this`isCached
      ensures Valid()
      ensures AxisX() == FlushAxis(old(AxisX()), horizontal, width, contentBoundingWidth)
      ensures AxisY() == FlushAxis(old(AxisY()), vertical, height, contentBoundingHeight)
      ensures isCached == (old(isCached) && WithinMargin(renderOffsetX) && WithinMargin(renderOffsetY))
    {
      var dx, dy := deltaX, deltaY;
      deltaX, deltaY := 0, 0;
      if horizontal {
        var x0 := offsetX;
        offsetX := ClampOffset(x0 + dx, width, contentBoundingWidth);
        renderOffsetX := renderOffsetX + (offsetX - x0);
      }
      assert AxisX() == FlushAxis(old(AxisX()), horizontal, width, contentBoundingWidth);
      if vertical {
        var y0 := offsetY;
        offsetY := ClampOffset(y0 + dy, height, contentBoundingHeight);
        renderOffsetY := renderOffsetY + (offsetY - y0);
      }
      assert AxisY() == FlushAxis(old(AxisY()), vertical, height, contentBoundingHeight);
      if Abs(renderOffsetX) > ExtraDrawSize || Abs(renderOffsetY) > ExtraDrawSize {
        isCached := false;
      }
    }

    /** Places the bars from the current offsets and the measured extent,
        writing (and marking modified) only the fields whose value changes. */
    method UpdateScrollBar()
      requires Valid() && !destroyed
      requires contentBoundingWidth > 0 && contentBoundingHeight > 0
      modifies horizontalBar`x, horizontalBar`width, horizontalBar`modifications
      modifies verticalBar`y, verticalBar`height, verticalBar`modifications
      ensures BarsShowOffsets()
      ensures horizontalBar.modifications == old(horizontalBar.modifications)
        + (if horizontalBar.x != old(horizontalBar.x) then 1 else 0)
        + (if horizontalBar.width != old(horizontalBar.width) then 1 else 0)
      ensures verticalBar.modifications == old(verticalBar.modifications)
        + (if verticalBar.y != old(verticalBar.y) then 1 else 0)
        + (if verticalBar.height != old(verticalBar.height) then 1 else 0)
    {
      var barX := RoundHalfUp(width * offsetX, contentBoundingWidth);
      var barY := RoundHalfUp(height * offsetY, contentBoundingHeight);
      var barW := RoundHalfUp(width * width, contentBoundingWidth);
      var barH := RoundHalfUp(height * height, contentBoundingWidth);
      if horizontalBar.x != barX {
        horizontalBar.x := barX;
        horizontalBar.modifications := horizontalBar.modifications + 1;
      }
      if horizontalBar.width != barW {
        horizontalBar.width := barW;
        horizontalBar.modifications := horizontalBar.modifications + 1;
      }
      if verticalBar.y != barY {
        verticalBar.y := barY;
        verticalBar.modifications := verticalBar.modifications + 1;
      }
      if verticalBar.height != barH {
        verticalBar.height := barH;
        verticalBar.modifications := verticalBar.modifications + 1;
      }
    }

    /** The update callback the host runs once, in the frame after a
        request, given the content extent it measured. On a destroyed
        controller it does nothing; otherwise it clears the request flag,
        stores the extent, flushes against that extent and places the bars
        from the flushed offsets. */
    method RunUpdateCallback(extentWidth: int, extentHeight: int)
      requires Valid() && pendingCallbacks == 1
      requires !destroyed ==> extentWidth > 0 && extentHeight > 0
      modifies this, horizontalBar`x, horizontalBar`width, horizontalBar`modifications
      modifies verticalBar`y, verticalBar`height, verticalBar`modifications
      ensures Valid() && pendingCallbacks == 0
      ensures destroyed == old(destroyed) && updateRequested == old(destroyed && updateRequested)
      ensures old(destroyed) ==> AxisX() == old(AxisX()) && AxisY() == old(AxisY())
      ensures old(destroyed) ==> unchanged(horizontalBar, verticalBar)
      ensures old(destroyed) ==> isCached == old(isCached)
      ensures old(destroyed) ==> contentBoundingWidth == old(contentBoundingWidth) && contentBoundingHeight == old(contentBoundingHeight)
      ensures !old(destroyed) ==> contentBoundingWidth == extentWidth && contentBoundingHeight == extentHeight
      ensures !old(destroyed) ==> AxisX() == FlushAxis(old(AxisX()), horizontal, width, extentWidth)
      ensures !old(destroyed) ==> AxisY() == FlushAxis(old(AxisY()), vertical, height, extentHeight)
      ensures !old(destroyed) ==> isCached == (old(isCached) && WithinMargin(renderOffsetX) && WithinMargin(renderOffsetY))
      ensures !old(destroyed) ==> BarsShowOffsets()
      ensures !old(destroyed) ==>
                horizontalBar.modifications == old(horizontalBar.modifications)
                  + (if horizontalBar.x != old(horizontalBar.x) then 1 else 0)
                  + (if horizontalBar.width != old(horizontalBar.width) then 1 else 0)
      ensures !old(destroyed) ==>
                verticalBar.modifications == old(verticalBar.modifications)
                  + (if verticalBar.y != old(verticalBar.y) then 1 else 0)
                  + (if verticalBar.height != old(verticalBar.height) then 1 else 0)
      ensures surface == old(surface) && renderedCamera == old(renderedCamera)
      ensures paintedOffsetX == old(paintedOffsetX) && paintedOffsetY == old(paintedOffsetY)
    {
      pendingCallbacks := pendingCallbacks - 1;
      if destroyed {
        return;
      }
      updateRequested := false;
      contentBoundingWidth := extentWidth;
      contentBoundingHeight := extentHeight;
      FlushScrollDelta();
      UpdateScrollBar();
    }

    /** Repaints the content into the cache surface, allocating a new one
        only when there is none or it is too small for the viewport plus the
        margin; a surface that is reused is cleared first. */
    method RenderCache() returns (isNew: bool)
      requires Valid() && !destroyed
      modifies this`surface, this`renderOffsetX, this`renderOffsetY, this`isCached
      modifies this`paintedOffsetX, this`paintedOffsetY
      ensures Valid() && isCached
      ensures isNew == (old(surface).None?
                            || old(surface).value.width < width + 2 * ExtraDrawSize
                            || old(surface).value.height < height + 2 * ExtraDrawSize)
      ensures surface == if isNew then Some(Surface(width + 2 * ExtraDrawSize, height + 2 * ExtraDrawSize))
                         else old(surface)
      ensures renderOffsetX == 0 && renderOffsetY == 0
      ensures paintedOffsetX == offsetX && paintedOffsetY == offsetY
    {
      var surfaceWidth := width + 2 * ExtraDrawSize;
      var surfaceHeight := height + 2 * ExtraDrawSize;
      isNew := surface.None? || surface.value.width < surfaceWidth || surface.value.height < surfaceHeight;
      if isNew {
        surface := Some(Surface(surfaceWidth, surfaceHeight));
      }
      renderOffsetX, renderOffsetY := 0, 0;
      paintedOffsetX, paintedOffsetY := offsetX, offsetY;
      isCached := true;
    }

    /** The cache logic of a render pass: a different camera invalidates the
        cache, an invalid cache is repainted, and the viewport is then blitted
        from the surface at the margin less the drift. The blitted rectangle
        always lies inside the surface. */
    method RenderSelf(camera: CameraRef) returns (repainted: bool, blit: Option<Blit>)
      requires Valid() && !destroyed
      modifies this`renderedCamera, this`surface, this`renderOffsetX, this`renderOffsetY, this`isCached
      modifies this`paintedOffsetX, this`paintedOffsetY
      ensures Valid() && isCached && renderedCamera == camera
      ensures repainted == (old(renderedCamera) != camera || !old(isCached))
      ensures !repainted ==> surface == old(surface) && renderOffsetX == old(renderOffsetX) && renderOffsetY == old(renderOffsetY)
      ensures repainted ==> renderOffsetX == 0 && renderOffsetY == 0
      ensures repainted ==> surface == if old(surface).None?
                                          || old(surface).value.width < width + 2 * ExtraDrawSize
                                          || old(surface).value.height < height + 2 * ExtraDrawSize
                                       then Some(Surface(width + 2 * ExtraDrawSize, height + 2 * ExtraDrawSize))
                                       else old(surface)
      ensures blit.Some? <==> width > 0 && height > 0
      ensures blit.Some? ==> blit.value == Blit(ExtraDrawSize - (offsetX - paintedOffsetX), ExtraDrawSize - (offsetY - paintedOffsetY))
      ensures blit.Some? ==> && 0 <= blit.value.srcX && blit.value.srcX + width <= surface.value.width
                             && 0 <= blit.value.srcY && blit.value.srcY + height <= surface.value.height
    {
      if renderedCamera != camera {
        isCached := false;
        renderedCamera := camera;
      }
      repainted := !isCached;
      if !isCached {
        var _ := RenderCache();
      }
      if surface.Some? && width > 0 && height > 0 {
        blit := Some(Blit(ExtraDrawSize - renderOffsetX, ExtraDrawSize - renderOffsetY));
      } else {
        blit := None;
      }
    }

    /** Teardown: drops the surface and the cache state; a pending update
        callback will find the controller destroyed. */
    method Destroy()
      requires Valid()
      modifies this`destroyed, this`surface, this`isCached, this`renderedCamera
      modifies this`renderOffsetX, this`renderOffsetY
      ensures Valid() && destroyed
      ensures surface == None && !isCached && renderedCamera == NullRef
      ensures renderOffsetX == 0 && renderOffsetY == 0
    {
      destroyed := true;
      surface := None;
      isCached := false;
      renderedCamera := NullRef;
      renderOffsetX, renderOffsetY := 0, 0;
    }
  }

  /** The geometry of the package's test: a 120x100 viewport scrolling both
      ways, whose content reaches x = 410 and y = 40, asked to scroll by 300
      and 7. The test writes `scrollOffsetX`/`scrollOffsetY`, but this code
      has no `scrollOffsetX` accessor and its `scrollOffsetY` one is
      commented out (src/Scrollable.ts:143-149), so the
      only way to move the offsets here is a drag; the request is replayed
      as a drag of (-300, -7) on a touch-scrollable viewport. The horizontal
      offset stops at the end of the content, -290; the vertical one stays
      0, since the content is shorter than the viewport. */
  method ScrollPastEndExample() returns (x: int, y: int)
    ensures x == -290 && y == 0
  {
    var s := new Scrollable(120, 100, true, true, true);
    s.HandlePointMove(-300, -7);
    s.RunUpdateCallback(410, 40);
    x, y := s.offsetX, s.offsetY;
  }
}
