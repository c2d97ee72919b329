# Scrollable viewport and scrollbars, modelled in Dafny

This project models the core of `akashic-scrollable`, a scrollable viewport entity for the Akashic game engine, together with its scrollbar widgets.

**`Scrollable` (module `Scrollable`, class `Scrollable`).** The viewport controller:

- it accumulates drag deltas from pointer moves;
- it asks the host, at most once per frame, to run an update callback;
- the callback measures the content, flushes the deltas into the content offset and places the two bar entities.

The flush clamps each enabled axis into `[min(view − extent, 0), 0]`. It adds the realized change to a render-drift counter and drops the render cache once the drift leaves the 10-pixel margin (`extraDrawSize`). A render pass repaints the cache when it is invalid or the camera changed, then blits from the surface at the margin less the drift.

The model adds a ghost record of the offsets at which the cache was painted. The class invariant `Valid()` ties the drift to that record. With it, `RenderSelf` proves that the blitted rectangle always lies inside the cached surface.

**Scrollbars (module `Scrollbars`, class `AxisScrollbar`).** `DefaultVerticalScrollbar`, `DefaultHorizontalScrollbar`, `NinePatchVerticalScrollbar` and `NinePatchHorizontalScrollbar` are the same code on different axes. One class covers them, with the skin as a constant:

- `length` is the widget's height (vertical skins) or width (horizontal skins);
- `barLength`/`barPos` are the thumb's height/y or width/x.

The code maps onto the class member by member:

| operation | DefaultVertical / DefaultHorizontal | NinePatchVertical | NinePatchHorizontal | model |
|---|---|---|---|---|
| `setBarProperties` | lines 53-75 | lines 67-91 | lines 66-90 | `SetBarProperties` |
| `_handleBarPointDown` | lines 77-80 | lines 101-104 | lines 92-95 | `HandleBarPointDown` |
| `_handleBarPointMove` | lines 82-91 | lines 106-109 | lines 97-106 | `HandleBarPointMove` |
| `_changePositionRate` | (inlined in the move handler) | lines 111-119 | (inlined) | `ChangePositionRate` |
| `_handlePointDown` (click paging) | none | lines 93-99 | none | `HandlePointDown` (nine-patch vertical only) |

Firing `onChangeBarPositionRate` is modelled as a returned `Emission`. It is either `Silent` or `Fired(position, length)`, and the rate fired is `position / length`.

**`NullScrollbar` (module `NullScrollbars`).** The no-op bar. It ignores every report and has no operation that fires its trigger.

**Numbers.** Pixel quantities are integers.

- `Math.round(p / q)` (for `q > 0`) is `ScrollMath.RoundHalfUp`, i.e. `floor((2p + q) / (2q))`.
- `Math.floor(h * h / c)` is integer division.
- The position rate is a `real`, and `Math.floor(posRate * h)` is `(posRate * h).Floor`.

**Behaviour of the code that the model keeps as written:**

- the `verticalBar` accessor returns the horizontal bar (`src/Scrollable.ts:137-139`);
- the vertical bar's length is computed against the content width (`src/Scrollable.ts:294`);
- bar positions are `round(view * offset / extent)` with a non-positive offset, so they are not positive;
- the camera the controller starts with is `null`, and a render without camera passes `undefined`, which JavaScript's `!==` treats as a different camera. The first such render therefore invalidates the cache.

**What this snapshot of the code does not have:**

- momentum scrolling, animated scroll-to with easing, and percent or offset accessors (there is no `scrollOffsetX` accessor, and the `scrollOffsetY` one is commented out at src/Scrollable.ts:143-149);
- more than one dirty flag: a single request flag, `_isUpdateScrollBarRequested`, guards the update callback;
- any connection between the viewport's bars and the scrollbar widgets: `_updateScrollBar` positions the two bar entities directly and never calls `setBarProperties`.

The test scenario's content reaches y = 40 (an entity of height 10 at y = 30), below the viewport height of 100.

## Model

| member | source | states |
|---|---|---|
| `ScrollMath.RoundHalfUp` | src/Scrollable.ts:291-294 | `Math.round(p/q)` for `q > 0`: the result `r` satisfies `2qr − q ≤ 2p < 2qr + q`, i.e. it is the nearest integer to p/q, with halves rounded up |
| `ScrollMath.RoundBetween` | src/Scrollable.ts:291-294 | rounding a quotient that lies between two integers gives a result between those integers |
| `ScrollMath.ClampOffset` | src/Scrollable.ts:268-277 | the clamped offset lies in `[min(view − extent, 0), 0]`; an in-range request is kept exactly; a positive request gives 0; a request past the end gives the end |
| `Scrollable.FlushAxis` | src/Scrollable.ts:262-277 | per axis: the pending delta is consumed (0 afterwards); an enabled axis ends in the scroll range, exactly at offset + delta when that is in range; a disabled axis keeps its offset; drift grows by exactly the realized offset change; zero delta with an in-range offset changes nothing |
| `Scrollable.FlushIsIdempotent` | src/Scrollable.ts:268-277 | flushing again, with no new delta and the same extent, leaves offset, delta and drift as the first flush left them |
| `Scrollable.BarOffsetInView` | src/Scrollable.ts:291-292 | for an offset in the scroll range, `round(view·offset/extent)` lies in `[−view, 0]` |
| `Scrollable.BarLengthInView` | src/Scrollable.ts:293-294 | for content at least as long as the view, `round(view²/extent)` lies in `[0, view]` |
| `Scrollable.BarOffset` | src/Scrollable.ts:291-292 | bar position `round(view·offset/extent)`; for an offset in the scroll range, it lies in `[−view, 0]` |
| `Scrollable.BarLength` | src/Scrollable.ts:293-294 | bar length `round(view²/extent)`; for content at least as long as the view, it lies in `[0, view]` |
| `Scrollable.Scrollable.constructor` | src/Scrollable.ts:151-181 | zero offsets, deltas, drift and extent; no cache, surface or request; camera `null`; two distinct fresh bar entities, each at position 0 with size 0 and no `modified()` calls; the class invariant holds |
| `Scrollable.Scrollable.VerticalBar` | src/Scrollable.ts:137-139 | the `verticalBar` accessor returns the horizontal bar entity, not the vertical one |
| `Scrollable.Scrollable.RequestUpdateScrollBar` | src/Scrollable.ts:225-231 | afterwards an update is requested and at most one callback is pending; a request while one is pending changes nothing; otherwise exactly one callback is scheduled |
| `Scrollable.Scrollable.HandleContentModified` | src/Scrollable.ts:251-253 | a content change makes the same request |
| `Scrollable.Scrollable.HandlePointMove` | src/Scrollable.ts:255-260 | on a touch-scrollable viewport, each pending delta grows by the pointer's movement and an update is requested: afterwards at most one callback is pending, and exactly one when none was requested before |
| `Scrollable.Scrollable.FlushScrollDelta` | src/Scrollable.ts:262-282 | both axes become `FlushAxis` of their old state against the stored extent; the cache stays valid only if it was valid and both drifts are within 10 pixels; the invariant `isCached ⇒ abs(drift) ≤ 10` on both axes is kept |
| `Scrollable.Scrollable.UpdateScrollBar` | src/Scrollable.ts:284-311 | `hbar.x = round(w·offX/extW)`, `hbar.width = round(w²/extW)`, `vbar.y = round(h·offY/extH)`, `vbar.height = round(h²/extW)` (cross-axis as written); each bar's `modified()` count grows by the number of its fields whose value changed |
| `Scrollable.Scrollable.RunUpdateCallback` | src/Scrollable.ts:232-247 | consumes the scheduled callback. On a destroyed controller nothing else changes. Otherwise, in order: the request flag is cleared, the measured extent is stored, the flush runs against that extent, and the bars show the flushed offsets, each bar's `modified()` count growing by the number of its fields whose value changed |
| `Scrollable.Scrollable.RenderCache` | src/Scrollable.ts:313-334 | a new surface of (view + 20) in each dimension is allocated exactly when there is none or the old one is smaller in some dimension; otherwise the old surface is kept (and cleared). Drift is reset to 0 and the cache becomes valid |
| `Scrollable.Scrollable.RenderSelf` | src/Scrollable.ts:201-223 | a different camera invalidates the cache, and the pass repaints exactly when the camera changed or the cache was invalid. Afterwards the cache is valid for this camera. A repaint allocates a new (view + 20) surface exactly when there is none or the old one is too small in some dimension, and otherwise keeps the old one. For a non-empty view the blit source is `(10 − driftX, 10 − driftY)`, and the blitted rectangle lies inside the surface |
| `Scrollable.Scrollable.Destroy` | src/Scrollable.ts:185-199 | destroyed; surface released; cache invalid; camera `null`; drift 0; the invariant still holds, so a pending callback will find the controller destroyed |
| `Scrollable.ScrollPastEndExample` | src/__tests__/Scrollable.test.ts:50-85 | the test's geometry: a 120×100 viewport with content reaching x = 410, y = 40. The test's request to scroll by 300 and 7 goes through the commented-out offset setters, so here it is replayed as a drag of (−300, −7) on a touch-scrollable viewport; the flush realizes offsets −290 and 0 |
| `Scrollbars.ThumbLength` | src/NinePatchHorizontalScrollbar.ts:74-76 | thumb length is 0 when the track is at least as long as the content. Otherwise it is `max(floor(length²/content), image length)`: at least the image length, strictly more than `length²/content − 1`, and either equal to the image length or no greater than `length²/content` |
| `Scrollbars.ThumbFitsTrack` | src/DefaultVerticalScrollbar.ts:61 | when the thumb image fits in the track, the thumb length lies in `[0, length]` |
| `Scrollbars.ThumbPosition` | src/DefaultHorizontalScrollbar.ts:62 | the thumb position is `floor(posRate·length)`: `r ≤ posRate·length < r + 1` |
| `Scrollbars.ThumbPositionInTrack` | src/Scrollbar.ts:22-26 | a position rate in [0, 1] puts the thumb inside `[0, length]` |
| `Scrollbars.ClampThumb` | src/NinePatchVerticalScrollbar.ts:111-113 | the requested position is clamped: within `[0, length − bar]` when the thumb fits; an in-range request is kept; below 0 gives 0; beyond the limit gives the limit |
| `Scrollbars.ClampedRateInUnitInterval` | src/Scrollbar.ts:7-14 | a rate fired from a clamped position lies in [0, 1] when `0 ≤ bar ≤ length` and `length > 0` |
| `Scrollbars.MovesFollowTotal` | src/DefaultVerticalScrollbar.ts:82-90 | after any non-empty sequence of drag moves, the accumulated delta is the sum of the moves and the thumb is at `clamp(origin + delta + sum)`; the drag origin is unchanged |
| `Scrollbars.DragIsPathIndependent` | src/NinePatchHorizontalScrollbar.ts:97-106 | two drags with the same total movement end in the same drag state, whatever clamping happened on the way |
| `Scrollbars.AxisScrollbar.constructor` | src/DefaultVerticalScrollbar.ts:17-42 | lengths, thumb, drag origin and delta start at 0; the thumb-length invariant holds |
| `Scrollbars.AxisScrollbar.SetBarProperties` | src/NinePatchVerticalScrollbar.ts:67-91 | a present content or view length is stored and an absent one keeps the stored value. The thumb length is recomputed from the updated lengths (the invariant). The thumb moves to `floor(posRate·length)`; when it moved, the drag origin becomes the new position and the delta 0, and otherwise both are unchanged |
| `Scrollbars.AxisScrollbar.Destroy` | src/DefaultVerticalScrollbar.ts:44-51 | teardown resets the stored content length to 0 |
| `Scrollbars.AxisScrollbar.HandleBarPointDown` | src/DefaultVerticalScrollbar.ts:77-80 | pressing the thumb sets the drag origin to the thumb position and the delta to 0 |
| `Scrollbars.AxisScrollbar.ChangePositionRate` | src/NinePatchVerticalScrollbar.ts:111-119 | the thumb goes to the clamped request; the rate `next/length` fires exactly when the position changed, and nothing fires otherwise |
| `Scrollbars.AxisScrollbar.HandleBarPointMove` | src/DefaultHorizontalScrollbar.ts:82-91 | the drag state becomes `MoveStep` of the old one: the delta grows by the move and the thumb goes to `clamp(origin + delta)`; the rate fires exactly when the thumb moved |
| `Scrollbars.AxisScrollbar.HandlePointDown` | src/NinePatchVerticalScrollbar.ts:93-99 | a click above the thumb requests `pos − bar`, a click below it requests `pos + bar`, and a click on the thumb changes nothing; the rate fires exactly when the thumb moved |
| `NullScrollbars.NullScrollbar.constructor` | src/NullScrollbar.ts:6-9 | the trigger exists |
| `NullScrollbars.NullScrollbar.SetBarProperties` | src/NullScrollbar.ts:17-19 | for any arguments, each of them possibly absent, nothing changes |
| `NullScrollbars.NullScrollbar.Destroy` | src/NullScrollbar.ts:11-15 | the trigger reference is cleared |

## Left out

- The scene-graph wiring of `ScrolledContent` and `ScrolledContentContainer` (src/Scrollable.ts:2-43) is not modelled. Content changes enter only through `HandleContentModified`, and the offset container's position is the pair of fields `offsetX`/`offsetY`.
- `calculateBoundingRect()` is a call into the engine. Its result, the content extent, is the parameter of `RunUpdateCallback`.
- The host's `_callSceneAssetHolderHandler` is modelled as the counter `pendingCallbacks` plus the explicit method `RunUpdateCallback`.
- Graphics calls (surface creation, `begin`/`clear`/`save`/`translate`/`restore`/`end`, painting the content, `drawImage`) are left out. Only their effect on the cache state is kept, and the blit is returned as its source origin.
- Rendering of the other children in `renderSelf` (the loop at src/Scrollable.ts:208-221) is left out, since it only forwards to the engine.
- `modified()` and `invalidate()` are engine notifications. They are counted only on the two bar entities of the viewport, where which fields change is a stated property.
- Trigger plumbing (`g.Trigger` and handler registration) is left out. A firing is a returned `Emission`. The viewport subscribes its pointer handler only when `touchScroll` is set (src/Scrollable.ts:177-180); this is modelled as the precondition `touchScroll` of `HandlePointMove`.
- `src/createDefaultScrollbarImage.ts` is not part of this model: it draws bitmaps with floating-point trigonometry.
- The `NinePatchSurfaceEffector` construction, the skins' cross-axis sizes and background images are left out, since they are presentation only.
- The engine-reference part of the four scrollbar skins' `destroy()` (trigger, thumb and image) is left out. Its reset of `_contentLength` to 0 is `AxisScrollbar.Destroy`. The thumb length is not recomputed afterwards, because the widget is not used once destroyed.
- The `ScrollbarOperations` interface (src/Scrollbar.ts:6-27, src/ScrollbarLike.ts:1-4) is not a Dafny type of its own. `AxisScrollbar` and `NullScrollbar` expose the same `SetBarProperties` operation, but Dafny traits are not used in this model.
- The viewport's size is a constant `nat`. Resizing after construction is not modelled; the source does not invalidate the cache on a resize. Fractional sizes are not modelled either, so `Math.ceil` in src/Scrollable.ts:314-315 is the identity here.
- Scrollable.Scrollable.UpdateScrollBar: requires positive content extents and a live controller. The source divides by the extents unguarded, and a zero extent gives NaN or infinite bar fields in JavaScript. After `destroy()` the bar references are `null`.
- Scrollable.Scrollable.RunUpdateCallback: requires positive measured extents on a live controller, for the same reason.
- Scrollable.Scrollable.FlushScrollDelta: requires a live controller. After `destroy()` the source's `_contentContainer` is `null`, and the flush would dereference it.
- Scrollable.Scrollable.RenderSelf: requires a live controller, for the same reason (the engine does not render destroyed entities).
- Scrollable.Scrollable.RenderCache: requires a live controller, for the same reason.
- Scrollbars.AxisScrollbar.SetBarProperties: the position rate is always a number. All four skins also accept a `null` rate (which JavaScript turns into 0) or an absent one (NaN); neither is modelled. Content and view lengths are non-negative, as lengths are.
- Scrollbars.ThumbLength: requires a non-negative track length. That makes the division safe, because the content is then strictly longer than the track and so positive.
- Scrollbars.AxisScrollbar.HandlePointDown: requires the vertical nine-patch skin, the only skin whose track listens for presses.
- Momentum scrolling, animated scroll-to, easing and percent/offset accessors are not modelled: none of them exists in this code.
- Scrollable.ScrollPastEndExample: the test moves the content by assigning `scrollOffsetX`/`scrollOffsetY`. This code has no `scrollOffsetX` accessor and its `scrollOffsetY` one is commented out, so the assignments only create plain properties and move nothing. The model has no setter path and replays the request as a drag instead.
- Scrollbars.ThumbPosition: the product `posRate * length` is exact here, whereas JavaScript floors a double product. For example `0.29 * 100` is 28.999999999999996 in doubles, so the source gives 28 where the model gives 29. Double rounding is not modelled.
- Fractional pointer deltas and offsets are not modelled. The `prevDelta` of a pointer move (src/Scrollable.ts:256-257 and the skins' move handlers), and so the offsets and thumb positions, are integers here, while the source carries them as doubles.
