/** The four scrollbar widgets (default and nine-patch skins, vertical and
    horizontal). They differ only in the axis they work on, so one class
    models them all, parameterised by its skin; `length` is the widget's
    height for a vertical skin and its width for a horizontal one, and
    likewise for the thumb (`_bar`). */
module Scrollbars {
  import opened ScrollMath

  datatype Skin = DefaultVertical | DefaultHorizontal | NinePatchVertical | NinePatchHorizontal

  /** What a handler did with `onChangeBarPositionRate`: nothing, or fired
      it with the rate position / length. */
  datatype Emission = Silent | Fired(position: int, length: int)

  function Rate(e: Emission): real
    requires e.Fired? && e.length != 0
  {
    e.position as real / e.length as real
  }

  /** Thumb length: none when the whole content fits in the track, else
      floor(length * length / contentLength), but never shorter than the
      thumb image. */
  function ThumbLength(length: int, contentLength: int, imageLength: int): (r: int)
    requires 0 <= length
    ensures length >= contentLength ==> r == 0
    ensures length < contentLength ==> r >= imageLength
    ensures length < contentLength ==>
              r == imageLength || r * contentLength <= length * length
    ensures length < contentLength ==> length * length < (r + 1) * contentLength
  {
    if length < contentLength then
      var n := length * length;
      var q := n / contentLength;
      assert n == contentLength * q + n % contentLength;
      MulMonotoneRight(contentLength, q + 1, Max(q, imageLength) + 1);
      Max(q, imageLength)
    else
      0
  }

  /** When the thumb image fits in the track, so does the thumb. */
  lemma ThumbFitsTrack(length: int, contentLength: int, imageLength: int)
    requires 0 <= imageLength <= length
    ensures 0 <= ThumbLength(length, contentLength, imageLength) <= length
  {
    var r := ThumbLength(length, contentLength, imageLength);
    if length < contentLength && r != imageLength {
      MulMonotoneRight(length, length, contentLength);
      assert r * contentLength <= length * length <= length * contentLength;
      CancelPositive(r, length, contentLength);
    }
  }

  /** Thumb position: floor(posRate * length). */
  function ThumbPosition(posRate: real, length: int): (r: int)
    ensures r as real <= posRate * length as real < r as real + 1.0
  {
    (posRate * length as real).Floor
  }

  /** A rate in [0, 1] puts the thumb inside the track. */
  lemma ThumbPositionInTrack(posRate: real, length: int)
    requires 0.0 <= posRate <= 1.0 && 0 <= length
    ensures 0 <= ThumbPosition(posRate, length) <= length
  {
    var len := length as real;
    assert 0.0 <= posRate * len <= len by {
      assert len - posRate * len == (1.0 - posRate) * len;
    }
  }

  /** Clamp of a requested thumb position: min(max(request, 0), length - barLength). */
  function ClampThumb(request: int, length: int, barLength: int): (r: int)
    ensures barLength <= length ==> 0 <= r <= length - barLength
    ensures 0 <= request <= length - barLength ==> r == request
    ensures request < 0 <= length - barLength ==> r == 0
    ensures request > length - barLength ==> r == length - barLength
    ensures barLength > length ==> r == length - barLength
  {
    Min(Max(request, 0), length - barLength)
  }

  /** A fired rate from a clamped position lies in [0, 1] when the thumb fits
      in a non-empty track. */
  lemma ClampedRateInUnitInterval(request: int, length: int, barLength: int)
    requires 0 <= barLength <= length && 0 < length
    ensures 0.0 <= Rate(Fired(ClampThumb(request, length, barLength), length)) <= 1.0
  {
    var next := ClampThumb(request, length, barLength);
    assert 0 <= next <= length;
    var q := next as real / length as real;
    assert q * length as real == next as real;
  }

  /** The drag state of a thumb: its position, the position a drag started
      from and the movement accumulated since. */
  datatype DragState = DragState(pos: int, origin: int, delta: int)

  /** One pointer move over the thumb: the movement is accumulated and the
      thumb goes to the origin plus the accumulated movement, clamped. */
  function MoveStep(s: DragState, d: int, length: int, barLength: int): DragState
  {
    var delta := s.delta + d;
    DragState(ClampThumb(s.origin + delta, length, barLength), s.origin, delta)
  }

  /** A sequence of pointer moves. */
  function Moves(s: DragState, ds: seq<int>, length: int, barLength: int): DragState
    decreases |ds|
  {
    if ds == [] then s else Moves(MoveStep(s, ds[0], length, barLength), ds[1..], length, barLength)
  }

  function Total(ds: seq<int>): int
  {
    if ds == [] then 0 else ds[0] + Total(ds[1..])
  }

  /** After any non-empty sequence of moves, the thumb sits at the drag
      origin plus the total movement, clamped once: intermediate clamping
      leaves no trace. */
  lemma {:induction false} MovesFollowTotal(s: DragState, ds: seq<int>, length: int, barLength: int)
    ensures Moves(s, ds, length, barLength).origin == s.origin
    ensures Moves(s, ds, length, barLength).delta == s.delta + Total(ds)
    ensures ds != [] ==>
              Moves(s, ds, length, barLength).pos == ClampThumb(s.origin + s.delta + Total(ds), length, barLength)
    decreases |ds|
  {
    if ds != [] {
      MovesFollowTotal(MoveStep(s, ds[0], length, barLength), ds[1..], length, barLength);
    }
  }

  /** Two drags from the same state with the same total movement leave the
      thumb at the same place, whatever path the pointer took (for instance
      past the end of the track and back). */
  lemma DragIsPathIndependent(s: DragState, ds: seq<int>, es: seq<int>, length: int, barLength: int)
    requires ds != [] && es != [] && Total(ds) == Total(es)
    ensures Moves(s, ds, length, barLength) == Moves(s, es, length, barLength)
  {
    MovesFollowTotal(s, ds, length, barLength);
    MovesFollowTotal(s, es, length, barLength);
  }

  class AxisScrollbar {
    const skin: Skin
    /** Length of the thumb image (`_barImage`) along the axis. */
    const imageLength: nat
    /** Length of the track: the widget's own height or width. */
    var length: int
    var contentLength: int
    /** The thumb's length and position along the axis. */
    var barLength: int
    var barPos: int
    var deltaOrigin: int
    var delta: int

    /** The thumb length always reflects the stored track and content lengths. */
    ghost predicate Valid()
      reads this
    {
      0 <= length && 0 <= contentLength && barLength == ThumbLength(length, contentLength, imageLength)
    }

    ghost function Drag(): DragState
      reads this
    {
      DragState(barPos, deltaOrigin, delta)
    }

    constructor (skin: Skin, imageLength: nat)
      ensures Valid() && this.skin == skin && this.imageLength == imageLength
      ensures length == 0 && contentLength == 0 && barLength == 0 && barPos == 0
      ensures deltaOrigin == 0 && delta == 0
    {
      this.skin, this.imageLength := skin, imageLength;
      length, contentLength, barLength, barPos := 0, 0, 0, 0;
      deltaOrigin, delta := 0, 0;
    }

    /** The viewport reports a position rate, a content length and a view
        length; absent lengths keep the stored ones. The thumb length is
        recomputed from the updated lengths and the thumb is placed at
        floor(posRate * length); if that moves it, a drag restarts there. */
    method SetBarProperties(posRate: real, contentLength: Option<nat>, viewLength: Option<nat>)
      requires Valid()
      modifies this`contentLength, this`length, this`barLength, this`barPos, this`deltaOrigin, this`delta
      ensures Valid()
      ensures this.contentLength == if contentLength.Some? then contentLength.value else old(this.contentLength)
      ensures length == if viewLength.Some? then viewLength.value else old(length)
      ensures barPos == ThumbPosition(posRate, length)
      ensures barPos != old(barPos) ==> deltaOrigin == barPos && delta == 0
      ensures barPos == old(barPos) ==> deltaOrigin == old(deltaOrigin) && delta == old(delta)
    {
      if contentLength.Some? && this.contentLength != contentLength.value {
        this.contentLength := contentLength.value;
      }
      if viewLength.Some? && length != viewLength.value {
        length := viewLength.value;
      }
      var newBarLength := ThumbLength(length, this.contentLength, imageLength);
      var newBarPos := ThumbPosition(posRate, length);
      if barLength != newBarLength {
        barLength := newBarLength;
      }
      if barPos != newBarPos {
        barPos := newBarPos;
        deltaOrigin := barPos;
        delta := 0;
      }
    }

    /** Teardown: the trigger and the thumb are released (engine references,
        not modelled) and the stored content length is reset to 0. The
        widget is not used afterwards, so the thumb length is not recomputed. */
    method Destroy()
      modifies this`contentLength
      ensures contentLength == 0
    {
      contentLength := 0;
    }

    /** A press on the thumb starts a drag from where the thumb is. */
    method HandleBarPointDown()
      modifies this`deltaOrigin, this`delta
      ensures deltaOrigin == barPos && delta == 0
    {
      deltaOrigin := barPos;
      delta := 0;
    }

    /** Moves the thumb to the requested position clamped to the track,
        firing the new rate only when the thumb actually moves. */
    method ChangePositionRate(request: int) returns (e: Emission)
      modifies this`barPos
      ensures barPos == ClampThumb(request, length, barLength)
      ensures e == if barPos == old(barPos) then Silent else Fired(barPos, length)
    {
      var next := ClampThumb(request, length, barLength);
      if barPos == next {
        return Silent;
      }
      barPos := next;
      e := Fired(next, length);
    }

    /** A pointer move while dragging the thumb. */
    method HandleBarPointMove(prevDelta: int) returns (e: Emission)
      modifies this`barPos, this`delta
      ensures Drag() == MoveStep(old(Drag()), prevDelta, length, barLength)
      ensures e == if barPos == old(barPos) then Silent else Fired(barPos, length)
    {
      delta := delta + prevDelta;
      e := ChangePositionRate(deltaOrigin + delta);
    }

    /** A click on the track of the vertical nine-patch skin pages by one
        thumb length towards the click; a click on the thumb does nothing. */
    method HandlePointDown(pointY: int) returns (e: Emission)
      requires Valid() && skin == NinePatchVertical
      modifies this`barPos
      ensures pointY < old(barPos) ==> barPos == ClampThumb(old(barPos) - barLength, length, barLength)
      ensures old(barPos) + barLength < pointY ==> barPos == ClampThumb(old(barPos) + barLength, length, barLength)
      ensures old(barPos) <= pointY <= old(barPos) + barLength ==> barPos == old(barPos)
      ensures e == if barPos == old(barPos) then Silent else Fired(barPos, length)
    {
      if pointY < barPos {
        e := ChangePositionRate(barPos - barLength);
      } else if pointY > barPos + barLength {
        e := ChangePositionRate(barPos + barLength);
      } else {
        e := Silent;
      }
    }
  }
}
