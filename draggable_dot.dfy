/** components/draggable-dot.tsx: the dot's `isDragging` flag, driven by
    mouse and touch events, and the pointer position it reports to the
    chart while a drag is on. */
module DraggableDot {
  import opened Types
  import Geometry

  /** The arguments of one `onMove(x, y)` call. */
  datatype MoveEvent = MoveEvent(x: real, y: real)

  /** The clamped pointer offset the move handlers report:
      `Math.max(0, Math.min(width, clientX - rect.left))`. */
  function PointerOffset(clientX: real, parentLeft: real, width: real): (x: real)
    requires width >= 0.0
    ensures 0.0 <= x <= width
    ensures 0.0 <= clientX - parentLeft <= width ==> x == clientX - parentLeft
  {
    Geometry.Clamp(clientX - parentLeft, 0.0, width)
  }

  /** Where the dot is drawn on the standard chart: `posX = x * width` and
      `posY = height - hill(x) * height * 0.8`, with `hill` standing for
      `sin(x * PI)`. */
  function RenderPosition(dot: Dot, width: real, height: real, hill: real -> real): (p: (real, real))
    ensures p.0 == dot.x * width
  {
    (dot.x * width, height - hill(dot.x) * height * 0.8)
  }

  /** For progress in [0, 1] the dot is drawn inside the chart's width. */
  lemma PosXInWidth(dot: Dot, width: real, height: real, hill: real -> real)
    requires 0.0 <= dot.x <= 1.0 && width >= 0.0
    ensures 0.0 <= RenderPosition(dot, width, height, hill).0 <= width
  {
    Geometry.ScaleWithin(dot.x, width);
    var p := RenderPosition(dot, width, height, hill);
    assert p.0 == dot.x * width;
  }

  /** When the hill value lies in [0, 1] the dot is drawn between 20% and
      100% of the height from the top. */
  lemma PosYInHeight(dot: Dot, width: real, height: real, hill: real -> real)
    requires height >= 0.0 && 0.0 <= hill(dot.x) <= 1.0
    ensures 0.2 * height <= RenderPosition(dot, width, height, hill).1 <= height
  {
    Geometry.ScaleWithin(hill(dot.x), height);
    var p := RenderPosition(dot, width, height, hill);
    assert p.1 == height - hill(dot.x) * height * 0.8;
  }

  /** The state of one `DraggableDot`. `listening` says whether the
      document-level mousemove/mouseup listeners are registered; the effect
      keeps it equal to `isDragging`. */
  class DragController {
    var isDragging: bool
    var listening: bool

    predicate Valid()
      reads this
    {
      listening == isDragging
    }

    constructor ()
      ensures !isDragging && !listening && Valid()
    {
      isDragging := false;
      listening := false;
    }

    /** `handleMouseDown`: start dragging from any state; the effect then
        registers the document listeners. */
    method MouseDown()
      modifies this
      ensures isDragging && listening && Valid()
    {
      isDragging := true;
      listening := true;
    }

    /** `handleTouchStart`: the same as a mouse-down. */
    method TouchStart()
      modifies this
      ensures isDragging && listening && Valid()
    {
      isDragging := true;
      listening := true;
    }

    /** A document mouseup. Its listener exists only while dragging; when it
        runs, dragging ends and the effect's cleanup removes both listeners. */
    method DocumentMouseUp()
      modifies this
      ensures old(listening) ==> !isDragging && !listening
      ensures !old(listening) ==> isDragging == old(isDragging) && listening == old(listening)
      ensures old(Valid()) ==> Valid() && !isDragging
    {
      if listening {
        isDragging := false;
        listening := false;
      }
    }

    /** `handleTouchEnd`: stop dragging; listeners go with it. */
    method TouchEnd()
      modifies this
      ensures !isDragging && !listening && Valid()
    {
      isDragging := false;
      listening := false;
    }

    /** A document mousemove. Nothing runs without the listener; the handler
        emits nothing unless dragging and the parent's rectangle (its left
        edge `parentLeft`) is available; otherwise it emits exactly one move
        with the clamped offset and y = 0. */
    method DocumentMouseMove(clientX: real, parentLeft: Option<real>, width: real)
      returns (emitted: Option<MoveEvent>)
      requires width >= 0.0
      ensures emitted.Some? <==> listening && isDragging && parentLeft.Some?
      ensures emitted.Some? ==>
                emitted.value == MoveEvent(PointerOffset(clientX, parentLeft.value, width), 0.0)
                && 0.0 <= emitted.value.x <= width
    {
      if !listening {
        return None;
      }
      if !isDragging || parentLeft.None? {
        return None;
      }
      var x := Geometry.Clamp(clientX - parentLeft.value, 0.0, width);
      emitted := Some(MoveEvent(x, 0.0));
    }

    /** `handleTouchMove` for the first touch point; the element's handler
        is always attached and guarded by `isDragging`. */
    method TouchMove(touchX: real, parentLeft: Option<real>, width: real)
      returns (emitted: Option<MoveEvent>)
      requires width >= 0.0
      ensures emitted.Some? <==> isDragging && parentLeft.Some?
      ensures emitted.Some? ==>
                emitted.value == MoveEvent(PointerOffset(touchX, parentLeft.value, width), 0.0)
                && 0.0 <= emitted.value.x <= width
    {
      if !isDragging || parentLeft.None? {
        return None;
      }
      var x := Geometry.Clamp(touchX - parentLeft.value, 0.0, width);
      emitted := Some(MoveEvent(x, 0.0));
    }
  }
}
