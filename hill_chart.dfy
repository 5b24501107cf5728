/** components/hill-chart.tsx: converting the pointer offset a dot reports
    into progress, and the record the chart emits for a move. The sine hill
    is the parameter `hill`, standing for `x => Math.sin(x * Math.PI)`. */
module HillChart {
  import opened Types
  import Geometry
  import DraggableDot

  /** `Math.max(0, Math.min(1, x / width))` for the non-negative widths a
      bounding rectangle has. `None` is NaN: with width 0 the offset is 0
      and `0 / 0` is NaN, which `Math.min` and `Math.max` pass through. A
      non-zero offset over width 0 is an infinity and clamps to 0 or 1. */
  function NormalizedX(x: real, width: real): (r: Option<real>)
    requires width >= 0.0
    ensures width > 0.0 ==> r == Some(Geometry.Clamp(x / width, 0.0, 1.0))
    ensures r.Some? ==> 0.0 <= r.value <= 1.0
    ensures r.None? <==> width == 0.0 && x == 0.0
  {
    if width > 0.0 then Some(Geometry.Clamp(x / width, 0.0, 1.0))
    else if x == 0.0 then None
    else if x > 0.0 then Some(1.0)
    else Some(0.0)
  }

  /** For a positive width the progress is a number in [0, 1] whatever the
      pointer offset. */
  lemma NormalizedInRange(x: real, width: real)
    requires width > 0.0
    ensures NormalizedX(x, width).Some?
    ensures 0.0 <= NormalizedX(x, width).value <= 1.0
  {
  }

  /** Moving the pointer right never moves the progress left. */
  lemma NormalizedMonotone(x1: real, x2: real, width: real)
    requires width > 0.0 && x1 <= x2
    ensures NormalizedX(x1, width).value <= NormalizedX(x2, width).value
  {
    assert x1 / width <= x2 / width by {
      assert x2 / width - x1 / width == (x2 - x1) / width;
    }
    Geometry.ClampMonotone(x1 / width, x2 / width, 0.0, 1.0);
  }

  /** Drawing a dot at `posX = x * width` and converting that offset back
      gives its progress again. */
  lemma PosXRoundTrip(dot: Dot, width: real, height: real, hill: real -> real)
    requires 0.0 <= dot.x <= 1.0 && width > 0.0
    ensures NormalizedX(DraggableDot.RenderPosition(dot, width, height, hill).0, width) == Some(dot.x)
  {
    var posX := DraggableDot.RenderPosition(dot, width, height, hill).0;
    assert posX / width == dot.x;
  }

  /** At width 0 the conversion is not a number. */
  lemma ZeroWidthIsNaN()
    ensures NormalizedX(0.0, 0.0).None?
  {
  }

  /** What `handleDotMove` emits: nothing when no dot has the id; the dot
      with the new progress as `x` and `hill(x)` as `y`; or, when the
      progress is NaN, the dot with NaN in both (`UpdateNaN`, carrying the
      dot as found). */
  datatype MoveOutcome = NoUpdate | Update(dot: Dot) | UpdateNaN(found: Dot)

  /** `handleDotMove(dotId, x, y)`: convert, look the dot up with `find`,
      and emit it with only `x` and `y` replaced. */
  function DotMove(dots: seq<Dot>, dotId: string, x: real, width: real, hill: real -> real): (r: MoveOutcome)
    requires width >= 0.0
    ensures r.NoUpdate? <==> forall j :: 0 <= j < |dots| ==> dots[j].id != dotId
    ensures r.UpdateNaN? ==> width == 0.0 && x == 0.0
    ensures r.Update? ==>
              exists i :: 0 <= i < |dots| && (forall j :: 0 <= j < i ==> dots[j].id != dotId)
                          && r.dot == dots[i].(x := r.dot.x, y := r.dot.y)
    ensures r.Update? ==> r.dot.id == dotId && 0.0 <= r.dot.x <= 1.0 && r.dot.y == hill(r.dot.x)
    ensures r.Update? ==> NormalizedX(x, width) == Some(r.dot.x)
    ensures r.Update? && width > 0.0 ==> r.dot.x == Geometry.Clamp(x / width, 0.0, 1.0)
    ensures r.UpdateNaN? <==> !r.NoUpdate? && NormalizedX(x, width).None?
    ensures r.UpdateNaN? ==> FindDot(dots, dotId) == Some(r.found)
  {
    var normalizedX := NormalizedX(x, width);
    match FindDot(dots, dotId)
    case None => NoUpdate
    case Some(dot) =>
      if normalizedX.None? then UpdateNaN(dot)
      else Update(dot.(x := normalizedX.value, y := hill(normalizedX.value)))
  }
}
