/**
 * The two ways the user moves the date window: the pan buttons
 * (`moveTimeWindow`) and the mouse wheel (`onWheel`). Both compute the new
 * window from the old one by applying the same map to each endpoint.
 */
module Navigation {
  import opened Dates
  import opened Scale

  /** Days one press of a pan button moves the window. */
  const MoveByDays: int := 30

  /** A date moved by a number of calendar days, each taken as 24 hours. */
  function ShiftDays(d: Millis, days: int): Millis
  {
    d + days * MsPerDay
  }

  /** `moveTimeWindow(direction)`: both endpoints moved by `direction * 30` days. */
  function Pan(w: Window, direction: int): Window
  {
    Window(ShiftDays(w.start, direction * MoveByDays), ShiftDays(w.end, direction * MoveByDays))
  }

  /** Pan moves each endpoint by exactly `direction * 30` days, so the width of the
      window and whether it is ordered do not change. */
  lemma PanShiftsBothEnds(w: Window, direction: int)
    ensures Pan(w, direction).start == w.start + direction * 30 * 86_400_000
    ensures Pan(w, direction).end == w.end + direction * 30 * 86_400_000
    ensures Pan(w, direction).Span() == w.Span()
    ensures Pan(w, direction).Ordered() <==> w.Ordered()
  {
  }

  /** Pressing "Move Right" and then "Move Left" (or the other way round) restores the window. */
  lemma PanUndo(w: Window, direction: int)
    ensures Pan(Pan(w, direction), -direction) == w
  {
  }

  /** Two pans add up. */
  lemma PanCompose(w: Window, a: int, b: int)
    ensures Pan(Pan(w, a), b) == Pan(w, a + b)
  {
  }

  /** Panning scrolls the chart's content: a time moved along with the window is drawn
      where it was drawn before. */
  lemma PanKeepsPixels(w: Window, direction: int, t: real)
    ensures Project(Pan(w, direction), t + (direction * MoveByDays * MsPerDay) as real) == Project(w, t)
  {
  }

  /** The zoom factor: one less a thousandth of the wheel's `deltaY`, in exact arithmetic. */
  function ZoomFactor(deltaY: real): (f: real)
    ensures f > 0.0 <==> deltaY < 1000.0
    ensures f == 1.0 <==> deltaY == 0.0
    ensures f < 1.0 <==> deltaY > 0.0
  {
    1.0 - deltaY * 0.001
  }

  /** The exact image of an endpoint `d` when the window is scaled by `f` about `pivot`. */
  function Stretch(pivot: real, d: real, f: real): real
  {
    pivot + (d - pivot) * f
  }

  /** The pivot is a fixed point of the endpoint map. */
  lemma StretchFixesPivot(pivot: real, f: real)
    ensures Stretch(pivot, pivot, f) == pivot
  {
  }

  /** Distances between stretched points are the old distances times `f`. */
  lemma StretchSpan(pivot: real, a: real, b: real, f: real)
    ensures Stretch(pivot, b, f) - Stretch(pivot, a, f) == (b - a) * f
  {
    assert (b - pivot) * f - (a - pivot) * f == (b - a) * f;
  }

  /** Stretching keeps two points in order exactly when the factor is positive. */
  lemma StretchOrder(pivot: real, a: real, b: real, f: real)
    requires a < b
    ensures Stretch(pivot, a, f) < Stretch(pivot, b, f) <==> f > 0.0
  {
    StretchSpan(pivot, a, b, f);
    assert (b - a) * f > 0.0 <==> f > 0.0;
  }

  /** In exact arithmetic the pivot sits at the same position in the stretched window
      as in the old one, so it stays under the same pixel. */
  lemma StretchKeepsPosition(pivot: real, s: real, e: real, f: real)
    requires s != e && f != 0.0
    ensures Stretch(pivot, s, f) != Stretch(pivot, e, f)
    ensures Position(Stretch(pivot, s, f), Stretch(pivot, e, f), pivot) == Position(s, e, pivot)
  {
    StretchSpan(pivot, s, e, f);
    var s' := Stretch(pivot, s, f);
    var e' := Stretch(pivot, e, f);
    assert e' - s' == (e - s) * f;
    assert pivot - s' == (pivot - s) * f;
    assert (pivot - s) * f / ((e - s) * f) == (pivot - s) / (e - s);
  }

  /** The stretched endpoint as a new `Date`, so truncated to whole milliseconds. */
  function Rescale(pivot: Millis, d: Millis, f: real): Millis
  {
    FromNumber(Stretch(pivot as real, d as real, f))
  }

  /** The date the zoom is centred on: the scale's inverse at the pointer's `clientX` less
      the left margin, the pixel the wheel handler computes. */
  function ZoomPivot(w: Window, clientX: real): Millis
  {
    Invert(w, clientX - MarginLeft)
  }

  /** `onWheel`: the window scaled by the zoom factor about the pivot date. */
  function Zoom(w: Window, deltaY: real, clientX: real): Window
  {
    var f := ZoomFactor(deltaY);
    var pivot := ZoomPivot(w, clientX);
    Window(Rescale(pivot, w.start, f), Rescale(pivot, w.end, f))
  }

  /** A wheel event with no vertical movement leaves the window unchanged. */
  lemma ZoomWithoutDelta(w: Window, clientX: real)
    ensures Zoom(w, 0.0, clientX) == w
  {
    var pivot := ZoomPivot(w, clientX);
    FromNumberWhole(w.start);
    FromNumberWhole(w.end);
    assert Stretch(pivot as real, w.start as real, 1.0) == w.start as real;
    assert Stretch(pivot as real, w.end as real, 1.0) == w.end as real;
  }

  /** The pivot date is a fixed point of the rounded endpoint map too. */
  lemma RescaleFixesPivot(pivot: Millis, f: real)
    ensures Rescale(pivot, pivot, f) == pivot
  {
    FromNumberWhole(pivot);
  }

  /** A zoom factor of zero collapses the window onto the pivot. */
  lemma ZoomCollapses(w: Window, clientX: real)
    ensures Zoom(w, 1000.0, clientX) == Window(ZoomPivot(w, clientX), ZoomPivot(w, clientX))
  {
    var pivot := ZoomPivot(w, clientX);
    assert ZoomFactor(1000.0) == 0.0;
    RescaleFixesPivot(pivot, 0.0);
    assert Stretch(pivot as real, w.start as real, 0.0) == pivot as real;
    assert Stretch(pivot as real, w.end as real, 0.0) == pivot as real;
  }

  /** Two rounded endpoints are the exact distance times `f` apart, up to the two truncations. */
  lemma RescaleSpan(pivot: Millis, a: Millis, b: Millis, f: real)
    ensures -2.0 < (Rescale(pivot, b, f) - Rescale(pivot, a, f)) as real - (b - a) as real * f < 2.0
  {
    FromNumberError(Stretch(pivot as real, a as real, f));
    FromNumberError(Stretch(pivot as real, b as real, f));
    StretchSpan(pivot as real, a as real, b as real, f);
  }

  /** For a positive factor rounded endpoints keep their order, strictly once the scaled
      distance is two milliseconds or more. */
  lemma RescaleKeepsOrder(pivot: Millis, a: Millis, b: Millis, f: real)
    requires a < b && f > 0.0
    ensures Rescale(pivot, a, f) <= Rescale(pivot, b, f)
    ensures (b - a) as real * f >= 2.0 ==> Rescale(pivot, a, f) < Rescale(pivot, b, f)
  {
    var gap := (b - a) as real * f;
    StretchSpan(pivot as real, a as real, b as real, f);
    MulPos((b - a) as real, f);
    FromNumberOrder(Stretch(pivot as real, a as real, f), Stretch(pivot as real, b as real, f), gap);
  }

  /** For a factor that is zero or negative rounded endpoints swap or meet. */
  lemma RescaleReverses(pivot: Millis, a: Millis, b: Millis, f: real)
    requires a < b && f <= 0.0
    ensures Rescale(pivot, b, f) <= Rescale(pivot, a, f)
  {
    var gap := (b - a) as real * f;
    StretchSpan(pivot as real, a as real, b as real, f);
    MulNonNeg((b - a) as real, -f);
    assert (b - a) as real * -f == -gap;
    FromNumberOrder(Stretch(pivot as real, a as real, f), Stretch(pivot as real, b as real, f), gap);
  }

  /** The new width is the old width times the zoom factor, up to the two truncations to
      whole milliseconds. */
  lemma ZoomSpan(w: Window, deltaY: real, clientX: real)
    ensures -2.0 < Zoom(w, deltaY, clientX).Span() as real - w.Span() as real * ZoomFactor(deltaY) < 2.0
  {
    RescaleSpan(ZoomPivot(w, clientX), w.start, w.end, ZoomFactor(deltaY));
  }

  /** On an ordered window: zoom never leaves it ordered once `deltaY >= 1000` (the factor is
      then zero or negative and nothing clamps it); below that it never reverses the window,
      and it keeps it strictly ordered when the scaled width is at least two milliseconds. */
  lemma ZoomOrder(w: Window, deltaY: real, clientX: real)
    requires w.Ordered()
    ensures Zoom(w, deltaY, clientX).Ordered() ==> deltaY < 1000.0
    ensures deltaY < 1000.0 ==> Zoom(w, deltaY, clientX).start <= Zoom(w, deltaY, clientX).end
    ensures deltaY >= 1000.0 ==> Zoom(w, deltaY, clientX).start >= Zoom(w, deltaY, clientX).end
    ensures deltaY < 1000.0 && w.Span() as real * ZoomFactor(deltaY) >= 2.0 ==>
      Zoom(w, deltaY, clientX).Ordered()
  {
    var f := ZoomFactor(deltaY);
    if f > 0.0 {
      RescaleKeepsOrder(ZoomPivot(w, clientX), w.start, w.end, f);
    } else {
      RescaleReverses(ZoomPivot(w, clientX), w.start, w.end, f);
    }
  }

  /** A pointer over the axis gives a pivot inside the window. */
  lemma ZoomPivotInside(w: Window, clientX: real)
    requires w.Ordered()
    requires RangeLo <= clientX - MarginLeft <= RangeHi
    ensures w.start <= ZoomPivot(w, clientX) <= w.end
  {
    var e := InvertExact(w, clientX - MarginLeft);
    InvertExactInside(w, clientX - MarginLeft);
    FromNumberMonotone(w.start as real, e);
    FromNumberMonotone(e, w.end as real);
    FromNumberWhole(w.start);
    FromNumberWhole(w.end);
  }

  /** For a factor in [0, 1] the stretched point lies between the point and the pivot. */
  lemma StretchTowardPivot(pivot: real, d: real, f: real)
    requires 0.0 <= f <= 1.0
    ensures d <= pivot ==> d <= Stretch(pivot, d, f) <= pivot
    ensures pivot <= d ==> pivot <= Stretch(pivot, d, f) <= d
  {
    assert Stretch(pivot, d, f) - d == (pivot - d) * (1.0 - f);
    assert pivot - Stretch(pivot, d, f) == (pivot - d) * f;
    if d <= pivot {
      MulNonNeg(pivot - d, 1.0 - f);
      MulNonNeg(pivot - d, f);
    } else {
      MulNonNeg(d - pivot, 1.0 - f);
      MulNonNeg(d - pivot, f);
    }
  }

  /** For a factor of at least 1 the stretched point lies beyond the point, away from the pivot. */
  lemma StretchAwayFromPivot(pivot: real, d: real, f: real)
    requires f >= 1.0
    ensures d <= pivot ==> Stretch(pivot, d, f) <= d
    ensures pivot <= d ==> d <= Stretch(pivot, d, f)
  {
    assert Stretch(pivot, d, f) - d == (d - pivot) * (f - 1.0);
    if d <= pivot {
      MulNonNeg(pivot - d, f - 1.0);
    } else {
      MulNonNeg(d - pivot, f - 1.0);
    }
  }

  /** Scrolling down (`0 <= deltaY < 1000`) about a pivot inside the window zooms in: the new
      window lies inside the old one. */
  lemma ZoomInNests(w: Window, deltaY: real, clientX: real)
    requires w.start <= ZoomPivot(w, clientX) <= w.end
    requires 0.0 <= deltaY < 1000.0
    ensures w.start <= Zoom(w, deltaY, clientX).start <= Zoom(w, deltaY, clientX).end <= w.end
  {
    var f := ZoomFactor(deltaY);
    var p := ZoomPivot(w, clientX);
    StretchTowardPivot(p as real, w.start as real, f);
    StretchTowardPivot(p as real, w.end as real, f);
    FromNumberMonotone(w.start as real, Stretch(p as real, w.start as real, f));
    FromNumberMonotone(Stretch(p as real, w.start as real, f), Stretch(p as real, w.end as real, f));
    FromNumberMonotone(Stretch(p as real, w.end as real, f), w.end as real);
    FromNumberWhole(w.start);
    FromNumberWhole(w.end);
  }

  /** Scrolling up (`deltaY <= 0`) about a pivot inside the window zooms out: the new window
      contains the old one. */
  lemma ZoomOutContains(w: Window, deltaY: real, clientX: real)
    requires w.start <= ZoomPivot(w, clientX) <= w.end
    requires deltaY <= 0.0
    ensures Zoom(w, deltaY, clientX).start <= w.start && w.end <= Zoom(w, deltaY, clientX).end
  {
    var f := ZoomFactor(deltaY);
    var p := ZoomPivot(w, clientX);
    StretchAwayFromPivot(p as real, w.start as real, f);
    StretchAwayFromPivot(p as real, w.end as real, f);
    FromNumberMonotone(Stretch(p as real, w.start as real, f), w.start as real);
    FromNumberMonotone(w.end as real, Stretch(p as real, w.end as real, f));
    FromNumberWhole(w.start);
    FromNumberWhole(w.end);
  }
}
