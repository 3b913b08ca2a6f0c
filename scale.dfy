/**
 * The chart's geometry and its linear time scale: a date window [start, end]
 * mapped onto the pixel range [margin.left, width - margin.right] = [20, 780].
 */
module Scale {
  import opened Dates

  const Width: real := 800.0
  const Height: real := 100.0
  const MarginLeft: real := 20.0
  const MarginRight: real := 20.0

  /** The pixel range of the time axis. */
  const RangeLo: real := MarginLeft
  const RangeHi: real := Width - MarginRight

  /** The visible date window `xDomain`, as the two time values of its endpoints. */
  datatype Window = Window(start: Millis, end: Millis)
  {
    /** The window's span in milliseconds (negative when the window is reversed). */
    function Span(): int { end - start }

    /** The ordering the chart starts with and pan keeps: start strictly before end. */
    predicate Ordered() { start < end }
  }

  /** How far along the span from `s` to `e` the time `t` lies: 0 at `s`, 1 at `e`. */
  function Position(s: real, e: real, t: real): real
    requires s != e
  {
    (t - s) / (e - s)
  }

  /** Where the time value `t` lands on the axis: `xScale(t)`. A zero-width window
      sends every time to the middle of the range, as a continuous scale with a
      degenerate domain does. */
  function Project(w: Window, t: real): (px: real)
  {
    if w.start == w.end then (RangeLo + RangeHi) / 2.0
    else RangeLo + Position(w.start as real, w.end as real, t) * (RangeHi - RangeLo)
  }

  /** The exact time under pixel `px`, before it is turned into a `Date`. */
  function InvertExact(w: Window, px: real): (t: real)
  {
    w.start as real + (px - RangeLo) * (w.end - w.start) as real / (RangeHi - RangeLo)
  }

  /** `xScale.invert(px)`: the date under pixel `px`, a `Date` and so whole milliseconds. */
  function Invert(w: Window, px: real): (d: Millis)
    ensures -1.0 < d as real - InvertExact(w, px) < 1.0
  {
    FromNumberError(InvertExact(w, px));
    FromNumber(InvertExact(w, px))
  }

  /** Pixels per millisecond on a window of non-zero width. */
  function Slope(w: Window): real
    requires w.start != w.end
  {
    (RangeHi - RangeLo) / w.Span() as real
  }

  /** An ordered window has a positive slope. */
  lemma SlopePositive(w: Window)
    requires w.Ordered()
    ensures Slope(w) > 0.0
  {
  }

  /** The scale is linear: pixel differences are time differences times the slope. */
  lemma ProjectLinear(w: Window, a: real, b: real)
    requires w.start != w.end
    ensures Project(w, b) - Project(w, a) == (b - a) * Slope(w)
  {
    var s := w.start as real;
    var span := w.Span() as real;
    assert Position(s, w.end as real, b) - Position(s, w.end as real, a) == (b - a) / span;
    assert (b - a) / span * (RangeHi - RangeLo) == (b - a) * ((RangeHi - RangeLo) / span);
  }

  /** The window's start is drawn at the left end of the axis and its end at the right end. */
  lemma ProjectEndpoints(w: Window)
    requires w.start != w.end
    ensures Project(w, w.start as real) == RangeLo && Project(w, w.end as real) == RangeHi
  {
  }

  /** On an ordered window later times are drawn strictly further right. */
  lemma ProjectIncreasing(w: Window, a: real, b: real)
    requires w.Ordered() && a < b
    ensures Project(w, a) < Project(w, b)
  {
    SlopePositive(w);
    ProjectLinear(w, a, b);
    MulPos(b - a, Slope(w));
  }

  /** A time strictly inside an ordered window is drawn strictly between the margins. */
  lemma ProjectInside(w: Window, t: real)
    requires w.Ordered() && w.start as real < t < w.end as real
    ensures RangeLo < Project(w, t) < RangeHi
  {
    ProjectIncreasing(w, w.start as real, t);
    ProjectIncreasing(w, t, w.end as real);
    ProjectEndpoints(w);
  }

  /** Projecting the exact inverse of a pixel gives that pixel back. */
  lemma ProjectInvertExact(w: Window, px: real)
    requires w.start != w.end
    ensures Project(w, InvertExact(w, px)) == px
  {
    var s := w.Span() as real;
    var r := RangeHi - RangeLo;
    assert InvertExact(w, px) - w.start as real == (px - RangeLo) * s / r;
    assert (px - RangeLo) * s / r / s * r == px - RangeLo;
  }

  /** Inverting the pixel of a time gives that time back, exactly for a `Date`. */
  lemma InvertProject(w: Window, d: Millis)
    requires w.start != w.end
    ensures InvertExact(w, Project(w, d as real)) == d as real
    ensures Invert(w, Project(w, d as real)) == d
  {
    var s := w.Span() as real;
    var r := RangeHi - RangeLo;
    assert Project(w, d as real) - RangeLo == (d - w.start) as real / s * r;
    assert (d - w.start) as real / s * r * s / r == (d - w.start) as real;
    FromNumberWhole(d);
  }

  /** The exact inverse of a pixel on the axis is a time inside the window. */
  lemma InvertExactInside(w: Window, px: real)
    requires w.Ordered() && RangeLo <= px <= RangeHi
    ensures w.start as real <= InvertExact(w, px) <= w.end as real
  {
    var s := w.Span() as real;
    var r := RangeHi - RangeLo;
    MulNonNeg(px - RangeLo, s / r);
    MulNonNeg(RangeHi - px, s / r);
    assert InvertExact(w, px) == w.start as real + (px - RangeLo) * (s / r);
    assert w.end as real - InvertExact(w, px) == (RangeHi - px) * (s / r);
  }

  /** With the truncated `Date` in between, the round trip from a pixel is off by less
      than the width of one millisecond on the axis. */
  lemma ProjectInvert(w: Window, px: real)
    requires w.Ordered()
    ensures px - Slope(w) < Project(w, Invert(w, px) as real) < px + Slope(w)
  {
    var e := InvertExact(w, px);
    var d := Invert(w, px) as real;
    ProjectInvertExact(w, px);
    ProjectLinear(w, e, d);
    SlopePositive(w);
    ScaledBelowOne(d - e, Slope(w));
  }

  /** A factor strictly between -1 and 1 shrinks a positive length. */
  lemma ScaledBelowOne(x: real, k: real)
    requires -1.0 < x < 1.0 && k > 0.0
    ensures -k < x * k < k
  {
    MulPos(1.0 - x, k);
    MulPos(1.0 + x, k);
  }

  /** The product of two non-negative numbers is non-negative. */
  lemma MulNonNeg(x: real, y: real)
    requires x >= 0.0 && y >= 0.0
    ensures x * y >= 0.0
  {
  }

  /** The product of two positive numbers is positive. */
  lemma MulPos(x: real, y: real)
    requires x > 0.0 && y > 0.0
    ensures x * y > 0.0
  {
  }

  /** A zero-width window draws everything in the middle, and its inverse is its only date. */
  lemma Degenerate(w: Window, t: real, px: real)
    requires w.start == w.end
    ensures Project(w, t) == 400.0
    ensures Invert(w, px) == w.start
  {
    FromNumberWhole(w.start);
  }
}
