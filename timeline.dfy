/**
 * The timeline chart component: the date window it holds as state, the list of
 * loaded events, the tooltip state, and the event handlers that replace them.
 */
module Timeline {
  import opened Dates
  import opened Scale
  import opened Navigation
  import opened Markers
  import opened Tooltips

  /** The initial window, 2018-01-01 to 2024-01-01; a date-only ISO text is read as
      midnight UTC. */
  const InitialStart: Millis := 1_514_764_800_000
  const InitialEnd: Millis := 1_704_067_200_000
  const InitialWindow: Window := Window(InitialStart, InitialEnd)

  /** The chart starts on an ordered window six years (2191 days) wide. */
  lemma InitialWindowOrdered()
    ensures InitialWindow.Ordered()
    ensures InitialWindow.Span() == 2191 * MsPerDay
  {
  }

  /** The two sample events dated 2019-05-01 (category "A") and 2021-06-01 (category "B")
      are drawn strictly between the margins of the initial window, on either side of the
      axis line. */
  lemma SampleEventsInside()
    ensures var a := MarkerOf(InitialWindow, Event(1_556_668_800_000, 0, "A", "x"));
      RangeLo < a.cx < RangeHi && a.cy == 53.0 && a.fill == "blue"
    ensures var b := MarkerOf(InitialWindow, Event(1_622_505_600_000, 0, "B", "y"));
      RangeLo < b.cx < RangeHi && b.cy == 47.0 && b.fill == "red"
  {
    MarkerPlacement(InitialWindow, Event(1_556_668_800_000, 0, "A", "x"));
    MarkerPlacement(InitialWindow, Event(1_622_505_600_000, 0, "B", "y"));
  }

  class Chart {
    /** `xDomain`: the visible date window. */
    var domain: Window
    /** `events`: the events loaded from the file. */
    var events: seq<Event>
    /** The tooltip state held by the tooltip wrapper around the chart. */
    var tooltip: Tooltip

    /** Mounting the chart: the initial window, no events yet, tooltip closed. */
    constructor ()
      ensures domain == InitialWindow && events == [] && tooltip == Closed
    {
      domain := InitialWindow;
      events := [];
      tooltip := Closed;
    }

    /** `moveTimeWindow(direction)`: pan by `direction * 30` days. The width is kept, and
        so is an ordered window. */
    method MoveTimeWindow(direction: int)
      modifies this`domain
      ensures domain == Pan(old(domain), direction)
      ensures domain.Span() == old(domain).Span()
      ensures domain.Ordered() <==> old(domain).Ordered()
    {
      PanShiftsBothEnds(domain, direction);
      domain := Pan(domain, direction);
    }

    /** The "Move Left" button. */
    method OnMoveLeft()
      modifies this`domain
      ensures domain == Pan(old(domain), -1)
    {
      MoveTimeWindow(-1);
    }

    /** The "Move Right" button. */
    method OnMoveRight()
      modifies this`domain
      ensures domain == Pan(old(domain), 1)
    {
      MoveTimeWindow(1);
    }

    /** `onWheel`: zoom about the date under scale pixel `clientX - margin.left`. A wheel
        event without vertical movement changes nothing; the pivot date stays a fixed
        point of the endpoint map; the new width is the old one times the zoom factor, up
        to truncation. */
    method OnWheel(deltaY: real, clientX: real)
      modifies this`domain
      ensures domain == Zoom(old(domain), deltaY, clientX)
      ensures deltaY == 0.0 ==> domain == old(domain)
      ensures -2.0 < domain.Span() as real - old(domain).Span() as real * ZoomFactor(deltaY) < 2.0
      ensures old(domain).Ordered() && deltaY >= 1000.0 ==> !domain.Ordered()
    {
      ZoomWithoutDelta(domain, clientX);
      ZoomSpan(domain, deltaY, clientX);
      if domain.Ordered() {
        ZoomOrder(domain, deltaY, clientX);
      }
      domain := Zoom(domain, deltaY, clientX);
    }

    /** Storing the events converted from the file's rows once the file has been read. */
    method LoadEvents(rows: seq<Row>, parseDate: string -> Millis)
      modifies this`events
      ensures events == ToEvents(rows, parseDate)
      ensures |events| == |rows|
      ensures forall i :: 0 <= i < |rows| ==> events[i].title == rows[i].title && events[i].y == 0
    {
      events := ToEvents(rows, parseDate);
    }

    /** The markers drawn for the loaded events under the current window. */
    function Drawn(): (ms: seq<Marker>)
      reads this
      ensures |ms| == |events|
      ensures forall i :: 0 <= i < |events| ==> ms[i].tip == events[i].title
    {
      MarkersOf(domain, events)
    }

    /** A marker's `onMouseMove`: open the tooltip with the marker's `data-tip` text at the
        pointer's screen position. */
    method OnMarkerMouseMove(m: Marker, clientX: real, clientY: real)
      modifies this`tooltip
      ensures tooltip == Open(m.tip, clientX, clientY)
      ensures Shown() == Some(Box(clientX, clientY, m.tip))
    {
      tooltip := Open(m.tip, clientX, clientY);
    }

    /** A marker's `onMouseOut`: close the tooltip. */
    method OnMarkerMouseOut()
      modifies this`tooltip
      ensures tooltip == Closed
      ensures Shown() == None
    {
      tooltip := Closed;
    }

    /** The tooltip box currently drawn: one exactly while the tooltip is open, with the
        open tooltip's text at its position. */
    function Shown(): (b: Option<Box>)
      reads this
      ensures b.Some? <==> tooltip.Open?
      ensures b.Some? ==> b.value == Box(tooltip.left, tooltip.top, tooltip.data)
    {
      Rendered(tooltip)
    }

    /** Hovering the marker of the i-th event shows that event's title at the pointer. */
    method HoverEvent(i: nat, clientX: real, clientY: real)
      requires i < |events|
      modifies this`tooltip
      ensures Shown() == Some(Box(clientX, clientY, events[i].title))
    {
      var ms := Drawn();
      OnMarkerMouseMove(ms[i], clientX, clientY);
    }
  }
}
