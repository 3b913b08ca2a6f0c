/**
 * The loaded events and the markers drawn for them: one circle per event,
 * placed on the time axis by the scale and styled by the event's category.
 */
module Markers {
  import opened Dates
  import opened Scale

  /** One loaded event: its date, the unused `y: 0`, its category code and its title. */
  datatype Event = Event(x: Millis, y: int, category: string, title: string)

  /** One record of the events file, with the columns the chart reads. */
  datatype Row = Row(date: string, category: string, title: string)

  /** The conversion of the file's records into events: one event per row, in the same
      order, with `y = 0`. Parsing the date text is the parameter `parseDate`. */
  function ToEvents(rows: seq<Row>, parseDate: string -> Millis): (events: seq<Event>)
    ensures |events| == |rows|
    ensures forall i :: 0 <= i < |rows| ==>
      events[i] == Event(parseDate(rows[i].date), 0, rows[i].category, rows[i].title)
  {
    if rows == [] then []
    else [Event(parseDate(rows[0].date), 0, rows[0].category, rows[0].title)] + ToEvents(rows[1..], parseDate)
  }

  /** Converting a file in two parts gives the two parts' events one after the other. */
  lemma {:induction false} ToEventsAppend(a: seq<Row>, b: seq<Row>, parseDate: string -> Millis)
    ensures ToEvents(a + b, parseDate) == ToEvents(a, parseDate) + ToEvents(b, parseDate)
  {
    if a != [] {
      assert (a + b)[1..] == a[1..] + b;
      ToEventsAppend(a[1..], b, parseDate);
    }
  }

  /** `pointColor`: markers of category "A" are blue, all others red. */
  function PointColor(category: string): (color: string)
    ensures color == "blue" <==> category == "A"
    ensures color == "blue" || color == "red"
  {
    if category == "A" then "blue" else "red"
  }

  /** `pointOffset`: markers of category "A" sit 3 units below the axis line (SVG's y grows
      downward), all others 3 units above it. */
  function PointOffset(category: string): (dy: real)
    ensures dy == 3.0 <==> category == "A"
    ensures dy == 3.0 || dy == -3.0
  {
    if category == "A" then 3.0 else -3.0
  }

  /** A marker's colour and its side of the axis always agree. */
  lemma ColorMatchesOffset(category: string)
    ensures PointColor(category) == "blue" <==> PointOffset(category) > 0.0
    ensures PointColor(category) == "red" <==> PointOffset(category) < 0.0
  {
  }

  /** Radius of every marker. */
  const MarkerRadius: real := 6.0

  /** The attributes of one drawn circle; `tip` is its `data-tip` attribute. */
  datatype Marker = Marker(cx: real, cy: real, r: real, fill: string, tip: string)

  /** The circle drawn for event `e` under window `w`. */
  function MarkerOf(w: Window, e: Event): Marker
  {
    Marker(Project(w, e.x as real), Height / 2.0 + PointOffset(e.category), MarkerRadius,
           PointColor(e.category), e.title)
  }

  /** A marker lies on the axis at its event's date, at height 50 + 3 for category "A" and
      50 - 3 otherwise, and carries its event's title as its tooltip text. */
  lemma MarkerPlacement(w: Window, e: Event)
    ensures MarkerOf(w, e).cy == (if e.category == "A" then 53.0 else 47.0)
    ensures MarkerOf(w, e).fill == (if e.category == "A" then "blue" else "red")
    ensures MarkerOf(w, e).tip == e.title
    ensures w.Ordered() && w.start < e.x < w.end ==> RangeLo < MarkerOf(w, e).cx < RangeHi
    ensures w.Ordered() && e.x < w.start ==> MarkerOf(w, e).cx < RangeLo
    ensures w.Ordered() && w.end < e.x ==> RangeHi < MarkerOf(w, e).cx
  {
    if w.Ordered() {
      ProjectEndpoints(w);
      if w.start < e.x < w.end {
        ProjectInside(w, e.x as real);
      } else if e.x < w.start {
        ProjectIncreasing(w, e.x as real, w.start as real);
      } else if w.end < e.x {
        ProjectIncreasing(w, w.end as real, e.x as real);
      }
    }
  }

  /** The markers the chart draws for all events, in order. */
  function MarkersOf(w: Window, events: seq<Event>): (ms: seq<Marker>)
    ensures |ms| == |events|
    ensures forall i :: 0 <= i < |events| ==> ms[i] == MarkerOf(w, events[i])
  {
    if events == [] then [] else [MarkerOf(w, events[0])] + MarkersOf(w, events[1..])
  }
}
