/**
 * The hover tooltip: the state the tooltip wrapper passes to the chart
 * (`tooltipOpen`, `tooltipData`, `tooltipLeft`, `tooltipTop`) and what the
 * chart draws from it.
 */
module Tooltips {

  datatype Option<T> = None | Some(value: T)

  /** Closed, or open with its text at screen position (left, top). Closing forgets the
      text and the position. */
  datatype Tooltip = Closed | Open(data: string, left: real, top: real)

  /** The tooltip box drawn at (left, top) holding `content`. */
  datatype Box = Box(left: real, top: real, content: string)

  /** The tooltip box the chart draws: one exactly while the tooltip is open, holding the
      open tooltip's text at its position. */
  function Rendered(t: Tooltip): (b: Option<Box>)
    ensures b.Some? <==> t.Open?
    ensures b.Some? ==> b.value.content == t.data && b.value.left == t.left && b.value.top == t.top
  {
    match t
    case Closed => None
    case Open(data, left, top) => Some(Box(left, top, data))
  }
}
