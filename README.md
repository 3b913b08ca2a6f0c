# Zoomable timeline: the time-window controller

This project models the timeline chart of the DaRe Project website
(`src/App.js`). The chart draws dated events as coloured circles on a
horizontal time axis. Two buttons pan the visible date window by 30 days.
The mouse wheel zooms the window about the date under the pointer. Hovering
a circle opens a tooltip with the event's title.

What is modelled:

- **Dates** (`dates.dfy`, module `Dates`). A JavaScript `Date` is held as its
  time value, whole milliseconds since the epoch (`Millis = int`).
  `new Date(v)` for a computed number `v` truncates toward zero
  (`FromNumber`).
- **The linear time scale** (`scale.dfy`, module `Scale`). The date window
  `xDomain` is `Window(start, end)`. `Project` maps it onto the pixel range
  `[margin.left, width - margin.right] = [20, 780]`. `Invert` is
  `xScale.invert`: the exact inverse, truncated to a `Date`. The scale is
  written out in exact `real` arithmetic.
- **Pan and zoom** (`navigation.dfy`, module `Navigation`).
  - `Pan` is `moveTimeWindow`. It moves both endpoints by `direction * 30`
    days of 24 hours.
  - `Zoom` is `onWheel`. The zoom factor is `f = 1 - deltaY/1000`. The pivot
    is `Invert(window, clientX - 20)`, the pixel the handler passes. Each
    endpoint `d` becomes `new Date(pivot + (d - pivot) * f)`.
  - `Stretch` is the same endpoint map before truncation. The exact facts
    are proved about `Stretch`; their rounded forms are proved about `Zoom`.
- **Events and markers** (`markers.dfy`, module `Markers`).
  - `ToEvents` maps the file's rows to events.
  - `PointColor` and `PointOffset` style a marker by its category.
  - `MarkerOf` gives the attributes of the circle drawn for one event.
- **Tooltip** (`tooltip.dfy`, module `Tooltips`). The tooltip state is
  closed, or open with its text and screen position. `Rendered` is the box
  the chart draws from that state.
- **The component** (`timeline.dfy`, module `Timeline`). Class `Chart` has
  three fields: `domain`, `events` and `tooltip`. Its methods are the
  component's event handlers. Each method replaces one field, and its
  `ensures` ties the new value to the pure functions above.

Notes on the code as written in `src/App.js`:

- Nothing requires `start < end`. Zoom with `deltaY >= 1000` makes the
  window zero-width or reversed, and the scale still maps it.
- Every event gets a circle, including events outside the window. Those
  circles get pixels outside `[20, 780]` (`MarkerPlacement`).
- The zoom pivot is the date at scale pixel `clientX - 20`. It is not
  necessarily the date under the pointer.

## Model

| member | source | states |
|---|---|---|
| `Dates.FromNumber` | src/App.js:56 | `new Date(v)` for a computed time value: the result is `v` truncated toward zero, within one millisecond below (`v >= 0`) or above (`v < 0`) |
| `Scale.Project` | src/App.js:33-36 | definition of `xScale`: the linear map of the window onto `[20, 780]`, the middle pixel for a zero-width window; no contract; its properties are `ProjectLinear`, `ProjectEndpoints`, `ProjectIncreasing`, `ProjectInside`, `Degenerate` and the round trips below |
| `Scale.InvertExact` | src/App.js:53 | definition of the scale's exact inverse before truncation; no contract; its properties are `ProjectInvertExact`, `InvertProject` and `InvertExactInside` |
| `Scale.ProjectLinear` | src/App.js:33-36 | the scale is linear: pixel differences equal time differences times the window's pixels-per-millisecond |
| `Scale.ProjectEndpoints` | src/App.js:33-36 | a window of non-zero width maps its start to pixel 20 and its end to pixel 780 |
| `Scale.ProjectIncreasing` | src/App.js:33-36 | on an ordered window the scale is strictly increasing |
| `Scale.ProjectInside` | src/App.js:33-36 | a time strictly inside an ordered window is drawn strictly between pixels 20 and 780 |
| `Scale.Degenerate` | src/App.js:33-36 | a zero-width window draws every time at pixel 400, and its inverse is its one date |
| `Scale.Invert` | src/App.js:53 | `xScale.invert` returns a `Date` less than 1 ms from the exact inverse |
| `Scale.ProjectInvertExact` | src/App.js:53 | projecting the exact inverse of any pixel gives that pixel back |
| `Scale.InvertProject` | src/App.js:53 | inverting the pixel of a date gives that date back exactly, both before and after truncation |
| `Scale.ProjectInvert` | src/App.js:53 | projecting the truncated inverse of a pixel lands within one millisecond's width of that pixel |
| `Scale.InvertExactInside` | src/App.js:53 | the exact inverse of a pixel in `[20, 780]` lies inside an ordered window |
| `Navigation.ShiftDays` | src/App.js:41-42 | definition of moving one date by a number of 24-hour days; no contract; its properties are stated through `Pan` in `PanShiftsBothEnds` |
| `Navigation.Pan` | src/App.js:38-46 | definition of `moveTimeWindow`'s new window: both ends shifted by `direction * 30` days; no contract; the lemmas are `PanShiftsBothEnds`, `PanUndo`, `PanCompose` and `PanKeepsPixels` |
| `Navigation.PanShiftsBothEnds` | src/App.js:38-45 | pan moves both endpoints by exactly `direction * 30 * 86400000` ms, so it keeps the width and keeps `start < end` exactly when that held before |
| `Navigation.PanUndo` | src/App.js:38-45 | `moveTimeWindow(d)` followed by `moveTimeWindow(-d)` restores the window |
| `Navigation.PanCompose` | src/App.js:38-45 | two pans equal one pan by the sum of their directions |
| `Navigation.PanKeepsPixels` | src/App.js:38-45 | after a pan, a time shifted by the same amount is drawn at the pixel where the old time was |
| `Navigation.ZoomFactor` | src/App.js:51 | the zoom factor is positive exactly when `deltaY < 1000`, is 1 exactly when `deltaY = 0`, and is below 1 exactly when `deltaY > 0` |
| `Navigation.Stretch` | src/App.js:56 | definition of the endpoint map `pivot + (d - pivot) * f` before truncation; no contract; the lemmas are `StretchFixesPivot`, `StretchSpan`, `StretchOrder` and `StretchKeepsPosition` |
| `Navigation.StretchFixesPivot` | src/App.js:55-57 | the pivot is a fixed point of `d ↦ pivot + (d - pivot) * f` |
| `Navigation.StretchSpan` | src/App.js:55-57 | before truncation, the new width is exactly the old width times `f` |
| `Navigation.StretchOrder` | src/App.js:55-57 | before truncation, `start < end` survives the zoom exactly when `f > 0` |
| `Navigation.StretchKeepsPosition` | src/App.js:53-57 | before truncation, for `f != 0` the pivot sits at the same relative position in the new window as in the old one, so it stays at the same pixel |
| `Navigation.Rescale` | src/App.js:56 | definition of the endpoint map as a new `Date`, that is `Stretch` truncated; no contract; the lemmas are `RescaleFixesPivot`, `RescaleSpan`, `RescaleKeepsOrder` and `RescaleReverses` |
| `Navigation.ZoomPivot` | src/App.js:53 | definition of the pivot as the scale's inverse at `clientX - 20`; no contract; its property is `ZoomPivotInside`, and `Scale.Invert` bounds it |
| `Navigation.Zoom` | src/App.js:48-61 | definition of `onWheel`'s new window: both ends rescaled about the pivot by the zoom factor; no contract; the lemmas are `ZoomWithoutDelta`, `ZoomCollapses`, `ZoomSpan`, `ZoomOrder`, `ZoomInNests` and `ZoomOutContains` |
| `Navigation.RescaleFixesPivot` | src/App.js:56 | the pivot date is also a fixed point of the truncated endpoint map |
| `Navigation.RescaleSpan` | src/App.js:56 | two truncated endpoints are their old distance times `f` apart, to within 2 ms |
| `Navigation.RescaleKeepsOrder` | src/App.js:56 | for `f > 0` truncated endpoints are never reversed, and they stay strictly ordered when the scaled distance is at least 2 ms |
| `Navigation.RescaleReverses` | src/App.js:56 | for `f <= 0` truncated endpoints swap or meet |
| `Navigation.ZoomWithoutDelta` | src/App.js:48-61 | a wheel event with `deltaY = 0` leaves the window unchanged, wherever the pointer is |
| `Navigation.ZoomCollapses` | src/App.js:51-58 | `deltaY = 1000` collapses the window onto the pivot date |
| `Navigation.ZoomSpan` | src/App.js:55-58 | the zoomed window's width is the old width times the zoom factor, to within 2 ms |
| `Navigation.ZoomOrder` | src/App.js:51-58 | on an ordered window: if zoom keeps `start < end` then `deltaY < 1000`; below 1000 the window never reverses and stays ordered when the scaled width is at least 2 ms; from 1000 up it is reversed or collapsed, since nothing clamps the factor |
| `Navigation.ZoomPivotInside` | src/App.js:53 | a pointer with `clientX - 20` in `[20, 780]` gives a pivot inside an ordered window |
| `Navigation.ZoomInNests` | src/App.js:48-61 | for `0 <= deltaY < 1000` about a pivot inside the window, the new window lies inside the old one |
| `Navigation.ZoomOutContains` | src/App.js:48-61 | for `deltaY <= 0` about a pivot inside the window, the new window contains the old one |
| `Markers.ToEvents` | src/App.js:22-27 | one event per row, in row order, with the row's parsed date, category and title and `y = 0` |
| `Markers.ToEventsAppend` | src/App.js:22-27 | mapping rows keeps their order: the events of two concatenated row lists are the two lists' events concatenated |
| `Markers.PointColor` | src/App.js:63-65 | the colour is `'blue'` exactly for category `'A'`, and `'red'` otherwise |
| `Markers.PointOffset` | src/App.js:67-69 | the offset is `3.0` exactly for category `'A'`, and `-3.0` otherwise |
| `Markers.ColorMatchesOffset` | src/App.js:63-69 | blue markers are exactly those with a positive offset, red ones those with a negative offset |
| `Markers.MarkerOf` | src/App.js:92-106 | definition of the circle drawn for one event; no contract; its properties are `MarkerPlacement` |
| `Markers.MarkerPlacement` | src/App.js:92-106 | a marker's `cy` is 53 for `'A'` and 47 otherwise; its fill follows the category; its `data-tip` is the event's title; on an ordered window it is drawn strictly inside `(20, 780)` when its date is strictly inside the window, left of 20 when its date is before the window and right of 780 when it is after |
| `Markers.MarkersOf` | src/App.js:90-109 | one marker per event, in event order |
| `Tooltips.Rendered` | src/App.js:112-116 | a tooltip box is drawn exactly while the tooltip is open, with the open tooltip's text and position |
| `Timeline.InitialWindowOrdered` | src/App.js:15 | the initial window 2018-01-01 to 2024-01-01 is ordered and 2191 days wide |
| `Timeline.SampleEventsInside` | src/App.js:92-96 | events dated 2019-05-01 (`'A'`) and 2021-06-01 (`'B'`) are drawn strictly between the margins of the initial window, blue at height 53 and red at height 47 |
| `Timeline.Chart.constructor` | src/App.js:15-16 | the chart starts with the initial window, no events and the tooltip closed |
| `Timeline.Chart.MoveTimeWindow` | src/App.js:38-46 | the new window is `Pan(old window, direction)`; width and ordering are kept |
| `Timeline.Chart.OnMoveLeft` | src/App.js:73 | the "Move Left" button pans by -1 |
| `Timeline.Chart.OnMoveRight` | src/App.js:74 | the "Move Right" button pans by +1 |
| `Timeline.Chart.OnWheel` | src/App.js:48-61 | the new window is `Zoom(old window, deltaY, clientX)`: unchanged for `deltaY = 0`, width scaled by the factor to within 2 ms, and an ordered window is no longer ordered once `deltaY >= 1000` |
| `Timeline.Chart.LoadEvents` | src/App.js:21-28 | the event list becomes `ToEvents(rows)`: same length, each event with its row's title and `y = 0` |
| `Timeline.Chart.Drawn` | src/App.js:90-109 | one marker per loaded event, each carrying its event's title as tooltip text |
| `Timeline.Chart.OnMarkerMouseMove` | src/App.js:97-104 | mouse-move on a marker opens the tooltip with the marker's `data-tip` text at `(clientX, clientY)`, and that box is what is drawn |
| `Timeline.Chart.OnMarkerMouseOut` | src/App.js:105 | mouse-out closes the tooltip and no box is drawn |
| `Timeline.Chart.Shown` | src/App.js:112-116 | the chart draws a tooltip box exactly while the tooltip is open, holding the open tooltip's text at its left and top position |
| `Timeline.Chart.HoverEvent` | src/App.js:90-106 | hovering the marker of the i-th loaded event shows that event's title at the pointer position |

## Left out

- Loading the events file: the asynchronous `csv` fetch from `process.env.PUBLIC_URL` is I/O through a foreign library. `Timeline.Chart.LoadEvents` takes the rows it would deliver.
- Parsing the date text with `new Date(d.date)` depends on locale and time zone. `ToEvents` takes the parser as the parameter `parseDate`. Invalid dates (`NaN`) are not modelled.
- `Date` values outside ±8.64e15 ms, which JavaScript turns into an invalid date, are not modelled. The model's `Millis` is unbounded.
- Pan uses 24-hour days. The daylight-saving effects of `setDate` in local time are not modelled.
- Floating point: `zoomFactor`, the scale and its inverse are exact `real` arithmetic. The factor `0.001` is taken as exactly 1/1000.
- The scale library is not part of this model. `Project` is the linear map written out. Its zero-width case maps to the middle of the range, which is what continuous scales do for a degenerate domain.
- Axis ticks and labels (d3-array `ticks`, `toLocaleDateString`) are a foreign library call and locale-dependent formatting. Their tick count is the difference of the endpoints' calendar years, so it is 0 for a window inside one year.
- The SVG/JSX drawing, the `Group`, `Circle` and `TooltipWithBounds` components, the internals of the `withTooltip` wrapper and `event.preventDefault()` are rendering only. The pointer position `clientX` is taken as given. How it relates to the SVG's offset on the page is not modelled.
- `src/pages/About.js` and `src/components/Navbar/index.js` are static markup and route links with no logic.
- Navigation.ZoomSpan: the zoomed width is the old width times the factor only to within 2 ms, because `new Date` truncates each new endpoint to a whole millisecond. The exact statement is `Navigation.StretchSpan`.
- Navigation.ZoomOrder: "`start < end` exactly when `deltaY < 1000`" holds only before truncation (`Navigation.StretchOrder`). Afterwards a factor that is positive but tiny can collapse the window to one millisecond.
- Navigation.StretchKeepsPosition: the pivot staying at its pixel is proved in exact arithmetic only. With truncated dates it holds only approximately, and no bound is proved for that.
