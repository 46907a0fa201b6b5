# Dashboard chart selection: a Dafny model

This project models the interactive core of a browser analytics dashboard.
Several bar charts share one store. The parts modelled are:

- **Coordinate mapper** (`CoordinateMapper`, `getDateFromMouseX`): maps a mouse x coordinate to the day of one data point.
- **Drag controller** (`TimeSeriesChart.Chart`): press, move and release (or leave) commit a date range to the store.
- **Highlight computation** (`Highlight`): the band a chart shades. During a drag it is the drag preview. Otherwise it is the part of the series inside the committed range, found by a scan that stops early.
- **Hover synchronisation** (`Chart.BarMouseEnter`, `Chart.SelectFirstPoint`, `Chart.SyncSelection`): hovering a bar publishes its day to the store, and every chart selects its own point for that day.
- **Header date-range picker** (`DashboardHeader.Header`): a draft range with save, cancel and reset, the reset-range button and the layout toggle.
- **Store** (`DashboardStore.Store`): one shared record. Each setter replaces one field.
- **Default free layout** (`FreeLayout`): nine 4×3 tiles on a 12-column grid, and the choice between a saved layout and that default.

Modelling choices:

- Data-point labels (`YYYY-MM-DD`) and the store's `Date` values both become day numbers (`Calendar.Day`). The code normalises dates to the start of the day before comparing them, and a label parses to its day. So parsing and normalising are the identity here, and a highlight band and a committed range are the same `{start, end}` pair.
- Every handler and effect is one atomic transition of a class's fields.
- The document-level `mousemove`/`mouseup` listeners that a drag installs run `Chart.MouseMove` and `Chart.MouseUp`. The chart's `mouseleave` is bound to `Chart.MouseUp` (TimeSeriesChart.tsx line 69).
- The bounding rectangle read from the DOM, the clock (`Date.now()`, which fixes the default range) and the parser of saved layouts are parameters.
- The store is modelled as its callers use it:
  - The chart reads and writes `selectedDate`/`setSelectedDate`. The store's declared type does not have them, so the model adds the field.
  - The header clears the range with `setDateRange(null)`. The declared type is non-null, so the model makes `dateRange` optional.
- The coordinate mapper follows the code as written. The code takes both 12 px margins off the width but does not take the left margin off the offset (TimeSeriesChart.tsx lines 205-206). `RightMarginMapsToLast` shows the consequence: the whole rightmost 24 px map to the last point.

## Model

| member | source | states |
|---|---|---|
| `ChartData.FindIndex` | src/components/TimeSeriesChart.tsx:246-247 | -1 exactly when no point carries the day; otherwise an index carrying it, with no earlier one |
| `ChartData.FindLastIndex` | src/components/TimeSeriesChart.tsx:145-151 | -1 exactly when no point carries the day; otherwise an index carrying it, with no later one: the entry a last-write-wins map keeps |
| `ChartData.BuildDataByDate` | src/components/TimeSeriesChart.tsx:145-151 | the `Map.set` loop yields a map whose keys are exactly the series' days, each mapped to the last point with that day |
| `ChartData.DataByDateOfUniqueDays` | src/components/TimeSeriesChart.tsx:145-151 | with unique ascending days, `dataByDate` gives back each point under its own day |
| `ChartData.DataByDateLastWriteWins` | src/components/TimeSeriesChart.tsx:145-151 | the last point carrying a day is the one the map keeps, even when an earlier point shares that day |
| `CoordinateMapper.Round` | src/components/TimeSeriesChart.tsx:209 | `Math.round`: the integer within half a unit, halves rounded up |
| `CoordinateMapper.Clamp` | src/components/TimeSeriesChart.tsx:210 | the result lies in the bounds, equals the input inside them and the nearer bound outside |
| `CoordinateMapper.Position` | src/components/TimeSeriesChart.tsx:205-209 | the fractional index is 0 at the container's left edge, never negative right of it, and exactly the last index at 24 px before the right edge |
| `CoordinateMapper.MouseIndex` | src/components/TimeSeriesChart.tsx:205-210 | the clamped index is always a valid index of the series |
| `CoordinateMapper.DateFromMouseX` | src/components/TimeSeriesChart.tsx:196-213 | null exactly when the container is missing, the data is empty or the coordinate is left of `rect.left` or right of `rect.right`; otherwise the day of the point at the clamped index, which the series carries |
| `CoordinateMapper.MouseIndexMonotone` | src/components/TimeSeriesChart.tsx:205-210 | moving the pointer right never maps to an earlier point |
| `CoordinateMapper.LeftEdgeMapsToFirst` | src/components/TimeSeriesChart.tsx:203-212 | the container's left edge maps to the first point |
| `CoordinateMapper.RightMarginMapsToLast` | src/components/TimeSeriesChart.tsx:205-210 | since the left margin is not subtracted, every coordinate in the rightmost 24 px maps to the last point |
| `Highlight.DragSpan` | src/components/TimeSeriesChart.tsx:246-251 | the drag span exists exactly when both endpoint days are in the series |
| `Highlight.DragSpanOrdered` | src/components/TimeSeriesChart.tsx:246-258 | whichever way the mouse moved, the span's start is found no later in the series than its end, its ends are the two drag days, and swapping the endpoints gives the same span |
| `Highlight.ClickSpansOneDay` | src/components/TimeSeriesChart.tsx:241-258 | a drag that starts and ends on the same day spans that single day |
| `Highlight.DragSpanAscending` | src/components/TimeSeriesChart.tsx:250-258 | on ascending data the span's start day is not after its end day |
| `Highlight.FirstInSpan` | src/components/TimeSeriesChart.tsx:338-339 | the index of the first point inside the bounds, or the length when none is; no earlier point is inside |
| `Highlight.LastInSpan` | src/components/TimeSeriesChart.tsx:338-340 | the index of the last point inside the bounds, or -1; no later point is inside |
| `Highlight.FirstAfter` | src/components/TimeSeriesChart.tsx:343-345 | the index of the first point after the upper bound, or the length; all earlier points are within it |
| `Highlight.ScanStop` | src/components/TimeSeriesChart.tsx:343-345 | where the loop breaks: the first point after the upper bound once a point in the bounds has been seen, or the end of the series |
| `Highlight.ScanBand` | src/components/TimeSeriesChart.tsx:332-352 | null exactly when no point lies within the bounds; otherwise a band from the first point in the bounds to a later-or-equal point in the bounds |
| `Highlight.IdleBand` | src/components/TimeSeriesChart.tsx:313-330 | no band without data or without a committed range |
| `Highlight.IdleBandSymmetric` | src/components/TimeSeriesChart.tsx:329-330 | swapping the committed range's start and end does not change the band |
| `Highlight.ScanHighlight` | src/components/TimeSeriesChart.tsx:332-352 | the loop with `startLabel`/`endLabel` and its early `break` computes exactly the declarative band `ScanBand` |
| `Highlight.LastInSpanStep` | src/components/TimeSeriesChart.tsx:338-340 | looking at one more point moves the last in-bounds index only onto that point, and only if it is in the bounds |
| `Highlight.SortedScanCoversWholeSpan` | src/components/TimeSeriesChart.tsx:335-346 | on ascending data the early `break` changes nothing: the band runs from the first to the last in-bounds point of the whole series |
| `Highlight.SortedIdleBand` | src/components/TimeSeriesChart.tsx:313-352 | on ascending data the idle band is the first and last point inside the range's min/max bounds |
| `Highlight.CommittedBandMatchesPreview` | src/components/TimeSeriesChart.tsx:295-353 | on data with unique ascending days, the idle band after a drag is committed equals the drag preview shown before the release |
| `Highlight.UnsortedScanStopsEarly` | src/components/TimeSeriesChart.tsx:343-345 | on out-of-order data the `break` can cut the band short (days 5, 20, 6 with bounds [1, 10] give [5, 5]) |
| `TimeSeriesChart.Chart.constructor` | src/components/TimeSeriesChart.tsx:133-151 | a new chart is idle, has nothing selected, has no last update and satisfies the chart invariant |
| `TimeSeriesChart.Chart.MouseDown` | src/components/TimeSeriesChart.tsx:215-227 | a non-primary button, or a press that maps to no day, leaves the drag state as it was; otherwise a drag starts with both endpoints on the mapped day |
| `TimeSeriesChart.Chart.MouseMove` | src/components/TimeSeriesChart.tsx:229-236 | when idle, nothing changes; during a drag only the end moves, to the mapped day, and it keeps its last valid value when the move maps to nothing; the document listener (lines 272-279) is the same |
| `TimeSeriesChart.Chart.MouseUp` | src/components/TimeSeriesChart.tsx:238-266 | a drag in progress commits its ordered span to the store, then the chart is idle with both endpoints cleared; when idle, a release (or mouse-leave, line 69) changes nothing |
| `TimeSeriesChart.Chart.BarMouseEnter` | src/components/TimeSeriesChart.tsx:173-188 | during a drag, or for the day this chart last published, nothing changes; otherwise the hovered point becomes selected and its day is written to the store |
| `TimeSeriesChart.Chart.SelectFirstPoint` | src/components/TimeSeriesChart.tsx:153-161 | with data, no store date and no selection, the first point is selected and published; otherwise nothing changes |
| `TimeSeriesChart.Chart.SyncSelection` | src/components/TimeSeriesChart.tsx:163-171 | a new store date that the series carries selects the series' last point with that day; afterwards the date is recorded, so a second run is a no-op |
| `TimeSeriesChart.Chart.HighlightRange` | src/components/TimeSeriesChart.tsx:295-353 | while dragging, the band is the drag preview and always exists; when idle, the band of the series inside the committed range |
| `TimeSeriesChart.ClickCommitsOneDay` | src/components/TimeSeriesChart.tsx:215-265 | press and release at one spot commit the single day under the pointer |
| `TimeSeriesChart.DragCommitsOrderedRange` | src/components/TimeSeriesChart.tsx:215-265 | press, move, release in either direction commit `[min day, max day]` on data with unique ascending days |
| `TimeSeriesChart.DoubleMouseUp` | src/components/TimeSeriesChart.tsx:238-239 | two releases in a row have the effect of one |
| `TimeSeriesChart.CrossHighlight` | src/components/TimeSeriesChart.tsx:163-188 | hovering a bar on one chart and syncing another chart on the same store selects that chart's point with the hovered day |
| `DashboardStore.Store.constructor` | src/stores/dashboardStore.ts:14-22 | initial store: no hovered x, grid layout, no selected date, and a committed range from 30 days before today to today |
| `DashboardStore.Store.SetHoveredX` | src/stores/dashboardStore.ts:23 | sets `hoveredX` and leaves every other field unchanged |
| `DashboardStore.Store.SetDateRange` | src/stores/dashboardStore.ts:24 | sets `dateRange` (possibly to null) and leaves every other field unchanged |
| `DashboardStore.Store.SetLayoutMode` | src/stores/dashboardStore.ts:25 | sets `layoutMode` and leaves every other field unchanged |
| `DashboardStore.Store.SetSelectedDate` | src/components/TimeSeriesChart.tsx:135-136 | sets `selectedDate` and leaves every other field unchanged |
| `DashboardStore.RangeLastWriterWins` | src/stores/dashboardStore.ts:24 | two writes of the range leave the second value and nothing else changed |
| `DashboardHeader.DraftOf` | src/components/DashboardHeader.tsx:18-19 | the draft read from the store (also lines 25-26 and 49-50) copies the range's start and end, and is complete exactly when a range is committed |
| `DashboardHeader.Header.constructor` | src/components/DashboardHeader.tsx:12-20 | the picker starts closed with the draft copied from the committed range |
| `DashboardHeader.Header.SetOpen` | src/components/DashboardHeader.tsx:95 | the popover sets the open flag |
| `DashboardHeader.Header.ResyncDraft` | src/components/DashboardHeader.tsx:22-29 | while the picker is open, the draft becomes the committed range; when closed, the draft is kept |
| `DashboardHeader.Header.DateSelect` | src/components/DashboardHeader.tsx:31-35 | no selection clears both draft ends; otherwise the draft copies `from` and `to` exactly |
| `DashboardHeader.Header.SaveDisabled` | src/components/DashboardHeader.tsx:137 | the Save button is disabled exactly when `handleSave`'s guard (line 38) would refuse |
| `DashboardHeader.Header.Save` | src/components/DashboardHeader.tsx:37-45 | with both ends set, commits `{start: from, end: to}` and closes the picker; otherwise neither the store nor the open flag changes; it commits exactly when the Save button (line 137) is enabled |
| `DashboardHeader.Header.Cancel` | src/components/DashboardHeader.tsx:47-53 | the draft is restored from the committed range and the picker closes; the store is untouched |
| `DashboardHeader.Header.Reset` | src/components/DashboardHeader.tsx:55-59 | both draft ends are cleared; the committed range and the open flag are untouched |
| `DashboardHeader.Header.ResetRange` | src/components/DashboardHeader.tsx:88-90 | the reset button clears the committed range and nothing else in the store |
| `DashboardHeader.Header.ChangeLayout` | src/components/DashboardHeader.tsx:68-70 | an emptied toggle leaves the store unchanged; any other value becomes the layout mode, and nothing else changes |
| `DashboardHeader.SaveThenReopen` | src/components/DashboardHeader.tsx:22-45 | after a save, reopening the picker loads back exactly the draft that was saved |
| `DashboardHeader.EditThenCancel` | src/components/DashboardHeader.tsx:31-53 | edits followed by cancel leave the draft equal to the committed range and the store unchanged |
| `FreeLayout.NatToString` | src/components/layouts/FreeLayout.tsx:25 | `toString` of a number below ten is its single digit |
| `FreeLayout.DefaultItem` | src/components/layouts/FreeLayout.tsx:20-34 | the `Array.from` callback's item k is keyed by k in decimal, lies inside the 12 columns and has its size within its min/max limits |
| `FreeLayout.DefaultLayout` | src/components/layouts/FreeLayout.tsx:15-36 | the default layout has exactly nine items |
| `FreeLayout.DefaultItemPlacement` | src/components/layouts/FreeLayout.tsx:20-34 | item k has key `toString(k)`, x = (k mod 3)·4, y = (k div 3)·3, w = 4, h = 3, respects its min/max size and fits in the 12 columns |
| `FreeLayout.DefaultKeysDistinct` | src/components/layouts/FreeLayout.tsx:20-25 | the nine item keys are pairwise distinct |
| `FreeLayout.DefaultTilesDisjoint` | src/components/layouts/FreeLayout.tsx:14-29 | no two default tiles overlap: they form a 3×3 grid |
| `FreeLayout.InitialLayout` | src/components/layouts/FreeLayout.tsx:39-52 | in a browser with a non-empty saved value that parses, whatever JSON value it parses to, unchecked; otherwise, including when parsing throws, the default layout |
| `FreeLayout.NonLayoutJsonIsKept` | src/components/layouts/FreeLayout.tsx:43-45 | well-formed JSON that is not a layout (`null`, an object, ...) becomes the layout state as it is; only a parse failure falls back to the default |

## Left out

- Rendering: the JSX, the recharts components, cursor and colours, the loading skeleton, and the choice between provided and shared data (TimeSeriesChart.tsx lines 62-116, 355-433). These are presentation only.
- `handleBarMouseLeave` (TimeSeriesChart.tsx lines 190-193) has an empty body and changes nothing.
- `preventDefault`/`stopPropagation` on mouse-down are DOM event effects with no state of their own.
- React scheduling: memoisation, effect timing, and adding and removing listeners. Each handler and effect is one atomic step that the environment calls.
- The chart's `data` prop is fixed for a `Chart` object. A change of data is a new chart.
- Shared data fetching (`useSharedChartData.ts`) and mock data (`mockData.ts`): network I/O, randomness and floating point.
- localStorage writes, `JSON.stringify`, and the window-resize width (FreeLayout.tsx lines 54-78): browser I/O. Parsing is a parameter of `InitialLayout`. A parsed JSON value is either an array of layout items or some other value, kept as its text.
- `Date` construction, time zones, time of day and `date-fns` formatting. Dates and labels are day numbers, so the falsy empty-label cases (`|| null`, `if (!startLabel)`) cannot arise.
- `CoordinateMapper.DateFromMouseX`: requires a container wider than 24 px, and arithmetic is exact. At exactly 24 px the width less the margins is 0, and the division gives NaN or Infinity. Below 24 px it is negative, so the position is at most 0 and every in-bounds pointer maps to the first point. Neither case is modelled.
- `TimeSeriesChart.Chart.BarMouseEnter`: requires the hovered payload to be a point of the chart's own data. Recharts only passes the bar's own data point.
- The `x` coordinate kept with each drag endpoint is recorded but never read.
- Page composition, routing and layout containers (DashboardPage.tsx, router.tsx, App.tsx, GridLayout.tsx, VerticalLayout.tsx, Layout.tsx) only arrange components.
