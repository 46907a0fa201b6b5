/**
 * One interactive bar chart: its drag-to-select controller, its hover
 * handler, the two effects that keep its selected point in step with the
 * store, and the band it highlights.  Every handler and effect is one atomic
 * transition of the chart's state (and of the shared store).
 *
 * The document-level `mousemove` / `mouseup` listeners a drag installs run
 * the same transitions as the chart's own `MouseMove` / `MouseUp`, and the
 * chart's `mouseleave` is bound to `MouseUp`.
 */
module TimeSeriesChart {
  import opened Wrappers
  import opened Calendar
  import opened ChartData
  import opened CoordinateMapper
  import opened Highlight
  import opened DashboardStore

  /** A drag endpoint: the mouse coordinate and the day it mapped to. */
  datatype DragPoint = DragPoint(x: real, date: Day)

  /** `MouseEvent.button` of the primary (left) button. */
  const PrimaryButton := 0

  /** A mounted container is wider than the two margins. */
  predicate Usable(container: Option<Rect>)
  {
    container.Some? ==> container.value.width > Margins
  }

  class Chart {
    const data: seq<DataPoint>
    const dataByDate: map<Day, DataPoint>
    const store: Store
    var isDragging: bool
    var dragStart: Option<DragPoint>
    var dragEnd: Option<DragPoint>
    var selectedDataPoint: Option<DataPoint>
    var lastUpdate: Option<Day>

    /**
     * The chart's invariant: `dataByDate` indexes `data` (last write wins),
     * both drag endpoints are present exactly while a drag is in progress and
     * name days of the series, and the selected point is a point of the series.
     */
    ghost predicate Valid()
      reads this
    {
      && IsDataByDate(data, dataByDate)
      && (isDragging <==> dragStart.Some?)
      && (isDragging <==> dragEnd.Some?)
      && (dragStart.Some? ==> Occurs(data, dragStart.value.date))
      && (dragEnd.Some? ==> Occurs(data, dragEnd.value.date))
      && (selectedDataPoint.Some? ==> selectedDataPoint.value in data)
    }

    /** A freshly mounted chart: idle, nothing selected, `dataByDate` built. */
    constructor (data: seq<DataPoint>, store: Store)
      ensures this.data == data && this.store == store
      ensures Valid()
      ensures !isDragging && selectedDataPoint.None? && lastUpdate.None?
    {
      var m := BuildDataByDate(data);
      this.data := data;
      this.dataByDate := m;
      this.store := store;
      isDragging := false;
      dragStart := None;
      dragEnd := None;
      selectedDataPoint := None;
      lastUpdate := None;
    }

    /**
     * `handleMouseDown`: a primary-button press that maps to a day starts a
     * drag anchored on that day; any other press changes nothing.
     */
    method MouseDown(button: int, clientX: real, container: Option<Rect>)
      requires Valid() && Usable(container)
      modifies this`isDragging, this`dragStart, this`dragEnd
      ensures Valid()
      ensures var d := DateFromMouseX(container, data, clientX);
        if button != PrimaryButton || d.None? then
          isDragging == old(isDragging) && dragStart == old(dragStart) && dragEnd == old(dragEnd)
        else
          isDragging && dragStart == Some(DragPoint(clientX, d.value)) && dragEnd == dragStart
    {
      if button != PrimaryButton {
        return;
      }
      var date := DateFromMouseX(container, data, clientX);
      if date.Some? {
        isDragging := true;
        dragStart := Some(DragPoint(clientX, date.value));
        dragEnd := Some(DragPoint(clientX, date.value));
      }
    }

    /**
     * `handleMouseMove` and the document-level move listener: during a drag,
     * a move that maps to a day becomes the new end; otherwise the end keeps
     * its last valid value.  Only the end moves.
     */
    method MouseMove(clientX: real, container: Option<Rect>)
      requires Valid() && Usable(container)
      modifies this`dragEnd
      ensures Valid()
      ensures var d := DateFromMouseX(container, data, clientX);
        dragEnd == if isDragging && d.Some? then Some(DragPoint(clientX, d.value)) else old(dragEnd)
    {
      if !isDragging || dragStart.None? {
        return;
      }
      var date := DateFromMouseX(container, data, clientX);
      if date.Some? {
        dragEnd := Some(DragPoint(clientX, date.value));
      }
    }

    /**
     * `handleMouseUp`, also run on `mouseleave` and by the document-level
     * release listener: a drag in progress commits its span to the store and
     * the chart returns to idle; when idle, nothing happens.
     */
    method MouseUp()
      requires Valid()
      modifies this`isDragging, this`dragStart, this`dragEnd, store`dateRange
      ensures Valid()
      ensures !isDragging && dragStart.None? && dragEnd.None?
      ensures old(isDragging) ==>
        && store.dateRange == DragSpan(data, old(dragStart).value.date, old(dragEnd).value.date)
        && store.dateRange.Some?
      ensures !old(isDragging) ==> store.dateRange == old(store.dateRange) && dragStart == old(dragStart)
    {
      if !isDragging || dragStart.None? || dragEnd.None? {
        return;
      }
      var span := DragSpan(data, dragStart.value.date, dragEnd.value.date);
      if span.Some? {
        store.SetDateRange(span);
      }
      isDragging := false;
      dragStart := None;
      dragEnd := None;
    }

    /**
     * `handleBarMouseEnter`: ignored during a drag; otherwise a bar whose day
     * differs from the last one this chart published becomes the selected
     * point and is written to the store.
     */
    method BarMouseEnter(payload: Option<DataPoint>)
      requires Valid()
      requires payload.Some? ==> payload.value in data
      modifies this`selectedDataPoint, this`lastUpdate, store`selectedDate
      ensures Valid()
      ensures if old(isDragging) || payload.None? || old(lastUpdate) == Some(payload.value.date) then
          && selectedDataPoint == old(selectedDataPoint) && lastUpdate == old(lastUpdate)
          && store.selectedDate == old(store.selectedDate)
        else
          && selectedDataPoint == payload && lastUpdate == Some(payload.value.date)
          && store.selectedDate == Some(payload.value.date)
    {
      if isDragging {
        return;
      }
      if payload.Some? {
        var dataPoint := payload.value;
        if lastUpdate != Some(dataPoint.date) {
          lastUpdate := Some(dataPoint.date);
          selectedDataPoint := Some(dataPoint);
          store.SetSelectedDate(Some(dataPoint.date));
        }
      }
    }

    /**
     * The initial-selection effect: with data, and with no date in the store
     * and no point selected, the first point becomes selected and published.
     */
    method SelectFirstPoint()
      requires Valid()
      modifies this`selectedDataPoint, store`selectedDate
      ensures Valid()
      ensures if |data| > 0 && old(store.selectedDate).None? && old(selectedDataPoint).None? then
          selectedDataPoint == Some(data[0]) && store.selectedDate == Some(data[0].date)
        else
          selectedDataPoint == old(selectedDataPoint) && store.selectedDate == old(store.selectedDate)
    {
      if |data| > 0 && store.selectedDate.None? && selectedDataPoint.None? {
        var firstDataPoint := data[0];
        selectedDataPoint := Some(firstDataPoint);
        store.SetSelectedDate(Some(firstDataPoint.date));
      }
    }

    /**
     * The sync effect: a store date that differs from the last one this chart
     * took in, and that the series carries, selects the series' last point
     * with that day.  Afterwards the chart has taken in any such date, so a
     * second run changes nothing.
     */
    method SyncSelection()
      requires Valid()
      modifies this`selectedDataPoint, this`lastUpdate
      ensures Valid()
      ensures var sd := store.selectedDate;
        if sd.None? || old(lastUpdate) == sd || !Occurs(data, sd.value) then
          selectedDataPoint == old(selectedDataPoint) && lastUpdate == old(lastUpdate)
        else
          && lastUpdate == sd
          && selectedDataPoint == Some(data[FindLastIndex(data, sd.value)])
      ensures store.selectedDate.Some? && Occurs(data, store.selectedDate.value) ==> lastUpdate == store.selectedDate
    {
      var selectedDate := store.selectedDate;
      if selectedDate.None? || lastUpdate == selectedDate {
        return;
      }
      if selectedDate.value in dataByDate {
        var matchingPoint := dataByDate[selectedDate.value];
        assert matchingPoint == data[FindLastIndex(data, selectedDate.value)];
        lastUpdate := Some(matchingPoint.date);
        selectedDataPoint := Some(matchingPoint);
      }
    }

    /**
     * `highlightRange`: the drag preview while dragging, otherwise the band
     * of the series inside the committed range.
     */
    method HighlightRange() returns (r: Option<DateRange>)
      requires Valid()
      ensures isDragging ==> r.Some? && r == DragSpan(data, dragStart.value.date, dragEnd.value.date)
      ensures !isDragging ==> r == IdleBand(data, store.dateRange)
    {
      if isDragging && dragStart.Some? && dragEnd.Some? {
        return DragSpan(data, dragStart.value.date, dragEnd.value.date);
      }
      var dateRange := store.dateRange;
      if |data| == 0 || dateRange.None? {
        return None;
      }
      var range := dateRange.value;
      var rangeStart := Min(range.start, range.end);
      var rangeEnd := Max(range.start, range.end);
      r := ScanHighlight(data, rangeStart, rangeEnd);
    }
  }

  /**
   * A press and release on the same spot commit the one day under the
   * pointer, and the chart ends idle.
   */
  method ClickCommitsOneDay(chart: Chart, clientX: real, container: Option<Rect>)
    requires chart.Valid() && Usable(container) && !chart.isDragging
    requires DateFromMouseX(container, chart.data, clientX).Some?
    modifies chart`isDragging, chart`dragStart, chart`dragEnd, chart.store`dateRange
    ensures chart.Valid() && !chart.isDragging
    ensures var d := DateFromMouseX(container, chart.data, clientX).value;
      chart.store.dateRange == Some(DateRange(d, d))
  {
    chart.MouseDown(PrimaryButton, clientX, container);
    chart.MouseUp();
    ClickSpansOneDay(chart.data, DateFromMouseX(container, chart.data, clientX).value);
  }

  /**
   * Press, move, release, in either direction: on a series with unique
   * ascending days the committed range starts at the earlier of the two days
   * and ends at the later one.
   */
  method DragCommitsOrderedRange(chart: Chart, x1: real, x2: real, container: Option<Rect>)
    requires chart.Valid() && Usable(container) && !chart.isDragging
    requires StrictlySorted(chart.data)
    requires DateFromMouseX(container, chart.data, x1).Some?
    requires DateFromMouseX(container, chart.data, x2).Some?
    modifies chart`isDragging, chart`dragStart, chart`dragEnd, chart.store`dateRange
    ensures chart.Valid() && !chart.isDragging
    ensures var d1 := DateFromMouseX(container, chart.data, x1).value;
      var d2 := DateFromMouseX(container, chart.data, x2).value;
      chart.store.dateRange == Some(DateRange(Min(d1, d2), Max(d1, d2)))
  {
    chart.MouseDown(PrimaryButton, x1, container);
    chart.MouseMove(x2, container);
    var d1 := DateFromMouseX(container, chart.data, x1).value;
    var d2 := DateFromMouseX(container, chart.data, x2).value;
    DragSpanOrdered(chart.data, d1, d2);
    DragSpanAscending(chart.data, d1, d2);
    chart.MouseUp();
  }

  /** A second release right after the first changes nothing more. */
  method DoubleMouseUp(chart: Chart)
    requires chart.Valid()
    modifies chart`isDragging, chart`dragStart, chart`dragEnd, chart.store`dateRange
    ensures chart.Valid() && !chart.isDragging
    ensures old(chart.isDragging) ==>
      chart.store.dateRange == DragSpan(chart.data, old(chart.dragStart).value.date, old(chart.dragEnd).value.date)
    ensures !old(chart.isDragging) ==> chart.store.dateRange == old(chart.store.dateRange)
  {
    chart.MouseUp();
    chart.MouseUp();
  }

  /**
   * Cross-highlighting: hovering a bar on one chart and letting another chart
   * sharing the store run its sync effect selects, on the second chart, its
   * last point with the hovered day.
   */
  method CrossHighlight(a: Chart, b: Chart, p: DataPoint)
    requires a != b && a.store == b.store
    requires a.Valid() && b.Valid()
    requires !a.isDragging && p in a.data && a.lastUpdate != Some(p.date)
    requires Occurs(b.data, p.date) && b.lastUpdate != Some(p.date)
    modifies a`selectedDataPoint, a`lastUpdate, a.store`selectedDate, b`selectedDataPoint, b`lastUpdate
    ensures a.Valid() && b.Valid()
    ensures a.store.selectedDate == Some(p.date)
    ensures b.selectedDataPoint == Some(b.data[FindLastIndex(b.data, p.date)])
    ensures b.selectedDataPoint.value.date == p.date
  {
    a.BarMouseEnter(Some(p));
    b.SyncSelection();
  }
}
