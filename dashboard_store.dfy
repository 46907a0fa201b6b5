/**
 * The dashboard's shared store: one record of state that every chart and the
 * header read, with one setter per field.  Each setter merges a single field
 * into the record and leaves the others as they were; the last write wins.
 *
 * The store is modelled as its callers use it: the committed range may be
 * cleared, and the record also holds the date selected by hovering a chart.
 */
module DashboardStore {
  import opened Wrappers
  import opened Calendar

  datatype LayoutMode = Vertical | Grid | Free

  /** A snapshot of every field of the store. */
  datatype StoreState = StoreState(
    hoveredX: Option<real>,
    dateRange: Option<DateRange>,
    layoutMode: LayoutMode,
    selectedDate: Option<Day>)

  /** The default committed range runs from 30 days before `today` to `today`. */
  const DefaultRangeDays := 30

  class Store {
    var hoveredX: Option<real>
    var dateRange: Option<DateRange>
    var layoutMode: LayoutMode
    var selectedDate: Option<Day>

    function State(): StoreState
      reads this
    {
      StoreState(hoveredX, dateRange, layoutMode, selectedDate)
    }

    /** The store as created when the page loads on day `today`. */
    constructor (today: Day)
      ensures hoveredX == None && layoutMode == Grid && selectedDate == None
      ensures dateRange == Some(DateRange(today - DefaultRangeDays, today))
    {
      hoveredX := None;
      dateRange := Some(DateRange(today - DefaultRangeDays, today));
      layoutMode := Grid;
      selectedDate := None;
    }

    method SetHoveredX(x: Option<real>)
      modifies this`hoveredX
      ensures State() == old(State()).(hoveredX := x)
    {
      hoveredX := x;
    }

    method SetDateRange(range: Option<DateRange>)
      modifies this`dateRange
      ensures State() == old(State()).(dateRange := range)
    {
      dateRange := range;
    }

    method SetLayoutMode(mode: LayoutMode)
      modifies this`layoutMode
      ensures State() == old(State()).(layoutMode := mode)
    {
      layoutMode := mode;
    }

    method SetSelectedDate(d: Option<Day>)
      modifies this`selectedDate
      ensures State() == old(State()).(selectedDate := d)
    {
      selectedDate := d;
    }
  }

  /** Two writes of the committed range leave the second; nothing else moves. */
  method RangeLastWriterWins(store: Store, first: Option<DateRange>, second: Option<DateRange>)
    modifies store`dateRange
    ensures store.State() == old(store.State()).(dateRange := second)
  {
    store.SetDateRange(first);
    store.SetDateRange(second);
  }
}
