/**
 * The dashboard header: the date-range picker with its draft range, the
 * reset-range button and the layout toggle.  The picker edits a draft; only
 * Save writes the store, and the draft is re-read from the store whenever the
 * picker is open and the committed range changes.
 */
module DashboardHeader {
  import opened Wrappers
  import opened Calendar
  import opened DashboardStore

  /** The picker's draft `{ from, to }`; either end may be unset. */
  datatype Draft = Draft(from: Option<Day>, to: Option<Day>)

  /**
   * `{ from: dateRange?.start, to: dateRange?.end }`: the draft read from the
   * store, complete exactly when a range is committed.
   */
  function DraftOf(range: Option<DateRange>): (d: Draft)
    ensures (d.from.Some? && d.to.Some?) <==> range.Some?
    ensures range.Some? ==> d.from == Some(range.value.start) && d.to == Some(range.value.end)
    ensures range.None? ==> d.from.None? && d.to.None?
  {
    if range.None? then Draft(None, None) else Draft(Some(range.value.start), Some(range.value.end))
  }

  /** Reading back a saved draft gives the same draft: both ends survive the trip through the store. */
  lemma DraftRoundTrip(d: Draft)
    requires d.from.Some? && d.to.Some?
    ensures DraftOf(Some(DateRange(d.from.value, d.to.value))) == d
  {
  }

  class Header {
    const store: Store
    var isDatePickerOpen: bool
    var draft: Draft

    /** The header as mounted: picker closed, draft copied from the committed range. */
    constructor (store: Store)
      ensures this.store == store
      ensures !isDatePickerOpen && draft == DraftOf(store.dateRange)
    {
      this.store := store;
      isDatePickerOpen := false;
      draft := DraftOf(store.dateRange);
    }

    /** The popover's `onOpenChange`. */
    method SetOpen(open: bool)
      modifies this`isDatePickerOpen
      ensures isDatePickerOpen == open
    {
      isDatePickerOpen := open;
    }

    /** The resync effect: while the picker is open the draft mirrors the committed range. */
    method ResyncDraft()
      modifies this`draft
      ensures draft == if isDatePickerOpen then DraftOf(store.dateRange) else old(draft)
    {
      if isDatePickerOpen {
        draft := DraftOf(store.dateRange);
      }
    }

    /** `handleDateSelect`: the calendar's selection, or no selection, becomes the draft. */
    method DateSelect(range: Option<Draft>)
      modifies this`draft
      ensures range.None? ==> draft.from.None? && draft.to.None?
      ensures range.Some? ==> draft.from == range.value.from && draft.to == range.value.to
    {
      draft := Draft(if range.Some? then range.value.from else None,
                     if range.Some? then range.value.to else None);
    }

    /** The Save button's `disabled`: exactly when Save's guard would refuse. */
    predicate SaveDisabled(): (r: bool)
      reads this
      ensures r <==> !(draft.from.Some? && draft.to.Some?)
    {
      draft.from.None? || draft.to.None?
    }

    /**
     * `handleSave`: with both ends set, commits `{ start: from, end: to }` and
     * closes the picker; otherwise changes nothing.  It commits exactly when
     * the Save button is enabled.
     */
    method Save()
      modifies this`isDatePickerOpen, store`dateRange
      ensures old(SaveDisabled()) ==>
        isDatePickerOpen == old(isDatePickerOpen) && store.dateRange == old(store.dateRange)
      ensures !old(SaveDisabled()) ==>
        !isDatePickerOpen && store.dateRange == Some(DateRange(draft.from.value, draft.to.value))
    {
      if draft.from.Some? && draft.to.Some? {
        store.SetDateRange(Some(DateRange(draft.from.value, draft.to.value)));
        isDatePickerOpen := false;
      }
    }

    /** `handleCancel`: the draft goes back to the committed range and the picker closes. */
    method Cancel()
      modifies this`draft, this`isDatePickerOpen
      ensures draft == DraftOf(store.dateRange) && !isDatePickerOpen
    {
      draft := DraftOf(store.dateRange);
      isDatePickerOpen := false;
    }

    /** `handleReset`: both ends of the draft are cleared; the store and the picker stay. */
    method Reset()
      modifies this`draft
      ensures draft == Draft(None, None)
    {
      draft := Draft(None, None);
    }

    /** The reset-range button: the committed range is cleared. */
    method ResetRange()
      modifies store`dateRange
      ensures store.State() == old(store.State()).(dateRange := None)
    {
      store.SetDateRange(None);
    }

    /** The layout toggle: an emptied toggle is ignored, any other value becomes the layout mode. */
    method ChangeLayout(value: Option<LayoutMode>)
      modifies store`layoutMode
      ensures value.None? ==> store.State() == old(store.State())
      ensures value.Some? ==> store.State() == old(store.State()).(layoutMode := value.value)
    {
      if value.Some? {
        store.SetLayoutMode(value.value);
      }
    }
  }

  /**
   * Save, then reopen the picker: the resync loads back the very draft that
   * was saved.
   */
  method SaveThenReopen(header: Header)
    requires !header.SaveDisabled()
    modifies header`isDatePickerOpen, header`draft, header.store`dateRange
    ensures header.isDatePickerOpen && header.draft == old(header.draft)
  {
    ghost var saved := header.draft;
    header.Save();
    header.SetOpen(true);
    header.ResyncDraft();
    DraftRoundTrip(saved);
  }

  /** Edits followed by Cancel leave no trace: the draft is the committed range again. */
  method EditThenCancel(header: Header, range: Option<Draft>)
    modifies header`isDatePickerOpen, header`draft
    ensures header.draft == DraftOf(header.store.dateRange) && !header.isDatePickerOpen
    ensures header.store.dateRange == old(header.store.dateRange)
  {
    header.DateSelect(range);
    header.Cancel();
  }
}
