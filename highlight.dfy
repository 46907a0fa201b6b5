/**
 * The band a chart highlights: while a drag is in progress, the drag preview;
 * otherwise the part of the series that falls inside the store's committed
 * range, found by a scan that stops early.
 */
module Highlight {
  import opened Wrappers
  import opened Calendar
  import opened ChartData

  /**
   * The days of the two drag endpoints, ordered by their first position in the
   * series; `None` when either day is not in the series.  Both the drag
   * preview and the range a mouse-up commits are this.
   */
  function DragSpan(data: seq<DataPoint>, startDate: Day, endDate: Day): (r: Option<DateRange>)
    ensures r.Some? <==> Occurs(data, startDate) && Occurs(data, endDate)
  {
    var startIndex := FindIndex(data, startDate);
    var endIndex := FindIndex(data, endDate);
    if startIndex != -1 && endIndex != -1 then
      var lo := if startIndex <= endIndex then startIndex else endIndex;
      var hi := if startIndex <= endIndex then endIndex else startIndex;
      Some(DateRange(data[lo].date, data[hi].date))
    else None
  }

  /**
   * Whichever way the mouse moved, the span runs from the endpoint found first
   * in the series to the one found last, and both are those endpoints' days.
   */
  lemma DragSpanOrdered(data: seq<DataPoint>, startDate: Day, endDate: Day)
    requires Occurs(data, startDate) && Occurs(data, endDate)
    ensures DragSpan(data, startDate, endDate).Some?
    ensures var r := DragSpan(data, startDate, endDate).value;
      && FindIndex(data, r.start) <= FindIndex(data, r.end)
      && {r.start, r.end} == {startDate, endDate}
      && DragSpan(data, endDate, startDate) == DragSpan(data, startDate, endDate)
  {
    var i, j := FindIndex(data, startDate), FindIndex(data, endDate);
    assert FindIndex(data, data[i].date) == i;
    assert FindIndex(data, data[j].date) == j;
  }

  /** A click that does not move commits the single day it landed on. */
  lemma ClickSpansOneDay(data: seq<DataPoint>, d: Day)
    requires Occurs(data, d)
    ensures DragSpan(data, d, d) == Some(DateRange(d, d))
  {
  }

  /** On a series with ascending days the span never runs backwards in time. */
  lemma DragSpanAscending(data: seq<DataPoint>, startDate: Day, endDate: Day)
    requires Sorted(data)
    requires Occurs(data, startDate) && Occurs(data, endDate)
    ensures DragSpan(data, startDate, endDate).value.start <= DragSpan(data, startDate, endDate).value.end
  {
  }

  predicate InSpan(d: Day, lo: Day, hi: Day) { lo <= d && d <= hi }

  /** The first index whose day lies in `[lo, hi]`, or `|data|` if none does. */
  function FirstInSpan(data: seq<DataPoint>, lo: Day, hi: Day): (i: nat)
    ensures i <= |data|
    ensures i < |data| ==> InSpan(data[i].date, lo, hi)
    ensures forall k :: 0 <= k < i ==> !InSpan(data[k].date, lo, hi)
  {
    if |data| == 0 then 0
    else if InSpan(data[0].date, lo, hi) then 0
    else
      assert forall k :: 1 <= k < |data| ==> data[k] == data[1..][k - 1];
      1 + FirstInSpan(data[1..], lo, hi)
  }

  /** The last index whose day lies in `[lo, hi]`, or -1 if none does. */
  function LastInSpan(data: seq<DataPoint>, lo: Day, hi: Day): (j: int)
    ensures -1 <= j < |data|
    ensures j >= 0 ==> InSpan(data[j].date, lo, hi)
    ensures forall k :: j < k < |data| ==> !InSpan(data[k].date, lo, hi)
  {
    if |data| == 0 then -1
    else if InSpan(data[|data| - 1].date, lo, hi) then |data| - 1
    else
      assert forall k :: 0 <= k < |data| - 1 ==> data[k] == data[..|data| - 1][k];
      LastInSpan(data[..|data| - 1], lo, hi)
  }

  /** The first index whose day lies after `hi`, or `|data|` if none does. */
  function FirstAfter(data: seq<DataPoint>, hi: Day): (b: nat)
    ensures b <= |data|
    ensures b < |data| ==> data[b].date > hi
    ensures forall k :: 0 <= k < b ==> data[k].date <= hi
  {
    if |data| == 0 then 0
    else if data[0].date > hi then 0
    else
      assert forall k :: 1 <= k < |data| ==> data[k] == data[1..][k - 1];
      1 + FirstAfter(data[1..], hi)
  }

  /**
   * Where the scan stops: the first point after `hi` that comes after a point
   * in `[lo, hi]` has been seen, or the end of the series.
   */
  function ScanStop(data: seq<DataPoint>, lo: Day, hi: Day): (b: nat)
    ensures b <= |data|
    ensures FirstInSpan(data, lo, hi) == |data| ==> b == |data|
    ensures FirstInSpan(data, lo, hi) < |data| ==>
      && FirstInSpan(data, lo, hi) < b
      && (b < |data| ==> data[b].date > hi)
      && forall k :: FirstInSpan(data, lo, hi) <= k < b ==> data[k].date <= hi
  {
    var i := FirstInSpan(data, lo, hi);
    if i == |data| then |data|
    else
      var f := FirstAfter(data[i..], hi);
      assert forall k :: i <= k < |data| ==> data[k] == data[i..][k - i];
      i + f
  }

  /**
   * What the scan yields for the bounds `[lo, hi]`: the day of the first point
   * in the bounds and the day of the last point in the bounds before the scan
   * stops; `None` when no point is in the bounds.
   */
  function ScanBand(data: seq<DataPoint>, lo: Day, hi: Day): (r: Option<DateRange>)
    ensures r.None? <==> forall k :: 0 <= k < |data| ==> !InSpan(data[k].date, lo, hi)
    ensures r.Some? ==>
      exists i, j ::
        && 0 <= i <= j < |data|
        && r.value == DateRange(data[i].date, data[j].date)
        && InSpan(data[i].date, lo, hi) && InSpan(data[j].date, lo, hi)
        && (forall k :: 0 <= k < i ==> !InSpan(data[k].date, lo, hi))
  {
    var i := FirstInSpan(data, lo, hi);
    if i == |data| then None
    else
      var b := ScanStop(data, lo, hi);
      var j := LastInSpan(data[..b], lo, hi);
      assert data[..b][i] == data[i];
      assert forall k :: 0 <= k < b ==> data[..b][k] == data[k];
      Some(DateRange(data[i].date, data[j].date))
  }

  /**
   * The idle highlight: `None` without data or without a committed range;
   * otherwise the scan over the range's bounds taken in either order.
   */
  function IdleBand(data: seq<DataPoint>, range: Option<DateRange>): (r: Option<DateRange>)
    ensures r.Some? ==> |data| > 0 && range.Some?
  {
    if |data| == 0 || range.None? then None
    else ScanBand(data, Min(range.value.start, range.value.end), Max(range.value.start, range.value.end))
  }

  /** The orientation of the committed range does not matter. */
  lemma IdleBandSymmetric(data: seq<DataPoint>, range: DateRange)
    ensures IdleBand(data, Some(range)) == IdleBand(data, Some(DateRange(range.end, range.start)))
  {
  }

  /**
   * `highlightRange`'s loop: keep the first label in the bounds, overwrite the
   * last one on each point in the bounds, and break at a point after the
   * bounds once a point in them has been seen.
   */
  method ScanHighlight(data: seq<DataPoint>, rangeStart: Day, rangeEnd: Day) returns (r: Option<DateRange>)
    ensures r == ScanBand(data, rangeStart, rangeEnd)
  {
    ghost var i0 := FirstInSpan(data, rangeStart, rangeEnd);
    ghost var b := ScanStop(data, rangeStart, rangeEnd);
    ghost var last := -1;
    var startLabel: Option<Day> := None;
    var endLabel: Option<Day> := None;
    var k := 0;
    while k < |data|
      invariant 0 <= k <= b
      invariant last == LastInSpan(data[..k], rangeStart, rangeEnd)
      invariant last >= 0 <==> i0 < k
      invariant startLabel == (if i0 < k then Some(data[i0].date) else None)
      invariant endLabel == (if last >= 0 then Some(data[last].date) else None)
    {
      var pointTime := data[k].date;
      LastInSpanStep(data, k, rangeStart, rangeEnd);
      if rangeStart <= pointTime && pointTime <= rangeEnd {
        if startLabel.None? {
          startLabel := Some(pointTime);
        }
        endLabel := Some(pointTime);
        last := k;
      }
      if pointTime > rangeEnd && endLabel.Some? {
        break;
      }
      k := k + 1;
    }
    if startLabel.None? || endLabel.None? {
      return None;
    }
    assert k == b;
    return Some(DateRange(startLabel.value, endLabel.value));
  }

  /** Extending a prefix by one point moves its last in-bounds index only onto that point. */
  lemma LastInSpanStep(data: seq<DataPoint>, k: int, lo: Day, hi: Day)
    requires 0 <= k < |data|
    ensures LastInSpan(data[..k + 1], lo, hi)
         == if InSpan(data[k].date, lo, hi) then k else LastInSpan(data[..k], lo, hi)
  {
    assert data[..k + 1][..k] == data[..k];
  }

  /**
   * On a series whose days never decrease, stopping early loses nothing: the
   * band runs from the first to the last point of the whole series inside the
   * bounds.
   */
  lemma {:induction false} SortedScanCoversWholeSpan(data: seq<DataPoint>, lo: Day, hi: Day)
    requires Sorted(data)
    requires FirstInSpan(data, lo, hi) < |data|
    ensures LastInSpan(data, lo, hi) >= 0
    ensures ScanBand(data, lo, hi)
         == Some(DateRange(data[FirstInSpan(data, lo, hi)].date, data[LastInSpan(data, lo, hi)].date))
  {
    var i := FirstInSpan(data, lo, hi);
    var b := ScanStop(data, lo, hi);
    var j := LastInSpan(data, lo, hi);
    var j' := LastInSpan(data[..b], lo, hi);
    assert forall k :: 0 <= k < b ==> data[..b][k] == data[k];
    assert data[..b][i] == data[i];
    assert forall k :: b <= k < |data| ==> !InSpan(data[k].date, lo, hi) by {
      forall k | b <= k < |data| ensures !InSpan(data[k].date, lo, hi) {
        assert data[b].date <= data[k].date;
      }
    }
    assert j == j';
  }

  /**
   * On a series whose days never decrease, the idle band over a range is the
   * first and last point of the series inside it.
   */
  lemma SortedIdleBand(data: seq<DataPoint>, range: DateRange)
    requires Sorted(data)
    ensures var lo, hi := Min(range.start, range.end), Max(range.start, range.end);
      var i := FirstInSpan(data, lo, hi);
      i < |data| ==> IdleBand(data, Some(range)) == Some(DateRange(data[i].date, data[LastInSpan(data, lo, hi)].date))
  {
    var lo, hi := Min(range.start, range.end), Max(range.start, range.end);
    if FirstInSpan(data, lo, hi) < |data| {
      SortedScanCoversWholeSpan(data, lo, hi);
    }
  }

  /**
   * Committing a drag and then leaving the chart idle shows the same band as
   * the drag preview, on a series with unique ascending days.
   */
  lemma {:induction false} CommittedBandMatchesPreview(data: seq<DataPoint>, startDate: Day, endDate: Day)
    requires StrictlySorted(data)
    requires Occurs(data, startDate) && Occurs(data, endDate)
    ensures DragSpan(data, startDate, endDate).Some?
    ensures IdleBand(data, DragSpan(data, startDate, endDate)) == DragSpan(data, startDate, endDate)
  {
    var r := DragSpan(data, startDate, endDate).value;
    var s, e := FindIndex(data, startDate), FindIndex(data, endDate);
    var a := if s <= e then s else e;
    var z := if s <= e then e else s;
    assert r == DateRange(data[a].date, data[z].date);
    assert Sorted(data);
    var lo, hi := data[a].date, data[z].date;
    assert Min(r.start, r.end) == lo && Max(r.start, r.end) == hi;
    assert InSpan(data[a].date, lo, hi) && InSpan(data[z].date, lo, hi);
    assert FirstInSpan(data, lo, hi) == a;
    assert LastInSpan(data, lo, hi) == z;
    SortedScanCoversWholeSpan(data, lo, hi);
  }

  /**
   * On a series whose days are out of order the early stop can cut the band
   * short: days 5, 20, 6 with bounds [1, 10] give [5, 5], not [5, 6].
   */
  lemma UnsortedScanStopsEarly()
    ensures var data := [DataPoint(5, 0, 0), DataPoint(20, 0, 0), DataPoint(6, 0, 0)];
      ScanBand(data, 1, 10) == Some(DateRange(5, 5)) && LastInSpan(data, 1, 10) == 2
  {
    var data := [DataPoint(5, 0, 0), DataPoint(20, 0, 0), DataPoint(6, 0, 0)];
    assert FirstInSpan(data, 1, 10) == 0;
    assert data[0..] == data;
    assert FirstAfter(data, 10) == 1;
    assert ScanStop(data, 1, 10) == 1;
    assert data[..1] == [DataPoint(5, 0, 0)];
  }
}
