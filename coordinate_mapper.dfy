/**
 * `getDateFromMouseX`: maps the horizontal mouse coordinate of a pointer event
 * to the day of one point of the chart's series.
 *
 * The container's bounding rectangle is read from the DOM on every call; here
 * it is a parameter (`None` while the container is not mounted).  Arithmetic is
 * exact; the chart always has more than 24 px of width when it is mounted.
 */
module CoordinateMapper {
  import opened Wrappers
  import opened Calendar
  import opened ChartData

  /** A bounding client rectangle, horizontally. */
  datatype Rect = Rect(left: real, width: real) {
    function Right(): real { left + width }
  }

  /** The chart's left and right margins, 12 px each, taken off the width. */
  const Margins: real := 24.0

  /** `Math.round`: the nearest integer, halves rounded up. */
  function Round(x: real): (r: int)
    ensures r as real - 0.5 <= x < r as real + 0.5
  {
    (x + 0.5).Floor
  }

  /** `Math.max(lo, Math.min(hi, i))`. */
  function Clamp(i: int, lo: int, hi: int): (r: int)
    requires lo <= hi
    ensures lo <= r <= hi
    ensures lo <= i <= hi ==> r == i
    ensures i < lo ==> r == lo
    ensures hi < i ==> r == hi
  {
    if i < lo then lo else if hi < i then hi else i
  }

  /**
   * The fractional index under `clientX`: the offset from the rectangle's
   * left edge (the left margin is not taken off it) over the width less both
   * margins, scaled to the last index.
   */
  function Position(rect: Rect, n: nat, clientX: real): (p: real)
    requires rect.width > Margins
    ensures n > 0 && clientX == rect.left ==> p == 0.0
    ensures n > 0 && clientX >= rect.left ==> p >= 0.0
    ensures clientX == rect.Right() - Margins ==> p == (n - 1) as real
  {
    var chartX := clientX - rect.left;
    var chartWidth := rect.width - Margins;
    DivSelf(chartWidth);
    NonNegativeScale(chartX, chartWidth, (n - 1) as real);
    Scale(chartX, chartWidth, (n - 1) as real)
  }

  /** `a / w * m`: an offset over a width, scaled. */
  function Scale(a: real, w: real, m: real): real
    requires w > 0.0
  {
    a / w * m
  }

  /** The index for `clientX`: the position rounded and clamped to the series. */
  function MouseIndex(rect: Rect, n: nat, clientX: real): (k: int)
    requires n > 0 && rect.width > Margins
    ensures 0 <= k < n
  {
    Clamp(Round(Position(rect, n, clientX)), 0, n - 1)
  }

  /** `getDateFromMouseX(clientX)`. */
  function DateFromMouseX(container: Option<Rect>, data: seq<DataPoint>, clientX: real): (r: Option<Day>)
    requires container.Some? ==> container.value.width > Margins
    ensures r.None? <==> container.None? || |data| == 0
                         || clientX < container.value.left || clientX > container.value.Right()
    ensures r.Some? ==> Occurs(data, r.value)
    ensures r.Some? ==> r.value == data[MouseIndex(container.value, |data|, clientX)].date
  {
    if container.None? || |data| == 0 then None
    else
      var rect := container.value;
      if clientX < rect.left || clientX > rect.Right() then None
      else
        var k := MouseIndex(rect, |data|, clientX);
        Some(data[k].date)
  }

  lemma ScaleMonotone(a: real, b: real, w: real, m: real)
    requires a <= b && w > 0.0 && m >= 0.0
    ensures Scale(a, w, m) <= Scale(b, w, m)
  {
    assert a / w <= b / w;
  }

  lemma NonNegativeScale(a: real, w: real, m: real)
    requires w > 0.0
    ensures a >= 0.0 && m >= 0.0 ==> Scale(a, w, m) >= 0.0
  {
    if a >= 0.0 && m >= 0.0 {
      assert a / w >= 0.0;
    }
  }

  lemma DivSelf(w: real)
    requires w > 0.0
    ensures w / w == 1.0
  {
    assert (w / w) * w == w;
  }

  lemma PositionMonotone(rect: Rect, n: nat, x1: real, x2: real)
    requires n > 0 && rect.width > Margins
    requires x1 <= x2
    ensures Position(rect, n, x1) <= Position(rect, n, x2)
  {
    ScaleMonotone(x1 - rect.left, x2 - rect.left, rect.width - Margins, (n - 1) as real);
  }

  lemma RoundMonotone(v1: real, v2: real)
    requires v1 <= v2
    ensures Round(v1) <= Round(v2)
  {
    assert Round(v1) as real <= v1 + 0.5 <= v2 + 0.5 < Round(v2) as real + 1.0;
  }

  /** Further right never maps to an earlier point. */
  lemma {:induction false} MouseIndexMonotone(rect: Rect, n: nat, x1: real, x2: real)
    requires n > 0 && rect.width > Margins
    requires x1 <= x2
    ensures MouseIndex(rect, n, x1) <= MouseIndex(rect, n, x2)
  {
    PositionMonotone(rect, n, x1, x2);
    RoundMonotone(Position(rect, n, x1), Position(rect, n, x2));
  }

  /** The container's left edge maps to the first point. */
  lemma LeftEdgeMapsToFirst(rect: Rect, data: seq<DataPoint>)
    requires |data| > 0 && rect.width > Margins
    ensures DateFromMouseX(Some(rect), data, rect.left) == Some(data[0].date)
  {
    assert MouseIndex(rect, |data|, rect.left) == 0;
  }

  /**
   * Because the left margin is not subtracted from the offset, every
   * coordinate in the rightmost 24 px of the container maps to the last point.
   */
  lemma {:induction false} RightMarginMapsToLast(rect: Rect, data: seq<DataPoint>, clientX: real)
    requires |data| > 0 && rect.width > Margins
    requires rect.Right() - Margins <= clientX <= rect.Right()
    ensures DateFromMouseX(Some(rect), data, clientX) == Some(data[|data| - 1].date)
  {
    var n := |data|;
    PositionMonotone(rect, n, rect.Right() - Margins, clientX);
    var v := Position(rect, n, clientX);
    assert v >= (n - 1) as real;
    assert Round(v) >= n - 1;
  }
}
