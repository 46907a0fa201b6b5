/**
 * The data points every chart plots and the two lookups the chart makes on them:
 * `Array.prototype.findIndex` by date, and the `dataByDate` map built by a loop
 * of `Map.set`.
 */
module ChartData {
  import opened Calendar

  /** One bar of the chart: a day and its two series values. */
  datatype DataPoint = DataPoint(date: Day, desktop: int, mobile: int)

  /** Some point of `data` carries day `d`. */
  predicate Occurs(data: seq<DataPoint>, d: Day)
  {
    exists k :: 0 <= k < |data| && data[k].date == d
  }

  /** Days strictly increase along the series (unique, ascending date keys). */
  predicate StrictlySorted(data: seq<DataPoint>)
  {
    forall j, k :: 0 <= j < k < |data| ==> data[j].date < data[k].date
  }

  /** Days never decrease along the series. */
  predicate Sorted(data: seq<DataPoint>)
  {
    forall j, k :: 0 <= j <= k < |data| ==> data[j].date <= data[k].date
  }

  /** `data.findIndex(p => p.date === d)`: the first index carrying `d`, or -1. */
  function FindIndex(data: seq<DataPoint>, d: Day): (r: int)
    ensures -1 <= r < |data|
    ensures r == -1 <==> !Occurs(data, d)
    ensures r >= 0 ==> data[r].date == d && forall k :: 0 <= k < r ==> data[k].date != d
  {
    if |data| == 0 then -1
    else if data[0].date == d then 0
    else
      var r := FindIndex(data[1..], d);
      assert forall k :: 1 <= k < |data| ==> data[k] == data[1..][k - 1];
      if r == -1 then -1 else r + 1
  }

  /** The last index carrying `d`, or -1: the point a last-write-wins map keeps for `d`. */
  function FindLastIndex(data: seq<DataPoint>, d: Day): (r: int)
    ensures -1 <= r < |data|
    ensures r == -1 <==> !Occurs(data, d)
    ensures r >= 0 ==> data[r].date == d && forall k :: r < k < |data| ==> data[k].date != d
  {
    if |data| == 0 then -1
    else if data[|data| - 1].date == d then |data| - 1
    else
      var r := FindLastIndex(data[..|data| - 1], d);
      assert forall k :: 0 <= k < |data| - 1 ==> data[k] == data[..|data| - 1][k];
      r
  }

  /** A map from each day of `data` to the last point carrying it. */
  ghost predicate IsDataByDate(data: seq<DataPoint>, m: map<Day, DataPoint>)
  {
    && (forall d :: d in m <==> Occurs(data, d))
    && (forall d :: d in m ==> m[d] == data[FindLastIndex(data, d)])
  }

  /**
   * `dataByDate`: one `map.set(point.date, point)` per point, in array order,
   * so a later point with the same day overwrites an earlier one.
   */
  method BuildDataByDate(data: seq<DataPoint>) returns (m: map<Day, DataPoint>)
    ensures forall k :: 0 <= k < |data| ==> data[k].date in m
    ensures forall d :: d in m ==> Occurs(data, d) && m[d] == data[FindLastIndex(data, d)]
  {
    m := map[];
    var i := 0;
    while i < |data|
      invariant 0 <= i <= |data|
      invariant forall d :: d in m <==> Occurs(data[..i], d)
      invariant forall d :: d in m ==> m[d] == data[FindLastIndex(data[..i], d)]
    {
      var point := data[i];
      assert data[..i + 1] == data[..i] + [point];
      assert data[..i + 1][..i] == data[..i];
      m := m[point.date := point];
      i := i + 1;
    }
    assert data[..i] == data;
  }

  /** On a series with unique days the map gives back exactly the point of each day. */
  lemma DataByDateOfUniqueDays(data: seq<DataPoint>, m: map<Day, DataPoint>, k: int)
    requires IsDataByDate(data, m)
    requires StrictlySorted(data)
    requires 0 <= k < |data|
    ensures data[k].date in m && m[data[k].date] == data[k]
  {
    assert Occurs(data, data[k].date);
    var r := FindLastIndex(data, data[k].date);
    assert r == k;
  }

  /** Of two points with the same day, the map keeps the later one. */
  lemma DataByDateLastWriteWins(data: seq<DataPoint>, m: map<Day, DataPoint>, j: int, k: int)
    requires IsDataByDate(data, m)
    requires 0 <= j < k < |data| && data[j].date == data[k].date
    requires forall l :: k < l < |data| ==> data[l].date != data[k].date
    ensures m[data[j].date] == data[k]
  {
    assert Occurs(data, data[k].date);
    var r := FindLastIndex(data, data[k].date);
    assert r == k;
  }
}
