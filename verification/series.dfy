/** Time series of (day, value) points and the nearest-date lookup `_value_near`
    (update_data.py:113-117). */
module Series {
  import opened Wrappers

  /** One observation: a calendar day (as a day number) and its value. */
  datatype Point = Point(day: int, value: real)

  /** A list of points, as the source passes them around; callers supply them in
      ascending day order, but no operation here depends on that. */
  type TimeSeries = seq<Point>

  /** The days of a series, in list order. */
  function Days(s: TimeSeries): (ds: seq<int>)
    ensures |ds| == |s|
    ensures forall i :: 0 <= i < |s| ==> ds[i] == s[i].day
  {
    seq(|s|, i requires 0 <= i < |s| => s[i].day)
  }

  /** The last point of a non-empty series: what the source reads as `series[-1]`. */
  function Last(s: TimeSeries): Point
    requires |s| > 0
  {
    s[|s| - 1]
  }

  /** Absolute distance in days between a point and the target day. */
  function Distance(p: Point, target: int): nat {
    if p.day >= target then p.day - target else target - p.day
  }

  /** Index `i` is the one Python's `min(series, key=distance)` picks: no point is
      strictly closer to the target, and every earlier point is strictly farther. */
  predicate IsNearest(s: TimeSeries, target: int, i: int) {
    && 0 <= i < |s|
    && (forall j :: 0 <= j < |s| ==> Distance(s[i], target) <= Distance(s[j], target))
    && (forall j :: 0 <= j < i ==> Distance(s[i], target) < Distance(s[j], target))
  }

  /** The position `min` settles on: it scans left to right and replaces its candidate
      only on a strictly smaller key. */
  function NearestIndex(s: TimeSeries, target: int): (i: nat)
    requires |s| > 0
    ensures IsNearest(s, target, i)
    decreases |s|
  {
    if |s| == 1 then 0
    else
      var best := NearestIndex(s[..|s| - 1], target);
      if Distance(s[|s| - 1], target) < Distance(s[best], target) then |s| - 1 else best
  }

  /** At most one index is nearest in the tie-breaking sense. */
  lemma NearestUnique(s: TimeSeries, target: int, i: int, k: int)
    requires IsNearest(s, target, i) && IsNearest(s, target, k)
    ensures i == k
  {
    var di, dk := Distance(s[i], target), Distance(s[k], target);
    assert di == dk;
    assert !(i < k);
    assert !(k < i);
  }

  /** `_value_near`: the value of the nearest point, or None for an empty series. */
  function ValueNear(s: TimeSeries, target: int): (r: Option<real>)
    ensures r.None? <==> |s| == 0
    ensures forall i :: IsNearest(s, target, i) ==> r == Some(s[i].value)
  {
    if |s| == 0 then None
    else
      var i := NearestIndex(s, target);
      assert forall k :: IsNearest(s, target, k) ==> k == i by {
        forall k | IsNearest(s, target, k) {
          NearestUnique(s, target, i, k);
        }
      }
      Some(s[i].value)
  }

  /** Equidistant neighbours: the earlier point wins the tie. */
  lemma TieGoesToEarlierPoint()
    ensures ValueNear([Point(0, 10.0), Point(10, 20.0)], 5) == Some(10.0)
  {
    var s := [Point(0, 10.0), Point(10, 20.0)];
    assert IsNearest(s, 5, 0);
  }
}
