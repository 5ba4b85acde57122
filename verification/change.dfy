/** Windowed relative change: `_yoy` (update_data.py:120-129) and `_change_vs_days_ago`
    (update_data.py:132-143). Both compare the LAST point of the list with the value
    nearest to a reference day and divide by the magnitude of that value. */
module Change {
  import opened Wrappers
  import opened Series

  /** The one-year window of `_yoy`, in days. */
  const YEAR_DAYS := 365

  function Abs(x: real): real {
    if x < 0.0 then -x else x
  }

  /** The relative change `(latest - prev) / |prev|` of the source. */
  function Ratio(latest: real, prev: real): (q: real)
    requires prev != 0.0
    ensures q * Abs(prev) == latest - prev
  {
    (latest - prev) / Abs(prev)
  }

  /** `_change_vs_days_ago`: (latest - prev) / |prev|, where prev is the value nearest to
      `days` before the last point's day; None for an empty series or a zero prev. */
  function ChangeVsDaysAgo(s: TimeSeries, days: int): (r: Option<real>)
    ensures |s| == 0 ==> r.None?
    ensures |s| > 0 ==>
      var prev := s[NearestIndex(s, Last(s).day - days)].value;
      && (r.None? <==> prev == 0.0)
      && (r.Some? ==> r.value == Ratio(Last(s).value, prev))
  {
    if |s| == 0 then None
    else
      var latest := Last(s);
      var prev := ValueNear(s, latest.day - days);
      assert prev == Some(s[NearestIndex(s, latest.day - days)].value);
      if prev.None? || prev.value == 0.0 then None
      else Some(Ratio(latest.value, prev.value))
  }

  /** `_yoy`: the same ratio against the value nearest to 365 days before the last point. */
  function YoY(s: TimeSeries): (r: Option<real>)
    ensures |s| == 0 ==> r.None?
    ensures |s| > 0 ==>
      var prev := s[NearestIndex(s, Last(s).day - YEAR_DAYS)].value;
      && (r.None? <==> prev == 0.0)
      && (r.Some? ==> r.value == Ratio(Last(s).value, prev))
  {
    if |s| == 0 then None
    else
      var latest := Last(s);
      var yearAgo := latest.day - YEAR_DAYS;
      var prev := ValueNear(s, yearAgo);
      assert prev == Some(s[NearestIndex(s, yearAgo)].value);
      if prev.None? || prev.value == 0.0 then None
      else Some(Ratio(latest.value, prev.value))
  }

  /** Year-over-year is the windowed change over 365 days. */
  lemma YoYIsYearChange(s: TimeSeries)
    ensures YoY(s) == ChangeVsDaysAgo(s, YEAR_DAYS)
  {
  }

  /** A lone non-zero point is its own reference: the change is 0, not None. */
  lemma {:induction false} SinglePointNoChange(d: int, v: real, days: int)
    requires v != 0.0
    ensures ChangeVsDaysAgo([Point(d, v)], days) == Some(0.0)
    ensures YoY([Point(d, v)]) == Some(0.0)
  {
    assert IsNearest([Point(d, v)], d - days, 0);
    assert IsNearest([Point(d, v)], d - YEAR_DAYS, 0);
  }

  /** A zero reference value leaves the change indeterminate. */
  lemma {:induction false} ZeroReferenceUndefined(d: int, v: real)
    ensures YoY([Point(d - YEAR_DAYS, 0.0), Point(d, v)]) == None
  {
    assert IsNearest([Point(d - YEAR_DAYS, 0.0), Point(d, v)], d - YEAR_DAYS, 0);
  }

  /** 100 a year ago and 110 now is a ten percent rise. */
  lemma {:induction false} TenPercentRise(d: int)
    ensures YoY([Point(d - YEAR_DAYS, 100.0), Point(d, 110.0)]) == Some(0.1)
  {
    assert IsNearest([Point(d - YEAR_DAYS, 100.0), Point(d, 110.0)], d - YEAR_DAYS, 0);
  }
}
