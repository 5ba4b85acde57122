/** The net-liquidity composite `_merge_net_liquidity` (update_data.py:269-283):
    balance sheet minus reverse repo minus Treasury account, on the union of all days. */
module NetLiquidity {
  import opened Wrappers
  import opened Series
  import opened SortedDays

  /** `_value_near(series, d) or 0.0`: the nearest value, 0.0 for an empty source. A
      nearest value of 0.0 is falsy in Python and is replaced by 0.0, which is itself. */
  function NearOrZero(s: TimeSeries, d: int): (v: real)
    ensures |s| == 0 ==> v == 0.0
    ensures forall i :: IsNearest(s, d, i) ==> v == s[i].value
  {
    ValueNear(s, d).GetOr(0.0)
  }

  /** The composite series: one point per distinct day of any source, in ascending
      order, valued BS - RRP - TGA with each source read at its nearest point. */
  function MergeNetLiquidity(rrp: TimeSeries, tga: TimeSeries, bs: TimeSeries): (r: TimeSeries)
    ensures StrictlyAscending(Days(r))
    ensures forall d :: d in Days(r) <==> d in Days(rrp) || d in Days(tga) || d in Days(bs)
    ensures forall k :: 0 <= k < |r| ==>
      r[k].value == NearOrZero(bs, r[k].day) - NearOrZero(rrp, r[k].day) - NearOrZero(tga, r[k].day)
  {
    var all := Days(rrp) + Days(tga) + Days(bs);
    var days := FromSeq(all);
    var r := seq(|days|, k requires 0 <= k < |days| =>
      Point(days[k], NearOrZero(bs, days[k]) - NearOrZero(rrp, days[k]) - NearOrZero(tga, days[k])));
    assert Days(r) == days;
    r
  }

  /** The composite is no longer than its sources together. */
  lemma MergeLength(rrp: TimeSeries, tga: TimeSeries, bs: TimeSeries)
    ensures |MergeNetLiquidity(rrp, tga, bs)| <= |rrp| + |tga| + |bs|
  {
    var r := MergeNetLiquidity(rrp, tga, bs);
    assert Days(r) == FromSeq(Days(rrp) + Days(tga) + Days(bs)) by {
      AscendingUnique(Days(r), FromSeq(Days(rrp) + Days(tga) + Days(bs)));
    }
  }

  /** Three single-point sources on one day: 10 - 4 - 1 = 5. */
  lemma {:induction false} OneDayComposite(d: int)
    ensures MergeNetLiquidity([Point(d, 4.0)], [Point(d, 1.0)], [Point(d, 10.0)]) == [Point(d, 5.0)]
  {
    var rrp, tga, bs := [Point(d, 4.0)], [Point(d, 1.0)], [Point(d, 10.0)];
    assert Days(rrp) + Days(tga) + Days(bs) == [d, d, d];
    assert FromSeq([d, d, d]) == [d];
    assert NearOrZero(rrp, d) == 4.0 by { assert IsNearest(rrp, d, 0); }
    assert NearOrZero(tga, d) == 1.0 by { assert IsNearest(tga, d, 0); }
    assert NearOrZero(bs, d) == 10.0 by { assert IsNearest(bs, d, 0); }
  }
}
