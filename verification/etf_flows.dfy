/** Five-day ETF net flow: the aggregation of `fetch_sosovalue_etf_flows`
    (update_data.py:536-551). The HTTP request is left out; the `items` list is the input.
    Flows are summed per day, then the totals of the five most recent distinct days are
    summed. */
module EtfFlows {
  import opened Wrappers
  import opened SortedDays

  /** One feed record: `date` is None when the key is missing or null; `flow` is None when
      the key is missing or null. */
  datatype FlowItem = FlowItem(date: Option<int>, flow: Option<real>)

  /** How many of the most recent days are summed. */
  const RECENT_DAYS := 5

  /** `float(item.get("flow", 0) or 0)`: a missing or null flow counts as 0. */
  function FlowAmount(it: FlowItem): (f: real)
    ensures it.flow.None? ==> f == 0.0
    ensures it.flow.Some? ==> f == it.flow.value
  {
    it.flow.GetOr(0.0)
  }

  /** Some record of `items` carries day `d`. */
  predicate HasDay(items: seq<FlowItem>, d: int) {
    exists j :: 0 <= j < |items| && items[j].date == Some(d)
  }

  /** A day occurs in a non-empty list iff it occurs before the last record or on it. */
  lemma HasDayOfPrefix(items: seq<FlowItem>)
    requires items != []
    ensures forall d :: HasDay(items, d) <==>
      HasDay(items[..|items| - 1], d) || items[|items| - 1].date == Some(d)
  {
    var init := items[..|items| - 1];
    forall d
      ensures HasDay(items, d) <==> HasDay(init, d) || items[|items| - 1].date == Some(d)
    {
      if HasDay(init, d) {
        var j :| 0 <= j < |init| && init[j].date == Some(d);
        assert items[j] == init[j];
      }
    }
  }

  /** `daily[day] = daily.get(day, 0.0) + flow`. */
  function AddFlow(m: map<int, real>, d: int, f: real): map<int, real> {
    m[d := (if d in m then m[d] else 0.0) + f]
  }

  /** The sum of the flows of the records dated `d`, without any dictionary. */
  function DayTotal(items: seq<FlowItem>, d: int): real {
    if items == [] then 0.0
    else
      var it := items[|items| - 1];
      DayTotal(items[..|items| - 1], d) + (if it.date == Some(d) then FlowAmount(it) else 0.0)
  }

  /** The `daily` dictionary after the loop: a key for every day some record carries, and
      under it the sum of that day's flows. */
  function Daily(items: seq<FlowItem>): (m: map<int, real>)
    ensures forall d :: d in m <==> HasDay(items, d)
    ensures forall d :: d in m ==> m[d] == DayTotal(items, d)
    ensures forall d :: d !in m ==> DayTotal(items, d) == 0.0
  {
    if items == [] then map[]
    else
      var init := items[..|items| - 1];
      var m := Daily(init);
      var it := items[|items| - 1];
      HasDayOfPrefix(items);
      match it.date
      case None => m
      case Some(d) => AddFlow(m, d, FlowAmount(it))
  }

  /** `sorted(daily.keys())`: the days of `Daily(items)`, ascending. Built alongside the
      dictionary, one insertion per dated record. */
  function DaySeq(items: seq<FlowItem>): (ks: seq<int>)
    ensures StrictlyAscending(ks)
    ensures forall d :: d in ks <==> d in Daily(items)
  {
    if items == [] then []
    else
      var ks := DaySeq(items[..|items| - 1]);
      match items[|items| - 1].date
      case None => ks
      case Some(d) => Insert(d, ks)
  }

  /** `[-5:]`: the last five entries, or all of them when there are fewer. */
  function LastFive(ks: seq<int>): (r: seq<int>)
    ensures |r| == if |ks| <= RECENT_DAYS then |ks| else RECENT_DAYS
    ensures r == ks[|ks| - |r|..]
  {
    if |ks| <= RECENT_DAYS then ks else ks[|ks| - RECENT_DAYS..]
  }

  /** The kept entries of a strictly ascending list are ascending and lie above every
      dropped entry. */
  lemma LastFiveAreLatest(ks: seq<int>)
    requires StrictlyAscending(ks)
    ensures StrictlyAscending(LastFive(ks))
    ensures forall d, e :: d in ks && d !in LastFive(ks) && e in LastFive(ks) ==> d < e
  {
    var r := LastFive(ks);
    SuffixAscending(ks, |ks| - |r|);
    SuffixAbovePrefix(ks, |ks| - |r|);
  }

  /** A suffix of a strictly ascending list is strictly ascending. */
  lemma SuffixAscending(ks: seq<int>, cut: nat)
    requires StrictlyAscending(ks) && cut <= |ks|
    ensures StrictlyAscending(ks[cut..])
  {
    var r := ks[cut..];
    forall i, j | 0 <= i < j < |r|
      ensures r[i] < r[j]
    {
      assert r[i] == ks[cut + i] && r[j] == ks[cut + j];
    }
  }

  /** In a strictly ascending list, whatever is not in the suffix from `cut` lies below
      everything in it. */
  lemma SuffixAbovePrefix(ks: seq<int>, cut: nat)
    requires StrictlyAscending(ks) && cut <= |ks|
    ensures forall d, e :: d in ks && d !in ks[cut..] && e in ks[cut..] ==> d < e
  {
    var r := ks[cut..];
    assert forall i :: cut <= i < |ks| ==> ks[i] == r[i - cut];
    forall d, e | d in ks && d !in r && e in r
      ensures d < e
    {
      var i :| 0 <= i < |ks| && ks[i] == d;
      var k :| 0 <= k < |r| && r[k] == e;
      assert r[k] == ks[cut + k];
    }
  }

  /** The days whose totals enter the result: the (up to) five latest days of `daily`. */
  function RecentDays(items: seq<FlowItem>): (r: seq<int>)
    ensures StrictlyAscending(r)
    ensures forall d :: d in r ==> d in Daily(items)
    ensures |r| == if |Daily(items)| <= RECENT_DAYS then |Daily(items)| else RECENT_DAYS
    ensures forall d, e :: d in Daily(items) && d !in r && e in r ==> d < e
  {
    var ks := DaySeq(items);
    LastFiveAreLatest(ks);
    KeyCount(ks, Daily(items));
    LastFive(ks)
  }

  /** A duplicate-free list of exactly the keys of `m` has |m| entries. */
  lemma {:induction false} KeyCount(ks: seq<int>, m: map<int, real>)
    requires StrictlyAscending(ks)
    requires forall d :: d in ks <==> d in m
    ensures |ks| == |m|
  {
    if ks == [] {
      assert m.Keys == {};
    } else {
      var m' := map d | d in m && d != ks[0] :: m[d];
      assert m'.Keys == m.Keys - {ks[0]};
      forall d
        ensures d in ks[1..] <==> d in m'
      {
        if d in ks[1..] {
          var i :| 0 <= i < |ks[1..]| && ks[1..][i] == d;
          assert ks[i + 1] == d;
        }
        if d in m' {
          var i :| 0 <= i < |ks| && ks[i] == d;
          assert i != 0;
          assert ks[1..][i - 1] == d;
        }
      }
      KeyCount(ks[1..], m');
    }
  }

  /** Sum of the day totals of `ks` (a day missing from `m` counts as 0; the model only
      sums keys of `m`). */
  function SumDays(ks: seq<int>, m: map<int, real>): real {
    if ks == [] then 0.0 else (if ks[0] in m then m[ks[0]] else 0.0) + SumDays(ks[1..], m)
  }

  /** Sum of all flows of records that carry a date. */
  function TotalDated(items: seq<FlowItem>): real {
    if items == [] then 0.0
    else
      var it := items[|items| - 1];
      TotalDated(items[..|items| - 1]) + (if it.date.Some? then FlowAmount(it) else 0.0)
  }

  /** Sum of `DayTotal` over the days `ks`. */
  function SumDayTotals(ks: seq<int>, items: seq<FlowItem>): real {
    if ks == [] then 0.0 else DayTotal(items, ks[0]) + SumDayTotals(ks[1..], items)
  }

  /** `fetch_sosovalue_etf_flows` after the fetch: None for an empty list, otherwise the
      sum of the day totals over the recent days. */
  function EtfNetFlow5d(items: seq<FlowItem>): (r: Option<real>)
    ensures r.None? <==> items == []
    ensures r.Some? ==> r.value == SumDays(RecentDays(items), Daily(items))
    ensures r.Some? ==> r.value == SumDayTotals(RecentDays(items), items)
  {
    if items == [] then None
    else
      DictionaryAgrees(RecentDays(items), items);
      Some(SumDays(RecentDays(items), Daily(items)))
  }

  /** Summing `daily` over days it holds is summing the flows of those days. */
  lemma {:induction false} DictionaryAgrees(ks: seq<int>, items: seq<FlowItem>)
    requires forall d :: d in ks ==> d in Daily(items)
    ensures SumDays(ks, Daily(items)) == SumDayTotals(ks, items)
  {
    if ks != [] {
      DictionaryAgrees(ks[1..], items);
    }
  }

  // ---------------- properties ----------------

  /** Changing a day outside `ks` does not change their sum. */
  lemma {:induction false} SumDaysFrame(ks: seq<int>, m: map<int, real>, d: int, v: real)
    requires d !in ks
    ensures SumDays(ks, m[d := v]) == SumDays(ks, m)
  {
    if ks != [] {
      SumDaysFrame(ks[1..], m, d, v);
    }
  }

  /** Adding `f` to a day listed once adds `f` to the sum. */
  lemma {:induction false} SumDaysBump(ks: seq<int>, m: map<int, real>, d: int, f: real)
    requires StrictlyAscending(ks)
    requires d in ks && d in m
    ensures SumDays(ks, m[d := m[d] + f]) == SumDays(ks, m) + f
  {
    if ks[0] == d {
      assert d !in ks[1..];
      SumDaysFrame(ks[1..], m, d, m[d] + f);
    } else {
      SumDaysBump(ks[1..], m, d, f);
    }
  }

  /** Inserting a new day with total `v` adds `v` to the sum. */
  lemma {:induction false} SumDaysInsert(ks: seq<int>, m: map<int, real>, d: int, v: real)
    requires StrictlyAscending(ks)
    requires d !in ks
    ensures SumDays(Insert(d, ks), m[d := v]) == v + SumDays(ks, m)
  {
    if ks == [] {
    } else if d < ks[0] {
      SumDaysFrame(ks, m, d, v);
    } else {
      SumDaysInsert(ks[1..], m, d, v);
    }
  }

  /** One step of the loop for a record with a date. */
  lemma DatedStep(items: seq<FlowItem>)
    requires items != [] && items[|items| - 1].date.Some?
    ensures var it := items[|items| - 1];
      var d, m := it.date.value, Daily(items[..|items| - 1]);
      Daily(items) == AddFlow(m, d, FlowAmount(it))
  {
  }

  lemma DatedDaysStep(items: seq<FlowItem>)
    requires items != [] && items[|items| - 1].date.Some?
    ensures DaySeq(items) == Insert(items[|items| - 1].date.value, DaySeq(items[..|items| - 1]))
  {
  }

  /** One step of the loop for a record without a date. */
  lemma UndatedStep(items: seq<FlowItem>)
    requires items != [] && items[|items| - 1].date.None?
    ensures Daily(items) == Daily(items[..|items| - 1])
    ensures DaySeq(items) == DaySeq(items[..|items| - 1])
  {
  }

  /** Folding one dated flow into the dictionary and the key list adds it to the sum. */
  lemma SumDaysStep(ks: seq<int>, m: map<int, real>, d: int, f: real)
    requires StrictlyAscending(ks)
    requires forall x :: x in ks <==> x in m
    ensures SumDays(Insert(d, ks), AddFlow(m, d, f)) == SumDays(ks, m) + f
  {
    if d in m {
      assert Insert(d, ks) == ks;
      assert AddFlow(m, d, f) == m[d := m[d] + f];
      SumDaysBump(ks, m, d, f);
    } else {
      assert AddFlow(m, d, f) == m[d := f];
      SumDaysInsert(ks, m, d, f);
    }
  }

  /** Summing every day total gives the sum of all dated flows. */
  lemma {:induction false} AllDaysTotal(items: seq<FlowItem>)
    ensures SumDays(DaySeq(items), Daily(items)) == TotalDated(items)
  {
    if items != [] {
      var init := items[..|items| - 1];
      var it := items[|items| - 1];
      AllDaysTotal(init);
      if it.date.None? {
        UndatedStep(items);
      } else {
        var ks, m, d, f := DaySeq(init), Daily(init), it.date.value, FlowAmount(it);
        DatedStep(items);
        DatedDaysStep(items);
        assert DaySeq(items) == Insert(d, ks);
        assert Daily(items) == AddFlow(m, d, f);
        SumDaysStep(ks, m, d, f);
      }
    }
  }

  /** With at most five distinct days the result is the total of all dated flows. */
  lemma FewDaysSumEverything(items: seq<FlowItem>)
    requires items != []
    requires |DaySeq(items)| <= RECENT_DAYS
    ensures EtfNetFlow5d(items) == Some(TotalDated(items))
  {
    AllDaysTotal(items);
  }

  lemma {:induction false} UndatedHaveNoDays(items: seq<FlowItem>)
    requires forall j :: 0 <= j < |items| ==> items[j].date.None?
    ensures DaySeq(items) == []
  {
    if items != [] {
      UndatedHaveNoDays(items[..|items| - 1]);
    }
  }

  /** Records without a date are skipped entirely: if none has one, the sum is 0. */
  lemma UndatedContributeNothing(items: seq<FlowItem>)
    requires items != []
    requires forall j :: 0 <= j < |items| ==> items[j].date.None?
    ensures EtfNetFlow5d(items) == Some(0.0)
  {
    UndatedHaveNoDays(items);
  }
}
