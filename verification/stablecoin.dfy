/** Stablecoin supply growth: the start-point selection of `_coingecko_growth`
    (update_data.py:409-430) and the averaging of `update_stablecoin_growth`
    (update_data.py:439-452). The market-chart request is left out; its `market_caps`
    list is the input. */
module Stablecoin {
  import opened Wrappers
  import opened Numeric

  /** One `[timestamp_ms, market_cap]` entry; the cap is None for a JSON null. */
  datatype Cap = Cap(ts: int, cap: Option<real>)

  /** 90 days in milliseconds: `90 * 24 * 3600 * 1000`. */
  const NINETY_DAYS_MS: int := 90 * 24 * 3600 * 1000

  /** Position of the first entry at or after `target`, in list order. */
  function FirstAtOrAfter(caps: seq<Cap>, target: int): (r: Option<nat>)
    ensures r.None? <==> forall j :: 0 <= j < |caps| ==> caps[j].ts < target
    ensures r.Some? ==> r.value < |caps| && caps[r.value].ts >= target
    ensures r.Some? ==> forall j :: 0 <= j < r.value ==> caps[j].ts < target
  {
    if caps == [] then None
    else if caps[0].ts >= target then Some(0)
    else
      match FirstAtOrAfter(caps[1..], target)
      case None => None
      case Some(i) => Some(i + 1)
  }

  /** The start of the window: 90 days before the last entry. */
  function Target(caps: seq<Cap>): int
    requires |caps| > 0
  {
    caps[|caps| - 1].ts - NINETY_DAYS_MS
  }

  /** The start value: the cap of the first entry at or after the target; when that cap
      is null (`start_val is None`), the cap of the first entry. */
  function StartValue(caps: seq<Cap>): (r: Option<real>)
    requires |caps| > 0
    ensures forall i :: 0 <= i < |caps| && caps[i].ts >= Target(caps)
                        && (forall j :: 0 <= j < i ==> caps[j].ts < Target(caps)) ==>
      r == if caps[i].cap.Some? then caps[i].cap else caps[0].cap
  {
    match FirstAtOrAfter(caps, Target(caps))
    case Some(i) => if caps[i].cap.Some? then caps[i].cap else caps[0].cap
    case None => caps[0].cap
  }

  /** The search always finds an entry, the last one at the latest: the fallback to the
      first cap fires only when the entry found has a null cap. */
  lemma SearchFindsAnEntry(caps: seq<Cap>)
    requires |caps| > 0
    ensures FirstAtOrAfter(caps, Target(caps)).Some?
  {
    assert caps[|caps| - 1].ts >= Target(caps);
  }

  /** `_coingecko_growth` once the caps are fetched: the percentage growth from the start
      value to the last cap. None for fewer than two entries or a non-positive start; also
      None when the start or the last cap is null, where the source raises a TypeError
      that its caller catches and treats like None. */
  function Growth(caps: seq<Cap>): (r: Option<real>)
    ensures r.Some? <==>
      |caps| >= 2 && StartValue(caps).Some? && StartValue(caps).value > 0.0
      && caps[|caps| - 1].cap.Some?
    ensures r.Some? ==>
      r.value * StartValue(caps).value
        == (caps[|caps| - 1].cap.value - StartValue(caps).value) * 100.0
  {
    if |caps| < 2 then None
    else
      match StartValue(caps)
      case None => None
      case Some(startVal) =>
        if startVal <= 0.0 then None
        else
          match caps[|caps| - 1].cap
          case None => None
          case Some(lastVal) => Some((lastVal - startVal) / startVal * 100.0)
  }

  /** A null cap at the start of the window falls back to the first cap: 100 at day 0, null
      at day 10 and 110 at day 100 give a growth of 10 percent. */
  lemma NullStartFallsBack()
    ensures var day := 24 * 3600 * 1000;
      Growth([Cap(0, Some(100.0)), Cap(10 * day, None), Cap(100 * day, Some(110.0))])
        == Some(10.0)
  {
    var day := 24 * 3600 * 1000;
    var caps := [Cap(0, Some(100.0)), Cap(10 * day, None), Cap(100 * day, Some(110.0))];
    assert Target(caps) == 10 * day;
    assert caps[0].ts < Target(caps) && caps[1].ts >= Target(caps);
    assert StartValue(caps) == Some(100.0);
  }

  /** The successful results, in order. */
  function Successes(results: seq<Option<real>>): (gs: seq<real>)
    ensures |gs| <= |results|
    ensures (forall i :: 0 <= i < |results| ==> results[i].None?) <==> gs == []
  {
    if results == [] then []
    else
      var rest := Successes(results[1..]);
      assert forall i :: 1 <= i < |results| ==> results[i] == results[1..][i - 1];
      if results[0].Some? then [results[0].value] + rest else rest
  }

  /** The successes are exactly the values of the successful results. */
  lemma {:induction false} SuccessesAreTheValues(results: seq<Option<real>>)
    ensures forall x :: x in Successes(results) ==> Some(x) in results
    ensures forall x :: Some(x) in results ==> x in Successes(results)
  {
    if results != [] {
      SuccessesAreTheValues(results[1..]);
      assert results == [results[0]] + results[1..];
    }
  }

  /** Each result is judged on its own, in order: a success appends its value, a failure
      nothing. With `Successes([]) == []` this fixes the list of successes. */
  lemma {:induction false} SuccessesAppend(results: seq<Option<real>>, g: Option<real>)
    ensures Successes(results + [g]) == Successes(results) + (if g.Some? then [g.value] else [])
  {
    if results == [] {
      assert results + [g] == [g];
      assert [g][1..] == [];
    } else {
      assert (results + [g])[1..] == results[1..] + [g];
      SuccessesAppend(results[1..], g);
    }
  }

  /** The mean of the successful results; None only when every source failed. */
  function AverageOfSuccesses(results: seq<Option<real>>): (r: Option<real>)
    ensures r.None? <==> forall i :: 0 <= i < |results| ==> results[i].None?
    ensures r.Some? ==> r.value * |Successes(results)| as real == Sum(Successes(results))
  {
    var gs := Successes(results);
    if gs == [] then None else Some(Sum(gs) / |gs| as real)
  }

  /** Failed sources do not count: dropping them changes nothing. */
  lemma {:induction false} FailuresIgnored(results: seq<Option<real>>, more: seq<Option<real>>)
    requires forall i :: 0 <= i < |more| ==> more[i].None?
    ensures Successes(results + more) == Successes(results)
    ensures AverageOfSuccesses(results + more) == AverageOfSuccesses(results)
  {
    if results == [] {
      assert results + more == more;
    } else {
      assert (results + more)[1..] == results[1..] + more;
      FailuresIgnored(results[1..], more);
    }
  }

  /** One failing and one succeeding source: the success passes through unchanged,
      whichever order they come in. */
  lemma OneFailureTolerated(v: real)
    ensures AverageOfSuccesses([None, Some(v)]) == Some(v)
    ensures AverageOfSuccesses([Some(v), None]) == Some(v)
  {
    assert Successes([None, Some(v)]) == [v] by {
      assert [None, Some(v)][1..] == [Some(v)];
      assert [Some(v)][1..] == [];
    }
    assert Successes([Some(v), None]) == [v] by {
      assert [Some(v), None][1..] == [None];
      var tail: seq<Option<real>> := [None];
      assert tail[1..] == [];
    }
    assert Sum([v]) == v by {
      assert [v][1..] == [];
    }
  }

  /** Both coins succeeding: both growths are kept, in order, and averaged. */
  lemma BothSucceedAveraged(a: real, b: real)
    ensures Successes([Some(a), Some(b)]) == [a, b]
    ensures AverageOfSuccesses([Some(a), Some(b)]) == Some((a + b) / 2.0)
  {
    var results := [Some(a), Some(b)];
    assert results[1..] == [Some(b)];
    assert [Some(b)][1..] == [];
    assert Successes(results) == [a, b];
    assert Sum([a, b]) == a + b by {
      assert [a, b][1..] == [b];
      assert [b][1..] == [];
      assert Sum([b]) == b;
    }
    assert AverageOfSuccesses(results) == Some(Sum([a, b]) / 2.0);
  }

  lemma {:induction false} SumBounds(xs: seq<real>, lo: real, hi: real)
    requires forall i :: 0 <= i < |xs| ==> lo <= xs[i] <= hi
    ensures |xs| as real * lo <= Sum(xs) <= |xs| as real * hi
  {
    if xs != [] {
      SumBounds(xs[1..], lo, hi);
    }
  }

  lemma DivBounds(sum: real, n: real, lo: real, hi: real)
    requires n > 0.0 && n * lo <= sum <= n * hi
    ensures lo <= sum / n <= hi
  {
  }

  /** Successes respect any bounds every successful result respects. */
  lemma {:induction false} SuccessesWithin(results: seq<Option<real>>, lo: real, hi: real)
    requires forall i :: 0 <= i < |results| && results[i].Some? ==> lo <= results[i].value <= hi
    ensures forall k :: 0 <= k < |Successes(results)| ==> lo <= Successes(results)[k] <= hi
  {
    if results != [] {
      assert forall i :: 1 <= i < |results| ==> results[1..][i - 1] == results[i];
      SuccessesWithin(results[1..], lo, hi);
    }
  }

  /** The average lies within any bounds that all successful results respect. */
  lemma AverageWithinBounds(results: seq<Option<real>>, lo: real, hi: real)
    requires forall i :: 0 <= i < |results| && results[i].Some? ==> lo <= results[i].value <= hi
    ensures AverageOfSuccesses(results).Some? ==> lo <= AverageOfSuccesses(results).value <= hi
  {
    var gs := Successes(results);
    if gs != [] {
      SuccessesWithin(results, lo, hi);
      SumBounds(gs, lo, hi);
      DivBounds(Sum(gs), |gs| as real, lo, hi);
    }
  }
}
