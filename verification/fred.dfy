/** The observation filter of `_fred_series` (update_data.py:100-110): the HTTP request
    is left out; the already-decoded observations are the input. */
module Fred {
  import opened Wrappers
  import opened Series

  /** An observation's `value` field: JSON null, or its text together with what
      `float(text)` yields (None when the conversion raises). */
  datatype RawValue = Null | Text(text: string, parsed: Option<real>)

  /** One provider observation; `date` is None when the field is missing or is not
      an ISO calendar date. */
  datatype Observation = Observation(date: Option<int>, value: RawValue)

  /** The placeholders the provider uses for "no observation". */
  predicate IsSentinel(v: RawValue) {
    v.Null? || v.text == "" || v.text == "."
  }

  /** An observation survives the filter: not a placeholder, and both fields convert. */
  predicate Usable(o: Observation) {
    !IsSentinel(o.value) && o.value.parsed.Some? && o.date.Some?
  }

  function ToPoint(o: Observation): Point
    requires Usable(o)
  {
    Point(o.date.value, o.value.parsed.value)
  }

  /** The series built from the observations: usable ones in order, others dropped. */
  function FredSeries(obs: seq<Observation>): (r: TimeSeries)
    ensures |r| <= |obs|
    ensures forall k :: 0 <= k < |r| ==>
      exists j :: 0 <= j < |obs| && Usable(obs[j]) && r[k] == ToPoint(obs[j])
    ensures (forall j :: 0 <= j < |obs| ==> Usable(obs[j])) ==> |r| == |obs|
    ensures (forall j :: 0 <= j < |obs| ==> !Usable(obs[j])) ==> r == []
  {
    if obs == [] then []
    else
      var init := FredSeries(obs[..|obs| - 1]);
      var o := obs[|obs| - 1];
      assert forall j :: 0 <= j < |obs| - 1 ==> obs[..|obs| - 1][j] == obs[j];
      if Usable(o) then init + [ToPoint(o)] else init
  }

  /** Filtering distributes over concatenation: each observation is judged on its own. */
  lemma {:induction false} FredSeriesAppend(a: seq<Observation>, b: seq<Observation>)
    ensures FredSeries(a + b) == FredSeries(a) + FredSeries(b)
    decreases |b|
  {
    if b == [] {
      assert a + b == a;
    } else {
      var b' := b[..|b| - 1];
      assert (a + b)[..|a + b| - 1] == a + b';
      assert (a + b)[|a + b| - 1] == b[|b| - 1];
      FredSeriesAppend(a, b');
    }
  }

  /** A placeholder value never becomes a point, whatever its date and conversion. */
  lemma SentinelDropped(date: Option<int>, parsed: Option<real>)
    ensures FredSeries([Observation(date, Text(".", parsed))]) == []
    ensures FredSeries([Observation(date, Text("", parsed))]) == []
    ensures FredSeries([Observation(date, Null)]) == []
  {
  }
}
