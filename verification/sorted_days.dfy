/** Ascending, duplicate-free sequences of day numbers: the model of `sorted(set_of_days)`.
    A strictly ascending sequence is determined by its elements (`AscendingUnique`), so any
    function returning one with the right elements returns exactly what `sorted` returns. */
module SortedDays {

  /** Sorted with no day repeated. */
  predicate StrictlyAscending(s: seq<int>) {
    forall i, j :: 0 <= i < j < |s| ==> s[i] < s[j]
  }

  /** Prepending a day below every element keeps a sequence strictly ascending. */
  lemma PrependAscending(x: int, s: seq<int>)
    requires StrictlyAscending(s)
    requires forall k :: 0 <= k < |s| ==> x < s[k]
    ensures StrictlyAscending([x] + s)
  {
    var r := [x] + s;
    forall i, j | 0 <= i < j < |r|
      ensures r[i] < r[j]
    {
      assert r[j] == s[j - 1];
      if i > 0 {
        assert r[i] == s[i - 1];
      }
    }
  }

  /** Inserts day `x` into a strictly ascending sequence, keeping it strictly ascending. */
  function Insert(x: int, s: seq<int>): (r: seq<int>)
    requires StrictlyAscending(s)
    ensures StrictlyAscending(r)
    ensures forall y :: y in r <==> y in s || y == x
    ensures x in s ==> r == s
    ensures x !in s ==> |r| == |s| + 1
  {
    if s == [] then [x]
    else if x < s[0] then
      PrependAscending(x, s);
      [x] + s
    else if x == s[0] then s
    else
      var tail := Insert(x, s[1..]);
      ConsAfterInsert(x, s, tail);
      [s[0]] + tail
  }

  /** The recursive case of `Insert`: the head stays in front of the extended tail. */
  lemma ConsAfterInsert(x: int, s: seq<int>, tail: seq<int>)
    requires StrictlyAscending(s) && s != [] && s[0] < x
    requires StrictlyAscending(tail)
    requires forall y :: y in tail <==> y in s[1..] || y == x
    ensures StrictlyAscending([s[0]] + tail)
    ensures forall y :: y in [s[0]] + tail <==> y in s || y == x
  {
    forall k | 0 <= k < |tail|
      ensures s[0] < tail[k]
    {
      assert tail[k] in tail;
      if tail[k] != x {
        var j :| 0 <= j < |s[1..]| && s[1..][j] == tail[k];
        assert s[j + 1] == tail[k];
      }
    }
    PrependAscending(s[0], tail);
    assert s == [s[0]] + s[1..];
  }

  /** The sorted set of the days in `xs`. */
  function FromSeq(xs: seq<int>): (r: seq<int>)
    ensures StrictlyAscending(r)
    ensures forall y :: y in r <==> y in xs
    ensures |r| <= |xs|
  {
    if xs == [] then [] else Insert(xs[0], FromSeq(xs[1..]))
  }

  /** Two strictly ascending sequences with the same elements are equal. */
  lemma {:induction false} AscendingUnique(a: seq<int>, b: seq<int>)
    requires StrictlyAscending(a) && StrictlyAscending(b)
    requires forall y :: y in a <==> y in b
    ensures a == b
  {
    assert a != [] ==> a[0] in a && a[0] in b;
    assert b != [] ==> b[0] in b && b[0] in a;
    if a != [] && b != [] {
      assert a[0] == b[0];
      forall y
        ensures y in a[1..] <==> y in b[1..]
      {
        if y in a[1..] {
          assert y in b && y != b[0];
        }
        if y in b[1..] {
          assert y in a && y != a[0];
        }
      }
      AscendingUnique(a[1..], b[1..]);
      assert a == [a[0]] + a[1..];
      assert b == [b[0]] + b[1..];
    }
  }
}
