/** The indicator records of `data.json` and the two operations every updater performs on
    them: `find_indicator` (update_data.py:68-74), a first-match, case-insensitive substring
    search on the `name` key, and the in-place refresh of the record it returns
    (`current` overwritten, `meta` created if missing and merged with `dict.update`, `detail`
    overwritten), e.g. update_data.py:165-176. */
module Store {
  import opened Wrappers

  /** A JSON value. `JDay` stands for the ISO date text written under `last_date`. */
  datatype Json =
    | JNull
    | JBool(b: bool)
    | JNum(num: real)
    | JStr(str: string)
    | JDay(day: int)
    | JArr(elems: seq<Json>)
    | JObj(fields: map<string, Json>)

  /** One indicator object of the top-level list. */
  type Record = map<string, Json>

  /** The record shapes the updaters can handle: `name`, when present, is a string (it is
      lower-cased) and `meta`, when present, is an object (it is merged into). */
  predicate Shaped(rec: Record) {
    && ("name" in rec ==> rec["name"].JStr?)
    && ("meta" in rec ==> rec["meta"].JObj?)
  }

  predicate AllShaped(data: seq<Record>) {
    forall i :: 0 <= i < |data| ==> Shaped(data[i])
  }

  /** `item.get("name", "")`. */
  function Name(rec: Record): string
    requires Shaped(rec)
  {
    if "name" in rec then rec["name"].str else ""
  }

  /** `item.get("meta", {})`. */
  function Meta(rec: Record): map<string, Json>
    requires Shaped(rec)
  {
    if "meta" in rec then rec["meta"].fields else map[]
  }

  // ---------------- case folding and substring search ----------------

  /** ASCII case folding of one character. */
  function LowerChar(c: char): (l: char)
    ensures 'A' <= c <= 'Z' ==> l as int == c as int + 32
    ensures !('A' <= c <= 'Z') ==> l == c
    ensures !('A' <= l <= 'Z')
  {
    if 'A' <= c <= 'Z' then (c as int + 32) as char else c
  }

  /** `str.lower()`, restricted to ASCII letters. */
  function Lower(s: string): (l: string)
    ensures |l| == |s|
    ensures forall i :: 0 <= i < |s| ==> l[i] == LowerChar(s[i])
  {
    seq(|s|, i requires 0 <= i < |s| => LowerChar(s[i]))
  }

  /** Folding twice is folding once. */
  lemma LowerIdempotent(s: string)
    ensures Lower(Lower(s)) == Lower(s)
  {
    assert forall i :: 0 <= i < |s| ==> LowerChar(LowerChar(s[i])) == LowerChar(s[i]);
  }

  /** `k` occurs in `s` starting at position `i`. */
  predicate OccursAt(s: string, k: string, i: int) {
    0 <= i && i + |k| <= |s| && s[i..i + |k|] == k
  }

  /** Python's `k in s` for strings. */
  function Contains(s: string, k: string): (b: bool)
    ensures b <==> exists i :: OccursAt(s, k, i)
    decreases |s|
  {
    if |s| < |k| then false
    else if s[..|k|] == k then
      assert OccursAt(s, k, 0);
      true
    else
      var b := Contains(s[1..], k);
      OccursShift(s, k);
      b
  }

  /** An occurrence in `s` past position 0 is an occurrence in `s[1..]`, and back. */
  lemma OccursShift(s: string, k: string)
    requires |s| >= 1 && !OccursAt(s, k, 0)
    ensures (exists i :: OccursAt(s, k, i)) <==> (exists i :: OccursAt(s[1..], k, i))
  {
    forall i | OccursAt(s, k, i)
      ensures OccursAt(s[1..], k, i - 1)
    {
      assert s[1..][i - 1..i - 1 + |k|] == s[i..i + |k|];
    }
    forall i | OccursAt(s[1..], k, i)
      ensures OccursAt(s, k, i + 1)
    {
      assert s[1..][i..i + |k|] == s[i + 1..i + 1 + |k|];
    }
  }

  /** The test of `find_indicator`: `keyword.lower() in item.get("name", "").lower()`. */
  predicate Matches(rec: Record, keyword: string)
    requires Shaped(rec)
  {
    Contains(Lower(Name(rec)), Lower(keyword))
  }

  // ---------------- lookup ----------------

  /** `find_indicator`: the position of the first record whose name matches, or None. */
  function FindIndicator(data: seq<Record>, keyword: string): (r: Option<nat>)
    requires AllShaped(data)
    ensures r.None? <==> forall i :: 0 <= i < |data| ==> !Matches(data[i], keyword)
    ensures r.Some? ==>
      && r.value < |data|
      && Matches(data[r.value], keyword)
      && forall i :: 0 <= i < r.value ==> !Matches(data[i], keyword)
  {
    FindFrom(data, keyword, 0)
  }

  /** The loop of `find_indicator` from position `from` on. */
  function FindFrom(data: seq<Record>, keyword: string, from: nat): (r: Option<nat>)
    requires AllShaped(data) && from <= |data|
    ensures r.None? <==> forall i :: from <= i < |data| ==> !Matches(data[i], keyword)
    ensures r.Some? ==>
      && from <= r.value < |data|
      && Matches(data[r.value], keyword)
      && forall i :: from <= i < r.value ==> !Matches(data[i], keyword)
    decreases |data| - from
  {
    if from == |data| then None
    else if Matches(data[from], keyword) then Some(from)
    else FindFrom(data, keyword, from + 1)
  }

  /** The search ignores the case of the keyword. */
  lemma FindIgnoresKeywordCase(data: seq<Record>, keyword: string)
    requires AllShaped(data)
    ensures FindIndicator(data, Lower(keyword)) == FindIndicator(data, keyword)
  {
    LowerIdempotent(keyword);
    FirstMatchUnique(data, Lower(keyword), keyword);
  }

  /** Two keywords that select the same records select the same first record. */
  lemma FirstMatchUnique(data: seq<Record>, k1: string, k2: string)
    requires AllShaped(data)
    requires forall i :: 0 <= i < |data| ==> (Matches(data[i], k1) <==> Matches(data[i], k2))
    ensures FindIndicator(data, k1) == FindIndicator(data, k2)
  {
    var r1, r2 := FindIndicator(data, k1), FindIndicator(data, k2);
    if r1.Some? && r2.Some? {
      assert !(r1.value < r2.value);
      assert !(r2.value < r1.value);
    }
  }

  // ---------------- refresh ----------------

  /** What an updater writes into the record it found: the new (already rounded) `current`,
      the keys merged into `meta`, and the new `detail` text. */
  datatype Refresh = Refresh(current: real, patch: map<string, Json>, detail: string)

  /** `indicator["current"] = …; indicator.setdefault("meta", {});
      indicator["meta"].update(patch); indicator["detail"] = …`. */
  function ApplyRefresh(rec: Record, rf: Refresh): (r: Record)
    requires Shaped(rec)
    ensures Shaped(r)
    ensures "current" in r && r["current"] == JNum(rf.current)
    ensures "detail" in r && r["detail"] == JStr(rf.detail)
    ensures forall k :: k in Meta(r) <==> k in Meta(rec) || k in rf.patch
    ensures forall k :: k in rf.patch ==> Meta(r)[k] == rf.patch[k]
    ensures forall k :: k in Meta(rec) && k !in rf.patch ==> Meta(r)[k] == Meta(rec)[k]
    ensures forall k :: k != "current" && k != "meta" && k != "detail" ==>
      (k in r <==> k in rec) && (k in rec ==> r[k] == rec[k])
    ensures Name(r) == Name(rec)
  {
    rec["current" := JNum(rf.current)]["meta" := JObj(Meta(rec) + rf.patch)]["detail" := JStr(rf.detail)]
  }

  /** Applying the same refresh twice leaves the record as applying it once. */
  lemma ApplyIdempotent(rec: Record, rf: Refresh)
    requires Shaped(rec)
    ensures ApplyRefresh(ApplyRefresh(rec, rf), rf) == ApplyRefresh(rec, rf)
  {
    var once := ApplyRefresh(rec, rf);
    assert Meta(once) + rf.patch == Meta(rec) + rf.patch;
  }

  /** A refresh computed from the record it is applied to (the USDT.D band reads the old
      `meta`) is stable when recomputing it on its own output gives the same refresh. */
  ghost predicate Stable(refresh: Record -> Option<Refresh>) {
    forall rec :: Shaped(rec) && refresh(rec).Some? ==>
      refresh(ApplyRefresh(rec, refresh(rec).value)) == refresh(rec)
  }

  /** One `update_*` call after its metric is known: look the record up by keyword; leave
      the list alone when none matches or the refresh is None; otherwise refresh the first
      match and nothing else. */
  function UpdateFirstMatch(data: seq<Record>, keyword: string,
                            refresh: Record -> Option<Refresh>): (r: seq<Record>)
    requires AllShaped(data)
    ensures |r| == |data|
    ensures AllShaped(r)
    ensures FindIndicator(data, keyword).None? ==> r == data
    ensures FindIndicator(data, keyword).Some? ==>
      var i := FindIndicator(data, keyword).value;
      && (refresh(data[i]).None? ==> r == data)
      && (refresh(data[i]).Some? ==> r[i] == ApplyRefresh(data[i], refresh(data[i]).value))
      && forall j :: 0 <= j < |data| && j != i ==> r[j] == data[j]
  {
    match FindIndicator(data, keyword)
    case None => data
    case Some(i) =>
      match refresh(data[i])
      case None => data
      case Some(rf) => data[i := ApplyRefresh(data[i], rf)]
  }

  /** After a refresh the same record is still the first match: names are not touched. */
  lemma {:induction false} FindAfterRefresh(data: seq<Record>, keyword: string, rf: Refresh)
    requires AllShaped(data) && FindIndicator(data, keyword).Some?
    ensures var i := FindIndicator(data, keyword).value;
      var r := data[i := ApplyRefresh(data[i], rf)];
      AllShaped(r) && FindIndicator(r, keyword) == Some(i)
  {
    var i := FindIndicator(data, keyword).value;
    var r := data[i := ApplyRefresh(data[i], rf)];
    assert Name(r[i]) == Name(data[i]);
    assert Matches(r[i], keyword);
    assert forall j :: 0 <= j < i ==> r[j] == data[j];
    var f := FindIndicator(r, keyword);
    assert f.Some?;
    assert !(f.value < i);
  }

  /** Running an update twice gives the list of running it once, for any stable refresh. */
  lemma UpdateIdempotent(data: seq<Record>, keyword: string, refresh: Record -> Option<Refresh>)
    requires AllShaped(data)
    requires Stable(refresh)
    ensures UpdateFirstMatch(UpdateFirstMatch(data, keyword, refresh), keyword, refresh)
      == UpdateFirstMatch(data, keyword, refresh)
  {
    var found := FindIndicator(data, keyword);
    if found.Some? && refresh(data[found.value]).Some? {
      var i := found.value;
      var rf := refresh(data[i]).value;
      FindAfterRefresh(data, keyword, rf);
      ApplyIdempotent(data[i], rf);
    }
  }

  /** A refresh that does not depend on the record is stable. */
  lemma ConstantRefreshStable(rf: Option<Refresh>)
    ensures Stable(_ => rf)
  {
  }
}
