# BTC dashboard indicator updater — Dafny model

`update_data.py` refreshes seven indicator records of a BTC dashboard (`data.json`) from
FRED, CoinGecko, Yahoo Finance and SoSoValue. This project models its computation layer
as pure Dafny functions over in-memory inputs, and proves what each step guarantees:

- **FRED series** (`Fred`): placeholder and unconvertible observations are dropped.
- **Nearest-date lookup** (`Series`): `_value_near` picks the point closest to a target
  day. Ties go to the earlier list position, as with Python's `min`.
- **Windowed change** (`Change`): `_yoy` and `_change_vs_days_ago` compute
  `(latest - prev) / |prev|`.
- **Net-liquidity composite** (`NetLiquidity`, `SortedDays`): `BS - RRP - TGA` on the
  sorted union of all days.
- **Beta regression** (`Beta`): window pairing and the population cov/var slope.
- **Stablecoin growth** (`Stablecoin`): the 90-day start point and the average over the
  coins that succeeded.
- **ETF five-day flow** (`EtfFlows`): per-day totals, summed over the five latest days.
- **Record lookup and refresh** (`Store`): `find_indicator` and the `current` / `meta` /
  `detail` update.
- **The seven updaters** (`Updates`), with scalar helpers in `Numeric` (`_clamp`,
  `round`).

Days are integer day numbers and CoinGecko timestamps are integer milliseconds. Values
are exact `real`s. A fetch that raises is a `None` input: the source catches it and
leaves the data unchanged. One exception the source does not catch is modelled too:
the USDT.D update returns `None` when its detail line cannot format a band value,
since the whole run then stops before saving.

## Model

| member | source | states |
|---|---|---|
| Fred.FredSeries | update_data.py:100-110 | output points come from usable observations only; all usable keeps every one; none usable gives the empty series |
| Fred.FredSeriesAppend | update_data.py:101-109 | each observation is judged on its own: the filter distributes over concatenation |
| Fred.SentinelDropped | update_data.py:103-104 | a null, empty or "." value is dropped whatever its date and conversion |
| Series.NearestIndex | update_data.py:116 | the chosen point has minimal distance to the target and every earlier point is strictly farther (first minimum wins) |
| Series.NearestUnique | update_data.py:116 | at most one index satisfies the nearest-with-tie-break condition, so the choice is determined |
| Series.ValueNear | update_data.py:113-117 | None exactly for an empty series; otherwise the value of the nearest point |
| Series.TieGoesToEarlierPoint | update_data.py:116 | of two points at equal distance the earlier one is returned |
| Change.Ratio | update_data.py:129 | the ratio times the magnitude of the reference equals the difference latest minus reference |
| Change.ChangeVsDaysAgo | update_data.py:132-143 | None for an empty series or a zero reference; otherwise the change of the last point against the value nearest to `days` before it |
| Change.YoY | update_data.py:120-129 | the same over 365 days: None iff empty or the year-ago reference is zero |
| Change.YoYIsYearChange | update_data.py:120-143 | YoY equals the windowed change over 365 days |
| Change.SinglePointNoChange | update_data.py:120-143 | a one-point series with a nonzero value yields 0, not None |
| Change.ZeroReferenceUndefined | update_data.py:127-128 | a zero value a year back gives None |
| Change.TenPercentRise | update_data.py:129 | 100 a year ago and 110 now gives 0.1 |
| SortedDays.Insert | update_data.py:277 | inserting into a strictly ascending list keeps it strictly ascending, adds exactly the new day, and is the identity on a day already present |
| SortedDays.FromSeq | update_data.py:275-277 | the result is strictly ascending with exactly the days of the input |
| SortedDays.AscendingUnique | update_data.py:277 | two strictly ascending lists with the same days are equal, so `FromSeq` is `sorted(set(...))` |
| NetLiquidity.NearOrZero | update_data.py:278-280 | 0 for an empty source; otherwise the nearest value |
| NetLiquidity.MergeNetLiquidity | update_data.py:269-283 | days strictly ascending and equal to the union of the three sources' days; each value is bs - rrp - tga at that day |
| NetLiquidity.MergeLength | update_data.py:275 | the composite has at most as many points as the sources together |
| NetLiquidity.OneDayComposite | update_data.py:278-282 | three single points on one day give one point 10 - 4 - 1 = 5 |
| Beta.Regression | update_data.py:334-343 | Some iff at least 20 pairs and nonzero population variance; then slope times variance equals covariance |
| Beta.PairIndices | update_data.py:325-332 | exactly the in-window, priced points are paired, in list order |
| Beta.WindowPairs | update_data.py:290-292 | exactly the points whose day lies in [last - 365, last] and that have a price, in list order |
| Beta.BetaVsBtc | update_data.py:286-343 | None for an empty series; Some iff enough window pairs with spread; the slope relation of the regression |
| Beta.RegressionOfLine | update_data.py:337-343 | prices exactly on a line k x + c give slope k |
| Beta.BetaOfLine | update_data.py:324-343 | the same for a whole series whose prices lie on a line |
| Beta.PairsOnLine | update_data.py:325-332 | pairing keeps the line relation between values and prices |
| Beta.VarianceNonNegative | update_data.py:340 | population variance is never negative |
| Beta.VarianceOfFlat | update_data.py:340-342 | equal values have zero variance |
| Beta.BetaOfFlatWindow | update_data.py:340-342 | a series with one constant value yields no beta |
| Stablecoin.FirstAtOrAfter | update_data.py:421-424 | the first cap at or after the target, in list order; None iff none qualifies |
| Stablecoin.StartValue | update_data.py:418-426 | the cap of the first entry at or after 90 days before the last one; the first entry's cap when that cap is null |
| Stablecoin.SearchFindsAnEntry | update_data.py:421-426 | the search always finds an entry (the last one qualifies), so the fallback fires only on a null cap |
| Stablecoin.NullStartFallsBack | update_data.py:421-430 | caps 100, null, 110 with the null one opening the window give a growth of 10 percent |
| Stablecoin.Growth | update_data.py:409-430 | None below two caps, for a null or non-positive start, or a null last cap; otherwise growth times start equals (last - start) * 100 |
| Stablecoin.Successes | update_data.py:440-446 | no successes iff every coin failed |
| Stablecoin.SuccessesAreTheValues | update_data.py:440-446 | a value is among the successes iff some coin returned it |
| Stablecoin.SuccessesAppend | update_data.py:440-446 | each coin's result is appended in fetch order when it succeeded, nothing otherwise |
| Stablecoin.BothSucceedAveraged | update_data.py:440-452 | with both coins succeeding both growths are kept, in order, and the result is their mean |
| Stablecoin.AverageOfSuccesses | update_data.py:448-452 | None iff every coin failed; otherwise the mean of the successes |
| Stablecoin.FailuresIgnored | update_data.py:440-452 | failed coins change neither the list of growths nor the average |
| Stablecoin.OneFailureTolerated | update_data.py:440-452 | with one coin failing the other coin's growth is the result, in either order |
| Stablecoin.AverageWithinBounds | update_data.py:452 | the average lies within any bounds all successes respect |
| EtfFlows.FlowAmount | update_data.py:544 | a missing or null flow counts as 0 |
| EtfFlows.Daily | update_data.py:541-547 | a day is a key iff some record carries it, and its value is the sum of the flows dated that day |
| EtfFlows.DaySeq | update_data.py:549 | the keys in strictly ascending order |
| EtfFlows.LastFive | update_data.py:549 | at most five entries, the suffix of the list |
| EtfFlows.LastFiveAreLatest | update_data.py:549 | the kept days are ascending and above every dropped day |
| EtfFlows.RecentDays | update_data.py:549 | min(5, number of days) keys of `daily`, ascending, each later than every key left out |
| EtfFlows.KeyCount | update_data.py:549 | a duplicate-free list of the keys has as many entries as the map |
| EtfFlows.EtfNetFlow5d | update_data.py:536-551 | None iff the item list is empty; otherwise the sum, over the five latest days, of each day's flows |
| EtfFlows.DictionaryAgrees | update_data.py:547-550 | summing `daily` over days it holds equals summing each day's flows taken from the items |
| EtfFlows.SumDaysStep | update_data.py:547 | adding one dated flow to `daily` adds it to the sum over all days |
| EtfFlows.AllDaysTotal | update_data.py:541-550 | the sum over all day totals is the total of all dated flows |
| EtfFlows.FewDaysSumEverything | update_data.py:549-550 | with at most five days the result is the total of all dated flows |
| EtfFlows.UndatedContributeNothing | update_data.py:545-546 | if no item has a date the result is 0 |
| Numeric.Clamp | update_data.py:80-81 | the result lies in [lo, hi] when lo <= hi, is the value when inside, and a bound when outside |
| Numeric.ClampIdempotent | update_data.py:80-81 | clamping twice is clamping once |
| Numeric.RoundHalfEven | update_data.py:170 | within 1/2 of the input, exact on integers, even on ties |
| Numeric.Round | update_data.py:170 | the result is a multiple of 10^-n within half a unit of the input |
| Numeric.RoundIdempotent | update_data.py:170 | rounding a rounded value changes nothing |
| Numeric.TiesGoToEven | update_data.py:170 | 0.125 rounds to 0.12 and 0.135 to 0.14 |
| Store.Lower | update_data.py:70 | folding changes only the letters A-Z, position by position |
| Store.LowerIdempotent | update_data.py:70-72 | folding twice is folding once |
| Store.Contains | update_data.py:72 | true iff the keyword occurs at some position of the text |
| Store.FindIndicator | update_data.py:68-74 | None iff no name matches; otherwise the first matching position |
| Store.FindIgnoresKeywordCase | update_data.py:70-72 | the keyword's case does not change which record is found |
| Store.FirstMatchUnique | update_data.py:71-73 | keywords that select the same records find the same record |
| Store.ApplyRefresh | update_data.py:170-181 | `current` and `detail` replaced; `meta` has the old keys plus the patch keys, patch values win, other old values kept; all other keys, including the name, unchanged |
| Store.ApplyIdempotent | update_data.py:170-181 | applying the same refresh twice equals applying it once |
| Store.UpdateFirstMatch | update_data.py:149-182 | length kept; unchanged when nothing matches or the metric is None; otherwise only the first match is refreshed |
| Store.FindAfterRefresh | update_data.py:150-181 | after a refresh the same record is still the first match |
| Store.UpdateIdempotent | update_data.py:149-182 | running an update twice equals running it once, for any refresh stable on its own output |
| Updates.YoyRefresh | update_data.py:165-181 | None iff the YoY is undefined; otherwise the rounded YoY percentage, the series id and the last day |
| Updates.UpdateYoy | update_data.py:149-182 | unchanged on a failed fetch or an undefined YoY; otherwise exactly the first match is refreshed |
| Updates.UpdateRrpYoy | update_data.py:149-182 | unchanged on a failed fetch or an undefined YoY, length kept |
| Updates.UpdateTgaYoy | update_data.py:189-222 | unchanged on a failed fetch or an undefined YoY, length kept |
| Updates.UpdateFedBsYoy | update_data.py:229-262 | unchanged on a failed fetch or an undefined YoY, length kept |
| Updates.YoyWrites | update_data.py:169-177 | the found record gets the rounded YoY percentage, the source and the last day; other meta and record keys are kept |
| Updates.YoyUpdateIdempotent | update_data.py:149-182 | a YoY updater run twice on the same fetch equals one run |
| Updates.ImpulseEntry | update_data.py:377-385 | null iff the 90-day change is undefined, else that change in percent rounded to 2 places |
| Updates.BetaEntry | update_data.py:386 | null iff the beta is undefined, else the beta rounded to 3 places |
| Updates.NetLiquidityRefresh | update_data.py:367-388 | None iff the composite's YoY is undefined; otherwise the four meta keys with the impulse and beta entries |
| Updates.UpdateNetLiquidity | update_data.py:346-403 | unchanged when nothing matches, on a failed fetch or an undefined YoY; otherwise only the first match is refreshed, with the composite's refresh |
| Updates.CoinGrowth | update_data.py:441-446 | a failed fetch is a missing growth; otherwise the growth of the fetched caps |
| Updates.RoundAll | update_data.py:459 | each growth rounded to 2 places, in order |
| Updates.StablecoinRefresh | update_data.py:439-461 | None iff both coins failed; otherwise the rounded mean, the coin list and the rounded sample growths |
| Updates.UpdateStablecoinGrowth | update_data.py:433-466 | unchanged if no coin succeeded or nothing matches; otherwise only the first match is refreshed |
| Updates.MetaOr | update_data.py:499-500 | the existing `meta` value of a key, else the default |
| Updates.UsdtRefresh | update_data.py:498-510 | for a present reading: the dominance rounded to 3 places and the band read from `meta`, or the 4 / 6 defaults; nothing for a missing reading |
| Updates.UpdateUsdtDominance | update_data.py:487-518 | unchanged when nothing matches or the reading is missing; the run stops iff a band value cannot be formatted; otherwise only the first match is refreshed |
| Updates.UsdtWrites | update_data.py:498-516 | the run stops exactly on an unformattable band; otherwise the found record gets the dominance rounded to 3 places and the existing band, or the 4 / 6 defaults |
| Updates.UsdtBandPreserved | update_data.py:499-510 | an existing band floor is written back unchanged when the run completes |
| Updates.UsdtBandDefaults | update_data.py:499-500 | without a band the run completes and the defaults 4.0 and 6.0 are written |
| Updates.NullBandStopsRun | update_data.py:512-516 | a null band floor makes the detail line raise, so nothing is written |
| Updates.UsdtRefreshStable | update_data.py:498-510 | the band written is the band read on the next run |
| Updates.UsdtUpdateIdempotent | update_data.py:487-518 | when a USDT.D run completes, a second run with the same reading gives the same data |
| Updates.EtfRefresh | update_data.py:560-571 | None iff the fetch failed or returned no items; otherwise the rounded five-day flow with the source and window |
| Updates.UpdateEtfNetFlow | update_data.py:554-579 | unchanged when nothing matches or on a failed or empty fetch; otherwise only the first match is refreshed |

## Left out

- HTTP requests (FRED, CoinGecko, SoSoValue) and the yfinance download: these are network
  and foreign-library calls. The decoded observations, `market_caps` lists, ETF `items`
  and the day-to-price map are inputs, and a fetch that raises is a `None` input.
- The yfinance MultiIndex flattening and the "Adj Close" / "Close" column choice
  (update_data.py:303-322): an empty frame or a frame without a price column is the empty
  price map, which yields no pairs and so None, as in the source.
- `load_data`, `save_data`, `main`'s sequencing and `os.getenv`: file I/O and the
  environment.
- Printing and the f-string formatting of `detail`: the text is produced by a `describe`
  function parameter, and the model only states that `detail` is replaced by it.
- IEEE doubles: values are exact reals. `round` is modelled as round-half-even on the
  exact value, so binary representation effects of Python's `round` on floats are not
  modelled.
- `str.lower()` beyond ASCII: `Store.Lower` folds only A-Z. The keywords' Chinese
  characters have no case, so they are unaffected either way.
- Store.FindIndicator: requires every record's `name` to be a string and every `meta`
  an object. In the source a non-string name raises, but only if the search reaches it,
  so the requirement is stronger than the source's.
- ISO date parsing and `float(...)`: observation dates are integer day numbers or None,
  and a value's conversion is given with it. ETF dates are compared as day numbers;
  the source sorts them as ISO strings, which orders them the same way. A non-numeric
  ETF `flow` string, which would raise, is not modelled.
- `isoformat()` of `last_date`: written as `JDay(day)`, standing for the ISO text of that
  day.
- Series.NearestIndex: the minimum is stated as a property of the chosen index. Python's
  `min` is not modelled step by step.
- Beta.VarianceOfFlat: only the direction "equal values give zero variance" is proved.
  The converse (zero variance forces equal values) is not.
- Updates.UpdateRrpYoy, Updates.UpdateTgaYoy, Updates.UpdateFedBsYoy: their own contracts
  state only length and the unchanged cases. What they write is stated once, generically,
  by `Updates.YoyWrites` and `Updates.UpdateYoy`.
- Updates.UpdateUsdtDominance: a run that stops on an unformattable band is `None`. The
  `current` value the source assigns just before raising is not modelled, because
  `main` then never saves it.
- `fetch_usdt_dominance`'s JSON navigation (update_data.py:472-484): the reading is an
  input, with None for a missing `usdt` key or a failed request.
- Null or non-numeric timestamps in `market_caps`, and caps that are neither numbers nor
  null: a cap is a number or null (`None`), and a timestamp is an integer.
- A `meta` that is present but not an object makes the source's `.update` raise. The
  updaters require every `meta` to be an object.
