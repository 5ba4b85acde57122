/** The seven `update_*` functions of update_data.py, each as a pure list-to-list
    transformation. The fetches are inputs: `None` stands for a fetch that raised (the
    source catches the exception, logs it and returns without touching the data). The
    `detail` text is produced by a `describe` parameter: its formatting is presentation. */
module Updates {
  import opened Wrappers
  import opened Series
  import opened Change
  import opened NetLiquidity
  import opened Beta
  import opened Stablecoin
  import opened EtfFlows
  import opened Numeric
  import opened Store

  const RRP_KEYWORD := "RRP 逆回購"
  const TGA_KEYWORD := "TGA 財政部帳戶"
  const FED_KEYWORD := "Fed 資產負債表"
  const NET_KEYWORD := "Net Liquidity 綜合指標"
  const STABLECOIN_KEYWORD := "穩定幣供應 90 日成長"
  const USDT_KEYWORD := "USDT.D 穩定幣市佔率"
  const ETF_KEYWORD := "ETF 5 日淨流量"

  /** The look-back of the net-liquidity impulse, in days. */
  const IMPULSE_DAYS := 90

  /** The coins whose growth is averaged, in the order they are fetched. */
  const COINS: seq<string> := ["tether", "usd-coin"]

  /** Defaults written when `meta` has no USDT.D band yet. */
  const BAND_FLOOR_DEFAULT := 4.0
  const BAND_CEILING_DEFAULT := 6.0

  // ---------------- 1-3) single-series YoY ----------------

  /** The refresh of `update_rrp_yoy`, `update_tga_yoy` and `update_fed_bs_yoy` once the
      series is fetched: None when the YoY is undefined; otherwise `current` is the YoY in
      percent rounded to 2 places, and `meta` gets the series id and the last point's day. */
  function YoyRefresh(series: TimeSeries, source: string, describe: real -> string)
    : (r: Option<Refresh>)
    ensures r.None? <==> YoY(series).None?
    ensures r.Some? ==>
      && |series| > 0
      && r.value.current == Round(Percent(YoY(series).value), 2)
      && r.value.patch.Keys == {"source", "last_date"}
      && r.value.patch["source"] == JStr(source)
      && r.value.patch["last_date"] == JDay(series[|series| - 1].day)
      && r.value.detail == describe(Percent(YoY(series).value))
  {
    match YoY(series)
    case None => None
    case Some(yoy) =>
      var pct := Percent(yoy);
      Some(Refresh(Round(pct, 2),
                   map["source" := JStr(source), "last_date" := JDay(Last(series).day)],
                   describe(pct)))
  }

  /** The shared body of the three YoY updaters. */
  function UpdateYoy(data: seq<Record>, keyword: string, source: string,
                     fetched: Option<TimeSeries>, describe: real -> string): (r: seq<Record>)
    requires AllShaped(data)
    ensures |r| == |data| && AllShaped(r)
    ensures fetched.None? ==> r == data
    ensures fetched.Some? && YoY(fetched.value).None? ==> r == data
    ensures FindIndicator(data, keyword).None? ==> r == data
    ensures FindIndicator(data, keyword).Some? && fetched.Some? && YoY(fetched.value).Some? ==>
      var i := FindIndicator(data, keyword).value;
      && r[i] == ApplyRefresh(data[i], YoyRefresh(fetched.value, source, describe).value)
      && forall j :: 0 <= j < |data| && j != i ==> r[j] == data[j]
  {
    var rf := if fetched.None? then None else YoyRefresh(fetched.value, source, describe);
    UpdateFirstMatch(data, keyword, _ => rf)
  }

  /** `update_rrp_yoy`. */
  function UpdateRrpYoy(data: seq<Record>, fetched: Option<TimeSeries>, describe: real -> string)
    : (r: seq<Record>)
    requires AllShaped(data)
    ensures |r| == |data|
    ensures fetched.None? || YoY(fetched.value).None? ==> r == data
  {
    UpdateYoy(data, RRP_KEYWORD, "FRED RRPONTSYD", fetched, describe)
  }

  /** `update_tga_yoy`. */
  function UpdateTgaYoy(data: seq<Record>, fetched: Option<TimeSeries>, describe: real -> string)
    : (r: seq<Record>)
    requires AllShaped(data)
    ensures |r| == |data|
    ensures fetched.None? || YoY(fetched.value).None? ==> r == data
  {
    UpdateYoy(data, TGA_KEYWORD, "FRED WTREGEN", fetched, describe)
  }

  /** `update_fed_bs_yoy`. */
  function UpdateFedBsYoy(data: seq<Record>, fetched: Option<TimeSeries>, describe: real -> string)
    : (r: seq<Record>)
    requires AllShaped(data)
    ensures |r| == |data|
    ensures fetched.None? || YoY(fetched.value).None? ==> r == data
  {
    UpdateYoy(data, FED_KEYWORD, "FRED WALCL", fetched, describe)
  }

  // ---------------- 4) net liquidity ----------------

  /** The three FRED series fetched together by `update_net_liquidity`. */
  datatype Components = Components(rrp: TimeSeries, tga: TimeSeries, bs: TimeSeries)

  /** `round(v, n)` as JSON, or null for a missing value. */
  function RoundedOrNull(v: Option<real>, n: nat): (j: Json)
    ensures v.None? <==> j == JNull
    ensures v.Some? ==> j == JNum(Round(v.value, n))
  {
    match v
    case None => JNull
    case Some(x) => JNum(Round(x, n))
  }

  /** `x * 100` for a present value. */
  function PercentOf(v: Option<real>): (p: Option<real>)
    ensures p.None? <==> v.None?
    ensures p.Some? ==> p.value == Percent(v.value)
  {
    match v
    case None => None
    case Some(x) => Some(Percent(x))
  }

  /** `impulse_90d_pct`: the 90-day change in percent rounded to 2 places, or null. */
  function ImpulseEntry(net: TimeSeries): (j: Json)
    ensures j == JNull <==> ChangeVsDaysAgo(net, IMPULSE_DAYS).None?
    ensures j != JNull ==> j == JNum(Round(Percent(ChangeVsDaysAgo(net, IMPULSE_DAYS).value), 2))
  {
    RoundedOrNull(PercentOf(ChangeVsDaysAgo(net, IMPULSE_DAYS)), 2)
  }

  /** `beta_vs_btc`: the beta rounded to 3 places, or null. */
  function BetaEntry(net: TimeSeries, prices: map<int, real>): (j: Json)
    ensures j == JNull <==> BetaVsBtc(net, prices).None?
    ensures j != JNull ==> j == JNum(Round(BetaVsBtc(net, prices).value, 3))
  {
    RoundedOrNull(BetaVsBtc(net, prices), 3)
  }

  /** The refresh of `update_net_liquidity` for the composite series `net` and the BTC
      prices: the YoY of the composite decides whether anything is written; the 90-day
      impulse and the beta are written as null when they are undefined. */
  function NetLiquidityRefresh(net: TimeSeries, prices: map<int, real>,
                               describe: (real, Option<real>, Option<real>) -> string)
    : (r: Option<Refresh>)
    ensures r.None? <==> YoY(net).None?
    ensures r.Some? ==>
      && |net| > 0
      && r.value.current == Round(Percent(YoY(net).value), 2)
      && r.value.patch.Keys == {"source", "last_date", "impulse_90d_pct", "beta_vs_btc"}
      && r.value.patch["source"] == JStr("FRED WALCL/RRPONTSYD/WTREGEN")
      && r.value.patch["last_date"] == JDay(net[|net| - 1].day)
      && r.value.patch["impulse_90d_pct"] == ImpulseEntry(net)
      && r.value.patch["beta_vs_btc"] == BetaEntry(net, prices)
  {
    match YoY(net)
    case None => None
    case Some(yoy) =>
      var pct := Percent(yoy);
      Some(Refresh(Round(pct, 2),
                   map["source" := JStr("FRED WALCL/RRPONTSYD/WTREGEN"),
                       "last_date" := JDay(Last(net).day),
                       "impulse_90d_pct" := ImpulseEntry(net),
                       "beta_vs_btc" := BetaEntry(net, prices)],
                   describe(pct, PercentOf(ChangeVsDaysAgo(net, IMPULSE_DAYS)),
                            BetaVsBtc(net, prices))))
  }

  /** `update_net_liquidity`: the composite is built from the three fetched series and
      drives the refresh; a failed fetch or an undefined YoY leaves the data alone. */
  function UpdateNetLiquidity(data: seq<Record>, fetched: Option<Components>,
                              prices: map<int, real>,
                              describe: (real, Option<real>, Option<real>) -> string)
    : (r: seq<Record>)
    requires AllShaped(data)
    ensures |r| == |data| && AllShaped(r)
    ensures fetched.None? ==> r == data
    ensures FindIndicator(data, NET_KEYWORD).None? ==> r == data
    ensures fetched.Some? ==>
      var net := MergeNetLiquidity(fetched.value.rrp, fetched.value.tga, fetched.value.bs);
      && (YoY(net).None? ==> r == data)
      && (FindIndicator(data, NET_KEYWORD).Some? && YoY(net).Some? ==>
        var i := FindIndicator(data, NET_KEYWORD).value;
        && r[i] == ApplyRefresh(data[i], NetLiquidityRefresh(net, prices, describe).value)
        && forall j :: 0 <= j < |data| && j != i ==> r[j] == data[j])
  {
    var rf := if fetched.None? then None
      else NetLiquidityRefresh(MergeNetLiquidity(fetched.value.rrp, fetched.value.tga,
                                                 fetched.value.bs), prices, describe);
    UpdateFirstMatch(data, NET_KEYWORD, _ => rf)
  }

  // ---------------- 5) stablecoin growth ----------------

  /** `_coingecko_growth` including its fetch: a failed fetch is a missing result. */
  function CoinGrowth(fetched: Option<seq<Cap>>): (g: Option<real>)
    ensures fetched.None? ==> g.None?
    ensures fetched.Some? ==> g == Growth(fetched.value)
  {
    match fetched
    case None => None
    case Some(caps) => Growth(caps)
  }

  /** The rounded per-coin growths written under `sample_growth`. */
  function RoundAll(gs: seq<real>, n: nat): (js: seq<Json>)
    ensures |js| == |gs|
    ensures forall i :: 0 <= i < |gs| ==> js[i] == JNum(Round(gs[i], n))
  {
    seq(|gs|, i requires 0 <= i < |gs| => JNum(Round(gs[i], n)))
  }

  /** The refresh of `update_stablecoin_growth`: the mean growth of the coins that
      succeeded, rounded to 2 places; None when neither did. */
  function StablecoinRefresh(tether: Option<seq<Cap>>, usdc: Option<seq<Cap>>,
                             describe: real -> string): (r: Option<Refresh>)
    ensures var results := [CoinGrowth(tether), CoinGrowth(usdc)];
      && (r.None? <==> AverageOfSuccesses(results).None?)
      && (r.None? <==> CoinGrowth(tether).None? && CoinGrowth(usdc).None?)
      && (r.Some? ==>
        && r.value.current == Round(AverageOfSuccesses(results).value, 2)
        && r.value.patch.Keys == {"source", "coins", "sample_growth"}
        && r.value.patch["coins"] == JArr([JStr(COINS[0]), JStr(COINS[1])])
        && r.value.patch["sample_growth"] == JArr(RoundAll(Successes(results), 2)))
  {
    var results := [CoinGrowth(tether), CoinGrowth(usdc)];
    assert results[0] == CoinGrowth(tether) && results[1] == CoinGrowth(usdc);
    match AverageOfSuccesses(results)
    case None => None
    case Some(avg) =>
      Some(Refresh(Round(avg, 2),
                   map["source" := JStr("CoinGecko market_chart"),
                       "coins" := JArr([JStr(COINS[0]), JStr(COINS[1])]),
                       "sample_growth" := JArr(RoundAll(Successes(results), 2))],
                   describe(avg)))
  }

  /** `update_stablecoin_growth`. */
  function UpdateStablecoinGrowth(data: seq<Record>, tether: Option<seq<Cap>>,
                                  usdc: Option<seq<Cap>>, describe: real -> string)
    : (r: seq<Record>)
    requires AllShaped(data)
    ensures |r| == |data| && AllShaped(r)
    ensures CoinGrowth(tether).None? && CoinGrowth(usdc).None? ==> r == data
    ensures FindIndicator(data, STABLECOIN_KEYWORD).None? ==> r == data
    ensures FindIndicator(data, STABLECOIN_KEYWORD).Some? && !CoinGrowth(tether).None? ==>
      var i := FindIndicator(data, STABLECOIN_KEYWORD).value;
      && r[i] == ApplyRefresh(data[i], StablecoinRefresh(tether, usdc, describe).value)
      && forall j :: 0 <= j < |data| && j != i ==> r[j] == data[j]
    ensures FindIndicator(data, STABLECOIN_KEYWORD).Some? && !CoinGrowth(usdc).None? ==>
      var i := FindIndicator(data, STABLECOIN_KEYWORD).value;
      && r[i] == ApplyRefresh(data[i], StablecoinRefresh(tether, usdc, describe).value)
      && forall j :: 0 <= j < |data| && j != i ==> r[j] == data[j]
  {
    UpdateFirstMatch(data, STABLECOIN_KEYWORD, _ => StablecoinRefresh(tether, usdc, describe))
  }

  // ---------------- 6) USDT dominance ----------------

  /** `indicator.get("meta", {}).get(key, default)`. */
  function MetaOr(rec: Record, key: string, default: Json): (j: Json)
    requires Shaped(rec)
    ensures key in Meta(rec) ==> j == Meta(rec)[key]
    ensures key !in Meta(rec) ==> j == default
  {
    if key in Meta(rec) then Meta(rec)[key] else default
  }

  /** The refresh of `update_usdt_d_dominance` for the record found: the dominance rounded
      to 3 places, and the band already in `meta` written back, or the 4 / 6 defaults. */
  function UsdtRefresh(dom: Option<real>, describe: (real, Json, Json) -> string)
    : (refresh: Record -> Option<Refresh>)
    ensures forall rec :: refresh(rec).Some? <==> dom.Some? && Shaped(rec)
    ensures forall rec :: refresh(rec).Some? ==>
      && refresh(rec).value.current == Round(dom.value, 3)
      && refresh(rec).value.patch.Keys == {"source", "band_floor", "band_ceiling"}
      && refresh(rec).value.patch["band_floor"] == MetaOr(rec, "band_floor", JNum(BAND_FLOOR_DEFAULT))
      && refresh(rec).value.patch["band_ceiling"]
           == MetaOr(rec, "band_ceiling", JNum(BAND_CEILING_DEFAULT))
  {
    rec =>
      if dom.None? || !Shaped(rec) then None
      else
        var floor := MetaOr(rec, "band_floor", JNum(BAND_FLOOR_DEFAULT));
        var ceil := MetaOr(rec, "band_ceiling", JNum(BAND_CEILING_DEFAULT));
        Some(Refresh(Round(dom.value, 3),
                     map["source" := JStr("CoinGecko /global market_cap_percentage.usdt"),
                         "band_floor" := floor,
                         "band_ceiling" := ceil],
                     describe(dom.value, floor, ceil)))
  }

  /** A value the `{:.1f}` of the detail text can format: a number. JSON booleans load as
      Python bools, which are ints and format too; null, strings, lists and objects raise. */
  predicate Formattable(j: Json) {
    j.JNum? || j.JBool?
  }

  /** Both band values the record yields, defaults included, can be formatted. */
  predicate BandFormattable(rec: Record)
    requires Shaped(rec)
  {
    && Formattable(MetaOr(rec, "band_floor", JNum(BAND_FLOOR_DEFAULT)))
    && Formattable(MetaOr(rec, "band_ceiling", JNum(BAND_CEILING_DEFAULT)))
  }

  /** `update_usdt_d_dominance`. None when the detail line raises on a band it cannot
      format: nothing catches that, so `main` stops before `save_data` and the file keeps
      its old contents. */
  function UpdateUsdtDominance(data: seq<Record>, dom: Option<real>,
                               describe: (real, Json, Json) -> string): (r: Option<seq<Record>>)
    requires AllShaped(data)
    ensures r.None? <==>
      && dom.Some?
      && FindIndicator(data, USDT_KEYWORD).Some?
      && !BandFormattable(data[FindIndicator(data, USDT_KEYWORD).value])
    ensures r.Some? ==> |r.value| == |data| && AllShaped(r.value)
    ensures dom.None? ==> r == Some(data)
    ensures FindIndicator(data, USDT_KEYWORD).None? ==> r == Some(data)
    ensures r.Some? && dom.Some? && FindIndicator(data, USDT_KEYWORD).Some? ==>
      var i := FindIndicator(data, USDT_KEYWORD).value;
      && r.value[i] == ApplyRefresh(data[i], UsdtRefresh(dom, describe)(data[i]).value)
      && forall j :: 0 <= j < |data| && j != i ==> r.value[j] == data[j]
  {
    var found := FindIndicator(data, USDT_KEYWORD);
    if dom.Some? && found.Some? && !BandFormattable(data[found.value]) then None
    else Some(UpdateFirstMatch(data, USDT_KEYWORD, UsdtRefresh(dom, describe)))
  }

  // ---------------- 7) ETF net flow ----------------

  /** The refresh of `update_etf_net_flow_5d`: None when the fetch failed or returned no
      items; otherwise the five-day net flow rounded to 2 places. */
  function EtfRefresh(fetched: Option<seq<FlowItem>>, describe: real -> string)
    : (r: Option<Refresh>)
    ensures r.None? <==> fetched.None? || fetched.value == []
    ensures r.Some? ==>
      && r.value.current == Round(EtfNetFlow5d(fetched.value).value, 2)
      && r.value.patch == map["source" := JStr("SoSoValue Spot BTC ETF API"),
                              "window" := JStr("last 5 days")]
  {
    if fetched.None? then None
    else
      match EtfNetFlow5d(fetched.value)
      case None => None
      case Some(total) =>
        Some(Refresh(Round(total, 2),
                     map["source" := JStr("SoSoValue Spot BTC ETF API"),
                         "window" := JStr("last 5 days")],
                     describe(total)))
  }

  /** `update_etf_net_flow_5d`. */
  function UpdateEtfNetFlow(data: seq<Record>, fetched: Option<seq<FlowItem>>,
                            describe: real -> string): (r: seq<Record>)
    requires AllShaped(data)
    ensures |r| == |data| && AllShaped(r)
    ensures fetched.None? || fetched == Some([]) ==> r == data
    ensures FindIndicator(data, ETF_KEYWORD).None? ==> r == data
    ensures FindIndicator(data, ETF_KEYWORD).Some? && fetched.Some? && fetched.value != [] ==>
      var i := FindIndicator(data, ETF_KEYWORD).value;
      && r[i] == ApplyRefresh(data[i], EtfRefresh(fetched, describe).value)
      && forall j :: 0 <= j < |data| && j != i ==> r[j] == data[j]
  {
    UpdateFirstMatch(data, ETF_KEYWORD, _ => EtfRefresh(fetched, describe))
  }

  // ---------------- properties ----------------

  /** The USDT.D refresh is stable: the band it writes is the band it reads next time. */
  lemma UsdtRefreshStable(dom: Option<real>, describe: (real, Json, Json) -> string)
    ensures Stable(UsdtRefresh(dom, describe))
  {
    var refresh := UsdtRefresh(dom, describe);
    forall rec | Shaped(rec) && refresh(rec).Some?
      ensures refresh(ApplyRefresh(rec, refresh(rec).value)) == refresh(rec)
    {
      var after := ApplyRefresh(rec, refresh(rec).value);
      assert MetaOr(after, "band_floor", JNum(BAND_FLOOR_DEFAULT))
        == MetaOr(rec, "band_floor", JNum(BAND_FLOOR_DEFAULT));
      assert MetaOr(after, "band_ceiling", JNum(BAND_CEILING_DEFAULT))
        == MetaOr(rec, "band_ceiling", JNum(BAND_CEILING_DEFAULT));
    }
  }

  /** Running `update_usdt_d_dominance` twice with the same reading gives the data of
      running it once; in particular a band written once is never changed. */
  lemma UsdtUpdateIdempotent(data: seq<Record>, dom: Option<real>,
                             describe: (real, Json, Json) -> string)
    requires AllShaped(data)
    ensures UpdateUsdtDominance(data, dom, describe).Some? ==>
      UpdateUsdtDominance(UpdateUsdtDominance(data, dom, describe).value, dom, describe)
        == UpdateUsdtDominance(data, dom, describe)
  {
    var r := UpdateUsdtDominance(data, dom, describe);
    var refresh := UsdtRefresh(dom, describe);
    if r.Some? {
      var once := UpdateFirstMatch(data, USDT_KEYWORD, refresh);
      assert r.value == once;
      UsdtFirstMatchIdempotent(data, dom, describe);
      var found := FindIndicator(data, USDT_KEYWORD);
      if dom.Some? && found.Some? {
        var i := found.value;
        var rf := refresh(data[i]).value;
        var refreshed := data[i := ApplyRefresh(data[i], rf)];
        FindAfterRefresh(data, USDT_KEYWORD, rf);
        UsdtBandKept(data[i], dom, describe);
        assert once == refreshed;
        assert FindIndicator(refreshed, USDT_KEYWORD) == found;
        assert BandFormattable(refreshed[i]);
      }
    }
  }

  /** The refresh step of `update_usdt_d_dominance`, run twice, equals one run. */
  lemma UsdtFirstMatchIdempotent(data: seq<Record>, dom: Option<real>,
                                 describe: (real, Json, Json) -> string)
    requires AllShaped(data)
    ensures var refresh := UsdtRefresh(dom, describe);
      UpdateFirstMatch(UpdateFirstMatch(data, USDT_KEYWORD, refresh), USDT_KEYWORD, refresh)
        == UpdateFirstMatch(data, USDT_KEYWORD, refresh)
  {
    UsdtRefreshStable(dom, describe);
    UpdateIdempotent(data, USDT_KEYWORD, UsdtRefresh(dom, describe));
  }

  /** The band the USDT.D refresh writes reads back as the band it read. */
  lemma UsdtBandKept(rec: Record, dom: Option<real>, describe: (real, Json, Json) -> string)
    requires Shaped(rec) && dom.Some?
    ensures var after := ApplyRefresh(rec, UsdtRefresh(dom, describe)(rec).value);
      && MetaOr(after, "band_floor", JNum(BAND_FLOOR_DEFAULT))
           == MetaOr(rec, "band_floor", JNum(BAND_FLOOR_DEFAULT))
      && MetaOr(after, "band_ceiling", JNum(BAND_CEILING_DEFAULT))
           == MetaOr(rec, "band_ceiling", JNum(BAND_CEILING_DEFAULT))
  {
  }

  /** Running a YoY updater twice on the same fetch gives the data of running it once. */
  lemma YoyUpdateIdempotent(data: seq<Record>, keyword: string, source: string,
                            fetched: Option<TimeSeries>, describe: real -> string)
    requires AllShaped(data)
    ensures UpdateYoy(UpdateYoy(data, keyword, source, fetched, describe),
                      keyword, source, fetched, describe)
      == UpdateYoy(data, keyword, source, fetched, describe)
  {
    var rf := if fetched.None? then None else YoyRefresh(fetched.value, source, describe);
    ConstantRefreshStable(rf);
    UpdateIdempotent(data, keyword, _ => rf);
  }

  /** What a YoY updater writes into the record it finds: the rounded YoY percentage, the
      series id and the last day; other `meta` keys and other record keys are kept. */
  lemma YoyWrites(data: seq<Record>, keyword: string, source: string, series: TimeSeries,
                  describe: real -> string)
    requires AllShaped(data) && FindIndicator(data, keyword).Some? && YoY(series).Some?
    ensures var i := FindIndicator(data, keyword).value;
      var r := UpdateYoy(data, keyword, source, Some(series), describe);
      && |series| > 0
      && "current" in r[i] && r[i]["current"] == JNum(Round(Percent(YoY(series).value), 2))
      && "source" in Meta(r[i]) && Meta(r[i])["source"] == JStr(source)
      && "last_date" in Meta(r[i]) && Meta(r[i])["last_date"] == JDay(series[|series| - 1].day)
      && (forall k :: k in Meta(data[i]) && k != "source" && k != "last_date" ==>
            k in Meta(r[i]) && Meta(r[i])[k] == Meta(data[i])[k])
      && (forall k :: k in data[i] && k != "current" && k != "meta" && k != "detail" ==>
            k in r[i] && r[i][k] == data[i][k])
  {
    var i := FindIndicator(data, keyword).value;
    var rf := YoyRefresh(series, source, describe).value;
    assert UpdateYoy(data, keyword, source, Some(series), describe)[i] == ApplyRefresh(data[i], rf);
  }

  /** A band already present is preserved, whatever the new reading, when the run does
      not stop on it. */
  lemma UsdtBandPreserved(data: seq<Record>, dom: real, describe: (real, Json, Json) -> string)
    requires AllShaped(data) && FindIndicator(data, USDT_KEYWORD).Some?
    requires "band_floor" in Meta(data[FindIndicator(data, USDT_KEYWORD).value])
    ensures var i := FindIndicator(data, USDT_KEYWORD).value;
      var r := UpdateUsdtDominance(data, Some(dom), describe);
      r.Some? ==> Meta(r.value[i])["band_floor"] == Meta(data[i])["band_floor"]
  {
    UsdtWrites(data, dom, describe);
  }

  /** Without a band in `meta` the defaults 4 and 6 are written. */
  lemma UsdtBandDefaults(data: seq<Record>, dom: real, describe: (real, Json, Json) -> string)
    requires AllShaped(data) && FindIndicator(data, USDT_KEYWORD).Some?
    requires var m := Meta(data[FindIndicator(data, USDT_KEYWORD).value]);
      "band_floor" !in m && "band_ceiling" !in m
    ensures var i := FindIndicator(data, USDT_KEYWORD).value;
      var r := UpdateUsdtDominance(data, Some(dom), describe);
      && r.Some?
      && Meta(r.value[i])["band_floor"] == JNum(4.0)
      && Meta(r.value[i])["band_ceiling"] == JNum(6.0)
  {
    UsdtWrites(data, dom, describe);
  }

  /** What `update_usdt_d_dominance` writes into the record it finds: the run stops
      exactly when a band value cannot be formatted; otherwise the rounded dominance and
      the band read are written. */
  lemma UsdtWrites(data: seq<Record>, dom: real, describe: (real, Json, Json) -> string)
    requires AllShaped(data) && FindIndicator(data, USDT_KEYWORD).Some?
    ensures var i := FindIndicator(data, USDT_KEYWORD).value;
      var r := UpdateUsdtDominance(data, Some(dom), describe);
      && (r.None? <==> !BandFormattable(data[i]))
      && (r.Some? ==>
        && "current" in r.value[i] && r.value[i]["current"] == JNum(Round(dom, 3))
        && "band_floor" in Meta(r.value[i]) && "band_ceiling" in Meta(r.value[i])
        && Meta(r.value[i])["band_floor"] == MetaOr(data[i], "band_floor", JNum(BAND_FLOOR_DEFAULT))
        && Meta(r.value[i])["band_ceiling"]
             == MetaOr(data[i], "band_ceiling", JNum(BAND_CEILING_DEFAULT))
        && Formattable(Meta(r.value[i])["band_floor"])
        && Formattable(Meta(r.value[i])["band_ceiling"]))
  {
    var i := FindIndicator(data, USDT_KEYWORD).value;
    var r := UpdateUsdtDominance(data, Some(dom), describe);
    if r.Some? {
      var refresh := UsdtRefresh(Some(dom), describe);
      var rf := refresh(data[i]).value;
      assert rf.current == Round(dom, 3);
      assert rf.patch["band_floor"] == MetaOr(data[i], "band_floor", JNum(BAND_FLOOR_DEFAULT));
      assert rf.patch["band_ceiling"] == MetaOr(data[i], "band_ceiling", JNum(BAND_CEILING_DEFAULT));
      assert r.value[i] == ApplyRefresh(data[i], rf);
    }
  }

  /** A null band floor stops the run instead of being written back. */
  lemma NullBandStopsRun(data: seq<Record>, dom: real, describe: (real, Json, Json) -> string)
    requires AllShaped(data) && FindIndicator(data, USDT_KEYWORD).Some?
    requires var m := Meta(data[FindIndicator(data, USDT_KEYWORD).value]);
      "band_floor" in m && m["band_floor"] == JNull
    ensures UpdateUsdtDominance(data, Some(dom), describe).None?
  {
    var i := FindIndicator(data, USDT_KEYWORD).value;
    assert MetaOr(data[i], "band_floor", JNum(BAND_FLOOR_DEFAULT)) == JNull;
  }
}
