/**
 * The weather card's own logic (src/components/weather-card.tsx): the icon URL it shows,
 * the one-item-per-day forecast it builds from the route's list, and the blank-city guard.
 */
module WeatherCard {
  import opened Wrappers
  import opened Strings
  import opened WeatherTypes

  const ICON_URL := "https://openweathermap.org/img/wn"

  /** `iconSrc(icon, size2x)`. */
  function IconSrc(icon: Option<string>, size2x: bool): (r: string)
    ensures r == [] <==> icon.None? || icon.value == []
    ensures icon.Some? && StartsWith(icon.value, "//") ==> r == "https:" + icon.value
    ensures icon.Some? && StartsWith(icon.value, "http") ==> r == icon.value
    ensures icon.Some? && icon.value != [] && !StartsWith(icon.value, "http") && !StartsWith(icon.value, "//") ==>
              r == ICON_URL + "/" + icon.value + (if size2x then "@2x" else "") + ".png"
  {
    if icon.None? || icon.value == [] then ""
    else
      NotBothPrefixes(icon.value);
      if StartsWith(icon.value, "http") || StartsWith(icon.value, "//") then
      (if StartsWith(icon.value, "//") then "https:" + icon.value else icon.value)
    else ICON_URL + "/" + icon.value + (if size2x then "@2x" else "") + ".png"
  }

  lemma NotBothPrefixes(s: string)
    ensures !(StartsWith(s, "//") && StartsWith(s, "http"))
  {
    if StartsWith(s, "//") {
      assert s[0] == s[..2][0] == '/';
    }
  }

  /** Whatever the icon, the card shows nothing or an absolute `http`/`https` URL. */
  lemma IconSrcAbsolute(icon: Option<string>, size2x: bool)
    ensures var r := IconSrc(icon, size2x);
            r == [] || StartsWith(r, "http")
  {
    var r := IconSrc(icon, size2x);
    if icon.Some? && icon.value != [] {
      var v := icon.value;
      if StartsWith(v, "//") {
        assert r == "https:" + v;
        StartsWithAppend("https:", v, "http");
      } else if !StartsWith(v, "http") {
        var a := ICON_URL + "/";
        var b := a + v;
        var c := b + (if size2x then "@2x" else "");
        assert r == c + ".png";
        assert StartsWith(ICON_URL, "http");
        StartsWithAppend(ICON_URL, "/", "http");
        StartsWithAppend(a, v, "http");
        StartsWithAppend(b, if size2x then "@2x" else "", "http");
        StartsWithAppend(c, ".png", "http");
      }
    }
  }

  /** An icon the card has already resolved resolves to itself. */
  lemma IconSrcIdempotent(icon: Option<string>, size2x: bool, again2x: bool)
    ensures IconSrc(Some(IconSrc(icon, size2x)), again2x) == IconSrc(icon, size2x)
  {
    IconSrcAbsolute(icon, size2x);
  }

  /** `item.dt_txt.slice(0, 10)`: the calendar day of a forecast item. */
  function Day(item: ForecastItem): string {
    item.dtTxt[..if |item.dtTxt| < 10 then |item.dtTxt| else 10]
  }

  /** No item before position `i` falls on the same day as item `i`. */
  predicate IsFirstOfDay(list: seq<ForecastItem>, i: nat)
    requires i < |list|
  {
    forall j :: 0 <= j < i ==> Day(list[j]) != Day(list[i])
  }

  /** The days of the first `n` items. */
  function DaysOf(list: seq<ForecastItem>, n: nat): set<string>
    requires n <= |list|
  {
    set i | 0 <= i < n :: Day(list[i])
  }

  /** Item `n` is the first of its day exactly when its day is not among the days before it. */
  lemma FirstOfDayIffNew(list: seq<ForecastItem>, n: nat)
    requires n < |list|
    ensures IsFirstOfDay(list, n) <==> Day(list[n]) !in DaysOf(list, n)
  {
    if Day(list[n]) in DaysOf(list, n) {
      var j :| 0 <= j < n && Day(list[j]) == Day(list[n]);
    }
  }

  /** The positions, among the first `n`, of the items that are first of their day. */
  function FirstIndices(list: seq<ForecastItem>, n: nat): (ix: seq<nat>)
    requires n <= |list|
    ensures forall k :: 0 <= k < |ix| ==> ix[k] < n
  {
    if n == 0 then []
    else FirstIndices(list, n - 1) + (if IsFirstOfDay(list, n - 1) then [n - 1] else [])
  }

  /** The first positions come in ascending order, each is first of its day, none is missed, and there is one per day. */
  lemma FirstIndicesFacts(list: seq<ForecastItem>, n: nat)
    requires n <= |list|
    ensures var ix := FirstIndices(list, n);
            && (forall k :: 0 <= k < |ix| ==> IsFirstOfDay(list, ix[k]))
            && (forall k1, k2 :: 0 <= k1 < k2 < |ix| ==> ix[k1] < ix[k2])
            && (forall i :: 0 <= i < n && IsFirstOfDay(list, i) ==> i in ix)
            && |ix| == |DaysOf(list, n)|
  {
    FirstIndicesAreFirsts(list, n);
    FirstIndicesAscending(list, n);
    FirstIndicesComplete(list, n);
    FirstIndicesCount(list, n);
  }

  lemma {:induction false} FirstIndicesAreFirsts(list: seq<ForecastItem>, n: nat)
    requires n <= |list|
    ensures forall k :: 0 <= k < |FirstIndices(list, n)| ==> IsFirstOfDay(list, FirstIndices(list, n)[k])
  {
    if n > 0 {
      FirstIndicesAreFirsts(list, n - 1);
      var prev, ix := FirstIndices(list, n - 1), FirstIndices(list, n);
      assert ix == prev + (if IsFirstOfDay(list, n - 1) then [n - 1] else []);
      forall k | 0 <= k < |ix|
        ensures IsFirstOfDay(list, ix[k])
      {
        if k < |prev| {
          assert ix[k] == prev[k];
        } else {
          assert ix[k] == n - 1 && IsFirstOfDay(list, n - 1);
        }
      }
    }
  }

  lemma {:induction false} FirstIndicesAscending(list: seq<ForecastItem>, n: nat)
    requires n <= |list|
    ensures forall k1, k2 :: 0 <= k1 < k2 < |FirstIndices(list, n)| ==> FirstIndices(list, n)[k1] < FirstIndices(list, n)[k2]
  {
    if n > 0 {
      FirstIndicesAscending(list, n - 1);
      var prev, ix := FirstIndices(list, n - 1), FirstIndices(list, n);
      assert ix == prev + (if IsFirstOfDay(list, n - 1) then [n - 1] else []);
      forall k1, k2 | 0 <= k1 < k2 < |ix|
        ensures ix[k1] < ix[k2]
      {
        assert ix[k1] == prev[k1];
        if k2 < |prev| {
          assert ix[k2] == prev[k2];
        } else {
          assert ix[k2] == n - 1;
        }
      }
    }
  }

  lemma {:induction false} FirstIndicesComplete(list: seq<ForecastItem>, n: nat)
    requires n <= |list|
    ensures forall i :: 0 <= i < n && IsFirstOfDay(list, i) ==> i in FirstIndices(list, n)
  {
    if n > 0 {
      FirstIndicesComplete(list, n - 1);
      var prev := FirstIndices(list, n - 1);
      assert forall i :: i in prev ==> i in FirstIndices(list, n);
    }
  }

  lemma {:induction false} FirstIndicesCount(list: seq<ForecastItem>, n: nat)
    requires n <= |list|
    ensures |FirstIndices(list, n)| == |DaysOf(list, n)|
  {
    if n > 0 {
      FirstIndicesCount(list, n - 1);
      FirstOfDayIffNew(list, n - 1);
      var before := DaysOf(list, n - 1);
      assert DaysOf(list, n) == before + {Day(list[n - 1])};
      if IsFirstOfDay(list, n - 1) {
        assert Day(list[n - 1]) !in before;
        assert |DaysOf(list, n)| == |before| + 1;
      } else {
        assert DaysOf(list, n) == before;
      }
    }
  }

  /** The values of `dailyMap` once the loop is done: each day's first item, days in order of first appearance. */
  function Daily(list: seq<ForecastItem>): (r: seq<ForecastItem>)
    ensures |r| == |DaysOf(list, |list|)|
  {
    FirstIndicesFacts(list, |list|);
    var ix := FirstIndices(list, |list|);
    seq(|ix|, k requires 0 <= k < |ix| => list[ix[k]])
  }

  /** The daily list holds no two items of the same day, and each is the first of its day in the input. */
  lemma DailyOnePerDay(list: seq<ForecastItem>)
    ensures var r := Daily(list);
            forall k1, k2 :: 0 <= k1 < k2 < |r| ==> Day(r[k1]) != Day(r[k2])
  {
    var ix := FirstIndices(list, |list|);
    var r := Daily(list);
    FirstIndicesFacts(list, |list|);
    forall k1, k2 | 0 <= k1 < k2 < |r|
      ensures Day(r[k1]) != Day(r[k2])
    {
      assert IsFirstOfDay(list, ix[k2]) && ix[k1] < ix[k2];
    }
  }

  /** The first item of every day in the input is in the daily list, and every item's day has a first item at or before it. */
  lemma {:induction false} DailyKeepsFirsts(list: seq<ForecastItem>, i: nat)
    requires i < |list|
    ensures IsFirstOfDay(list, i) ==> list[i] in Daily(list)
    ensures exists j :: 0 <= j <= i && IsFirstOfDay(list, j) && Day(list[j]) == Day(list[i])
  {
    var ix := FirstIndices(list, |list|);
    FirstIndicesFacts(list, |list|);
    if IsFirstOfDay(list, i) {
      var k :| 0 <= k < |ix| && ix[k] == i;
      assert Daily(list)[k] == list[i];
    } else {
      var j :| 0 <= j < i && Day(list[j]) == Day(list[i]);
      DailyKeepsFirsts(list, j);
    }
  }

  /** At most 7 days for premium users, 5 for the others. */
  function Cap(isPremium: bool): nat {
    if isPremium then 7 else 5
  }

  /** The forecast the card stores: the first `Cap` days, and `None` when there are none. */
  function DailyForecast(forecastList: Option<seq<ForecastItem>>, isPremium: bool): (r: Option<seq<ForecastItem>>)
    ensures var days := |DaysOf(forecastList.GetOr([]), |forecastList.GetOr([])|)|;
            && (r.None? <==> days == 0)
            && (r.Some? ==> |r.value| == if days < Cap(isPremium) then days else Cap(isPremium))
  {
    var daily := Daily(forecastList.GetOr([]));
    var shown := daily[..if |daily| < Cap(isPremium) then |daily| else Cap(isPremium)];
    if shown == [] then None else Some(shown)
  }

  /** The shown days are the leading part of the daily list. */
  lemma DailyForecastIsPrefix(forecastList: Option<seq<ForecastItem>>, isPremium: bool)
    ensures var r := DailyForecast(forecastList, isPremium);
            r.Some? ==> r.value <= Daily(forecastList.GetOr([]))
  {
  }

  /** One more item: its day joins the days seen, and its position joins the first positions exactly when the day is new. */
  lemma DailyStep(list: seq<ForecastItem>, i: nat)
    requires i < |list|
    ensures DaysOf(list, i + 1) == DaysOf(list, i) + {Day(list[i])}
    ensures FirstIndices(list, i + 1) ==
              FirstIndices(list, i) + (if Day(list[i]) in DaysOf(list, i) then [] else [i])
  {
    FirstOfDayIffNew(list, i);
  }

  /**
   * The `forEach` over the forecast list: `dailyMap` is its key list in insertion order
   * plus the map itself; a day's first item is stored and later ones are skipped.
   */
  method FillDailyMap(list: seq<ForecastItem>) returns (order: seq<string>, dailyMap: map<string, ForecastItem>)
    ensures |order| == |FirstIndices(list, |list|)|
    ensures forall k :: 0 <= k < |order| ==>
              order[k] in dailyMap && dailyMap[order[k]] == list[FirstIndices(list, |list|)[k]]
    ensures dailyMap.Keys == DaysOf(list, |list|)
  {
    order := [];
    dailyMap := map[];
    ghost var ix: seq<nat> := [];
    ghost var days: set<string> := {};
    var i := 0;
    while i < |list|
      invariant 0 <= i <= |list|
      invariant ix == FirstIndices(list, i) && days == DaysOf(list, i)
      invariant |order| == |ix|
      invariant forall k :: 0 <= k < |order| ==> order[k] in dailyMap
      invariant forall k :: 0 <= k < |order| ==> ix[k] < |list| && dailyMap[order[k]] == list[ix[k]]
      invariant dailyMap.Keys == days
    {
      var day := Day(list[i]);
      DailyStep(list, i);
      if day !in dailyMap {
        order := order + [day];
        dailyMap := dailyMap[day := list[i]];
        ix := ix + [i];
      }
      days := days + {day};
      i := i + 1;
    }
  }

  /** `fetchWeather` from the parsed answer to the stored forecast: dedup, `Array.from(values)`, `slice`, empty to `null`. */
  method BuildDailyForecast(forecastList: Option<seq<ForecastItem>>, isPremium: bool) returns (forecast: Option<seq<ForecastItem>>)
    ensures forecast == DailyForecast(forecastList, isPremium)
  {
    var list := forecastList.GetOr([]);
    var order, dailyMap := FillDailyMap(list);
    var daily := seq(|order|, k requires 0 <= k < |order| => dailyMap[order[k]]);
    assert daily == Daily(list);
    var cap := if isPremium then 7 else 5;
    var shown := daily[..if |daily| < cap then |daily| else cap];
    forecast := if |shown| > 0 then Some(shown) else None;
  }

  /** `handleSearch`: the query string sent for the typed city, `None` when it is blank. */
  function SearchQuery(city: string): (q: Option<string>)
    ensures q.None? <==> forall i :: 0 <= i < |city| ==> IsSpace(city[i])
    ensures q.Some? ==> q.value == "city=" + Trim(city) && NoSpaceAtEnds(Trim(city))
  {
    TrimEmptyIffBlank(city);
    var trimmed := Trim(city);
    if trimmed == [] then None else Some("city=" + trimmed)
  }
}
