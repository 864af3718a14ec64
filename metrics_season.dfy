/**
 * The SEASON metric builder (my_agent/metrics/season_metrics.py): weather
 * figures, the season of the month and the busiest time slot of the trade area.
 * The weather lookup, the clock's month, `round(x, 1)` and the `:.1f` format are
 * parameters.
 * As written the module does not load: it imports `load_store_and_area_data`
 * and `get_weather_forecast_data` from my_agent/utils/tools.py, which defines
 * neither. What they would return is a parameter here.
 */
module SeasonMetrics {
  import opened Common

  /** One forecast hour; a cell of a column that only other hours carry reads as None. */
  datatype ForecastRow = ForecastRow(temp: Value, precip: Value)

  /**
   * What the weather lookup returns: its `success`, `message` and `data`
   * fields, with `columns` the keys that at least one hour of `data` carries,
   * which are the columns `pd.DataFrame(data)` has.
   */
  datatype WeatherReply = WeatherReply(success: Value, message: Value, rows: seq<ForecastRow>, columns: set<string>)

  /** The three columns the builder indexes; a frame without one raises KeyError. */
  const ForecastColumns: set<string> := {"기온(℃)", "fcstDateTime", "강수형태"}

  /** `df[c]` fails for some column the builder reads: an empty frame has no columns at all. */
  predicate MissingColumn(w: WeatherReply)
  {
    w.rows == [] || !(ForecastColumns <= w.columns)
  }

  const DefaultLat: real := 37.57
  const DefaultLon: real := 126.98

  function Lat(store: Record): Value { GetOr(store, "위도", VFloat(Fin(DefaultLat))) }
  function Lon(store: Record): Value { GetOr(store, "경도", VFloat(Fin(DefaultLon))) }

  // ---------------------------------------------------------------------
  // Temperature and rain

  /** `pd.to_numeric(x, errors="coerce")` on one cell: what it cannot read becomes NaN. */
  function ToNumeric(v: Value): (r: Float)
    ensures NumberOf(v).Some? ==> r == NumberOf(v).value
    ensures v == VNone || v == VObj ==> r == NaN
  {
    match v
    case VStr(s) => (match ParseFloat(s) case Some(f) => f case None => NaN)
    case _ => (match NumberOf(v) case Some(f) => f case None => NaN)
  }

  /** The temperature column after `pd.to_numeric`. */
  function Temps(rows: seq<ForecastRow>): (ts: seq<Float>)
    ensures |ts| == |rows|
    ensures forall i :: 0 <= i < |rows| ==> ts[i] == ToNumeric(rows[i].temp)
  {
    seq(|rows|, i requires 0 <= i < |rows| => ToNumeric(rows[i].temp))
  }

  /** The number of non-NaN cells, which is what `mean` divides by. */
  function FinCount(ts: seq<Float>): (n: nat)
    ensures n <= |ts|
  {
    if ts == [] then 0
    else FinCount(ts[..|ts| - 1]) + (if ts[|ts| - 1].Fin? then 1 else 0)
  }

  function FinSum(ts: seq<Float>): real
  {
    if ts == [] then 0.0
    else FinSum(ts[..|ts| - 1]) + (if ts[|ts| - 1].Fin? then ts[|ts| - 1].r else 0.0)
  }

  /** `Series.mean()`: NaN cells are skipped, and a column with none left is NaN. */
  function Mean(ts: seq<Float>): (m: Float)
    ensures m.NaN? <==> FinCount(ts) == 0
  {
    if FinCount(ts) == 0 then NaN else Fin(FinSum(ts) / FinCount(ts) as real)
  }

  function MeanTemp(rows: seq<ForecastRow>): Float
  {
    Mean(Temps(rows))
  }

  /** Every non-NaN cell lies in [lo, hi]. */
  predicate Within(ts: seq<Float>, lo: real, hi: real)
  {
    forall i :: 0 <= i < |ts| && ts[i].Fin? ==> lo <= ts[i].r <= hi
  }

  /** x added to itself n times, which keeps the sum bounds linear. */
  function Times(x: real, n: nat): real
  {
    if n == 0 then 0.0 else Times(x, n - 1) + x
  }

  lemma {:induction false} TimesIsProduct(x: real, n: nat)
    ensures Times(x, n) == x * n as real
  {
    if n > 0 {
      TimesIsProduct(x, n - 1);
      assert x * n as real == x * (n - 1) as real + x;
    }
  }

  lemma MulLess(a: real, b: real, c: real)
    requires a < b && c > 0.0
    ensures a * c < b * c
  {
    assert (b - a) * c > 0.0;
  }

  lemma {:induction false} FinSumWithin(ts: seq<Float>, lo: real, hi: real)
    requires Within(ts, lo, hi)
    ensures Times(lo, FinCount(ts)) <= FinSum(ts) <= Times(hi, FinCount(ts))
  {
    if ts != [] {
      var init := ts[..|ts| - 1];
      assert Within(init, lo, hi) by {
        forall i | 0 <= i < |init| && init[i].Fin?
          ensures lo <= init[i].r <= hi
        {
          assert init[i] == ts[i];
        }
      }
      FinSumWithin(init, lo, hi);
    }
  }

  /** A quotient of a sum bounded by count times [lo, hi]. */
  lemma DivWithin(s: real, c: real, lo: real, hi: real)
    requires c > 0.0 && lo * c <= s <= hi * c
    ensures lo <= s / c <= hi
  {
    assert (s / c) * c == s;
    if s / c < lo {
      MulLess(s / c, lo, c);
    }
    if s / c > hi {
      MulLess(hi, s / c, c);
    }
  }

  /** A sum between n copies of lo and n copies of hi has its n-th part in [lo, hi]. */
  lemma QuotientWithin(s: real, n: nat, lo: real, hi: real)
    requires n > 0 && Times(lo, n) <= s <= Times(hi, n)
    ensures lo <= s / n as real <= hi
  {
    TimesIsProduct(lo, n);
    TimesIsProduct(hi, n);
    DivWithin(s, n as real, lo, hi);
  }

  /** The mean of values that all lie in [lo, hi] lies in [lo, hi] too. */
  lemma MeanWithin(ts: seq<Float>, lo: real, hi: real)
    requires Within(ts, lo, hi)
    requires FinCount(ts) > 0
    ensures lo <= Mean(ts).r <= hi
  {
    var n := FinCount(ts);
    var s := FinSum(ts);
    FinSumWithin(ts, lo, hi);
    QuotientWithin(s, n, lo, hi);
    assert Mean(ts) == Fin(s / n as real);
  }

  /** `(df["강수형태"] != "없음").sum()`: a missing or unreadable cell counts as rain. */
  function RainHours(rows: seq<ForecastRow>): (n: nat)
    ensures n <= |rows|
    ensures n == 0 <==> forall i :: 0 <= i < |rows| ==> rows[i].precip == VStr("없음")
  {
    if rows == [] then 0
    else RainHours(rows[..|rows| - 1]) + (if rows[|rows| - 1].precip != VStr("없음") then 1 else 0)
  }

  /** The season of a calendar month. */
  function SeasonOf(month: int): (r: string)
    requires 1 <= month <= 12
    ensures r in {"겨울", "봄", "여름", "가을"}
    ensures r == "겨울" <==> month == 12 || month <= 2
    ensures r == "봄" <==> 3 <= month <= 5
    ensures r == "여름" <==> 6 <= month <= 8
    ensures r == "가을" <==> 9 <= month <= 11
  {
    if month in [12, 1, 2] then "겨울"
    else if month in [3, 4, 5] then "봄"
    else if month in [6, 7, 8] then "여름"
    else "가을"
  }

  /** The weather trend from the number of rainy forecast hours. */
  function Trend(rainHours: nat): (r: string)
    ensures r == "맑음 유지" <==> rainHours == 0
    ensures r == "간헐적 비" <==> 1 <= rainHours <= 3
    ensures r == "비 많음" <==> rainHours >= 4
  {
    if rainHours == 0 then "맑음 유지"
    else if rainHours < 4 then "간헐적 비"
    else "비 많음"
  }

  /** More rain never makes the trend sunnier. */
  lemma TrendMonotone(a: nat, b: nat)
    requires a <= b
    ensures Trend(a) == "비 많음" ==> Trend(b) == "비 많음"
    ensures Trend(b) == "맑음 유지" ==> Trend(a) == "맑음 유지"
  {
  }

  // ---------------------------------------------------------------------
  // The busiest time slot

  /** The six slots in the order the builder lists them. */
  const TimeSlots: seq<string> := ["06", "11", "14", "17", "21", "24"]

  /** The trade-area field of a slot; the slot is what remains once the prefix and suffix are removed. */
  function TimeKey(slot: string): string
  {
    "시간대_건수~" + slot + "_매출_건수"
  }

  datatype SlotCount = SlotCount(slot: string, count: Value)

  /** `time_data`: the slots whose field is not None, in slot order. */
  function TimeData(area: Record, slots: seq<string>): (r: seq<SlotCount>)
    ensures |r| <= |slots|
    ensures forall x :: x in r <==>
      x.slot in slots && x.count == Get(area, TimeKey(x.slot)) && x.count != VNone
  {
    if slots == [] then []
    else
      var last := slots[|slots| - 1];
      var v := Get(area, TimeKey(last));
      var init := TimeData(area, slots[..|slots| - 1]);
      assert forall s :: s in slots <==> s in slots[..|slots| - 1] || s == last;
      if v != VNone then init + [SlotCount(last, v)] else init
  }

  /** `a > b` between two counts; None is the TypeError of an unorderable pair. */
  function Greater(a: Value, b: Value): Option<bool>
  {
    if NumberOf(a).Some? && NumberOf(b).Some? then Some(Lt(NumberOf(b).value, NumberOf(a).value))
    else if a.VStr? && b.VStr? then Some(a.s != b.s && StrLe(b.s, a.s))
    else None
  }

  /** `max(..., key=...)` from position i on, with es[best] the maximum so far: a later item wins only if strictly greater. */
  function MaxFrom(es: seq<SlotCount>, best: nat, i: nat): (r: Option<nat>)
    requires best < i <= |es|
    ensures r.Some? ==> best <= r.value < |es|
    decreases |es| - i
  {
    if i == |es| then Some(best)
    else match Greater(es[i].count, es[best].count)
      case None => None
      case Some(true) => MaxFrom(es, i, i + 1)
      case Some(false) => MaxFrom(es, best, i + 1)
  }

  const NoInfo: string := "정보 없음"

  /** `active_period`; None stands for the TypeError of comparing unorderable counts. */
  function ActivePeriod(es: seq<SlotCount>): (r: Option<string>)
    ensures es == [] ==> r == Some(NoInfo)
    ensures es != [] && r.Some? ==> exists k :: 0 <= k < |es| && r.value == es[k].slot
  {
    if es == [] then Some(NoInfo)
    else match MaxFrom(es, 0, 1)
      case Some(k) => Some(es[k].slot)
      case None => None
  }

  /** Every count is a finite number. */
  predicate AllFinite(es: seq<SlotCount>)
  {
    forall j :: 0 <= j < |es| ==> NumberOf(es[j].count).Some? && NumberOf(es[j].count).value.Fin?
  }

  function Val(x: SlotCount): real
    requires NumberOf(x.count).Some? && NumberOf(x.count).value.Fin?
  {
    NumberOf(x.count).value.r
  }

  lemma {:induction false} MaxFromFirstMax(es: seq<SlotCount>, best: nat, i: nat)
    requires AllFinite(es)
    requires best < i <= |es|
    requires forall j :: 0 <= j < i ==> Val(es[j]) <= Val(es[best])
    requires forall j :: 0 <= j < best ==> Val(es[j]) < Val(es[best])
    ensures MaxFrom(es, best, i).Some?
    ensures var k := MaxFrom(es, best, i).value;
      (forall j :: 0 <= j < |es| ==> Val(es[j]) <= Val(es[k]))
      && (forall j :: 0 <= j < k ==> Val(es[j]) < Val(es[k]))
    decreases |es| - i
  {
    if i < |es| {
      if Val(es[best]) < Val(es[i]) {
        MaxFromFirstMax(es, i, i + 1);
      } else {
        MaxFromFirstMax(es, best, i + 1);
      }
    }
  }

  /** With finite numeric counts, the active slot has the largest count, and no earlier slot ties it. */
  lemma ActivePeriodIsFirstMax(es: seq<SlotCount>)
    requires es != [] && AllFinite(es)
    ensures ActivePeriod(es).Some?
    ensures exists k :: 0 <= k < |es| && ActivePeriod(es).value == es[k].slot
                        && (forall j :: 0 <= j < |es| ==> Val(es[j]) <= Val(es[k]))
                        && (forall j :: 0 <= j < k ==> Val(es[j]) < Val(es[k]))
  {
    MaxFromFirstMax(es, 0, 1);
    var k := MaxFrom(es, 0, 1).value;
    assert ActivePeriod(es).value == es[k].slot;
  }

  /** A number and a text cannot be ordered: the builder raises. */
  lemma MixedCountsRaise(n: int, s: string)
    ensures ActivePeriod([SlotCount("06", VInt(n)), SlotCount("11", VStr(s))]).None?
  {
    var es := [SlotCount("06", VInt(n)), SlotCount("11", VStr(s))];
    assert Greater(es[1].count, es[0].count).None?;
  }

  // ---------------------------------------------------------------------
  // The builder

  const UnknownIndustry: string := "알 수 없음"
  const UnknownArea: string := "상권 정보 없음"

  /** `store.get("업종") or "알 수 없음"`. */
  function Industry(store: Record): (r: Value)
    ensures Truthy(Get(store, "업종")) ==> r == Get(store, "업종")
    ensures !Truthy(Get(store, "업종")) ==> r == VStr(UnknownIndustry)
  {
    if Truthy(Get(store, "업종")) then Get(store, "업종") else VStr(UnknownIndustry)
  }

  /** `store.get("상권") or store.get("상권_지리") or "상권 정보 없음"`: the first truthy one. */
  function AreaName(store: Record): (r: Value)
    ensures Truthy(r)
    ensures Truthy(Get(store, "상권")) ==> r == Get(store, "상권")
    ensures !Truthy(Get(store, "상권")) && Truthy(Get(store, "상권_지리")) ==> r == Get(store, "상권_지리")
    ensures !Truthy(Get(store, "상권")) && !Truthy(Get(store, "상권_지리")) ==> r == VStr(UnknownArea)
  {
    if Truthy(Get(store, "상권")) then Get(store, "상권")
    else if Truthy(Get(store, "상권_지리")) then Get(store, "상권_지리")
    else VStr(UnknownArea)
  }

  const SeasonKeys: set<string> := {
    "계절", "평균기온", "강수시간수", "날씨추세", "업종", "상권명", "상권_주요활성시간대", "메시지"}

  /** The message line; `fmt1` is the `:.1f` rendering of the mean temperature. */
  function Message(season: string, avg: Float, trend: string, area: Value, active: string, fmt1: Float -> string): string
  {
    season + " 평균기온 " + fmt1(avg) + "℃, 날씨 '" + trend + "' 예상. "
      + "상권 '" + Str(area) + "'은 " + active + "시간대에 가장 활발"
  }

  datatype SeasonResult =
    | SeasonStoreMissing                 // {"success": False, "error": "store_data not found"}
    | SeasonWeatherFailed(error: string) // {"success": False, "error": ..., "season_metrics": None}
    | SeasonRaised(reason: string)       // an exception escapes the builder
    | SeasonOk(metrics: Record)          // {"success": True, "season_metrics": ...}

  const WeatherFailedPrefix: string := "날씨 조회 실패: "

  /** The eight-key `season_metrics` dict. */
  function SeasonRecord(season: Value, avg: Value, rain: Value, trend: Value, industry: Value, areaName: Value,
                        active: Value, message: Value): (m: Record)
    ensures m.Keys == SeasonKeys
    ensures m["계절"] == season && m["평균기온"] == avg && m["강수시간수"] == rain && m["날씨추세"] == trend
    ensures m["업종"] == industry && m["상권명"] == areaName && m["상권_주요활성시간대"] == active
    ensures m["메시지"] == message
  {
    map["계절" := season, "평균기온" := avg, "강수시간수" := rain, "날씨추세" := trend, "업종" := industry,
        "상권명" := areaName, "상권_주요활성시간대" := active, "메시지" := message]
  }

  /**
   * `build_season_metrics` over the loaded store and trade-area records.
   * `weather` is the forecast lookup at (latitude, longitude), `month` the
   * clock's month, `round1` is `round(x, 1)` and `fmt1` the `:.1f` format.
   */
  function BuildSeasonMetrics(store: Option<Record>, area: Record, weather: (Value, Value) -> WeatherReply,
                              month: int, round1: Float -> Float, fmt1: Float -> string): (r: SeasonResult)
    requires 1 <= month <= 12
    ensures !Present(store) <==> r == SeasonStoreMissing
    ensures Present(store) ==>
      var w := weather(Lat(store.value), Lon(store.value));
      && (!Truthy(w.success) <==> r.SeasonWeatherFailed?)
      && (r.SeasonWeatherFailed? ==> r.error == WeatherFailedPrefix + Str(w.message))
      && (Truthy(w.success) && MissingColumn(w) <==> r == SeasonRaised("KeyError"))
    ensures r.SeasonOk? ==>
      var st := store.value;
      var w := weather(Lat(st), Lon(st));
      var rows := w.rows;
      var rain := RainHours(rows);
      && rows != [] && ForecastColumns <= w.columns
      && r.metrics.Keys == SeasonKeys
      && r.metrics["계절"] == VStr(SeasonOf(month))
      && r.metrics["평균기온"] == VFloat(round1(MeanTemp(rows)))
      && r.metrics["강수시간수"] == VInt(rain)
      && r.metrics["날씨추세"] == VStr(Trend(rain))
      && r.metrics["업종"] == Industry(st)
      && r.metrics["상권명"] == AreaName(st)
      && ActivePeriod(TimeData(area, TimeSlots)).Some?
      && r.metrics["상권_주요활성시간대"] == VStr(ActivePeriod(TimeData(area, TimeSlots)).value)
      // the message formats the unrounded mean, not the rounded "평균기온"
      && r.metrics["메시지"] == VStr(Message(SeasonOf(month), MeanTemp(rows), Trend(rain), AreaName(st),
                                            ActivePeriod(TimeData(area, TimeSlots)).value, fmt1))
  {
    if !Present(store) then SeasonStoreMissing
    else
      var st := store.value;
      var w := weather(Lat(st), Lon(st));
      if !Truthy(w.success) then SeasonWeatherFailed(WeatherFailedPrefix + Str(w.message))
      else if MissingColumn(w) then SeasonRaised("KeyError")
      else
        var avg := MeanTemp(w.rows);
        var rain := RainHours(w.rows);
        var season := SeasonOf(month);
        var trend := Trend(rain);
        match ActivePeriod(TimeData(area, TimeSlots))
        case None => SeasonRaised("TypeError")
        case Some(active) =>
          var areaName := AreaName(st);
          SeasonOk(SeasonRecord(VStr(season), VFloat(round1(avg)), VInt(rain), VStr(trend), Industry(st), areaName,
                                VStr(active), VStr(Message(season, avg, trend, areaName, active, fmt1))))
  }

  /** A trade area with no slot counts reports "정보 없음" and never raises over the slots. */
  lemma NoSlotsNoInfo(area: Record)
    requires forall s :: s in TimeSlots ==> Get(area, TimeKey(s)) == VNone
    ensures ActivePeriod(TimeData(area, TimeSlots)) == Some(NoInfo)
  {
  }
}
