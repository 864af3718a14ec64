/**
 * The MAIN metric builder (my_agent/metrics/main_metrics.py) and its helpers
 * shared by other builders.
 * As written the module does not load: it imports `load_store_and_area_data`
 * from my_agent/utils/tools.py, which does not define it. The records that
 * loader would return are parameters here.
 */
module MainMetrics {
  import opened Common

  /**
   * `_safe(x)`. The module imports numpy only, so the `pd.isna` test raises a
   * NameError that the bare `except` swallows: every input comes back as it went in.
   */
  function MainSafe(x: Value): (r: Value)
    ensures r == x
    ensures x == VNone ==> r == VNone
  {
    x
  }

  /** A value `_drop_na_metrics` discards: None or a float NaN. */
  predicate Dropped(v: Value)
  {
    v == VNone || v == VFloat(NaN)
  }

  /** `_drop_na_metrics(d)`: the entries whose value is neither None nor NaN. */
  function DropNaMetrics(d: Record): (r: Record)
    ensures forall k :: k in r <==> k in d && !Dropped(d[k])
    ensures forall k :: k in r ==> r[k] == d[k]
  {
    map k | k in d && !Dropped(d[k]) :: d[k]
  }

  lemma DropNaIdempotent(d: Record)
    ensures DropNaMetrics(DropNaMetrics(d)) == DropNaMetrics(d)
  {
    var once := DropNaMetrics(d);
    assert DropNaMetrics(once).Keys == once.Keys;
  }

  /** The 9 MAIN metrics and the store fields they read. */
  const MainFields: map<string, string> := map[
    "핵심고객_1순위" := "핵심고객_1순위",
    "핵심고객_2순위" := "핵심고객_2순위",
    "거주고객_비중" := "거주고객_비중",
    "직장고객_비중" := "직장고객_비중",
    "유동인구고객_비중" := "유동인구고객_비중",
    "배달매출_비중" := "배달매출_비중",
    "신규손님_비중" := "신규손님_비중",
    "단골손님_비중" := "단골손님_비중",
    "매출금액_구간(6개구간)" := "매출금액_구간"]

  /** The 8 trade-area metrics, each read from the bizarea field of the same name. */
  const BizareaFields: set<string> := {
    "평균거래단가", "총_유동인구_수", "상권활력_지수", "유동인구_YoY",
    "접근성_점수", "피크_요일", "피크_시간대", "유사_업종_점포_수"}

  datatype MainResult =
    | MainRaised(message: string)
    | MainOk(mainMetrics: Record, bizareaMetrics: Record)

  /** Reads `fields[k]` of `src` for every k, then drops the missing ones. */
  function Project(src: Record, fields: map<string, string>): (r: Record)
    ensures forall k :: k in r <==> k in fields && !Dropped(Get(src, fields[k]))
    ensures forall k :: k in r ==> r[k] == Get(src, fields[k])
  {
    DropNaMetrics(map k | k in fields :: MainSafe(Get(src, fields[k])))
  }

  function Same(keys: set<string>): (m: map<string, string>)
    ensures m.Keys == keys && forall k :: k in m ==> m[k] == k
  {
    map k | k in keys :: k
  }

  /** `build_main_metrics` over the loaded store and bizarea records. */
  function BuildMainMetrics(store: Option<Record>, bizarea: Option<Record>): (r: MainResult)
    ensures !Present(store) ==> r == MainRaised("store_data not found. Check store_num.")
    ensures Present(store) && !Present(bizarea) ==> r == MainRaised("bizarea_data not found.")
    ensures r.MainOk? <==> Present(store) && Present(bizarea)
    ensures r.MainOk? ==>
      && r.mainMetrics.Keys <= MainFields.Keys
      && (forall k :: k in MainFields ==>
            (k in r.mainMetrics <==> !Dropped(Get(store.value, MainFields[k])))
            && (k in r.mainMetrics ==> r.mainMetrics[k] == Get(store.value, MainFields[k])))
      && r.bizareaMetrics.Keys <= BizareaFields
      && (forall k :: k in BizareaFields ==>
            (k in r.bizareaMetrics <==> !Dropped(Get(bizarea.value, k)))
            && (k in r.bizareaMetrics ==> r.bizareaMetrics[k] == Get(bizarea.value, k)))
      && (forall k :: k in r.mainMetrics ==> !Dropped(r.mainMetrics[k]))
      && (forall k :: k in r.bizareaMetrics ==> !Dropped(r.bizareaMetrics[k]))
  {
    if !Present(store) then MainRaised("store_data not found. Check store_num.")
    else if !Present(bizarea) then MainRaised("bizarea_data not found.")
    else MainOk(Project(store.value, MainFields), Project(bizarea.value, Same(BizareaFields)))
  }
}
