/**
 * The GENERAL metric builder (my_agent/metrics/general_metrics.py) and its three converters.
 * As written the module does not load: it imports `load_store_and_area_data`
 * from my_agent/utils/tools.py, which does not define it. The records that
 * loader would return are parameters here.
 */
module GeneralMetrics {
  import opened Common

  /** A number in Python's sense (bool is an int): what `isinstance(x, (int, float))` accepts. */
  predicate IsNumber(v: Value)
  {
    v.VBool? || v.VInt? || v.VFloat?
  }

  /**
   * `_safe(x, default)`: None and "" give the default, a number becomes a float,
   * anything else (a string, another object) comes back unchanged.
   */
  function GeneralSafe(x: Value, default: Value): (r: Value)
    ensures x == VNone || x == VStr("") ==> r == default
    ensures x != VNone && x != VStr("") && IsNumber(x) ==> r == VFloat(NumberOf(x).value)
    ensures x != VNone && x != VStr("") && !IsNumber(x) ==> r == x
  {
    if x == VNone || x == VStr("") then default
    else match NumberOf(x)
      case Some(f) => VFloat(f)
      case None => x
  }

  /** A default that is itself a float or a non-empty text is a fixed point of `_safe`. */
  predicate StableDefault(d: Value)
  {
    d.VFloat? || (d.VStr? && d != VStr(""))
  }

  /** Converting twice is converting once. */
  lemma GeneralSafeIdempotent(x: Value, d: Value)
    requires StableDefault(d)
    ensures GeneralSafe(GeneralSafe(x, d), d) == GeneralSafe(x, d)
  {
  }

  /** `_safe_float(x, default)`: None and "" give the default, and so do the values `float` rejects. */
  function SafeFloat(x: Value, default: Float): (r: Float)
    ensures x == VNone || x == VStr("") ==> r == default
    ensures x != VNone && x != VStr("") ==> r == (if FloatOf(x).Some? then FloatOf(x).value else default)
  {
    if x == VNone || x == VStr("") then default
    else match FloatOf(x)
      case Some(f) => f
      case None => default
  }

  /** `int(x)` on one value; None stands for the ValueError or TypeError it raises. */
  function IntOf(x: Value): Option<int>
  {
    match x
    case VNone => None
    case VBool(b) => Some(if b then 1 else 0)
    case VInt(i) => Some(i)
    case VFloat(f) => if f.Fin? then Some(Trunc(f.r)) else None
    case VStr(s) => ParseInt(s)
    case VObj => None
  }

  /** `_safe_int(x, default)`. */
  function SafeInt(x: Value, default: int): (r: int)
    ensures x == VNone || x == VStr("") ==> r == default
    ensures x != VNone && x != VStr("") ==> r == (if IntOf(x).Some? then IntOf(x).value else default)
  {
    if x == VNone || x == VStr("") then default
    else match IntOf(x)
      case Some(i) => i
      case None => default
  }

  /** The text of an int survives `_safe_int`; so does the int itself. */
  lemma SafeIntRoundTrip(i: int, d: int)
    ensures SafeInt(VStr(IntToString(i)), d) == i
    ensures SafeInt(VInt(i), d) == i
  {
    var t := IntToString(i);
    IntTextRoundTrip(i);
    assert t != "" by {
      var n: nat := if i < 0 then -i else i;
      assert NatToString(n) != [];
    }
    assert VStr(t) != VStr("") && IntOf(VStr(t)) == Some(i);
  }

  /** `int(x)` of a finite float truncates toward zero: never further from zero than x. */
  lemma SafeIntTruncates(r: real, d: int)
    ensures var n := SafeInt(VFloat(Fin(r)), d);
      (r >= 0.0 ==> 0 <= n && n as real <= r < n as real + 1.0)
      && (r < 0.0 ==> n <= 0 && n as real - 1.0 < r <= n as real)
  {
  }

  const Unknown: string := "정보없음"

  /** The 브랜드형태 text: F and I are named, anything else is printed as `str` of the converted code. */
  function BrandType(code: Value): (r: string)
    ensures code == VStr("F") ==> r == "프랜차이즈"
    ensures code == VStr("I") ==> r == "개인점"
    ensures code == VNone || code == VStr("") ==> r == Unknown
    ensures code.VStr? && code != VStr("") && code != VStr("F") && code != VStr("I") ==> r == code.s
  {
    var b := GeneralSafe(code, VStr(Unknown));
    if b == VStr("F") then "프랜차이즈"
    else if b == VStr("I") then "개인점"
    else if b != VStr(Unknown) then Str(b)
    else Unknown
  }

  /** The 가게_기본정보 block. */
  function BasicInfo(store: Record): (r: Record)
    ensures r.Keys == {"상권유형", "브랜드형태", "운영기간_개월", "개인사업자여부", "폐업여부"}
    ensures r["브랜드형태"] == VStr(BrandType(Get(store, "브랜드구분코드")))
    ensures r["운영기간_개월"] == VInt(SafeInt(Get(store, "영업_경과_개월"), 0))
    ensures r["상권유형"] == GeneralSafe(Get(store, "상권유형_지리"), VStr(Unknown))
    ensures r["개인사업자여부"] == GeneralSafe(Get(store, "개인사업자여부"), VStr(Unknown))
    ensures r["폐업여부"] == GeneralSafe(Get(store, "폐업여부"), VStr(Unknown))
  {
    map[
      "상권유형" := GeneralSafe(Get(store, "상권유형_지리"), VStr(Unknown)),
      "브랜드형태" := VStr(BrandType(Get(store, "브랜드구분코드"))),
      "운영기간_개월" := VInt(SafeInt(Get(store, "영업_경과_개월"), 0)),
      "개인사업자여부" := GeneralSafe(Get(store, "개인사업자여부"), VStr(Unknown)),
      "폐업여부" := GeneralSafe(Get(store, "폐업여부"), VStr(Unknown))]
  }

  /** The 상권_환경 counts and the trade-area fields they read. */
  const AreaCounts: map<string, string> := map[
    "유동인구수" := "총_유동인구_수",
    "상주인구수" := "총_상주인구_수",
    "직장인구수" := "총_직장_인구_수",
    "지하철역수" := "지하철_역_수",
    "버스정거장수" := "버스_정거장_수",
    "전체점포수" := "점포_수",
    "유사업종점포수" := "유사_업종_점포_수",
    "프랜차이즈점포수" := "프랜차이즈_점포_수"]

  /** The 상권_환경 rates and the trade-area fields they read. */
  const AreaRates: map<string, string> := map[
    "접근성점수" := "접근성_점수",
    "개업율" := "개업_율",
    "폐업률" := "폐업_률"]

  /** No key is both a count and a rate. */
  lemma AreaKeysDisjoint()
    ensures AreaCounts.Keys !! AreaRates.Keys
  {
    assert AreaRates.Keys == {"접근성점수", "개업율", "폐업률"};
  }

  /** The 상권_환경 block: empty when there is no trade-area record. */
  function AreaInfo(biz: Option<Record>): (r: Record)
    ensures !Present(biz) ==> r == map[]
    ensures Present(biz) ==> r.Keys == AreaCounts.Keys + AreaRates.Keys
    ensures Present(biz) ==> forall k :: k in AreaCounts ==>
      r[k] == VInt(SafeInt(Get(biz.value, AreaCounts[k]), 0))
    ensures Present(biz) ==> forall k :: k in AreaRates ==>
      r[k] == VFloat(SafeFloat(Get(biz.value, AreaRates[k]), Fin(0.0)))
  {
    if !Present(biz) then map[]
    else
      var counts := map k | k in AreaCounts :: VInt(SafeInt(Get(biz.value, AreaCounts[k]), 0));
      var rates := map k | k in AreaRates :: VFloat(SafeFloat(Get(biz.value, AreaRates[k]), Fin(0.0)));
      AreaKeysDisjoint();
      counts + rates
  }

  /** The ten 고객_세부분포 keys; each reads the store field `<key>_고객_비중`. */
  const CustomerKeys: set<string> := {
    "남성_20대이하", "남성_30대", "남성_40대", "남성_50대", "남성_60대이상",
    "여성_20대이하", "여성_30대", "여성_40대", "여성_50대", "여성_60대이상"}

  function CustomerMix(store: Record): (r: map<string, Float>)
    ensures r.Keys == CustomerKeys
    ensures forall k :: k in r ==> r[k] == SafeFloat(Get(store, k + "_고객_비중"), Fin(0.0))
  {
    map k | k in CustomerKeys :: SafeFloat(Get(store, k + "_고객_비중"), Fin(0.0))
  }

  datatype GeneralResult =
    | GeneralRaised(message: string)
    | GeneralOk(basic: Record, area: Record, customers: map<string, Float>, yyyymm: Value)

  /** `build_general_metrics(store_num)` over the loaded store and trade-area records. */
  function BuildGeneralMetrics(storeNum: string, store: Option<Record>, biz: Option<Record>): (r: GeneralResult)
    ensures !Present(store) <==> r == GeneralRaised("store_data not found for store_num=" + storeNum)
    ensures r.GeneralOk? ==>
      && r.basic == BasicInfo(store.value)
      && r.area == AreaInfo(biz)
      && r.customers == CustomerMix(store.value)
      && r.yyyymm == GeneralSafe(Get(store.value, "기준년월"), VStr(Unknown))
      && r.yyyymm != VNone
  {
    if !Present(store) then GeneralRaised("store_data not found for store_num=" + storeNum)
    else
      var st := store.value;
      GeneralOk(BasicInfo(st), AreaInfo(biz), CustomerMix(st), GeneralSafe(Get(st, "기준년월"), VStr(Unknown)))
  }

  /** A numeric 기준년월 comes back as a float, so 202501 is reported as 202501.0. */
  lemma NumericMonthBecomesFloat(store: Record, storeNum: string)
    requires Present(Some(store))
    requires Get(store, "기준년월") == VInt(202501)
    ensures BuildGeneralMetrics(storeNum, Some(store), None).yyyymm == VFloat(Fin(202501.0))
  {
  }
}
