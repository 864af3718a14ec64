/**
 * The merchant lookup tools of mcp/tools.py over an in-memory franchise
 * table. Text columns are read as `_load_franchise_df` leaves them
 * (`fillna("").astype(str)`).
 */
module McpTools {
  import opened Common
  import opened Seqs

  // ---------------------------------------------------------------------
  // safe_percentage_to_ratio

  /** `safe_percentage_to_ratio(val, default)`: a percentage or ratio as a ratio. */
  function SafePercentageToRatio(val: Value, default: real): (r: real)
    ensures IsNa(val) ==> r == default
    ensures FloatOf(val).None? || FloatOf(val) == Some(NaN) ==> r == default
    ensures !IsNa(val) && FloatOf(val).Some? && FloatOf(val).value.Fin? ==>
      var x := FloatOf(val).value.r;
      (x < 0.0 ==> r == 0.0) && (0.0 <= x <= 1.0 ==> r == x)
      && (1.0 < x <= 100.0 ==> r == x / 100.0) && (x > 100.0 ==> r == 1.0)
    ensures 0.0 <= default <= 1.0 ==> 0.0 <= r <= 1.0
  {
    if IsNa(val) then default
    else match FloatOf(val)
      case None => default
      case Some(NaN) => default
      case Some(Fin(x)) =>
        if x < 0.0 then 0.0
        else if x <= 1.0 then x
        else if x <= 100.0 then x / 100.0
        else 1.0
  }

  // ---------------------------------------------------------------------
  // The franchise table.

  const IdCol := "가맹점_구분번호"
  const NameCol := "가맹점명"
  const RegionCol := "가맹점_지역"
  const IndustryCol := "업종"
  const MonthCol := "기준년월"

  /** A normalised text column of a row: missing and NaN cells read as "". */
  function Text(row: Record, col: string): string
  {
    CellText(Get(row, col))
  }

  /** `str(row.get(col, ""))` for a column that is not normalised. */
  function RawText(row: Record, col: string): string
  {
    if col in row then Str(row[col]) else ""
  }

  /** One search hit: the four columns `search_merchant` returns. */
  datatype Merchant = Merchant(id: string, name: string, region: string, industry: string)

  function ToMerchant(row: Record): Merchant
  {
    Merchant(Text(row, IdCol), Text(row, NameCol), Text(row, RegionCol), Text(row, IndustryCol))
  }

  function ToMerchants(rows: Table): (ms: seq<Merchant>)
    ensures |ms| == |rows| && forall i :: 0 <= i < |rows| ==> ms[i] == ToMerchant(rows[i])
  {
    seq(|rows|, i requires 0 <= i < |rows| => ToMerchant(rows[i]))
  }

  // ---------------------------------------------------------------------
  // search_merchant

  datatype SearchMessage = EmptyQuery | NoMatch(query: string) | Candidates(query: string, n: nat)

  datatype SearchResult = SearchResult(found: bool, message: SearchMessage, count: nat, merchants: seq<Merchant>)

  /** Case-insensitive substring match of the star-free query in the star-free name. */
  predicate PartialHit(row: Record, qClean: string)
  {
    Contains(Lower(RemoveChar(Text(row, NameCol), '*')), Lower(qClean))
  }

  /** The matching tiers: exact name, else star-free substring, else (query of 2+ chars) 2-char prefix of the raw name. */
  function MatchTier(df: Table, q: string, qClean: string): Table
  {
    var exact := Filter(df, (row: Record) => Text(row, NameCol) == q);
    var result := if exact != [] then exact else Filter(df, (row: Record) => PartialHit(row, qClean));
    if result == [] && |qClean| >= 2 then Filter(df, (row: Record) => StartsWith(Text(row, NameCol), qClean[..2]))
    else result
  }

  /** The sort key of search results: star count, then name length, then name, all ascending. */
  predicate MerchantLe(a: Merchant, b: Merchant)
  {
    var sa, sb := CountChar(a.name, '*'), CountChar(b.name, '*');
    sa < sb || (sa == sb && (|a.name| < |b.name| || (|a.name| == |b.name| && StrLe(a.name, b.name))))
  }

  predicate RowLe(a: Record, b: Record)
  {
    MerchantLe(ToMerchant(a), ToMerchant(b))
  }

  lemma MerchantOrder()
    ensures Total(MerchantLe) && Transitive(MerchantLe)
  {
    forall a: Merchant, b: Merchant ensures MerchantLe(a, b) || MerchantLe(b, a) {
      StrLeTotal(a.name, b.name);
    }
    forall a: Merchant, b: Merchant, c: Merchant | MerchantLe(a, b) && MerchantLe(b, c) ensures MerchantLe(a, c) {
      if StrLe(a.name, b.name) && StrLe(b.name, c.name) {
        StrLeTrans(a.name, b.name, c.name);
      }
    }
  }

  lemma RowOrder()
    ensures Total(RowLe) && Transitive(RowLe)
  {
    MerchantOrder();
  }

  predicate DistinctId(a: Merchant, b: Merchant)
  {
    a.id != b.id
  }

  function Ids(ms: seq<Merchant>): set<string>
  {
    set m | m in ms :: m.id
  }

  /** `drop_duplicates(subset=[id])`: the first merchant of each id not yet in `seen`, in order. */
  function DedupById(ms: seq<Merchant>, seen: set<string>): (r: seq<Merchant>)
    ensures Subseq(r, ms)
    ensures Ids(r) == Ids(ms) - seen
    ensures Pairwise(r, DistinctId)
  {
    if ms == [] then []
    else if ms[0].id in seen then
      var t := DedupById(ms[1..], seen);
      SubseqSkip(t, ms);
      IdsCons(ms[0], ms[1..]);
      assert ms == [ms[0]] + ms[1..];
      t
    else
      var t := DedupById(ms[1..], seen + {ms[0].id});
      IdsCons(ms[0], ms[1..]);
      assert ms == [ms[0]] + ms[1..];
      assert forall m :: m in t ==> m.id != ms[0].id by {
        forall m | m in t ensures m.id != ms[0].id {
          assert m.id in Ids(t);
        }
      }
      var r := [ms[0]] + t;
      assert r[1..] == t;
      IdsCons(ms[0], t);
      r
  }

  lemma IdsCons(m: Merchant, t: seq<Merchant>)
    ensures Ids([m] + t) == {m.id} + Ids(t)
  {
    assert forall x :: x in [m] + t <==> x == m || x in t;
  }

  /** The sorted, de-duplicated and capped candidates of a non-empty tier. */
  function Ranked(tier: Table): seq<Merchant>
  {
    TakeSeq(DedupById(ToMerchants(SortBy(tier, RowLe)), {}), 20)
  }

  /** `search_merchant(merchant_name)`. */
  function SearchMerchant(df: Table, merchantName: string): (r: SearchResult)
    ensures r.count == |r.merchants| <= 20
    ensures r.found <==> r.count >= 1
    ensures RemoveChar(Strip(merchantName), '*') == "" ==> r == SearchResult(false, EmptyQuery, 0, [])
    ensures Pairwise(r.merchants, DistinctId)
  {
    var q := Strip(merchantName);
    var qClean := RemoveChar(q, '*');
    if qClean == "" then SearchResult(false, EmptyQuery, 0, [])
    else
      var tier := MatchTier(df, q, qClean);
      if tier == [] then SearchResult(false, NoMatch(merchantName), 0, [])
      else
        var deduped := DedupById(ToMerchants(SortBy(tier, RowLe)), {});
        assert tier[0] in tier;
        assert ToMerchant(tier[0]).id in Ids(ToMerchants(SortBy(tier, RowLe))) by {
          assert tier[0] in multiset(SortBy(tier, RowLe));
        }
        var ms := TakeSeq(deduped, 20);
        PrefixSubseq(deduped, |ms|);
        PairwiseSubseq(ms, deduped, DistinctId);
        SearchResult(true, Candidates(merchantName, |ms|), |ms|, ms)
  }

  lemma MapPreservesOrder(rows: Table)
    requires Pairwise(rows, RowLe)
    ensures Pairwise(ToMerchants(rows), MerchantLe)
  {
  }

  /** Hits come out ordered by star count, then name length, then name. */
  lemma SearchOrdered(df: Table, merchantName: string)
    ensures Pairwise(SearchMerchant(df, merchantName).merchants, MerchantLe)
  {
    var q := Strip(merchantName);
    var qClean := RemoveChar(q, '*');
    if qClean != "" {
      var tier := MatchTier(df, q, qClean);
      if tier != [] {
        RowOrder();
        SortBySorted(tier, RowLe);
        MapPreservesOrder(SortBy(tier, RowLe));
        var all := ToMerchants(SortBy(tier, RowLe));
        var deduped := DedupById(all, {});
        PairwiseSubseq(deduped, all, MerchantLe);
        var ms := TakeSeq(deduped, 20);
        PrefixSubseq(deduped, |ms|);
        PairwiseSubseq(ms, deduped, MerchantLe);
      }
    }
  }

  /** Each merchant of Ranked(tier) is the projection of a tier row. */
  lemma RankedFromTier(tier: Table)
    ensures forall m :: m in Ranked(tier) ==> exists row :: row in tier && m == ToMerchant(row)
  {
    var sorted := SortBy(tier, RowLe);
    var all := ToMerchants(sorted);
    var deduped := DedupById(all, {});
    var ms := TakeSeq(deduped, 20);
    PrefixSubseq(deduped, |ms|);
    SubseqMembers(ms, deduped);
    SubseqMembers(deduped, all);
    forall m | m in ms ensures exists row :: row in tier && m == ToMerchant(row) {
      var i :| 0 <= i < |all| && all[i] == m;
      assert sorted[i] in multiset(tier);
    }
  }

  /** Below the cap of 20, Ranked(tier) carries every id of the tier. */
  lemma RankedComplete(tier: Table)
    requires |Ranked(tier)| < 20
    ensures forall row :: row in tier ==> ToMerchant(row).id in Ids(Ranked(tier))
  {
    var sorted := SortBy(tier, RowLe);
    var all := ToMerchants(sorted);
    var deduped := DedupById(all, {});
    assert Ranked(tier) == deduped;
    forall row | row in tier ensures ToMerchant(row).id in Ids(deduped) {
      assert row in multiset(sorted);
      var i :| 0 <= i < |sorted| && sorted[i] == row;
      assert all[i] == ToMerchant(row);
      assert all[i] in all;
    }
  }

  /** Every hit is a row of the selected tier, and every id of the tier is returned unless the cap of 20 is reached. */
  lemma SearchFromTier(df: Table, merchantName: string)
    requires RemoveChar(Strip(merchantName), '*') != ""
    ensures var q := Strip(merchantName);
            var tier := MatchTier(df, q, RemoveChar(q, '*'));
            var r := SearchMerchant(df, merchantName);
            (forall m :: m in r.merchants ==> exists row :: row in tier && m == ToMerchant(row))
            && (r.count < 20 ==> forall row :: row in tier ==> ToMerchant(row).id in Ids(r.merchants))
  {
    var q := Strip(merchantName);
    var tier := MatchTier(df, q, RemoveChar(q, '*'));
    if tier != [] {
      assert SearchMerchant(df, merchantName).merchants == Ranked(tier);
      RankedFromTier(tier);
      if |Ranked(tier)| < 20 {
        RankedComplete(tier);
      }
    }
  }

  /** An exact name match shadows the looser tiers: every hit then carries exactly the stripped query as its name. */
  lemma SearchExactWins(df: Table, merchantName: string, row: Record)
    requires row in df && Text(row, NameCol) == Strip(merchantName)
    requires RemoveChar(Strip(merchantName), '*') != ""
    ensures forall m :: m in SearchMerchant(df, merchantName).merchants ==> m.name == Strip(merchantName)
  {
    var q := Strip(merchantName);
    var exact := Filter(df, (r: Record) => Text(r, NameCol) == q);
    assert row in exact;
    SearchFromTier(df, merchantName);
  }

  // ---------------------------------------------------------------------
  // load_store_data

  /** The card field and the source column of each ratio it carries. */
  const RatioColumns: map<string, string> := map[
    "rank_in_industry_pct" := "동일_업종_내_매출_순위_비율",
    "rank_in_area_pct" := "동일_상권_내_매출_순위_비율",
    "delivery_share" := "배달매출금액_비율",
    "repeat_rate" := "재방문_고객_비중",
    "new_rate" := "신규_고객_비중",
    "residential_share" := "거주_이용_고객_비중",
    "worker_share" := "직장_이용_고객_비중",
    "floating_share" := "유동인구_이용_고객_비중",
    "male_u20" := "남성_20대이하_고객_비중",
    "male_30" := "남성_30대_고객_비중",
    "male_40" := "남성_40대_고객_비중",
    "male_50" := "남성_50대_고객_비중",
    "male_60" := "남성_60대이상_고객_비중",
    "female_u20" := "여성_20대이하_고객_비중",
    "female_30" := "여성_30대_고객_비중",
    "female_40" := "여성_40대_고객_비중",
    "female_50" := "여성_50대_고객_비중",
    "female_60" := "여성_60대이상_고객_비중"]

  datatype StoreLoad =
    | StoreLoaded(card: Record)
    | StoreNotFound(error: string)
    | StoreLoadRaised   // float() of a non-numeric 위도/경도 raises ValueError

  function StoreRows(df: Table, storeId: string): Table
  {
    Filter(df, (row: Record) => Text(row, IdCol) == storeId)
  }

  /** The greatest string of a non-empty sequence (`Series.max()` on strings). */
  function MaxStr(s: seq<string>): (m: string)
    requires s != []
    ensures m in s && forall x :: x in s ==> StrLe(x, m)
  {
    if |s| == 1 then
      StrLeRefl(s[0]);
      s[0]
    else
      var t := MaxStr(s[1..]);
      StrLeTotal(s[0], t);
      if StrLe(s[0], t) then t
      else
        forall x | x in s ensures StrLe(x, s[0]) {
          if x == s[0] {
            StrLeRefl(x);
          } else {
            assert x in s[1..];
            StrLeTrans(x, t, s[0]);
          }
        }
        s[0]
  }

  function Months(rows: Table): (ms: seq<string>)
    ensures |ms| == |rows| && forall i :: 0 <= i < |rows| ==> ms[i] == Text(rows[i], MonthCol)
  {
    seq(|rows|, i requires 0 <= i < |rows| => Text(rows[i], MonthCol))
  }

  /** The first row whose month is m (`iloc[0]` of the rows at m). */
  function FirstWithMonth(rows: Table, m: string): (i: nat)
    requires m in Months(rows)
    ensures i < |rows| && Text(rows[i], MonthCol) == m
    ensures forall j :: 0 <= j < i ==> Text(rows[j], MonthCol) != m
  {
    if Text(rows[0], MonthCol) == m then 0
    else
      assert Months(rows[1..]) == Months(rows)[1..];
      1 + FirstWithMonth(rows[1..], m)
  }

  /** `float(row.get(col, 0) or 0)`; None when float() raises. */
  function Coordinate(row: Record, col: string): Option<Float>
  {
    var v := if col in row then row[col] else VInt(0);
    if !Truthy(v) then Some(Fin(0.0)) else FloatOf(v)
  }

  function Ratios(row: Record): (m: Record)
    ensures m.Keys == RatioColumns.Keys
    ensures forall k :: k in m ==> m[k].VFloat? && m[k].f.Fin? && 0.0 <= m[k].f.r <= 1.0
  {
    map k | k in RatioColumns :: VFloat(Fin(SafePercentageToRatio(Get(row, RatioColumns[k]), 0.0)))
  }

  lemma IdKeysNotRatios()
    ensures "mct_id" !in RatioColumns && "yyyymm" !in RatioColumns
  {
  }

  /** The identity and location fields at the head of the card. */
  function CardHead(storeId: string, month: string, row: Record, lat: Float, lon: Float): (head: Record)
    ensures "mct_id" in head && head["mct_id"] == VStr(storeId)
    ensures "yyyymm" in head && head["yyyymm"] == VStr(month)
  {
    map[
      "mct_id" := VStr(storeId),
      "yyyymm" := VStr(month),
      "mct_name" := VStr(Text(row, NameCol)),
      "district" := VStr(Text(row, RegionCol)),
      "industry" := VStr(Text(row, IndustryCol)),
      "address" := VStr(RawText(row, "가맹점_주소")),
      "sangwon" := VStr(RawText(row, "상권")),
      "admin_dong" := VStr(RawText(row, "행정동")),
      "latitude" := VFloat(lat),
      "longitude" := VFloat(lon)]
  }

  /** The card `load_store_data` builds from the chosen row. */
  function BuildCard(storeId: string, month: string, row: Record, lat: Float, lon: Float): (card: Record)
    ensures "mct_id" in card && card["mct_id"] == VStr(storeId)
    ensures "yyyymm" in card && card["yyyymm"] == VStr(month)
    ensures forall k :: k in RatioColumns ==> k in card && card[k] == Ratios(row)[k]
  {
    IdKeysNotRatios();
    CardHead(storeId, month, row, lat, lon) + Ratios(row)
  }

  /** The row `load_store_data` reads: the first of the store's rows at its greatest month. */
  function LatestIndex(rows: Table): (i: nat)
    requires rows != []
    ensures i < |rows|
    ensures forall row :: row in rows ==> StrLe(Text(row, MonthCol), Text(rows[i], MonthCol))
    ensures forall j :: 0 <= j < i ==> Text(rows[j], MonthCol) != Text(rows[i], MonthCol)
  {
    var ms := Months(rows);
    var latest := MaxStr(ms);
    forall row | row in rows ensures StrLe(Text(row, MonthCol), latest) {
      var k :| 0 <= k < |rows| && rows[k] == row;
      assert ms[k] in ms;
    }
    FirstWithMonth(rows, latest)
  }

  /** `load_store_data(store_id)`: the card of the store's latest month. */
  function LoadStoreData(df: Table, storeId: string): (r: StoreLoad)
    ensures r.StoreNotFound? <==> StoreRows(df, storeId) == []
    ensures r.StoreNotFound? ==> r.error == "store_id " + storeId + " not found"
    ensures r.StoreLoaded? ==>
      && "mct_id" in r.card && r.card["mct_id"] == VStr(storeId)
      && (forall k :: k in RatioColumns ==> k in r.card && r.card[k].VFloat? && r.card[k].f.Fin? && 0.0 <= r.card[k].f.r <= 1.0)
      && "yyyymm" in r.card && r.card["yyyymm"].VStr?
      && (exists row :: row in StoreRows(df, storeId) && Text(row, MonthCol) == r.card["yyyymm"].s)
      && (forall row :: row in StoreRows(df, storeId) ==> StrLe(Text(row, MonthCol), r.card["yyyymm"].s))
  {
    var rows := StoreRows(df, storeId);
    if rows == [] then StoreNotFound("store_id " + storeId + " not found")
    else
      var i := LatestIndex(rows);
      var row := rows[i];
      match (Coordinate(row, "위도"), Coordinate(row, "경도"))
      case (Some(lat), Some(lon)) => StoreLoaded(BuildCard(storeId, Text(row, MonthCol), row, lat, lon))
      case _ => StoreLoadRaised
  }

  // ---------------------------------------------------------------------
  // resolve_region

  datatype RegionResult = RegionResult(success: bool, adminDongCode: Option<string>, error: Option<string>)

  const AdminDongCol := "행정동"

  /** Where the first non-null 행정동 value of the rows sits (`dropna().unique()[0]`); |rows| when there is none. */
  function FirstAdminDongAt(rows: Table): (i: nat)
    ensures i <= |rows|
    ensures i < |rows| ==> !IsNa(Get(rows[i], AdminDongCol))
    ensures forall j :: 0 <= j < i ==> IsNa(Get(rows[j], AdminDongCol))
  {
    if rows == [] then 0
    else if !IsNa(Get(rows[0], AdminDongCol)) then 0
    else 1 + FirstAdminDongAt(rows[1..])
  }

  function FirstAdminDong(rows: Table): (r: Option<Value>)
    ensures r.None? <==> forall row :: row in rows ==> IsNa(Get(row, AdminDongCol))
  {
    var i := FirstAdminDongAt(rows);
    if i < |rows| then Some(Get(rows[i], AdminDongCol)) else None
  }

  function DistrictRows(df: Table, district: string): Table
  {
    Filter(df, (row: Record) => Text(row, RegionCol) == district)
  }

  /** `resolve_region(district)`. */
  function ResolveRegion(df: Table, district: string): (r: RegionResult)
    ensures r.success <==> exists row :: row in DistrictRows(df, district) && !IsNa(Get(row, AdminDongCol))
    ensures !r.success ==> r == RegionResult(false, None, Some("district " + district + " not found"))
    ensures r.success ==> (r.error.None? && r.adminDongCode.Some?
            && var rows := DistrictRows(df, district);
               var i := FirstAdminDongAt(rows);
               i < |rows| && r.adminDongCode.value == Str(Get(rows[i], AdminDongCol)))
  {
    match FirstAdminDong(DistrictRows(df, district))
    case None => RegionResult(false, None, Some("district " + district + " not found"))
    case Some(v) => RegionResult(true, Some(Str(v)), None)
  }

  // ---------------------------------------------------------------------
  // load_area_data / load_region_data (placeholders)

  datatype ToolData = ToolData(success: bool, data: Record, error: Option<string>)

  /** `load_area_data(code)`: always succeeds, echoing the code with zero figures. */
  function LoadAreaData(code: string): (r: ToolData)
    ensures r.success && r.error.None?
    ensures r.data.Keys == {"admin_dong_code", "total_sales", "store_count", "floating_population"}
    ensures r.data["admin_dong_code"] == VStr(code)
    ensures forall k :: k in r.data && k != "admin_dong_code" ==> r.data[k] == VInt(0)
  {
    ToolData(true, map["admin_dong_code" := VStr(code), "total_sales" := VInt(0),
                       "store_count" := VInt(0), "floating_population" := VInt(0)], None)
  }

  /** `load_region_data(code)`: always succeeds, echoing the code with zero figures. */
  function LoadRegionData(code: string): (r: ToolData)
    ensures r.success && r.error.None?
    ensures r.data.Keys == {"admin_dong_code", "population", "households"}
    ensures r.data["admin_dong_code"] == VStr(code)
    ensures forall k :: k in r.data && k != "admin_dong_code" ==> r.data[k] == VInt(0)
  {
    ToolData(true, map["admin_dong_code" := VStr(code), "population" := VInt(0), "households" := VInt(0)], None)
  }
}
