/**
 * The ISSUE metric builder (my_agent/metrics/issue_metrics.py): twelve figures, rule-based anomalies and a risk score.
 * As written the module does not load: it imports `load_store_and_area_data`
 * from my_agent/utils/tools.py, which does not define it. The records that
 * loader would return are parameters here.
 */
module IssueMetrics {
  import opened Common

  /** `_safe(x, 0.0)`: None and "" give 0.0, a float-convertible value its float, anything else 0.0. */
  function IssueSafe(x: Value): (r: Float)
    ensures x == VNone || x == VStr("") ==> r == Fin(0.0)
    ensures x != VNone && x != VStr("") && FloatOf(x).Some? ==> r == FloatOf(x).value
    ensures FloatOf(x).None? ==> r == Fin(0.0)
  {
    if x == VNone || x == VStr("") then Fin(0.0)
    else match FloatOf(x)
      case Some(f) => f
      case None => Fin(0.0)
  }

  /** The store fields copied into `issue_metrics`. */
  const IssueKeys: set<string> := {
    "단골손님_비중", "신규손님_비중", "배달매출_비중", "거주고객_비중", "직장고객_비중",
    "유동인구고객_비중", "단골비중_3개월_순증감_pp", "배달비중_3개월_순증감_pp",
    "신규비중_3개월_순증감_pp", "단골비중_YoY_pp", "배달비중_YoY_pp", "신규비중_YoY_pp"}

  /** PEER_COMPARE_FEATURES, in order. */
  const PeerCompareFeatures: seq<string> := [
    "배달매출비중_차이_pp", "단골비중_차이_pp", "신규비중_차이_pp", "배달비중_백분위",
    "단골비중_백분위", "신규비중_백분위", "업종매출지수_백분위", "업종건수지수_백분위",
    "업종매출_편차", "업종건수_편차"]

  const TimeSeriesFlags: set<string> := {"단골손님", "배달비중", "신규고객"}
  const LogicFlags: set<string> := {"배달 의존", "단골 부족"}

  /** The peer features are long names and the flag keys short ones, so the two never collide. */
  lemma FeaturesAreNotFlags()
    ensures forall k :: k in PeerCompareFeatures ==> |k| >= 7
    ensures forall k :: k in TimeSeriesFlags ==> |k| == 4
    ensures forall k :: k in LogicFlags ==> |k| == 5
  {
    PeerFeaturesLong();
    FlagsShort();
  }

  lemma PeerFeaturesLong()
    ensures forall k :: k in PeerCompareFeatures ==> |k| >= 7
  {
    forall i | 0 <= i < |PeerCompareFeatures|
      ensures |PeerCompareFeatures[i]| >= 7
    {
    }
  }

  lemma FlagsShort()
    ensures forall k :: k in TimeSeriesFlags ==> |k| == 4
    ensures forall k :: k in LogicFlags ==> |k| == 5
  {
  }

  /** An anomaly message; the number formatting of the f-strings is not modelled. */
  datatype Anomaly =
    | Decrease3m(pp: real)
    | Increase3m(pp: real)
    | PeerDeviation(value: Value)
    | Fixed(text: string)

  datatype IssueResult =
    | IssueRaised(message: string)
    | IssueFormatError(key: string)
    | IssueOk(metrics: map<string, Float>, abnormal: map<string, Anomaly>, riskScore: int, yyyymm: Value)

  /** One figure of `issue_metrics`, read from the store record through `_safe`. */
  function Field(store: Record, key: string): Float
  {
    IssueSafe(Get(store, key))
  }

  function Metrics(store: Record): (m: map<string, Float>)
    ensures m.Keys == IssueKeys
    ensures forall k :: k in m ==> m[k] == Field(store, k)
  {
    map k | k in IssueKeys :: Field(store, k)
  }

  /** A peer feature is flagged when the store has it and |_safe(value)| >= 10. */
  predicate PeerFlag(store: Record, key: string)
  {
    key in store && Le(Fin(10.0), Abs(IssueSafe(store[key])))
  }

  /** The three time-series rules on the 3-month changes. */
  function TimeSeriesAbnormal(store: Record): (a: map<string, Anomaly>)
    ensures a.Keys <= TimeSeriesFlags
    ensures "단골손님" in a <==> Le(Field(store, "단골비중_3개월_순증감_pp"), Fin(-5.0))
    ensures "배달비중" in a <==> Le(Fin(5.0), Field(store, "배달비중_3개월_순증감_pp"))
    ensures "신규고객" in a <==> Le(Field(store, "신규비중_3개월_순증감_pp"), Fin(-5.0))
  {
    var a0: map<string, Anomaly> := map[];
    var a1 := if Le(Field(store, "단골비중_3개월_순증감_pp"), Fin(-5.0))
              then a0["단골손님" := Decrease3m(-Field(store, "단골비중_3개월_순증감_pp").r)] else a0;
    var a2 := if Le(Fin(5.0), Field(store, "배달비중_3개월_순증감_pp"))
              then a1["배달비중" := Increase3m(Field(store, "배달비중_3개월_순증감_pp").r)] else a1;
    if Le(Field(store, "신규비중_3개월_순증감_pp"), Fin(-5.0))
    then a2["신규고객" := Decrease3m(-Field(store, "신규비중_3개월_순증감_pp").r)] else a2
  }

  /** The peer-comparison rule over the features `fs`, in order. */
  function PeerAbnormal(store: Record, fs: seq<string>): (a: map<string, Anomaly>)
  {
    if fs == [] then map[]
    else
      var a := PeerAbnormal(store, fs[..|fs| - 1]);
      var key := fs[|fs| - 1];
      if PeerFlag(store, key) then a[key := PeerDeviation(store[key])] else a
  }

  /** The peer rule flags exactly the listed features the store deviates on, keeping their raw values. */
  lemma {:induction false} PeerAbnormalFlags(store: Record, fs: seq<string>)
    ensures forall k :: k in PeerAbnormal(store, fs) <==> k in fs && PeerFlag(store, k)
    ensures forall k :: k in PeerAbnormal(store, fs) ==> k in store && PeerAbnormal(store, fs)[k] == PeerDeviation(store[k])
  {
    if fs != [] {
      var init := fs[..|fs| - 1];
      PeerAbnormalFlags(store, init);
      assert fs == init + [fs[|fs| - 1]];
      forall k
        ensures k in fs <==> k in init || k == fs[|fs| - 1]
      {
      }
    }
  }

  /** The two fixed rules on the delivery and loyal-customer shares. */
  function LogicAbnormal(store: Record): (a: map<string, Anomaly>)
    ensures a.Keys <= LogicFlags
    ensures "배달 의존" in a <==> Le(Fin(0.65), Field(store, "배달매출_비중"))
    ensures "단골 부족" in a <==> Lt(Field(store, "단골손님_비중"), Fin(0.18))
  {
    var a0: map<string, Anomaly> := map[];
    var a1 := if Le(Fin(0.65), Field(store, "배달매출_비중")) then a0["배달 의존" := Fixed("배달 비중 과도")] else a0;
    if Lt(Field(store, "단골손님_비중"), Fin(0.18)) then a1["단골 부족" := Fixed("단골 비중 낮음")] else a1
  }

  /** Every anomaly the rules raise for a store whose flagged peer values all format. */
  function Abnormal(store: Record): (a: map<string, Anomaly>)
  {
    TimeSeriesAbnormal(store) + PeerAbnormal(store, PeerCompareFeatures) + LogicAbnormal(store)
  }

  /** The three parts of the anomaly map have pairwise disjoint keys. */
  lemma AbnormalPartsDisjoint(store: Record)
    ensures TimeSeriesAbnormal(store).Keys !! PeerAbnormal(store, PeerCompareFeatures).Keys
    ensures LogicAbnormal(store).Keys !! PeerAbnormal(store, PeerCompareFeatures).Keys
    ensures TimeSeriesAbnormal(store).Keys !! LogicAbnormal(store).Keys
  {
    PeerAbnormalFlags(store, PeerCompareFeatures);
    FeaturesAreNotFlags();
    var t := TimeSeriesAbnormal(store).Keys;
    var p := PeerAbnormal(store, PeerCompareFeatures).Keys;
    var l := LogicAbnormal(store).Keys;
    forall k | k in p
      ensures k !in t && k !in l
    {
      assert |k| >= 7;
    }
    forall k | k in t
      ensures k !in l
    {
      assert |k| == 4;
    }
  }

  /** The fixed-threshold rules: each of their keys is present exactly when its rule fires. */
  lemma AbnormalRuleFlags(store: Record)
    ensures var a := Abnormal(store);
      && ("단골손님" in a <==> Le(Field(store, "단골비중_3개월_순증감_pp"), Fin(-5.0)))
      && ("배달비중" in a <==> Le(Fin(5.0), Field(store, "배달비중_3개월_순증감_pp")))
      && ("신규고객" in a <==> Le(Field(store, "신규비중_3개월_순증감_pp"), Fin(-5.0)))
      && ("배달 의존" in a <==> Le(Fin(0.65), Field(store, "배달매출_비중")))
      && ("단골 부족" in a <==> Lt(Field(store, "단골손님_비중"), Fin(0.18)))
  {
    AbnormalPartsDisjoint(store);
    FeaturesAreNotFlags();
    PeerAbnormalFlags(store, PeerCompareFeatures);
  }

  /** The peer rule: a listed feature is flagged exactly when the store deviates on it, with its raw value. */
  lemma AbnormalPeerFlags(store: Record)
    ensures var a := Abnormal(store);
      && (forall k :: k in PeerCompareFeatures ==> (k in a <==> PeerFlag(store, k)))
      && (forall k :: k in PeerCompareFeatures && k in a ==> a[k] == PeerDeviation(store[k]))
  {
    AbnormalPartsDisjoint(store);
    FeaturesAreNotFlags();
    PeerAbnormalFlags(store, PeerCompareFeatures);
  }

  /** No rule raises a key outside the flags and the peer features. */
  lemma AbnormalKeysBounded(store: Record)
    ensures Abnormal(store).Keys <= TimeSeriesFlags + (set k | k in PeerCompareFeatures) + LogicFlags
  {
    PeerAbnormalFlags(store, PeerCompareFeatures);
  }

  /** A flagged peer feature whose raw value is a string: `format(value, "+.1f")` raises. */
  predicate FormatFailsAt(store: Record, key: string)
  {
    PeerFlag(store, key) && store[key].VStr?
  }

  predicate FormatFails(store: Record)
  {
    exists k :: k in PeerCompareFeatures && FormatFailsAt(store, k)
  }

  function RiskScore(n: nat): (r: int)
    ensures 50 <= r <= 100
    ensures r == 50 + 5 * n || (r == 100 && 50 + 5 * n >= 100)
  {
    if 50 + 5 * n < 100 then 50 + 5 * n else 100
  }

  /** The loop over the peer features: the first one that fails to format, or the peer anomalies. */
  method CollectPeerAnomalies(st: Record, features: seq<string>) returns (failed: Option<string>, peer: map<string, Anomaly>)
    ensures failed.Some? <==> exists k :: k in features && FormatFailsAt(st, k)
    ensures failed.Some? ==> failed.value in features && FormatFailsAt(st, failed.value)
    ensures failed.None? ==> peer == PeerAbnormal(st, features)
  {
    peer := map[];
    var i := 0;
    while i < |features|
      invariant 0 <= i <= |features|
      invariant peer == PeerAbnormal(st, features[..i])
      invariant forall k :: k in features[..i] ==> !FormatFailsAt(st, k)
    {
      var key := features[i];
      assert features[..i + 1][..i] == features[..i];
      if PeerFlag(st, key) {
        if st[key].VStr? {
          assert key in features && FormatFailsAt(st, key);
          return Some(key), peer;
        }
        peer := peer[key := PeerDeviation(st[key])];
      }
      i := i + 1;
    }
    assert features[..i] == features;
    failed := None;
  }

  /** `build_issue_metrics` over the loaded store record. */
  method BuildIssueMetrics(store: Option<Record>) returns (r: IssueResult)
    ensures !Present(store) <==> r == IssueRaised("store_data not found. Check store_num.")
    ensures Present(store) ==> (r.IssueFormatError? <==> FormatFails(store.value))
    ensures r.IssueFormatError? ==> Present(store) && r.key in PeerCompareFeatures && FormatFailsAt(store.value, r.key)
    ensures r.IssueOk? ==>
      && Present(store)
      && r.metrics == Metrics(store.value)
      && r.abnormal == Abnormal(store.value)
      && r.riskScore == RiskScore(|r.abnormal.Keys|)
      && r.yyyymm == Get(store.value, "기준년월")
  {
    if !Present(store) {
      return IssueRaised("store_data not found. Check store_num.");
    }
    var st := store.value;
    var failed, peer := CollectPeerAnomalies(st, PeerCompareFeatures);
    if failed.Some? {
      return IssueFormatError(failed.value);
    }
    var abnormal := TimeSeriesAbnormal(st) + peer + LogicAbnormal(st);
    r := IssueOk(Metrics(st), abnormal, RiskScore(|abnormal.Keys|), Get(st, "기준년월"));
  }

  /** A store without 단골손님_비중 always gets the 단골 부족 flag (its value reads as 0.0). */
  lemma MissingLoyalShareFlags(store: Record)
    requires "단골손님_비중" !in store
    ensures "단골 부족" in Abnormal(store)
  {
    assert Field(store, "단골손님_비중") == Fin(0.0);
    AbnormalRuleFlags(store);
  }

  /** The time-series rules read exactly their thresholds: a 3-month change of exactly -5pp flags. */
  lemma ThresholdsInclusive(store: Record)
    requires Get(store, "단골비중_3개월_순증감_pp") == VInt(-5)
    requires Get(store, "배달비중_3개월_순증감_pp") == VFloat(Fin(4.9))
    ensures "단골손님" in Abnormal(store) && "배달비중" !in Abnormal(store)
  {
    AbnormalRuleFlags(store);
    assert Field(store, "단골비중_3개월_순증감_pp") == Fin(-5.0);
    assert Field(store, "배달비중_3개월_순증감_pp") == Fin(4.9);
  }
}
