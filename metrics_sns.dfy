/**
 * The SNS metric builder (my_agent/metrics/sns_metrics.py): eight trade-area figures.
 * As written the module does not load: it imports `load_store_and_area_data`
 * from my_agent/utils/tools.py, which does not define it. The records that
 * loader would return are parameters here.
 */
module SnsMetrics {
  import opened Common
  import opened MainMetrics

  /** The eight figures, each read from the trade-area field of the same name. */
  const SnsFields: set<string> := {
    "총_상주인구_수", "총_직장_인구_수", "남성_유동인구_수", "여성_유동인구_수",
    "상권_지리", "주중_매출_금액", "주말_매출_금액", "주력_연령대"}

  datatype SnsResult =
    | SnsRaised(message: string)
    | SnsOk(metrics: Record)

  /** `build_sns_metrics`: the store record is only checked for presence. */
  function BuildSnsMetrics(store: Option<Record>, bizarea: Option<Record>): (r: SnsResult)
    ensures !Present(store) ==> r == SnsRaised("store_data not found. Check store_num.")
    ensures Present(store) && !Present(bizarea) ==> r == SnsRaised("bizarea_data not found.")
    ensures r.SnsOk? <==> Present(store) && Present(bizarea)
    ensures r.SnsOk? ==>
      && r.metrics.Keys <= SnsFields
      && (forall k :: k in SnsFields ==>
            (k in r.metrics <==> !Dropped(Get(bizarea.value, k)))
            && (k in r.metrics ==> r.metrics[k] == Get(bizarea.value, k)))
  {
    if !Present(store) then SnsRaised("store_data not found. Check store_num.")
    else if !Present(bizarea) then SnsRaised("bizarea_data not found.")
    else SnsOk(Project(bizarea.value, Same(SnsFields)))
  }

  /** Two stores in the same trade area get the same SNS figures. */
  lemma SnsDependsOnlyOnArea(s1: Record, s2: Record, bizarea: Option<Record>)
    requires Present(Some(s1)) && Present(Some(s2))
    ensures BuildSnsMetrics(Some(s1), bizarea) == BuildSnsMetrics(Some(s2), bizarea)
  {
  }

  /** No reported figure is None or NaN. */
  lemma SnsNoMissing(store: Option<Record>, bizarea: Option<Record>)
    requires BuildSnsMetrics(store, bizarea).SnsOk?
    ensures var m := BuildSnsMetrics(store, bizarea).metrics;
      forall k :: k in m ==> !Dropped(m[k])
  {
    var m := BuildSnsMetrics(store, bizarea).metrics;
    forall k | k in m
      ensures !Dropped(m[k])
    {
      assert k in SnsFields;
    }
  }
}
