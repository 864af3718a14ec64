/**
 * The STRATEGY metric builder (my_agent/metrics/strategy_metrics.py).
 * As written the module does not load: it imports `load_store_and_area_data`
 * from my_agent/utils/tools.py, which does not define it. The records that
 * loader would return are parameters here.
 */
module StrategyMetrics {
  import opened Common
  import opened GeneralMetrics

  /** The three strategy metrics and the store fields they read. */
  const StrategyFields: map<string, string> := map[
    "취소율_구간" := "취소율_구간",
    "상권과_이동성_적합도" := "이동성_적합도",
    "상권과_연령대_적합도" := "연령대_적합도"]

  datatype StrategyResult =
    | StrategyRaised(message: string)
    | StrategyOk(metrics: Record)

  /**
   * `build_strategy_metrics`. Its `_safe` is the same code as the general builder's,
   * with the default 0.0; no entry is dropped.
   */
  function BuildStrategyMetrics(store: Option<Record>, bizarea: Option<Record>): (r: StrategyResult)
    ensures !Present(store) ==> r == StrategyRaised("store_data not found. Check store_num.")
    ensures Present(store) && !Present(bizarea) ==> r == StrategyRaised("bizarea_data not found.")
    ensures r.StrategyOk? <==> Present(store) && Present(bizarea)
    ensures r.StrategyOk? ==>
      && r.metrics.Keys == StrategyFields.Keys
      && forall k :: k in StrategyFields ==>
           r.metrics[k] == GeneralSafe(Get(store.value, StrategyFields[k]), VFloat(Fin(0.0)))
  {
    if !Present(store) then StrategyRaised("store_data not found. Check store_num.")
    else if !Present(bizarea) then StrategyRaised("bizarea_data not found.")
    else StrategyOk(map k | k in StrategyFields :: GeneralSafe(Get(store.value, StrategyFields[k]), VFloat(Fin(0.0))))
  }

  /** Every strategy metric is present and never None: a missing field reads as 0.0. */
  lemma StrategyNeverNone(store: Record, bizarea: Record)
    requires Present(Some(store)) && Present(Some(bizarea))
    ensures var r := BuildStrategyMetrics(Some(store), Some(bizarea));
      r.StrategyOk? && forall k :: k in r.metrics ==> r.metrics[k] != VNone
  {
  }

  /** The trade-area record is only checked for presence: its contents never change the metrics. */
  lemma StrategyIgnoresBizarea(store: Option<Record>, b1: Record, b2: Record)
    requires Present(Some(b1)) && Present(Some(b2))
    ensures BuildStrategyMetrics(store, Some(b1)) == BuildStrategyMetrics(store, Some(b2))
  {
  }
}
