/**
 * The REVISIT metric builder (my_agent/metrics/revisit_metrics.py): one figure and six threshold rules.
 * As written the module does not load: it imports `load_store_and_area_data`
 * from my_agent/utils/tools.py, which does not define it. The records that
 * loader would return are parameters here.
 */
module RevisitMetrics {
  import opened Common
  import opened MainMetrics

  /** A threshold test: below a bound, or beyond a bound in absolute value (both strict). */
  datatype Test = Below(bound: real) | AbsAbove(bound: real)

  /** One rule: the anomaly key it writes, the store field it reads, and its test. */
  datatype Rule = Rule(name: string, field: string, test: Test)

  /** The six rules in the order the builder applies them, with the source's thresholds. */
  const Rules: seq<Rule> := [
    Rule("단골고객_이탈", "단골비중_YoY_pp", Below(-3.68)),
    Rule("단골고객_단기하락", "단골비중_3개월_순증감_pp", Below(-5.25)),
    Rule("신규비중_편차", "신규비중_차이_pp", AbsAbove(8.0)),
    Rule("배달전략_편차", "배달매출비중_차이_pp", AbsAbove(14.76)),
    Rule("업종매출_편차_높음", "업종매출_편차", AbsAbove(12.0)),
    Rule("업종건수_편차_높음", "업종건수_편차", AbsAbove(10.0))]

  /**
   * Whether `condition_fn(value)` returns True. None is skipped; a value that is not a
   * number makes `<` or `abs` raise, and `add_metric_if` swallows the exception.
   */
  predicate Fires(v: Value, test: Test)
  {
    v != VNone && NumberOf(v).Some? &&
    match test
    case Below(b) => Lt(NumberOf(v).value, Fin(b))
    case AbsAbove(b) => Lt(Fin(b), Abs(NumberOf(v).value))
  }

  /** One application of `add_metric_if`: the message keeps the value it reports. */
  function Apply(d: map<string, Float>, key: string, v: Value, test: Test): (r: map<string, Float>)
  {
    if Fires(v, test) then d[key := NumberOf(v).value] else d
  }

  /** The dict `abnormal_dict` that `add_metric_if` writes into. */
  class AbnormalDict {
    var entries: map<string, Float>

    constructor()
      ensures entries == map[]
    {
      entries := map[];
    }

    /** `add_metric_if(self, key, value, condition_fn, message_fn)`. */
    method AddMetricIf(key: string, v: Value, test: Test)
      modifies this
      ensures entries == Apply(old(entries), key, v, test)
      ensures Fires(v, test) ==> key in entries && entries[key] == NumberOf(v).value
      ensures !Fires(v, test) ==> entries == old(entries)
    {
      if v == VNone {
        return;
      }
      match NumberOf(v) {
        case None =>
        case Some(f) =>
          var hit := match test
            case Below(b) => Lt(f, Fin(b))
            case AbsAbove(b) => Lt(Fin(b), Abs(f));
          if hit {
            entries := entries[key := f];
          }
      }
    }
  }

  /** The anomalies the rules raise after the first `n` of them have run. */
  function RulesUpTo(store: Record, n: nat): (m: map<string, Float>)
    requires n <= |Rules|
  {
    if n == 0 then map[]
    else Apply(RulesUpTo(store, n - 1), Rules[n - 1].name, Get(store, Rules[n - 1].field), Rules[n - 1].test)
  }

  /** The six rules' anomalies for one store. */
  function RevisitAbnormal(store: Record): map<string, Float>
  {
    RulesUpTo(store, |Rules|)
  }

  /** The rule names are pairwise distinct. */
  lemma RuleNamesDistinct()
    ensures forall i, j :: 0 <= i < j < |Rules| ==> Rules[i].name != Rules[j].name
  {
  }

  /** After `n` rules, a key is present exactly when one of those rules names it and fires, with that rule's value. */
  lemma {:induction false} RulesUpToFlags(store: Record, n: nat)
    requires n <= |Rules|
    ensures forall k :: k in RulesUpTo(store, n) <==>
      exists i :: 0 <= i < n && Rules[i].name == k && Fires(Get(store, Rules[i].field), Rules[i].test)
    ensures forall i :: 0 <= i < n && Fires(Get(store, Rules[i].field), Rules[i].test) ==>
      Rules[i].name in RulesUpTo(store, n) &&
      RulesUpTo(store, n)[Rules[i].name] == NumberOf(Get(store, Rules[i].field)).value
  {
    if n > 0 {
      RulesUpToFlags(store, n - 1);
      RuleNamesDistinct();
    }
  }

  /** Every rule flags its key exactly when its test passes on the store's value. */
  lemma RevisitAbnormalFlags(store: Record, i: nat)
    requires i < |Rules|
    ensures Rules[i].name in RevisitAbnormal(store) <==> Fires(Get(store, Rules[i].field), Rules[i].test)
    ensures Rules[i].name in RevisitAbnormal(store) ==>
      RevisitAbnormal(store)[Rules[i].name] == NumberOf(Get(store, Rules[i].field)).value
  {
    RulesUpToFlags(store, |Rules|);
    RuleNamesDistinct();
  }

  datatype RevisitResult =
    | RevisitRaised(message: string)
    | RevisitOk(revisitMetrics: Record, abnormal: map<string, Float>, yyyymm: Value)

  /** `build_revisit_metrics` over the loaded store record. */
  method BuildRevisitMetrics(store: Option<Record>) returns (r: RevisitResult)
    ensures !Present(store) <==> r == RevisitRaised("store_data not found. Check store_num.")
    ensures r.RevisitOk? ==>
      && Present(store)
      && r.abnormal == RevisitAbnormal(store.value)
      && r.yyyymm == Get(store.value, "기준년월")
      && ("단골비중_차이_pp" in r.revisitMetrics <==> !Dropped(Get(store.value, "단골비중_차이_pp")))
      && r.revisitMetrics.Keys <= {"단골비중_차이_pp"}
      && ("단골비중_차이_pp" in r.revisitMetrics ==>
            r.revisitMetrics["단골비중_차이_pp"] == Get(store.value, "단골비중_차이_pp"))
  {
    if !Present(store) {
      return RevisitRaised("store_data not found. Check store_num.");
    }
    var st := store.value;
    var figures := map["단골비중_차이_pp" := MainSafe(Get(st, "단골비중_차이_pp"))];
    var abnormal := RunRules(st);
    // Every message is a string, so dropping None and NaN keeps all of them.
    r := RevisitOk(DropNaMetrics(figures), abnormal, Get(st, "기준년월"));
  }

  /** The six `add_metric_if` calls on a fresh dict, in the builder's order. */
  method RunRules(st: Record) returns (abnormal: map<string, Float>)
    ensures abnormal == RevisitAbnormal(st)
  {
    var d := new AbnormalDict();
    d.AddMetricIf("단골고객_이탈", MainSafe(Get(st, "단골비중_YoY_pp")), Below(-3.68));
    assert d.entries == RulesUpTo(st, 1);
    d.AddMetricIf("단골고객_단기하락", MainSafe(Get(st, "단골비중_3개월_순증감_pp")), Below(-5.25));
    assert d.entries == RulesUpTo(st, 2);
    d.AddMetricIf("신규비중_편차", MainSafe(Get(st, "신규비중_차이_pp")), AbsAbove(8.0));
    assert d.entries == RulesUpTo(st, 3);
    d.AddMetricIf("배달전략_편차", MainSafe(Get(st, "배달매출비중_차이_pp")), AbsAbove(14.76));
    assert d.entries == RulesUpTo(st, 4);
    d.AddMetricIf("업종매출_편차_높음", MainSafe(Get(st, "업종매출_편차")), AbsAbove(12.0));
    assert d.entries == RulesUpTo(st, 5);
    d.AddMetricIf("업종건수_편차_높음", MainSafe(Get(st, "업종건수_편차")), AbsAbove(10.0));
    assert d.entries == RulesUpTo(st, 6);
    abnormal := d.entries;
  }

  /** A string in a revisit field is skipped rather than raised: the failed comparison is swallowed. */
  lemma StringValueNeverFlags(store: Record, i: nat)
    requires i < |Rules|
    requires Get(store, Rules[i].field).VStr?
    ensures Rules[i].name !in RevisitAbnormal(store)
  {
    RevisitAbnormalFlags(store, i);
  }
}
