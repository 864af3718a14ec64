/**
 * The COOPERATION metric builder (my_agent/metrics/cooperation_metrics.py):
 * 13 figures and a score.
 * As written the module does not load: it imports `load_store_and_area_data`
 * from my_agent/utils/tools.py, which does not define it. The records that
 * loader would return are parameters here.
 */
module CooperationMetrics {
  import opened Common
  import opened MainMetrics

  /** The seven store figures, each read from the store field of the same name. */
  const StoreCoopFields: set<string> := {
    "핵심고객_1순위", "핵심고객_2순위", "핵심고객_3순위", "거주고객_비중",
    "직장고객_비중", "유동인구고객_비중", "배달매출_비중"}

  /** The six trade-area figures and the fields they read. */
  const AreaCoopFields: map<string, string> := map[
    "상권 단위 점포_수" := "점포_수",
    "상권 단위 상권활력_지수" := "상권활력_지수",
    "상권 단위 총_직장_인구_수" := "총_직장_인구_수",
    "상권 단위 총_상주인구_수" := "총_상주인구_수",
    "상권 단위 월_평균_소득_금액" := "월_평균_소득_금액",
    "상권 단위 폐업률" := "폐업_률"]

  const ScoreKey: string := "협업_잠재_점수"

  lemma AreaKeysSpaced()
    ensures forall k :: k in AreaCoopFields ==> |k| > 2 && k[2] == ' '
  {
  }

  lemma AreaKeysLong()
    ensures forall k :: k in AreaCoopFields ==> |k| >= 9
  {
  }

  lemma StoreKeysUnspaced()
    ensures forall k :: k in StoreCoopFields ==> |k| > 2 && k[2] != ' '
  {
  }

  /** The store keys have no space at index 2; every trade-area key has one there. */
  lemma StoreAreaDisjoint()
    ensures StoreCoopFields !! AreaCoopFields.Keys
  {
    AreaKeysSpaced();
    StoreKeysUnspaced();
    forall k | k in StoreCoopFields
      ensures k !in AreaCoopFields
    {
      assert k[2] != ' ';
    }
  }

  lemma StoreKeysInitial()
    ensures forall k :: k in StoreCoopFields ==> |k| > 0 && k[0] != '협'
  {
  }

  lemma ScoreKeyNotStore()
    ensures ScoreKey !in StoreCoopFields
  {
    StoreKeysInitial();
    assert ScoreKey[0] == '협';
  }

  lemma ScoreKeyNotArea()
    ensures ScoreKey !in AreaCoopFields
  {
    AreaKeysLong();
    assert |ScoreKey| == 8;
  }

  lemma CoopKeysDisjoint()
    ensures StoreCoopFields !! AreaCoopFields.Keys
    ensures ScoreKey !in StoreCoopFields && ScoreKey !in AreaCoopFields
  {
    StoreAreaDisjoint();
    ScoreKeyNotStore();
    ScoreKeyNotArea();
  }

  /** The 13 figures after `_drop_na_metrics`. */
  function CoopFigures(store: Record, bizarea: Record): (r: Record)
    ensures r.Keys <= StoreCoopFields + AreaCoopFields.Keys
    ensures forall k :: k in StoreCoopFields ==>
      (k in r <==> !Dropped(Get(store, k))) && (k in r ==> r[k] == Get(store, k))
    ensures forall k :: k in AreaCoopFields ==>
      (k in r <==> !Dropped(Get(bizarea, AreaCoopFields[k]))) && (k in r ==> r[k] == Get(bizarea, AreaCoopFields[k]))
    ensures forall k :: k in r ==> !Dropped(r[k])
  {
    var fromStore := Project(store, Same(StoreCoopFields));
    var fromArea := Project(bizarea, AreaCoopFields);
    StoreAreaDisjoint();
    DisjointUnion(fromStore, fromArea);
    fromStore + fromArea
  }

  /** A union of maps with disjoint keys keeps every entry of both. */
  lemma DisjointUnion<K, V>(a: map<K, V>, b: map<K, V>)
    requires a.Keys !! b.Keys
    ensures (a + b).Keys == a.Keys + b.Keys
    ensures forall k :: k in a ==> (a + b)[k] == a[k]
    ensures forall k :: k in b ==> (a + b)[k] == b[k]
  {
  }

  /** A real the arithmetic accepts; None stands for the exception a string or other object raises. */
  function Num(v: Value): Option<real>
  {
    match NumberOf(v)
    case Some(Fin(r)) => Some(r)
    case _ => None
  }

  /** `coop.get(key, 0)` as a number. */
  function GetNum(coop: Record, key: string): Option<real>
  {
    if key in coop then Num(coop[key]) else Some(0.0)
  }

  /** `coop.get(key, 0) or 0`: a falsy value (0, False, "") counts as 0. */
  function GetNumOrZero(coop: Record, key: string): Option<real>
  {
    if key in coop && Truthy(coop[key]) then Num(coop[key]) else Some(0.0)
  }

  function Mean3(a: real, b: real, c: real): real
  {
    (a + b + c) / 3.0
  }

  function Square(x: real): (r: real)
    ensures r >= 0.0
  {
    if x >= 0.0 then x * x else (-x) * (-x)
  }

  /** Population variance of three numbers, as `np.std` squares it. */
  function Variance3(a: real, b: real, c: real): (v: real)
    ensures v >= 0.0
  {
    var m := Mean3(a, b, c);
    (Square(a - m) + Square(b - m) + Square(c - m)) / 3.0
  }

  /** Python's `round(x)` on an exact real: to the nearest integer, ties to the even one. */
  function RoundHalfEven(x: real): (n: int)
    ensures x - 0.5 <= n as real <= x + 0.5
  {
    var f := x.Floor;
    var frac := x - f as real;
    if frac < 0.5 then f
    else if frac > 0.5 then f + 1
    else if f % 2 == 0 then f
    else f + 1
  }

  /** `round(x, 2)`. */
  function Round2(x: real): (r: real)
    ensures x - 0.005 <= r <= x + 0.005
  {
    RoundHalfEven(x * 100.0) as real / 100.0
  }

  /** Rounding keeps a number of [0, 1] in [0, 1]. */
  lemma Round2UnitInterval(x: real)
    requires 0.0 <= x <= 1.0
    ensures 0.0 <= Round2(x) <= 1.0
  {
    var n := RoundHalfEven(x * 100.0);
    assert -0.5 <= n as real <= 100.5;
    assert 0 <= n <= 100;
  }

  function Max0(x: real): real { if x > 0.0 then x else 0.0 }

  function Clamp01(x: real): (r: real)
    ensures 0.0 <= r <= 1.0
    ensures 0.0 <= x <= 1.0 ==> r == x
  {
    if x < 0.0 then 0.0 else if x > 1.0 then 1.0 else x
  }

  /** What `sqrt` must be for the score to be `np.std`'s. */
  ghost predicate IsSqrt(sqrt: real -> real)
  {
    && sqrt(0.0) == 0.0
    && forall x: real :: x >= 0.0 ==> sqrt(x) >= 0.0 && sqrt(x) * sqrt(x) == x
  }

  /**
   * The derived score block: None when a figure it reads is not a number (the
   * exception is caught and the score set to None).
   */
  function CoopScore(coop: Record, sqrt: real -> real): (r: Option<real>)
    ensures r.Some? <==>
      && GetNum(coop, "거주고객_비중").Some? && GetNum(coop, "직장고객_비중").Some?
      && GetNum(coop, "유동인구고객_비중").Some? && GetNum(coop, "상권 단위 상권활력_지수").Some?
      && GetNumOrZero(coop, "상권 단위 폐업률").Some?
  {
    match (GetNum(coop, "거주고객_비중"), GetNum(coop, "직장고객_비중"), GetNum(coop, "유동인구고객_비중"))
    case (Some(a), Some(b), Some(c)) =>
      (match (GetNum(coop, "상권 단위 상권활력_지수"), GetNumOrZero(coop, "상권 단위 폐업률"))
       case (Some(v), Some(close)) => Some(Score(a, b, c, v, close, sqrt))
       case _ => None)
    case _ => None
  }

  /** The score from the three customer shares, the vitality index and the closure rate. */
  function Score(a: real, b: real, c: real, vitality: real, close: real, sqrt: real -> real): (r: real)
    ensures 0.0 <= r <= 1.0
  {
    var flowMix := sqrt(Variance3(a, b, c));
    var balance := Max0(1.0 - flowMix);
    var stability := Max0(vitality / 100.0 - close * 0.5);
    Clamp01(Round2(balance * 0.5 + stability * 0.3))
  }

  /** Equal customer shares have no spread, so the balance term is 1. */
  lemma EqualSharesBalance(sqrt: real -> real, share: real)
    requires IsSqrt(sqrt)
    ensures Max0(1.0 - sqrt(Variance3(share, share, share))) == 1.0
  {
    assert Variance3(share, share, share) == 0.0;
  }

  /** Equal customer shares give a score of at least 0.5 before rounding, whatever the trade area. */
  lemma EqualSharesScore(sqrt: real -> real, share: real, vitality: real, close: real)
    requires IsSqrt(sqrt)
    ensures Score(share, share, share, vitality, close, sqrt) >= 0.495
  {
    EqualSharesBalance(sqrt, share);
    var x := 1.0 * 0.5 + Max0(vitality / 100.0 - close * 0.5) * 0.3;
    assert x >= 0.5;
    assert Score(share, share, share, vitality, close, sqrt) == Clamp01(Round2(x));
  }

  datatype CoopResult =
    | CoopRaised(message: string)
    | CoopOk(metrics: Record)

  /** The figures with the score key added: the score, or None when it could not be computed. */
  function WithScore(figures: Record, sqrt: real -> real): (m: Record)
    ensures m.Keys == figures.Keys + {ScoreKey}
    ensures forall k :: k in figures && k != ScoreKey ==> m[k] == figures[k]
    ensures m[ScoreKey] == VNone <==> CoopScore(figures, sqrt).None?
    ensures m[ScoreKey] != VNone ==> m[ScoreKey] == VFloat(Fin(CoopScore(figures, sqrt).value))
  {
    var score := match CoopScore(figures, sqrt)
      case Some(s) => VFloat(Fin(s))
      case None => VNone;
    figures[ScoreKey := score]
  }

  /** The score key is never one of the 13 figures. */
  lemma ScoreKeyNotFigure(store: Record, bizarea: Record)
    ensures ScoreKey !in CoopFigures(store, bizarea)
  {
    CoopKeysDisjoint();
  }

  /** `build_cooperation_metrics`; `sqrt` stands in for numpy's square root inside `np.std`. */
  function BuildCooperationMetrics(store: Option<Record>, bizarea: Option<Record>, sqrt: real -> real): (r: CoopResult)
    ensures !(Present(store) && Present(bizarea)) <==> r == CoopRaised("store_data or bizarea_data not found.")
    ensures r.CoopOk? ==>
      && Present(store) && Present(bizarea)
      && ScoreKey in r.metrics
      && (var figures := CoopFigures(store.value, bizarea.value);
          && r.metrics.Keys == figures.Keys + {ScoreKey}
          && (forall k :: k in figures ==> r.metrics[k] == figures[k])
          && (r.metrics[ScoreKey] == VNone <==> CoopScore(figures, sqrt).None?)
          && (r.metrics[ScoreKey] != VNone ==>
                r.metrics[ScoreKey] == VFloat(Fin(CoopScore(figures, sqrt).value))))
  {
    if !(Present(store) && Present(bizarea)) then CoopRaised("store_data or bizarea_data not found.")
    else
      ScoreKeyNotFigure(store.value, bizarea.value);
      CoopOk(WithScore(CoopFigures(store.value, bizarea.value), sqrt))
  }

  /** An empty-string closure rate counts as 0 rather than raising, unlike any other string. */
  lemma EmptyCloseRateIsZero(coop: Record)
    requires "상권 단위 폐업률" in coop && coop["상권 단위 폐업률"] == VStr("")
    ensures GetNumOrZero(coop, "상권 단위 폐업률") == Some(0.0)
    ensures GetNum(coop, "상권 단위 폐업률").None?
  {
  }
}
