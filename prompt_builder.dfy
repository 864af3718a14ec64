/**
 * Prompt assembly (my_agent/utils/prompt_builder.py): the top customer groups,
 * the signal lines and the full prompt. `format_percentage` is a parameter on
 * numbers; which card values make it raise is stated by `PercentFormats`.
 */
module PromptBuilder {
  import opened Common
  import opened Seqs

  /** `safe_float(value, default)`: None and what `float` rejects give the default. */
  function SafeFloat(v: Value, default: Float): (r: Float)
    ensures v == VNone ==> r == default
    ensures v != VNone && FloatOf(v).Some? ==> r == FloatOf(v).value
    ensures FloatOf(v).None? ==> r == default
  {
    if v == VNone then default
    else match FloatOf(v)
      case Some(f) => f
      case None => default
  }

  /** The ten (label, card key) pairs in declaration order. */
  const DemoKeys: seq<(string, string)> := [
    ("남성_20대이하", "male_u20"), ("남성_30대", "male_30"), ("남성_40대", "male_40"),
    ("남성_50대", "male_50"), ("남성_60대이상", "male_60"),
    ("여성_20대이하", "female_u20"), ("여성_30대", "female_30"), ("여성_40대", "female_40"),
    ("여성_50대", "female_50"), ("여성_60대이상", "female_60")]

  /** `safe_float(card.get(key, 0) or 0)`: missing, None, 0, False and "" all read as 0.0. */
  function DemoValue(card: Record, key: string): (r: Float)
    ensures !Truthy(Get(card, key)) ==> r == Fin(0.0)
    ensures Truthy(Get(card, key)) ==> r == SafeFloat(Get(card, key), Fin(0.0))
  {
    var v := Get(card, key);
    SafeFloat(if Truthy(v) then v else VInt(0), Fin(0.0))
  }

  datatype Demo = Demo(name: string, share: Float)

  /** `demo_map.items()` in insertion order, which is declaration order. */
  function DemoItems(card: Record): (items: seq<Demo>)
    ensures |items| == |DemoKeys|
    ensures forall i :: 0 <= i < |items| ==>
      items[i] == Demo(DemoKeys[i].0, DemoValue(card, DemoKeys[i].1))
  {
    seq(|DemoKeys|, i requires 0 <= i < |DemoKeys| => Demo(DemoKeys[i].0, DemoValue(card, DemoKeys[i].1)))
  }

  /**
   * The order of `sorted(..., key=value, reverse=True)` as a stable insertion
   * sort: an earlier item stays ahead of a later one unless it is strictly smaller.
   */
  predicate DescLe(a: Demo, b: Demo)
  {
    !Lt(a.share, b.share)
  }

  /** The top three groups the builder reports. */
  function TopDemographics(card: Record): (top: seq<Demo>)
    ensures |top| == 3
  {
    TakeSeq(SortBy(DemoItems(card), DescLe), 3)
  }

  /** `extract_top_demographics`: fills the group map key by key, then sorts and keeps three. */
  method ExtractTopDemographics(card: Record) returns (top: seq<Demo>)
    ensures top == TopDemographics(card)
  {
    var items: seq<Demo> := [];
    var i := 0;
    while i < |DemoKeys|
      invariant 0 <= i <= |DemoKeys|
      invariant items == DemoItems(card)[..i]
    {
      items := items + [Demo(DemoKeys[i].0, DemoValue(card, DemoKeys[i].1))];
      i := i + 1;
    }
    assert items == DemoItems(card);
    top := TakeSeq(SortBy(items, DescLe), 3);
  }

  /** Every reported group is one of the ten, with its own share. */
  lemma TopAreDemoItems(card: Record)
    ensures forall d :: d in TopDemographics(card) ==> d in DemoItems(card)
  {
    var sorted := SortBy(DemoItems(card), DescLe);
    forall d | d in TopDemographics(card)
      ensures d in DemoItems(card)
    {
      assert d in sorted;
      assert d in multiset(sorted);
    }
  }

  // The shares compared as reals: on finite shares this order and DescLe agree.

  function ShareOf(d: Demo): real
  {
    if d.share.Fin? then d.share.r else 0.0
  }

  predicate RealDescLe(a: Demo, b: Demo)
  {
    ShareOf(b) <= ShareOf(a)
  }

  predicate AllFinite(s: seq<Demo>)
  {
    forall i :: 0 <= i < |s| ==> s[i].share.Fin?
  }

  lemma {:induction false} InsertAgrees(x: Demo, s: seq<Demo>)
    requires x.share.Fin? && AllFinite(s)
    ensures Insert(x, s, DescLe) == Insert(x, s, RealDescLe)
  {
    if s != [] && !DescLe(x, s[0]) {
      assert AllFinite(s[1..]) by {
        forall i | 0 <= i < |s[1..]| ensures s[1..][i].share.Fin? {
          assert s[1..][i] == s[i + 1];
        }
      }
      InsertAgrees(x, s[1..]);
    }
  }

  lemma {:induction false} SortAgrees(s: seq<Demo>)
    requires AllFinite(s)
    ensures SortBy(s, DescLe) == SortBy(s, RealDescLe)
    ensures AllFinite(SortBy(s, DescLe))
  {
    if s != [] {
      var t := s[1..];
      assert AllFinite(t) by {
        forall i | 0 <= i < |t| ensures t[i].share.Fin? {
          assert t[i] == s[i + 1];
        }
      }
      SortAgrees(t);
      var st := SortBy(t, DescLe);
      InsertAgrees(s[0], st);
      var r := SortBy(s, DescLe);
      forall i | 0 <= i < |r|
        ensures r[i].share.Fin?
      {
        assert r[i] in multiset(r);
        assert r[i] in multiset(s);
        var k :| 0 <= k < |s| && s[k] == r[i];
      }
    }
  }

  /** With finite shares the three reported groups come in non-increasing order of share. */
  lemma TopNonIncreasing(card: Record)
    requires AllFinite(DemoItems(card))
    ensures var top := TopDemographics(card);
      AllFinite(top) && forall i, j :: 0 <= i < j < |top| ==> ShareOf(top[j]) <= ShareOf(top[i])
  {
    var items := DemoItems(card);
    SortAgrees(items);
    SortBySorted(items, RealDescLe);
    var sorted := SortBy(items, DescLe);
    var top := TopDemographics(card);
    forall i | 0 <= i < |top|
      ensures top[i].share.Fin?
    {
      assert top[i] == sorted[i];
    }
    forall i, j | 0 <= i < j < |top|
      ensures ShareOf(top[j]) <= ShareOf(top[i])
    {
      assert top[i] == sorted[i] && top[j] == sorted[j];
      assert RealDescLe(sorted[i], sorted[j]);
    }
  }

  lemma RealDescOrder()
    ensures Total(RealDescLe) && Transitive(RealDescLe)
  {
  }

  /** The ten labels are distinct. */
  lemma LabelsDistinct()
    ensures forall i, j :: 0 <= i < j < |DemoKeys| ==> DemoKeys[i].0 != DemoKeys[j].0
  {
    forall i, j | 0 <= i < j < |DemoKeys| ensures DemoKeys[i].0 != DemoKeys[j].0 {
      var a := DemoKeys[i].0;
      var b := DemoKeys[j].0;
      if |a| == |b| {
        assert a[0] != b[0] || a[3] != b[3];
      }
    }
  }

  /** The first declaration position at or after k whose label is `name`, or 10 when there is none. */
  function LabelIndex(name: string, k: nat): (r: nat)
    requires k <= |DemoKeys|
    ensures k <= r <= |DemoKeys|
    ensures r < |DemoKeys| ==> DemoKeys[r].0 == name
    decreases |DemoKeys| - k
  {
    if k == |DemoKeys| then k
    else if DemoKeys[k].0 == name then k
    else LabelIndex(name, k + 1)
  }

  /** A group's position in the declaration order. */
  function DemoPos(d: Demo): int
  {
    LabelIndex(d.name, 0)
  }

  lemma {:induction false} LabelIndexFrom(i: nat, k: nat)
    requires k <= i < |DemoKeys|
    ensures LabelIndex(DemoKeys[i].0, k) == i
    decreases i - k
  {
    LabelsDistinct();
    if k < i {
      assert DemoKeys[k].0 != DemoKeys[i].0;
      LabelIndexFrom(i, k + 1);
    }
  }

  /** The items come in declaration order. */
  lemma DemoItemsInOrder(card: Record)
    ensures forall i, j :: 0 <= i < j < |DemoItems(card)| ==> DemoPos(DemoItems(card)[i]) < DemoPos(DemoItems(card)[j])
  {
    var items := DemoItems(card);
    forall i | 0 <= i < |items| ensures DemoPos(items[i]) == i {
      LabelIndexFrom(i, 0);
    }
  }

  /** The sorted groups: their order agrees with the real order of shares, and ties keep declaration order. */
  lemma SortedDemos(card: Record)
    requires AllFinite(DemoItems(card))
    ensures var sorted := SortBy(DemoItems(card), DescLe);
      && Pairwise(sorted, RealDescLe) && TiesOrdered(sorted, RealDescLe, DemoPos)
      && TopDemographics(card) == sorted[..3]
  {
    var items := DemoItems(card);
    SortAgrees(items);
    RealDescOrder();
    SortBySorted(items, RealDescLe);
    DemoItemsInOrder(card);
    SortByStable(items, RealDescLe, DemoPos);
  }

  /** With finite shares, two reported groups of equal share come in declaration order. */
  lemma TopTiesInDeclarationOrder(card: Record)
    requires AllFinite(DemoItems(card))
    ensures var top := TopDemographics(card);
      forall i, j :: 0 <= i < j < |top| && ShareOf(top[i]) == ShareOf(top[j]) ==> DemoPos(top[i]) < DemoPos(top[j])
  {
    var sorted := SortBy(DemoItems(card), DescLe);
    SortedDemos(card);
    var top := TopDemographics(card);
    forall i, j | 0 <= i < j < |top| && ShareOf(top[i]) == ShareOf(top[j])
      ensures DemoPos(top[i]) < DemoPos(top[j])
    {
      assert top[i] == sorted[i] && top[j] == sorted[j];
      assert RealDescLe(sorted[j], sorted[i]);
    }
  }

  /**
   * With finite shares the three reported groups are the largest: every group
   * left out has a share no larger than the third, and on a tie it is declared
   * after the third.
   */
  lemma TopAreLargest(card: Record)
    requires AllFinite(DemoItems(card))
    ensures var top := TopDemographics(card);
      forall k :: 0 <= k < |DemoItems(card)| && DemoItems(card)[k] !in top ==>
        && ShareOf(DemoItems(card)[k]) <= ShareOf(top[2])
        && (ShareOf(DemoItems(card)[k]) == ShareOf(top[2]) ==> DemoPos(top[2]) < DemoPos(DemoItems(card)[k]))
  {
    var items := DemoItems(card);
    var sorted := SortBy(items, DescLe);
    SortedDemos(card);
    var top := TopDemographics(card);
    forall k | 0 <= k < |items| && items[k] !in top
      ensures ShareOf(items[k]) <= ShareOf(top[2])
      ensures ShareOf(items[k]) == ShareOf(top[2]) ==> DemoPos(top[2]) < DemoPos(items[k])
    {
      assert items[k] in multiset(sorted);
      BelowThird(sorted, items[k]);
    }
  }

  /** In a descending, tie-stable order, an element after the first three ranks no higher than the third. */
  lemma BelowThird(sorted: seq<Demo>, x: Demo)
    requires |sorted| >= 3 && x in sorted && x !in sorted[..3]
    requires Pairwise(sorted, RealDescLe) && TiesOrdered(sorted, RealDescLe, DemoPos)
    ensures ShareOf(x) <= ShareOf(sorted[2])
    ensures ShareOf(x) == ShareOf(sorted[2]) ==> DemoPos(sorted[2]) < DemoPos(x)
  {
    var p :| 0 <= p < |sorted| && sorted[p] == x;
    assert forall q :: 0 <= q < 3 ==> sorted[..3][q] == sorted[q];
    assert p >= 3;
    assert RealDescLe(sorted[2], sorted[p]);
  }

  // ---------------------------------------------------------------------
  // Signal lines and the full prompt

  /** The fixed description of each known signal. */
  const SignalText: map<string, string> := map[
    "RETENTION_ALERT" := "⚠️ 재방문율이 낮음 (20% 미만)",
    "CHANNEL_MIX_ALERT" := "⚠️ 배달 의존도가 높음 (50% 이상)",
    "NEW_CUSTOMER_FOCUS" := "✅ 신규 고객 유입이 활발함"]

  /** `desc.get(s, s)`: a known signal's description, an unknown one verbatim. */
  function SignalLine(s: string): (r: string)
    ensures s !in SignalText ==> r == s
    ensures s in SignalText ==> r == SignalText[s]
  {
    if s in SignalText then SignalText[s] else s
  }

  function SignalLines(signals: seq<string>): (lines: seq<string>)
    ensures |lines| == |signals|
    ensures forall i :: 0 <= i < |signals| ==> lines[i] == SignalLine(signals[i])
  {
    seq(|signals|, i requires 0 <= i < |signals| => SignalLine(signals[i]))
  }

  const SignalsHeader: string := "\n[주요 이슈]\n"

  /** `build_signals_context`. */
  function BuildSignalsContext(signals: seq<string>): (r: string)
    ensures signals == [] <==> r == ""
    ensures signals != [] ==> r == SignalsHeader + Join(SignalLines(signals), "\n")
  {
    if signals == [] then "" else SignalsHeader + Join(SignalLines(signals), "\n")
  }

  /**
   * `format_percentage(value)` computes `value * 100` and formats it with
   * `:.0f`. A number succeeds (a bool multiplies as 0 or 1). None raises
   * TypeError, text is repeated rather than multiplied and then refused by
   * the `f` format (ValueError), and a collection is refused the same way.
   */
  predicate PercentFormats(v: Value)
  {
    v.VBool? || v.VInt? || v.VFloat?
  }

  /** The five card fields `build_base_context` passes to `format_percentage`. */
  const PercentKeys: seq<string> := ["repeat_rate", "delivery_share", "new_rate", "residential_share", "floating_share"]

  /**
   * `build_base_context` raises inside `format_percentage` when one of the
   * five fields it formats is not a number; a missing field reads as 0, and
   * the demographic shares pass through `safe_float` first and never raise.
   */
  predicate BaseContextRaises(card: Record)
  {
    !PercentFormats(GetOrZero(card, "repeat_rate")) || !PercentFormats(GetOrZero(card, "delivery_share"))
    || !PercentFormats(GetOrZero(card, "new_rate")) || !PercentFormats(GetOrZero(card, "residential_share"))
    || !PercentFormats(GetOrZero(card, "floating_share"))
  }

  /** The raise happens exactly when a formatted field is present and holds no number. */
  lemma BaseContextRaisesOn(card: Record)
    ensures BaseContextRaises(card) <==> exists k :: k in PercentKeys && k in card && !PercentFormats(card[k])
  {
    if BaseContextRaises(card) {
      var k := if !PercentFormats(GetOrZero(card, "repeat_rate")) then "repeat_rate"
        else if !PercentFormats(GetOrZero(card, "delivery_share")) then "delivery_share"
        else if !PercentFormats(GetOrZero(card, "new_rate")) then "new_rate"
        else if !PercentFormats(GetOrZero(card, "residential_share")) then "residential_share"
        else "floating_share";
      assert k in PercentKeys && k in card && !PercentFormats(card[k]);
    }
  }

  /** The header line `[가맹점 기본 정보 - <yyyymm>]`. */
  function BaseHeader(card: Record): string
  {
    "[가맹점 기본 정보 - " + Str(GetOr(card, "yyyymm", VStr(""))) + "]"
  }

  /** The three rate lines, each value through `format_percentage`. */
  function RateLines(card: Record, pct: Value -> string): string
  {
    "- 재방문율: " + pct(GetOrZero(card, "repeat_rate"))
    + "\n- 배달 비중: " + pct(GetOrZero(card, "delivery_share"))
    + "\n- 신규 고객 비중: " + pct(GetOrZero(card, "new_rate"))
  }

  /**
   * `build_base_context` on a card where it does not raise (`BaseContextRaises`
   * says when it does); `pct` is `format_percentage` on a number. The stripped
   * text keeps the month header and the three rate lines whole.
   */
  function BuildBaseContext(card: Record, pct: Value -> string): (r: string)
    ensures Contains(r, BaseHeader(card)) && Contains(r, RateLines(card, pct))
  {
    BaseContextKeeps(card, BaseHead(card), RateLines(card, pct), BaseTail(card, pct));
    Strip(BaseHead(card) + RateLines(card, pct) + BaseTail(card, pct))
  }

  /** The header and the name, industry and district lines. */
  function BaseHead(card: Record): (r: string)
    ensures StartsWith(r, "\n" + BaseHeader(card))
  {
    var h := "\n" + BaseHeader(card);
    var rest := "\n- 상호명: " + Str(GetOr(card, "mct_name", VStr("해당 가맹점")))
      + "\n- 업종: " + Str(GetOr(card, "industry", VStr("업종 미상")))
      + "\n- 지역: " + Str(GetOr(card, "district", VStr(""))) + "\n";
    assert (h + rest)[..|h|] == h;
    h + rest
  }

  /** The top customer groups and the residential and floating lines. */
  function BaseTail(card: Record, pct: Value -> string): (r: string)
    ensures StartsWith(r, "\n-")
  {
    var top := TopDemographics(card);
    var demos := seq(|top|, i requires 0 <= i < |top| => top[i].name + " " + pct(VFloat(top[i].share)));
    var h := "\n- 주요 고객층: ";
    var rest := Join(demos, ", ")
      + "\n- 거주 고객: " + pct(GetOrZero(card, "residential_share"))
      + "\n- 유동 고객: " + pct(GetOrZero(card, "floating_share")) + "\n";
    assert (h + rest)[..2] == h[..2] == "\n-";
    h + rest
  }

  /** Stripping the base context text loses neither its header nor its rate lines. */
  lemma BaseContextKeeps(card: Record, head: string, rates: string, tail: string)
    requires StartsWith(head, "\n" + BaseHeader(card)) && StartsWith(tail, "\n-")
    ensures var r := Strip(head + rates + tail); Contains(r, BaseHeader(card)) && Contains(r, rates)
  {
    var h := BaseHeader(card);
    var s := head + rates + tail;
    var e := |head| + |rates| + 1;
    assert s[1] == head[1] == h[0] == '[';
    assert s[e] == tail[1] == '-';
    StripKeepsSlice(s, 1, 1 + |h|, 1, e);
    assert s[1..1 + |h|] == head[1..1 + |h|] == h;
    StripKeepsSlice(s, |head|, |head| + |rates|, 1, e);
    assert s[|head|..|head| + |rates|] == rates;
  }

  /** `str.strip()` keeps a slice when a non-whitespace character lies at or before its start and another after its end. */
  lemma StripKeepsSlice(s: string, a: nat, b: nat, i: nat, e: nat)
    requires i <= a <= b <= e < |s| && !IsSpace(s[i]) && !IsSpace(s[e])
    ensures Contains(Strip(s), s[a..b])
  {
    var k := StripLeftBefore(s, i);
    SuffixKeeps(s, k, a, b, e);
  }

  /** `rstrip` of a suffix keeps a slice of it that ends before a non-whitespace character. */
  lemma SuffixKeeps(s: string, k: nat, a: nat, b: nat, e: nat)
    requires k <= a <= b <= e < |s| && !IsSpace(s[e])
    ensures Contains(StripRight(s[k..]), s[a..b])
  {
    var l := s[k..];
    assert l[e - k] == s[e];
    SliceOfSlice(s, k, a, b);
    StripRightKeeps(l, a - k, b - k, e - k, s[a..b]);
  }

  /** `rstrip` keeps a slice that ends before a non-whitespace character. */
  lemma StripRightKeeps(l: string, x: nat, y: nat, e: nat, m: string)
    requires x <= y <= e < |l| && !IsSpace(l[e]) && m == l[x..y]
    ensures Contains(StripRight(l), m)
  {
    StripRightAfter(l, e);
    var r := StripRight(l);
    SliceOfSlice(l, |r|, x, y);
    ContainsAt(r, m, x);
  }

  /** A slice of a prefix, and a slice of a suffix, is a slice of the whole. */
  lemma SliceOfSlice(s: string, k: nat, a: nat, b: nat)
    requires a <= b
    ensures b <= k <= |s| ==> s[..k][a..b] == s[a..b]
    ensures k <= a && b <= |s| ==> s[k..][a - k..b - k] == s[a..b]
  {
  }

  /** `lstrip` removes at most the characters before the first non-whitespace one. */
  lemma StripLeftBefore(s: string, i: nat) returns (k: nat)
    requires i < |s| && !IsSpace(s[i])
    ensures k <= i && StripLeft(s) == s[k..]
  {
    k := |s| - |StripLeft(s)|;
  }

  /** `rstrip` removes only characters after the last non-whitespace one. */
  lemma StripRightAfter(l: string, e: nat)
    requires e < |l| && !IsSpace(l[e])
    ensures e < |StripRight(l)| && StripRight(l) == l[..|StripRight(l)|]
  {
  }

  /** `card.get(key, 0)`. */
  function GetOrZero(card: Record, key: string): Value
  {
    if key in card then card[key] else VInt(0)
  }

  const PromptHead: string := "당신은 친절한 마케팅 상담사입니다.\n\n"
  const PromptTail: string := "\n\n결과는 자연스러운 문장으로 작성하고, 근거는 위 데이터를 활용하세요."

  /** A template with four slots between five fixed pieces. */
  function Slots4(p0: string, x0: string, p1: string, x1: string, p2: string, x2: string, p3: string,
                  x3: string, p4: string): string
  {
    p0 + x0 + p1 + x1 + p2 + x2 + p3 + x3 + p4
  }

  lemma Slots4Carry(p0: string, x0: string, p1: string, x1: string, p2: string, x2: string, p3: string,
                    x3: string, p4: string)
    ensures var r := Slots4(p0, x0, p1, x1, p2, x2, p3, x3, p4);
      Contains(r, x0) && Contains(r, x1) && Contains(r, x2) && Contains(r, x3) && StartsWith(r, p0)
  {
    var q1 := p0 + x0 + p1;
    var q2 := q1 + x1 + p2;
    var q3 := q2 + x2 + p3;
    var r := q3 + x3 + p4;
    ContainsInfix(p0, x0, p1);
    ContainsInfix(q1, x1, p2);
    ContainsInfix(q2, x2, p3);
    ContainsInfix(q3, x3, p4);
    ContainsExtendRight(q1, x0, x1 + p2);
    assert q1 + (x1 + p2) == q2;
    ContainsExtendRight(q2, x0, x2 + p3);
    ContainsExtendRight(q2, x1, x2 + p3);
    assert q2 + (x2 + p3) == q3;
    ContainsExtendRight(q3, x0, x3 + p4);
    ContainsExtendRight(q3, x1, x3 + p4);
    ContainsExtendRight(q3, x2, x3 + p4);
    assert q3 + (x3 + p4) == r;
    assert r[..|p0|] == p0;
  }

  /** The prompt text around its four parts; the template's `strip()` only removes its own leading and trailing newline. */
  function PromptText(base: string, sig: string, userQuery: string, instruction: string): (r: string)
    ensures Contains(r, base) && Contains(r, sig)
    ensures Contains(r, userQuery) && Contains(r, instruction)
    ensures StartsWith(r, PromptHead)
  {
    Slots4Carry(PromptHead, base, "\n\n", sig, "\n\n[사용자 질문]\n", userQuery, "\n\n[출력 지침]\n", instruction, PromptTail);
    Slots4(PromptHead, base, "\n\n", sig, "\n\n[사용자 질문]\n", userQuery, "\n\n[출력 지침]\n", instruction, PromptTail)
  }

  /**
   * `build_full_prompt`: None when `build_base_context` raises; otherwise the
   * base context, the signal lines, the question and the instruction all
   * appear verbatim.
   */
  function BuildFullPrompt(card: Record, userQuery: string, signals: seq<string>, instruction: string,
                           pct: Value -> string): (r: Option<string>)
    ensures r.None? <==> BaseContextRaises(card)
    ensures r.Some? ==> Contains(r.value, userQuery) && Contains(r.value, instruction)
    ensures r.Some? ==> Contains(r.value, BuildSignalsContext(signals)) && Contains(r.value, BuildBaseContext(card, pct))
    ensures r.Some? ==> StartsWith(r.value, PromptHead)
  {
    if BaseContextRaises(card) then None
    else Some(PromptText(BuildBaseContext(card, pct), BuildSignalsContext(signals), userQuery, instruction))
  }
}
