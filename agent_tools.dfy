/**
 * The agent's utilities (my_agent/utils/tools.py): store-name normalisation,
 * the response relevance rules, the feature builder, the store resolver and
 * its candidate ranking.
 */
module AgentTools {
  import opened Common
  import opened Seqs
  import opened State
  import McpTools
  import PromptBuilder

  // ---------------------------------------------------------------------
  // normalize_store_name

  /** `normalize_store_name`: every whitespace character removed (the final strip has nothing left to remove). */
  function NormalizeStoreName(name: string): (r: string)
    ensures r == RemoveSpaces(name)
    ensures forall i :: 0 <= i < |r| ==> !IsSpace(r[i])
  {
    if name == "" then ""
    else
      var squeezed := RemoveSpaces(name);
      assert squeezed == [] || (!IsSpace(squeezed[0]) && !IsSpace(squeezed[|squeezed| - 1]));
      StripOfStripped(squeezed);
      Strip(squeezed)
  }

  /** A name without whitespace is its own normal form. */
  lemma {:induction false} SpacelessUnchanged(s: string)
    requires forall i :: 0 <= i < |s| ==> !IsSpace(s[i])
    ensures RemoveSpaces(s) == s
  {
    if s != [] {
      SpacelessUnchanged(s[1..]);
      assert s == [s[0]] + s[1..];
    }
  }

  lemma NormalizeIdempotent(name: string)
    ensures NormalizeStoreName(NormalizeStoreName(name)) == NormalizeStoreName(name)
  {
    SpacelessUnchanged(RemoveSpaces(name));
  }

  // ---------------------------------------------------------------------
  // Relevance rules

  /** The outcome of one rule: a pass, a failure with its message, or an exception escaping the rule. */
  datatype Check = Pass | Fail(message: string) | Raised(exception: string)

  const ShortMessage: string := "응답이 너무 짧습니다 (최소 50자 필요)"
  const NoDataMessage: string := "데이터 근거가 응답에 포함되지 않았습니다"
  const NoNumberMessage: string := "구체적인 수치가 응답에 포함되지 않았습니다"

  function MissingNameMessage(name: string): string
  {
    "가맹점명 '" + name + "'이 응답에 포함되지 않았습니다"
  }

  const DataKeywords: seq<string> := [
    "재방문", "배달", "고객", "비중", "%", "매출", "순위", "신규", "단골", "방문",
    "리뷰", "블로그", "기사", "출처", "url"]

  predicate AnyKeyword(text: string, kws: seq<string>)
  {
    exists k :: 0 <= k < |kws| && Contains(text, kws[k])
  }

  /** `re.search(r"\d+", s)` finds something. */
  predicate HasDigit(s: string)
  {
    exists i :: 0 <= i < |s| && IsDigit(s[i])
  }

  /**
   * How the merchant-name rule reads `card.get("mct_name", "")`: a falsy value
   * skips it, a text value is checked, and any other truthy value makes `len`
   * raise TypeError.
   */
  predicate NameMissing(name: Value, response: string)
  {
    name.VStr? && |name.s| > 3 && !Contains(response, name.s)
  }

  /** `check_base_relevance`: the four rules in their order, the first failing one reported. */
  function CheckBaseRelevance(userQuery: string, response: string, card: Record): (r: Check)
    ensures |Strip(response)| < 50 ==> r == Fail(ShortMessage)
    ensures r == Pass <==>
      && |Strip(response)| >= 50
      && (!Truthy(Get(card, "mct_name")) || Get(card, "mct_name").VStr?)
      && !NameMissing(Get(card, "mct_name"), response)
      && AnyKeyword(response, DataKeywords)
      && HasDigit(response)
    ensures r.Raised? <==> |Strip(response)| >= 50 && Truthy(Get(card, "mct_name")) && !Get(card, "mct_name").VStr?
  {
    var name := Get(card, "mct_name");
    if |Strip(response)| < 50 then Fail(ShortMessage)
    else if Truthy(name) && !name.VStr? then Raised("TypeError")
    else if NameMissing(name, response) then Fail(MissingNameMessage(name.s))
    else if !AnyKeyword(response, DataKeywords) then Fail(NoDataMessage)
    else if !HasDigit(response) then Fail(NoNumberMessage)
    else Pass
  }

  /** One entry of the per-intent rule table. */
  datatype IntentRule = IntentRule(keywords: seq<string>, min: nat, message: string)

  /** The rule of an upper-cased intent; other intents have none. */
  function IntentRuleOf(intent: string): (r: Option<IntentRule>)
    ensures r.Some? <==> intent in {"SNS", "REVISIT", "ISSUE", "GENERAL"}
    ensures r.Some? ==> r.value.min == (if intent == "GENERAL" then 1 else 2)
  {
    if intent == "SNS" then
      Some(IntentRule(["sns", "인스타", "릴스", "틱톡", "채널", "콘텐츠", "해시태그", "포스팅", "네이버", "플레이스", "쇼츠"],
                      2, "SNS 마케팅 관련 키워드가 부족합니다"))
    else if intent == "REVISIT" then
      Some(IntentRule(["재방문", "단골", "리텐션", "쿠폰", "멤버십", "스탬프", "포인트", "충성도"],
                      2, "재방문 전략 관련 키워드가 부족합니다"))
    else if intent == "ISSUE" then
      Some(IntentRule(["문제", "이슈", "개선", "원인", "해결", "진단", "약점", "위험"],
                      2, "문제 진단 관련 키워드가 부족합니다"))
    else if intent == "GENERAL" then
      Some(IntentRule(["전략", "마케팅", "방안", "제안", "추천"], 1, "마케팅 전략 관련 키워드가 부족합니다"))
    else None
  }

  /** `[kw for kw in keywords if kw in text]`. */
  function Matched(text: string, kws: seq<string>): (m: seq<string>)
    ensures Subseq(m, kws)
    ensures forall k :: k in m ==> Contains(text, k)
    ensures forall k :: k in kws && Contains(text, k) ==> k in m
  {
    FilterSubseq(kws, k => Contains(text, k));
    Filter(kws, k => Contains(text, k))
  }

  function ShortfallMessage(rule: IntentRule, found: nat): string
  {
    rule.message + " (필요: " + NatToString(rule.min) + "개, 발견: " + NatToString(found) + "개)"
  }

  /** `check_intent_specific_relevance`: enough distinct rule keywords in the lower-cased response. */
  function CheckIntentSpecificRelevance(intent: Option<string>, response: string): (r: Check)
    ensures !r.Raised?
    ensures IntentRuleOf(Upper(TextOr(intent))).None? ==> r == Pass
    ensures IntentRuleOf(Upper(TextOr(intent))).Some? ==>
      var rule := IntentRuleOf(Upper(TextOr(intent))).value;
      var found := |Matched(Lower(response), rule.keywords)|;
      (r == Pass <==> found >= rule.min) && (r != Pass ==> r == Fail(ShortfallMessage(rule, found)))
  {
    match IntentRuleOf(Upper(TextOr(intent)))
    case None => Pass
    case Some(rule) =>
      var found := |Matched(Lower(response), rule.keywords)|;
      if found < rule.min then Fail(ShortfallMessage(rule, found)) else Pass
  }

  /** A GENERAL response passes as soon as it names one strategy keyword. */
  lemma GeneralNeedsOneKeyword(response: string)
    requires Contains(Lower(response), "전략")
    ensures CheckIntentSpecificRelevance(Some("GENERAL"), response) == Pass
  {
    var rule := IntentRuleOf("GENERAL").value;
    assert Upper("GENERAL") == "GENERAL";
    assert rule.keywords[0] == "전략";
    assert "전략" in Matched(Lower(response), rule.keywords);
  }

  // ---------------------------------------------------------------------
  // The soft web-citation rule

  const DomainHints: seq<string> := [".co.kr", ".com", ".net", ".kr"]

  /** Some visible citation: the sources heading, a URL scheme, or a domain suffix. */
  predicate Cited(raw: string)
  {
    Contains(raw, "참고 출처") || Contains(Lower(raw), "http://") || Contains(Lower(raw), "https://")
    || AnyKeyword(Lower(raw), DomainHints)
  }

  /** `_check_web_citation_rule` over the state's snippets and the two response texts. */
  function WebCitationRule(snippets: Option<seq<Record>>, rawResponse: Option<string>,
                           finalResponse: Option<string>): (r: Check)
    ensures !r.Raised?
    ensures r == Pass <==> snippets.None? || snippets.value == [] || Cited(TextOr(rawResponse) + TextOr(finalResponse))
    ensures r.Fail? ==> r.message == "web snippets used but no visible citation hint"
  {
    if snippets.None? || snippets.value == [] then Pass
    else if Cited(TextOr(rawResponse) + TextOr(finalResponse)) then Pass
    else Fail("web snippets used but no visible citation hint")
  }

  /** ".co.kr" in the hint list adds nothing: any text containing it also contains ".kr". */
  lemma CoKrImpliesKr(text: string)
    requires Contains(text, ".co.kr")
    ensures Contains(text, ".kr")
  {
    assert ".co.kr"[3..6] == ".kr";
    ContainsAt(".co.kr", ".kr", 3);
    ContainsTrans(text, ".co.kr", ".kr");
  }

  // ---------------------------------------------------------------------
  // check_relevance

  /** What the node decides: checks disabled, a hard failure, a soft (citation) failure, a pass, or an escaping exception. */
  datatype Verdict = Disabled | HardFail(reason: string) | SoftFail(reason: string) | Passed | Escaped(exception: string)

  /** The node's decision from the state fields it reads. */
  function RelevanceVerdict(enabled: bool, rawResponse: Option<string>, userQuery: string,
                            card: Option<Record>, intent: Option<string>,
                            snippets: Option<seq<Record>>, finalResponse: Option<string>): (v: Verdict)
    ensures !enabled ==> v == Disabled
    ensures enabled ==>
      var base := CheckBaseRelevance(userQuery, TextOr(rawResponse), if card.Some? then card.value else map[]);
      var byIntent := CheckIntentSpecificRelevance(if HasText(intent) then intent else Some("GENERAL"), TextOr(rawResponse));
      (base.Raised? ==> v == Escaped(base.exception))
      && (base.Fail? ==> v == HardFail(base.message))
      && (base == Pass && byIntent.Fail? ==> v == HardFail(byIntent.message))
      && (base == Pass && byIntent == Pass ==>
            v == (if WebCitationRule(snippets, rawResponse, finalResponse) == Pass then Passed
                  else SoftFail(WebCitationRule(snippets, rawResponse, finalResponse).message)))
  {
    if !enabled then Disabled
    else
      var raw := TextOr(rawResponse);
      var base := CheckBaseRelevance(userQuery, raw, if card.Some? then card.value else map[]);
      match base
      case Raised(e) => Escaped(e)
      case Fail(m) => HardFail(m)
      case Pass =>
        match CheckIntentSpecificRelevance(if HasText(intent) then intent else Some("GENERAL"), raw)
        case Fail(m) => HardFail(m)
        case _ =>
          match WebCitationRule(snippets, rawResponse, finalResponse)
          case Fail(m) => SoftFail(m)
          case _ => Passed
  }

  /** How `check_relevance` records a verdict on the state. */
  method ApplyVerdict(st: GraphState, v: Verdict) returns (escaped: bool)
    modifies st`relevancePassed, st`error, st`retryCount
    ensures escaped <==> v.Escaped?
    ensures v.Escaped? ==> st.relevancePassed == old(st.relevancePassed) && st.error == old(st.error)
                           && st.retryCount == old(st.retryCount)
    ensures v.HardFail? ==> !st.relevancePassed && st.error == Some("[Relevance] " + v.reason)
                            && st.retryCount == old(st.retryCount) + 1
    ensures v.SoftFail? ==> st.relevancePassed && st.error == Some("[Relevance][Soft] " + v.reason)
                            && st.retryCount == old(st.retryCount)
    ensures (v.Disabled? || v.Passed?) ==>
              st.relevancePassed && st.error == old(st.error) && st.retryCount == old(st.retryCount)
  {
    escaped := false;
    match v
    case Escaped(_) =>
      escaped := true;
    case HardFail(m) =>
      st.relevancePassed := false;
      st.error := Some("[Relevance] " + m);
      st.retryCount := st.retryCount + 1;
    case SoftFail(m) =>
      st.error := Some("[Relevance][Soft] " + m);
      st.relevancePassed := true;
    case _ =>
      st.relevancePassed := true;
  }

  /**
   * `check_relevance`: a hard failure clears the pass flag, records the reason and
   * counts one retry; a soft failure only records the reason. `escaped` reports an
   * exception leaving the node, with the state untouched.
   */
  method CheckRelevance(st: GraphState, enabled: bool) returns (escaped: bool)
    modifies st`relevancePassed, st`error, st`retryCount
    ensures var v := RelevanceVerdict(enabled, old(st.rawResponse), old(st.userQuery), old(st.cardData),
                                      old(st.intent), old(st.webSnippets), old(st.finalResponse));
      && (escaped <==> v.Escaped?)
      && (v.Escaped? ==> st.relevancePassed == old(st.relevancePassed) && st.error == old(st.error)
                         && st.retryCount == old(st.retryCount))
      && (v.HardFail? ==> !st.relevancePassed && st.error == Some("[Relevance] " + v.reason)
                          && st.retryCount == old(st.retryCount) + 1)
      && (v.SoftFail? ==> st.relevancePassed && st.error == Some("[Relevance][Soft] " + v.reason)
                          && st.retryCount == old(st.retryCount))
      && ((v.Disabled? || v.Passed?) ==>
            st.relevancePassed && st.error == old(st.error) && st.retryCount == old(st.retryCount))
  {
    var v := RelevanceVerdict(enabled, st.rawResponse, st.userQuery, st.cardData, st.intent,
                              st.webSnippets, st.finalResponse);
    escaped := ApplyVerdict(st, v);
  }

  /** Only a hard failure withholds the pass: a missing citation never does. */
  lemma SoftFailurePasses(rawResponse: Option<string>, userQuery: string, card: Option<Record>,
                          intent: Option<string>, snippets: Option<seq<Record>>, finalResponse: Option<string>)
    requires CheckBaseRelevance(userQuery, TextOr(rawResponse), if card.Some? then card.value else map[]) == Pass
    requires CheckIntentSpecificRelevance(if HasText(intent) then intent else Some("GENERAL"), TextOr(rawResponse)) == Pass
    ensures var v := RelevanceVerdict(true, rawResponse, userQuery, card, intent, snippets, finalResponse);
      v == Passed || v.SoftFail?
  {
  }

  // ---------------------------------------------------------------------
  // build_features

  /** `card.get(key, 0)`. */
  function Field(card: Record, key: string): Value
  {
    if key in card then card[key] else VInt(0)
  }

  /** `v < c` against a float constant: None is the TypeError a non-number raises; NaN compares false. */
  function LessThan(v: Value, c: real): (r: Option<bool>)
    ensures r.Some? <==> NumberOf(v).Some?
    ensures r == Some(true) <==> NumberOf(v).Some? && Lt(NumberOf(v).value, Fin(c))
  {
    match NumberOf(v)
    case None => None
    case Some(f) => Some(Lt(f, Fin(c)))
  }

  function AtLeast(v: Value, c: real): (r: Option<bool>)
    ensures r.Some? <==> NumberOf(v).Some?
    ensures r == Some(true) <==> NumberOf(v).Some? && Le(Fin(c), NumberOf(v).value)
  {
    match NumberOf(v)
    case None => None
    case Some(f) => Some(Le(Fin(c), f))
  }

  function GreaterThan(v: Value, c: real): (r: Option<bool>)
    ensures r.Some? <==> NumberOf(v).Some?
    ensures r == Some(true) <==> NumberOf(v).Some? && Lt(Fin(c), NumberOf(v).value)
  {
    match NumberOf(v)
    case None => None
    case Some(f) => Some(Lt(Fin(c), f))
  }

  const SignalOrder: seq<string> := ["RETENTION_ALERT", "CHANNEL_MIX_ALERT", "NEW_CUSTOMER_FOCUS"]

  /** The signals list, or None when one of the three comparisons raises. */
  function SignalsOf(card: Record): (r: Option<seq<string>>)
    ensures r.Some? <==>
      LessThan(Field(card, "repeat_rate"), 0.2).Some? && AtLeast(Field(card, "delivery_share"), 0.5).Some?
      && GreaterThan(Field(card, "new_rate"), 0.4).Some?
    ensures r.Some? ==> Subseq(r.value, SignalOrder)
    ensures r.Some? ==>
      && ("RETENTION_ALERT" in r.value <==> LessThan(Field(card, "repeat_rate"), 0.2) == Some(true))
      && ("CHANNEL_MIX_ALERT" in r.value <==> AtLeast(Field(card, "delivery_share"), 0.5) == Some(true))
      && ("NEW_CUSTOMER_FOCUS" in r.value <==> GreaterThan(Field(card, "new_rate"), 0.4) == Some(true))
  {
    var retention := LessThan(Field(card, "repeat_rate"), 0.2);
    var channel := AtLeast(Field(card, "delivery_share"), 0.5);
    var newcomers := GreaterThan(Field(card, "new_rate"), 0.4);
    if retention.None? || channel.None? || newcomers.None? then None
    else
      var s1 := if retention.value then ["RETENTION_ALERT"] else [];
      var s2 := if channel.value then s1 + ["CHANNEL_MIX_ALERT"] else s1;
      var s3 := if newcomers.value then s2 + ["NEW_CUSTOMER_FOCUS"] else s2;
      SignalsSubseq(retention.value, channel.value, newcomers.value);
      Some(s3)
  }

  lemma SignalsSubseq(a: bool, b: bool, c: bool)
    ensures var s1 := if a then ["RETENTION_ALERT"] else [];
      var s2 := if b then s1 + ["CHANNEL_MIX_ALERT"] else s1;
      var s3 := if c then s2 + ["NEW_CUSTOMER_FOCUS"] else s2;
      Subseq(s3, SignalOrder)
  {
    var tail := (if c then ["NEW_CUSTOMER_FOCUS"] else []);
    var mid := (if b then ["CHANNEL_MIX_ALERT"] else []) + tail;
    assert Subseq(tail, SignalOrder[2..]) by {
      SubseqRefl(SignalOrder[2..]);
      assert SignalOrder[2..][1..] == [];
      SubseqRefl(tail);
    }
    assert Subseq(mid, SignalOrder[1..]) by {
      assert SignalOrder[1..][1..] == SignalOrder[2..];
      if b {
        assert mid[1..] == tail;
      } else {
        assert mid == tail;
      }
    }
    var all := (if a then ["RETENTION_ALERT"] else []) + mid;
    if a {
      assert all[1..] == mid;
    } else {
      assert all == mid;
    }
    var s1 := if a then ["RETENTION_ALERT"] else [];
    var s2 := if b then s1 + ["CHANNEL_MIX_ALERT"] else s1;
    var s3 := if c then s2 + ["NEW_CUSTOMER_FOCUS"] else s2;
    assert s3 == all;
  }

  /**
   * `persona`: the two leading groups with their shares. The top list always
   * has three entries, so the "데이터 부족" fallback is never taken.
   */
  function PersonaOf(card: Record, pct: Value -> string): (r: string)
    ensures var top := PromptBuilder.TopDemographics(card);
      StartsWith(r, top[0].name + " (") && Contains(r, ", " + top[1].name + " (")
  {
    var top := PromptBuilder.TopDemographics(card);
    var first := top[0].name + " (" + pct(VFloat(top[0].share)) + ")";
    var rest := top[1].name + " (" + pct(VFloat(top[1].share)) + ")";
    var r := first + ", " + rest;
    assert r[..|top[0].name + " ("|] == top[0].name + " (";
    assert r == first + (", " + top[1].name + " (") + (pct(VFloat(top[1].share)) + ")");
    ContainsInfix(first, ", " + top[1].name + " (", pct(VFloat(top[1].share)) + ")");
    r
  }

  /** `a + b` of two card values as far as a float comparison can follow: None when it raises or yields text. */
  function SumOf(a: Value, b: Value): (r: Option<Float>)
    ensures r.Some? <==> NumberOf(a).Some? && NumberOf(b).Some?
  {
    match (NumberOf(a), NumberOf(b))
    case (Some(Fin(x)), Some(Fin(y))) => Some(Fin(x + y))
    case (Some(_), Some(_)) => Some(NaN)
    case _ => None
  }

  /** The channel hints, or None when a comparison raises. */
  function HintsOf(card: Record): (r: Option<seq<string>>)
    ensures r.Some? <==> SumOf(Field(card, "female_30"), Field(card, "female_40")).Some?
                         && NumberOf(Field(card, "floating_share")).Some?
    ensures r.Some? ==>
      var young := Lt(Fin(0.3), SumOf(Field(card, "female_30"), Field(card, "female_40")).value);
      var floating := GreaterThan(Field(card, "floating_share"), 0.5) == Some(true);
      r.value == (if young then ["인스타그램", "네이버 블로그"] else []) + (if floating then ["배달앱 프로모션"] else [])
  {
    var sum := SumOf(Field(card, "female_30"), Field(card, "female_40"));
    var floating := GreaterThan(Field(card, "floating_share"), 0.5);
    if sum.None? || floating.None? then None
    else
      var h1 := if Lt(Fin(0.3), sum.value) then ["인스타그램", "네이버 블로그"] else [];
      var h2 := if floating.value then h1 + ["배달앱 프로모션"] else h1;
      Some(h2)
  }

  const NoCardMessage: string := "카드 데이터가 없습니다"

  /** The signal list built one comparison at a time; None when a comparison raises. */
  method CollectSignals(card: Record) returns (r: Option<seq<string>>)
    ensures r == SignalsOf(card)
  {
    var signals: seq<string> := [];
    var retention := LessThan(Field(card, "repeat_rate"), 0.2);
    if retention.None? { return None; }
    if retention.value { signals := ["RETENTION_ALERT"]; }
    var channel := AtLeast(Field(card, "delivery_share"), 0.5);
    if channel.None? { return None; }
    if channel.value { signals := signals + ["CHANNEL_MIX_ALERT"]; }
    var newcomers := GreaterThan(Field(card, "new_rate"), 0.4);
    if newcomers.None? { return None; }
    if newcomers.value { signals := signals + ["NEW_CUSTOMER_FOCUS"]; }
    return Some(signals);
  }

  /** The hint list built one comparison at a time; None when a comparison raises. */
  method CollectHints(card: Record) returns (r: Option<seq<string>>)
    ensures r == HintsOf(card)
  {
    var hints: seq<string> := [];
    var sum := SumOf(Field(card, "female_30"), Field(card, "female_40"));
    if sum.None? { return None; }
    if Lt(Fin(0.3), sum.value) { hints := ["인스타그램", "네이버 블로그"]; }
    var floating := GreaterThan(Field(card, "floating_share"), 0.5);
    if floating.None? { return None; }
    if floating.value { hints := hints + ["배달앱 프로모션"]; }
    return Some(hints);
  }

  /**
   * `build_features`: without card data only the error is set; otherwise the
   * signals, then the persona, then the hints are written in turn. `escaped`
   * reports a comparison raising, which leaves the writes made before it.
   */
  method BuildFeatures(st: GraphState, pct: Value -> string) returns (escaped: bool)
    modifies st`error, st`signals, st`persona, st`channelHints
    ensures !Present(st.cardData) ==>
      !escaped && st.error == Some(NoCardMessage) && st.signals == old(st.signals)
      && st.persona == old(st.persona) && st.channelHints == old(st.channelHints)
    ensures Present(st.cardData) ==> st.error == old(st.error)
    ensures Present(st.cardData) && SignalsOf(st.cardData.value).None? ==>
      escaped && st.signals == old(st.signals) && st.persona == old(st.persona) && st.channelHints == old(st.channelHints)
    ensures Present(st.cardData) && SignalsOf(st.cardData.value).Some? ==>
      && st.signals == SignalsOf(st.cardData.value).value
      && st.persona == Some(PersonaOf(st.cardData.value, pct))
      && (escaped <==> HintsOf(st.cardData.value).None?)
      && st.channelHints == (if escaped then old(st.channelHints) else HintsOf(st.cardData.value).value)
  {
    escaped := false;
    if !Present(st.cardData) {
      st.error := Some(NoCardMessage);
      return;
    }
    var card := st.cardData.value;
    var signals := CollectSignals(card);
    if signals.None? {
      escaped := true;
      return;
    }
    st.signals := signals.value;
    st.persona := Some(PersonaOf(card, pct));
    var hints := CollectHints(card);
    if hints.None? {
      escaped := true;
      return;
    }
    st.channelHints := hints.value;
  }

  /** A card whose three ratios are all missing reads them as 0: only the retention alert fires. */
  lemma MissingRatiosSignalRetention(card: Record)
    requires "repeat_rate" !in card && "delivery_share" !in card && "new_rate" !in card
    ensures SignalsOf(card) == Some(["RETENTION_ALERT"])
  {
    assert NumberOf(Field(card, "repeat_rate")) == Some(Fin(0.0));
    assert NumberOf(Field(card, "delivery_share")) == Some(Fin(0.0));
    assert NumberOf(Field(card, "new_rate")) == Some(Fin(0.0));
  }

  // ---------------------------------------------------------------------
  // _rank_candidates

  /** The ranking key: exact normalised match, prefix match (both descending), raw name length, then name. */
  predicate CandidateLe(q: string, a: McpTools.Merchant, b: McpTools.Merchant)
  {
    var na, nb := NormalizeStoreName(a.name), NormalizeStoreName(b.name);
    var ea, eb := na == q, nb == q;
    var pa, pb := StartsWith(na, q), StartsWith(nb, q);
    (ea && !eb) || (ea == eb &&
      ((pa && !pb) || (pa == pb &&
        (|a.name| < |b.name| || (|a.name| == |b.name| && StrLe(a.name, b.name))))))
  }

  function CandidateOrder(q: string): (McpTools.Merchant, McpTools.Merchant) -> bool
  {
    (a, b) => CandidateLe(q, a, b)
  }

  lemma CandidateOrderIsTotal(q: string)
    ensures Total(CandidateOrder(q)) && Transitive(CandidateOrder(q))
  {
    var le := CandidateOrder(q);
    forall a, b ensures le(a, b) || le(b, a) {
      StrLeTotal(a.name, b.name);
    }
    forall a, b, c | le(a, b) && le(b, c) ensures le(a, c) {
      if StrLe(a.name, b.name) && StrLe(b.name, c.name) {
        StrLeTrans(a.name, b.name, c.name);
      }
    }
  }

  /** `_rank_candidates`: the candidates stably sorted by the ranking key. */
  function RankCandidates(candidates: seq<McpTools.Merchant>, query: string): (r: seq<McpTools.Merchant>)
    ensures multiset(r) == multiset(candidates)
    ensures candidates == [] <==> r == []
  {
    if candidates == [] then [] else SortBy(candidates, CandidateOrder(NormalizeStoreName(query)))
  }

  lemma RankSorted(candidates: seq<McpTools.Merchant>, query: string)
    ensures Pairwise(RankCandidates(candidates, query), CandidateOrder(NormalizeStoreName(query)))
  {
    var q := NormalizeStoreName(query);
    CandidateOrderIsTotal(q);
    SortBySorted(candidates, CandidateOrder(q));
  }

  /** When some candidate's normalised name equals the normalised query, the top-ranked one does too. */
  lemma RankExactFirst(candidates: seq<McpTools.Merchant>, query: string, m: McpTools.Merchant)
    requires m in candidates && NormalizeStoreName(m.name) == NormalizeStoreName(query)
    ensures var r := RankCandidates(candidates, query);
      r != [] && NormalizeStoreName(r[0].name) == NormalizeStoreName(query)
  {
    var r := RankCandidates(candidates, query);
    RankSorted(candidates, query);
    assert m in multiset(r);
    var k :| 0 <= k < |r| && r[k] == m;
    if k > 0 {
      assert CandidateOrder(NormalizeStoreName(query))(r[0], r[k]);
    }
  }

  // ---------------------------------------------------------------------
  // resolve_store

  /** How the search call ended: its result, or the text of the exception it raised. */
  datatype SearchCall = Searched(result: McpTools.SearchResult) | SearchRaised(message: string)

  /** A candidate as the state stores it: the dict with the four columns. */
  function CandidateRecord(m: McpTools.Merchant): Record
  {
    map[McpTools.IdCol := VStr(m.id), McpTools.NameCol := VStr(m.name),
        McpTools.RegionCol := VStr(m.region), McpTools.IndustryCol := VStr(m.industry)]
  }

  function CandidateRecords(ms: seq<McpTools.Merchant>): (rs: seq<Record>)
    ensures |rs| == |ms| && forall i :: 0 <= i < |ms| ==> rs[i] == CandidateRecord(ms[i])
  {
    seq(|ms|, i requires 0 <= i < |ms| => CandidateRecord(ms[i]))
  }

  const EmptyNameMessage: string := "가맹점명을 입력해주세요"
  const PickOneMessage: string := "후보가 여러 개입니다. 지점을 선택해주세요."

  function NotFoundMessage(name: string): string
  {
    "'" + name + "'에 해당하는 가맹점을 찾을 수 없습니다"
  }

  /** The five state keys `resolve_store` may write. */
  datatype StoreFields = StoreFields(error: Option<string>, needClarify: bool, storeCandidates: seq<Record>,
                                     finalResponse: Option<string>, storeId: Option<string>)

  function FieldsOf(st: GraphState): StoreFields
    reads st
  {
    StoreFields(st.error, st.needClarify, st.storeCandidates, st.finalResponse, st.storeId)
  }

  /**
   * `resolve_store` on the stripped `name`, the ended `call` and the fields as they were:
   * the new fields, and whether the node raised IndexError on a hit that lists no merchant.
   */
  function Resolve(name: string, call: SearchCall, confirmOnMulti: bool, f: StoreFields): (StoreFields, bool)
  {
    if name == "" then (f.(error := Some(EmptyNameMessage), needClarify := true), false)
    else if call.SearchRaised? then (f.(error := Some("검색 실패: " + call.message), needClarify := true), false)
    else if !call.result.found then (f.(error := Some(NotFoundMessage(name)), needClarify := true), false)
    else
      var g := f.(storeCandidates := CandidateRecords(call.result.merchants));
      var ranked := RankCandidates(call.result.merchants, name);
      if confirmOnMulti && |ranked| > 1 then (g.(needClarify := true, finalResponse := Some(PickOneMessage)), false)
      else if ranked == [] then (g, true)
      else (g.(storeId := Some(ranked[0].id), needClarify := false), false)
  }

  /** Every failure path asks the user to clarify, names the failure, and leaves the store unchosen. */
  lemma ResolveFailures(name: string, call: SearchCall, confirmOnMulti: bool, f: StoreFields)
    ensures var (g, escaped) := Resolve(name, call, confirmOnMulti, f);
      && (name == "" ==> !escaped && g == f.(error := Some(EmptyNameMessage), needClarify := true))
      && (name != "" && call.SearchRaised? ==>
            !escaped && g.error == Some("검색 실패: " + call.message) && g.needClarify && g.storeId == f.storeId)
      && (name != "" && call.Searched? && !call.result.found ==>
            !escaped && g.error == Some(NotFoundMessage(name)) && g.needClarify && g.storeId == f.storeId)
  {
  }

  /** On a hit: candidates stored, the error kept, and the top-ranked merchant chosen unless the user must pick. */
  lemma ResolveFound(name: string, call: SearchCall, confirmOnMulti: bool, f: StoreFields)
    requires name != "" && call.Searched? && call.result.found
    ensures var (g, escaped) := Resolve(name, call, confirmOnMulti, f);
      var ranked := RankCandidates(call.result.merchants, name);
      && g.error == f.error
      && g.storeCandidates == CandidateRecords(call.result.merchants)
      && (escaped <==> call.result.merchants == [])
      && (confirmOnMulti && |ranked| > 1 ==>
            g.needClarify && g.finalResponse == Some(PickOneMessage) && g.storeId == f.storeId)
      && (!(confirmOnMulti && |ranked| > 1) && ranked != [] ==>
            !g.needClarify && g.storeId == Some(ranked[0].id) && g.finalResponse == f.finalResponse)
  {
  }

  /** The chosen store changes only on a hit, and then to the id of a listed merchant. */
  lemma ResolveChoosesListed(name: string, call: SearchCall, confirmOnMulti: bool, f: StoreFields)
    ensures var (g, _) := Resolve(name, call, confirmOnMulti, f);
      g.storeId != f.storeId ==>
        name != "" && call.Searched? && call.result.found
        && exists m :: m in call.result.merchants && g.storeId == Some(m.id)
  {
    var (g, _) := Resolve(name, call, confirmOnMulti, f);
    if g.storeId != f.storeId {
      var ranked := RankCandidates(call.result.merchants, name);
      assert ranked[0] in multiset(call.result.merchants);
    }
  }

  /** The branches of `resolve_store` on values: the dict it returns, merged over the fields it had. */
  method ResolveFields(name: string, search: string -> SearchCall, confirmOnMulti: bool, f: StoreFields)
    returns (g: StoreFields, escaped: bool)
    ensures (g, escaped) == Resolve(name, search(name), confirmOnMulti, f)
  {
    escaped := false;
    if name == "" {
      return f.(error := Some(EmptyNameMessage), needClarify := true), false;
    }
    var call := search(name);
    if call.SearchRaised? {
      return f.(error := Some("검색 실패: " + call.message), needClarify := true), false;
    }
    if !call.result.found {
      return f.(error := Some(NotFoundMessage(name)), needClarify := true), false;
    }
    var candidates := call.result.merchants;
    g := f.(storeCandidates := CandidateRecords(candidates));
    var ranked := RankCandidates(candidates, name);
    if confirmOnMulti && |ranked| > 1 {
      return g.(needClarify := true, finalResponse := Some(PickOneMessage)), false;
    }
    if ranked == [] {
      return g, true;
    }
    g := g.(storeId := Some(ranked[0].id), needClarify := false);
  }

  /** Writes the five fields back into the state. */
  method SetFields(st: GraphState, g: StoreFields)
    modifies st`error, st`needClarify, st`storeCandidates, st`finalResponse, st`storeId
    ensures FieldsOf(st) == g
  {
    st.error := g.error;
    st.needClarify := g.needClarify;
    st.storeCandidates := g.storeCandidates;
    st.finalResponse := g.finalResponse;
    st.storeId := g.storeId;
  }

  /**
   * `resolve_store`. `search` is the merchant search the node calls with the
   * stripped name; `confirmOnMulti` is CONFIRM_ON_MULTI. `escaped` reports the
   * IndexError of a result that claims a hit but lists no merchant.
   */
  method ResolveStore(st: GraphState, search: string -> SearchCall, confirmOnMulti: bool) returns (escaped: bool)
    modifies st`error, st`needClarify, st`storeCandidates, st`finalResponse, st`storeId
    ensures var name := Strip(TextOr(old(st.storeNameInput)));
      (FieldsOf(st), escaped) == Resolve(name, search(name), confirmOnMulti, old(FieldsOf(st)))
  {
    var name := Strip(TextOr(st.storeNameInput));
    var g;
    g, escaped := ResolveFields(name, search, confirmOnMulti, FieldsOf(st));
    SetFields(st, g);
  }

  /** Against the in-memory merchant table a reported hit always lists a merchant, so the resolver never raises. */
  lemma TableSearchNeverEmpty(df: Table, name: string)
    requires McpTools.SearchMerchant(df, name).found
    ensures RankCandidates(McpTools.SearchMerchant(df, name).merchants, name) != []
  {
  }
}
