/**
 * The relevance-check node of my_agent/nodes/relevance_check.py: its two rule
 * functions, and the node itself, which currently passes every response.
 */
module RelevanceCheck {
  import opened Common
  import opened Seqs
  import opened State
  import AgentTools
  import Agent

  type Check = AgentTools.Check

  const ShortMessage: string := "응답이 너무 짧습니다 (최소 50자 필요)"
  const NoDataMessage: string := "데이터 기반 분석 키워드가 부족합니다"

  function MissingNameMessage(name: string): string
  {
    "가게명 '" + name + "'이(가) 응답에 포함되지 않았습니다"
  }

  const DataKeywords: seq<string> := [
    "재방문", "배달", "고객", "비중", "%", "매출", "순위", "신규", "단골", "방문",
    "리뷰", "트렌드", "사례", "데이터"]

  /** `user_info.get("store_name") if user_info else None`. */
  function StoreName(userInfo: Record): Value
  {
    if userInfo == map[] then VNone else Get(userInfo, "store_name")
  }

  /** A text store name of two or more characters that the response does not mention. */
  predicate NameMissing(name: Value, response: string)
  {
    name.VStr? && |name.s| > 1 && !Contains(response, name.s)
  }

  /**
   * `check_base_relevance`: long enough, mentions the store, and names a data
   * keyword, checked in that order. A truthy store name that is not text makes
   * `len` raise TypeError.
   */
  function CheckBaseRelevance(userQuery: string, response: string, userInfo: Record): (r: Check)
    ensures |Strip(response)| < 50 ==> r == AgentTools.Fail(ShortMessage)
    ensures r.Raised? <==> |Strip(response)| >= 50 && Truthy(StoreName(userInfo)) && !StoreName(userInfo).VStr?
    ensures r == AgentTools.Pass <==>
      && |Strip(response)| >= 50
      && (!Truthy(StoreName(userInfo)) || StoreName(userInfo).VStr?)
      && !NameMissing(StoreName(userInfo), response)
      && AgentTools.AnyKeyword(response, DataKeywords)
    ensures NameMissing(StoreName(userInfo), response) && |Strip(response)| >= 50 ==>
      r == AgentTools.Fail(MissingNameMessage(StoreName(userInfo).s))
  {
    var name := StoreName(userInfo);
    if |Strip(response)| < 50 then AgentTools.Fail(ShortMessage)
    else if Truthy(name) && !name.VStr? then AgentTools.Raised("TypeError")
    else if NameMissing(name, response) then AgentTools.Fail(MissingNameMessage(name.s))
    else if !AgentTools.AnyKeyword(response, DataKeywords) then AgentTools.Fail(NoDataMessage)
    else AgentTools.Pass
  }

  /** The rule of an upper-cased intent in this version: every known intent needs one keyword. */
  function IntentRuleOf(intent: string): (r: Option<AgentTools.IntentRule>)
    ensures r.Some? <==> intent in {"SNS", "REVISIT", "ISSUE", "GENERAL"}
    ensures r.Some? ==> r.value.min == 1
  {
    if intent == "SNS" then
      Some(AgentTools.IntentRule(["sns", "인스타", "릴스", "틱톡", "채널", "콘텐츠", "해시태그", "포스팅", "네이버", "플레이스", "쇼츠"],
                                 1, "SNS 전략 관련 키워드 부족"))
    else if intent == "REVISIT" then
      Some(AgentTools.IntentRule(["재방문", "단골", "리텐션", "쿠폰", "멤버십", "스탬프"], 1, "재방문 전략 관련 키워드 부족"))
    else if intent == "ISSUE" then
      Some(AgentTools.IntentRule(["문제", "원인", "분석", "하락", "이슈", "리스크"], 1, "문제 진단 관련 키워드 부족"))
    else if intent == "GENERAL" then
      Some(AgentTools.IntentRule(["전략", "마케팅", "개선", "방향"], 1, "전략적 제안 키워드 부족"))
    else None
  }

  /** `check_intent_specific_relevance`: a known intent passes iff the lower-cased response has one of its keywords. */
  function CheckIntentSpecificRelevance(intent: Option<string>, response: string): (r: Check)
    ensures !r.Raised?
    ensures IntentRuleOf(Upper(TextOr(intent))).None? ==> r == AgentTools.Pass
    ensures IntentRuleOf(Upper(TextOr(intent))).Some? ==>
      var rule := IntentRuleOf(Upper(TextOr(intent))).value;
      (r == AgentTools.Pass <==> AgentTools.AnyKeyword(Lower(response), rule.keywords))
      && (r != AgentTools.Pass ==> r == AgentTools.Fail(rule.message))
  {
    match IntentRuleOf(Upper(TextOr(intent)))
    case None => AgentTools.Pass
    case Some(rule) =>
      var matched := AgentTools.Matched(Lower(response), rule.keywords);
      if |matched| < rule.min then
        assert forall k :: 0 <= k < |rule.keywords| ==> rule.keywords[k] in rule.keywords;
        AgentTools.Fail(rule.message)
      else
        assert matched[0] in matched;
        SubseqMembers(matched, rule.keywords);
        AgentTools.Pass
  }

  /** `check_relevance`: for now it marks every response as relevant and changes nothing else. */
  method CheckRelevance(st: GraphState)
    modifies st`relevancePassed
    ensures st.relevancePassed
  {
    st.relevancePassed := true;
  }

  /** Since the node always passes, every run reaches the memory updater after the checker. */
  lemma EveryRunUpdatesMemory(intent: Option<string>)
    ensures var path := Agent.Run(Agent.RouterNode, intent, true);
      |path| == 5 && path[3] == Agent.RelevanceChecker && path[4] == Agent.MemoryUpdater
  {
    Agent.RunFromEntry(intent, true);
  }
}
