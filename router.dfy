/** Intent routing (my_agent/nodes/router.py): a model label first, keyword rules as the fallback. */
module Router {
  import opened Common
  import opened Llm
  import opened State
  import Config

  const Intents: seq<string> := ["SNS", "REVISIT", "ISSUE", "GENERAL"]

  /** One entry of RULES: an intent and the keywords that select it. */
  datatype RuleGroup = RuleGroup(intent: string, keywords: seq<string>)

  /** RULES, scanned in this order. */
  const Rules: seq<RuleGroup> := [
    RuleGroup("SNS", ["sns", "인스타", "instagram", "틱톡", "tiktok", "릴스", "홍보", "바이럴", "해시태그", "스폰", "협찬"]),
    RuleGroup("REVISIT", ["재방문", "재내점", "단골", "리텐션", "리워드", "스탬프", "쿠폰", "멤버십"]),
    RuleGroup("ISSUE", ["문제", "이슈", "원인", "진단", "하락", "떨어졌", "왜", "원흉", "버그", "불만", "클레임", "불편"])]

  /** `any(kw in q for kw in kws)`. */
  predicate Hits(q: string, kws: seq<string>)
  {
    exists k :: 0 <= k < |kws| && Contains(q, kws[k])
  }

  /** The intent of the first group with a hit, or GENERAL when no group hits. */
  function FirstHit(q: string, rules: seq<RuleGroup>): (r: string)
    ensures (forall i :: 0 <= i < |rules| ==> !Hits(q, rules[i].keywords)) ==> r == "GENERAL"
    ensures (exists i :: 0 <= i < |rules| && Hits(q, rules[i].keywords)) ==>
      exists i :: 0 <= i < |rules| && Hits(q, rules[i].keywords) && r == rules[i].intent
                  && forall j :: 0 <= j < i ==> !Hits(q, rules[j].keywords)
  {
    if rules == [] then "GENERAL"
    else if Hits(q, rules[0].keywords) then rules[0].intent
    else
      var r := FirstHit(q, rules[1..]);
      assert forall i :: 1 <= i < |rules| ==> rules[i] == rules[1..][i - 1];
      r
  }

  /** `_rules_fallback`: the query is lowercased before the keywords are looked for. */
  function RulesFallback(query: string): string
  {
    FirstHit(Lower(query), Rules)
  }

  /** The fallback always names one of the four intents, and GENERAL exactly when no keyword occurs. */
  lemma RulesFallbackIntent(query: string)
    ensures RulesFallback(query) in Intents
    ensures RulesFallback(query) == "GENERAL" <==>
      forall i :: 0 <= i < |Rules| ==> !Hits(Lower(query), Rules[i].keywords)
  {
  }

  /** A query mentioning 인스타 is SNS whatever else it mentions: the SNS group is scanned first. */
  lemma SnsScannedFirst(query: string)
    requires Contains(Lower(query), "인스타")
    ensures RulesFallback(query) == "SNS"
  {
    assert Rules[0].keywords[1] == "인스타";
    assert Hits(Lower(query), Rules[0].keywords);
  }

  /** Matching ignores the case of the query. */
  lemma RulesFallbackIgnoresCase(query: string)
    ensures RulesFallback(Lower(query)) == RulesFallback(query)
  {
    LowerIdempotent(query);
  }

  /** The synonym table applied to the model's upper-cased answer. */
  const Aliases: map<string, string> := map[
    "SNS홍보" := "SNS",
    "SNS 마케팅" := "SNS",
    "RETENTION" := "REVISIT",
    "RE-VISIT" := "REVISIT",
    "ISSUES" := "ISSUE",
    "PROBLEM" := "ISSUE",
    "DIAGNOSIS" := "ISSUE",
    "GEN" := "GENERAL",
    "DEFAULT" := "GENERAL"]

  /** The label read from a reply's content: trimmed, upper-cased, de-aliased, and kept only if it is an intent. */
  function Label(content: Option<string>): (r: Option<string>)
    ensures r.Some? ==> r.value in Intents
    ensures var raw := Upper(Strip(TextOr(content)));
      r.Some? <==> (raw in Aliases || raw in Intents)
  {
    var raw := Upper(Strip(TextOr(content)));
    var name := if raw in Aliases then Aliases[raw] else raw;
    if name in Intents then Some(name) else None
  }

  /** The prompt the classifier sends with its fixed system instruction. */
  function ClassifierPrompt(query: string): string
  {
    "질문: ```" + query + "```\n답:"
  }

  /** `_classify_with_llm`: None without a model or a query, on an exception, or for an unknown label. */
  function ClassifyWithLlm(llm: LlmClient, query: string): (r: Option<string>)
    ensures llm.NoClient? || query == "" ==> r == None
    ensures llm.Client? && query != "" ==>
      r == (match llm.invoke(ClassifierPrompt(query))
            case LlmRaised(_) => None
            case Replied(c) => Label(c))
    ensures r.Some? ==> r.value in Intents
  {
    if llm.NoClient? || query == "" then None
    else match llm.invoke(ClassifierPrompt(query))
      case LlmRaised(_) => None
      case Replied(c) => Label(c)
  }

  /** The intent `__call__` decides: the model's label when it gives one, else the rules. */
  function RouteIntent(llm: LlmClient, query: string): (r: string)
    ensures r in Intents
    ensures ClassifyWithLlm(llm, query).Some? ==> r == ClassifyWithLlm(llm, query).value
    ensures ClassifyWithLlm(llm, query).None? ==> r == RulesFallback(query)
  {
    RulesFallbackIntent(query);
    match ClassifyWithLlm(llm, query)
    case Some(l) => l
    case None => RulesFallback(query)
  }

  /** `RouterNode.__call__`: writes the intent and nothing else. */
  method Route(st: GraphState, llm: LlmClient)
    modifies st`intent
    ensures st.intent == Some(RouteIntent(llm, st.userQuery))
  {
    st.intent := Some(RouteIntent(llm, st.userQuery));
  }

  /** A model call that raises leaves the decision to the rules: the exception never escapes. */
  lemma LlmFailureFallsBack(llm: LlmClient, query: string)
    requires llm.Client? && query != ""
    requires llm.invoke(ClassifierPrompt(query)).LlmRaised?
    ensures RouteIntent(llm, query) == RulesFallback(query)
  {
  }

  /** Every alias names an intent, and the router's intents are exactly the configured IntentType. */
  lemma AliasesAreIntents()
    ensures forall k :: k in Aliases ==> Aliases[k] in Intents
    ensures (set i | i in Intents) == Config.IntentTypes
  {
  }
}
