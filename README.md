# Merchant-advice chat pipeline: a Dafny model of its deterministic core

The system answers a small-business owner's marketing question about their card-payment
store. A turn resolves the store by name, loads its monthly card record and trade-area
data, routes the question to an intent (SNS, REVISIT, ISSUE, GENERAL), optionally augments
it with web search results, asks a language model for advice, post-processes the answer
(cleanup, badges, cited sources, an action plan) and checks the answer's relevance before
remembering the conversation. A dashboard ranks the store against its peers.

This project models the deterministic logic of that pipeline and proves what it promises:

- **Merchant resolution and record loading** (McpTools, McpContracts, AgentTools,
  Dashboard): tiered name search with its sort, de-duplication and cap; the second
  candidate ranking and the resolution decision; the latest-row and peer fallbacks;
  month and range-bin parsing; percentile ranks.
- **Routing and turn control** (Router, Agent, Adapters, AdapterClient, RelevanceCheck,
  ChatHistory, Config, State): keyword rules and label aliases around the model, the
  graph's edges, the turn status, both relevance checks, the conversation memory, and
  configuration lookup.
- **Metric builders** (MainMetrics, SnsMetrics, StrategyMetrics, GeneralMetrics,
  IssueMetrics, RevisitMetrics, CooperationMetrics, SeasonMetrics): projections that drop
  missing values, threshold rules that fill an anomaly dict, the capped risk score, the
  clamped cooperation score, and the season, weather trend and busiest time slot.
- **Web aggregation and answer post-processing** (WebCommon, ToolsWeb, ToolsWebSerper,
  WebAugment, WebAugmentUtils, PromptBuilder, Postprocess, SnsNode): the URL-de-duplicating
  merge, cleaning, recency filter, rerank fallback and final order of both search
  providers; the web-augment nodes' query and snippets; prompt assembly; source
  de-duplication, the citation block, text cleanup and the action seed; the SNS node.

Python values are a `Value` datatype (None, bool, int, float with NaN, str, other object);
dicts are `map<string, Value>` and tables sequences of them. The graph state is a class with
one field per key, and nodes that update it are methods with `modifies` frames. Language
models, search providers, reranker scores, timestamps, the clock and file contents are
parameters.

## Model

| member | source | states |
|---|---|---|
| Config.GetConfig | my_agent/utils/config.py:19-38 | a non-None secret wins; an ImportError, FileNotFoundError or KeyError from the secrets source, or a None secret, falls through to the environment and then to the default; any other exception escapes |
| Config.Toggle | my_agent/utils/config.py:65-80 | a flag read through `_get_config` is None only when the secrets source raises an exception the lookup does not catch |
| Config.FlagOnExactly | my_agent/utils/config.py:65-80 | `str(v) == "1"` holds exactly for the string "1" and the integer 1 (not True, 1.0 or " 1") |
| Config.ToggleDefaults | my_agent/utils/config.py:65-80 | with no secret and no environment variable MCP_ENABLED, ENABLE_RELEVANCE_CHECK and ENABLE_MEMORY are on and CONFIRM_ON_MULTI is off, also when streamlit cannot be imported |
| Config.ToggleFromEnv | my_agent/utils/config.py:29-35 | when no secret applies, a set environment variable turns a toggle on exactly when it is "1" |
| Config.FirstMissing | my_agent/utils/config.py:1-88 | the first imported name the module does not define, None exactly when every name is defined |
| Config.SearchSettingsUndefined | my_agent/utils/config.py:1-88 | DEFAULT_TOPK, DEFAULT_RECENCY_DAYS, TAVILY_API_KEY, SERPER_API_KEY and SEARCH_TIMEOUT are not defined by config.py |
| State.GraphState.Initial | my_agent/utils/adapters.py:29-50 | the initial state: the query and store name, retry count 0, relevance not passed, no clarification, empty lists and None fields |
| Agent.RouteIntent | my_agent/agent.py:40-44 | always one of the four intents: the upper-cased intent when it is one of them, GENERAL otherwise, for None and "" too |
| Agent.GeneratorOf | my_agent/agent.py:46-55 | each route label leads to a generator node |
| Agent.Run | my_agent/agent.py:37-66 | a run starts at its node, never contains END and has at most as many nodes as the node's distance to END |
| Agent.RunRanksFall | my_agent/agent.py:37-66 | along a run every edge moves strictly closer to END |
| Agent.RunFromGenerator | my_agent/agent.py:57-66 | from a generator a run goes to the relevance checker, then to the memory updater only when relevance passed, then ends |
| Agent.RunFromEntry | my_agent/agent.py:37-66 | the whole run is router, web augment, the generator `_route_intent` picks, the checker, and the memory updater only on a pass: there is no retry loop |
| Agent.RunVisitsOnce | my_agent/agent.py:24-66 | a run visits at most five nodes, each at most once |
| Agent.PlaceholderResponse | my_agent/agent.py:11-13 | the ISSUE, SNS and REVISIT generators wired into the graph have a fixed reply, the GENERAL generator does not |
| Agent.RunPlaceholder | my_agent/agent.py:11-13 | a placeholder generator writes its fixed text to `final_response` and changes nothing else |
| Agent.CreateGraph | my_agent/agent.py:17-28 | the graph is built exactly when config defines both imported settings and the web node accepts `recency_days`; a missing setting raises the ImportError naming the first one missing |
| Agent.CreateGraphRaisesAsWritten | my_agent/agent.py:17 | as written `create_graph` is never reached: importing DEFAULT_TOPK from config fails |
| Agent.CreateGraphRaisesOnRecencyKeyword | my_agent/agent.py:25-28 | even with both settings defined, the web node's constructor rejects the `recency_days` keyword |
| Adapters.Status | my_agent/utils/adapters.py:60-62 | "need_clarify" iff clarification is pending, else "error" iff an error text is set, else "ok" |
| Adapters.ResultOf | my_agent/utils/adapters.py:59-70 | the result carries the status and copies intent, store id, candidates, card, final response, actions and error from the final state |
| Adapters.FailureOf | my_agent/utils/adapters.py:72-76 | an exception of the run gives status "error" and the message "그래프 실행 실패: " followed by the exception text |
| Adapters.RunOneTurn | my_agent/utils/adapters.py:10-76 | a failing graph build propagates and makes no state; otherwise a fresh initial state is run, a crash becomes the failure result and a finished run the result of its final state |
| AdapterClient.GetMcpTools | mcp/adapter_client.py:15-19 | always the empty list |
| AdapterClient.CallMcpTool | mcp/adapter_client.py:22-38 | an unknown name raises ValueError "Tool <name> not found"; a known name with other keyword arguments raises TypeError; otherwise the tool's own result, unchanged |
| AdapterClient.WebSearchRaises | mcp/adapter_client.py:26-36 | "web_search" is not in the table, so every call to it raises ValueError |
| AdapterClient.SearchCallBounded | mcp/adapter_client.py:27 | a well-formed `search_merchant` call returns at most 20 merchants |
| McpContracts.ValidateMerchantSearchInput | mcp/contracts.py:59-65 | a non-string name is refused as "must be string", a blank one as "cannot be empty", and every other input passes with no error |
| McpContracts.ValidateStoreIdInput | mcp/contracts.py:68-72 | passes exactly when `store_id` is present and truthy; otherwise "store_id required" |
| McpContracts.StarOnlyNamePasses | mcp/contracts.py:63-64 | a name of only stars passes the validator and still reaches `search_merchant`'s empty-query answer |
| Adapters.ClarifyOutranksError | my_agent/utils/adapters.py:60-62 | a pending clarification gives "need_clarify" whatever the error |
| Agent.NextLowersRank | my_agent/agent.py:37-66 | every edge out of a node other than END moves strictly closer to END |
| Agent.RunStep | my_agent/agent.py:37-66 | a run from a node is that node followed by the run from its successor |
| State.TextOr | my_agent/utils/tools.py:268 | `state.get(k) or ""`: a field with text reads as that text, a missing, None or empty one as "" |
| Router.FirstHit | my_agent/nodes/router.py:34-37 | the intent of the first rule group with a keyword in the query, GENERAL when no group has one |
| Router.RulesFallbackIntent | my_agent/nodes/router.py:32-37 | the fallback always names one of the four intents, and GENERAL exactly when no rule keyword occurs in the lowercased query |
| Router.SnsScannedFirst | my_agent/nodes/router.py:16-20 | a query containing "인스타" is SNS whatever else it contains, since the SNS group is scanned first |
| Router.RulesFallbackIgnoresCase | my_agent/nodes/router.py:33 | lowercasing the query first does not change the fallback |
| Router.Label | my_agent/nodes/router.py:56-70 | a label exists exactly when the trimmed, upper-cased reply is an alias or an intent, and it is always one of the four intents |
| Router.ClassifyWithLlm | my_agent/nodes/router.py:39-72 | None without a model or a query and on an exception; otherwise the label of the reply |
| Router.RouteIntent | my_agent/nodes/router.py:74-82 | the model's label when there is one, the rule fallback otherwise; always one of the four intents |
| Router.Route | my_agent/nodes/router.py:74-85 | writes that intent to the state and changes no other field |
| Router.LlmFailureFallsBack | my_agent/nodes/router.py:71-72 | a model call that raises leaves the decision to the rules |
| Router.AliasesAreIntents | my_agent/nodes/router.py:13 | every alias names an intent, and the router's intents are exactly IntentType (also `my_agent/utils/config.py:88`) |
| RelevanceCheck.CheckBaseRelevance | my_agent/nodes/relevance_check.py:9-27 | fails as too short under 50 stripped characters; then raises TypeError for a truthy non-text store name; then fails when a store name of two or more characters is missing; then fails without a data keyword; passes exactly when none of these applies |
| RelevanceCheck.IntentRuleOf | my_agent/nodes/relevance_check.py:32-49 | a rule exists exactly for the four intents, and each needs one keyword |
| RelevanceCheck.CheckIntentSpecificRelevance | my_agent/nodes/relevance_check.py:30-56 | never raises; an unknown intent passes; a known one passes exactly when the lower-cased response has one of its keywords and otherwise fails with the rule's message |
| RelevanceCheck.CheckRelevance | my_agent/nodes/relevance_check.py:89-92 | sets `relevance_passed` and changes nothing else |
| RelevanceCheck.EveryRunUpdatesMemory | my_agent/nodes/relevance_check.py:89-92 | since the checker always passes, every run visits five nodes and ends with the checker and then the memory updater (also `my_agent/agent.py:60-66`) |
| ChatHistory.ToStored | my_agent/utils/chat_history.py:22-28 | role "user" exactly for a human message and "assistant" for any other; the content is kept and the timestamp is the clock's |
| ChatHistory.FromStored | my_agent/utils/chat_history.py:31-36 | role "user" becomes a human message and any other role an AI message; the content is kept |
| ChatHistory.MessageRoundTrip | my_agent/utils/chat_history.py:22-36 | a round trip keeps the content, keeps Human as Human and makes every other message an AI message, so human and AI messages come back unchanged |
| ChatHistory.SavedFile | my_agent/utils/chat_history.py:55-75 | the saved document replaces the message list with the converted messages, keeps an existing file's id and creation time, stamps the update time, and merges non-empty new metadata over the old |
| ChatHistory.LoadFile | my_agent/utils/chat_history.py:99-117 | a missing file loads as no messages and empty metadata; otherwise the converted messages and the stored metadata |
| ChatHistory.SaveLoadMessages | my_agent/utils/chat_history.py:69-113 | loading what was saved gives back the saved messages, normalised as by the round trip |
| ChatHistory.SaveMergesMetadata | my_agent/utils/chat_history.py:73-75 | a new metadata key overwrites, and an old key the new metadata lacks survives |
| ChatHistory.HistoryStore.Save | my_agent/utils/chat_history.py:39-81 | the thread's file becomes the saved document, other threads are untouched, and the path is "chat_history/<thread>.json" |
| ChatHistory.LoadMissing | my_agent/utils/chat_history.py:101-107 | a thread never saved loads with no messages and empty metadata |
| ChatHistory.TurnMessages | my_agent/utils/chat_history.py:182-185 | the turn adds the query when it is non-empty, then the response when it is non-empty: 0, 1 or 2 messages in that order |
| ChatHistory.UpdateConversationMemory | my_agent/utils/chat_history.py:173-191 | appends the turn's messages, sets the placeholder summary iff there are then at least 10 messages and otherwise keeps the summary |
| ChatHistory.MemoryOnlyAppends | my_agent/utils/chat_history.py:182-185 | the prior messages stay a prefix and at most two messages are added |
| McpTools.SafePercentageToRatio | mcp/tools.py:19-51 | None, NaN and non-numeric values give the default; negatives give 0.0, values in [0,1] themselves, values in (1,100] a hundredth, larger values 1.0; so with a default in [0,1] the result is in [0,1] |
| McpTools.DedupById | mcp/tools.py:112 | keeps, in order, the first merchant of each id not seen yet: a subsequence with pairwise distinct ids covering every id |
| McpTools.SearchMerchant | mcp/tools.py:65-119 | a query that is empty once stripped of blanks and stars gives not found with no merchants; `count` is the number of merchants, at most 20, and found exactly when there is one; the ids are pairwise distinct |
| McpTools.SearchOrdered | mcp/tools.py:103-109 | hits are ordered by star count, then name length, then name |
| McpTools.RankedFromTier | mcp/tools.py:111-112 | every ranked merchant is the projection of a row of the selected tier |
| McpTools.RankedComplete | mcp/tools.py:111-112 | below the cap of 20 every id of the tier is ranked |
| McpTools.SearchFromTier | mcp/tools.py:79-119 | every hit comes from the selected matching tier, and every id of that tier is returned unless the cap of 20 is reached |
| McpTools.SearchExactWins | mcp/tools.py:79-87 | when some name equals the stripped query exactly, every hit has exactly that name: the looser tiers are not consulted |
| McpTools.MaxStr | mcp/tools.py:135 | the greatest string of the month column, compared as Python compares strings |
| McpTools.FirstWithMonth | mcp/tools.py:136 | the first row at the given month |
| McpTools.Ratios | mcp/tools.py:144-161 | the eighteen ratio fields of the card, each a finite float in [0,1] |
| McpTools.CardHead | mcp/tools.py:138-140 | the card carries the requested id as `mct_id` and the chosen month as `yyyymm` |
| McpTools.BuildCard | mcp/tools.py:138-167 | the card carries the id, the month and every ratio field converted from its source column |
| McpTools.LatestIndex | mcp/tools.py:135-136 | the row read is at the store's greatest month and is the first row at that month |
| McpTools.LoadStoreData | mcp/tools.py:122-173 | an unknown id gives "store_id <id> not found"; otherwise the card has `mct_id` equal to the input, every ratio in [0,1], and `yyyymm` a month of the store that no other row of the store exceeds |
| McpTools.FirstAdminDongAt | mcp/tools.py:179 | the first row with a non-null 행정동, or the end when there is none |
| McpTools.FirstAdminDong | mcp/tools.py:179-181 | None exactly when every matching row has a null 행정동 |
| McpTools.ResolveRegion | mcp/tools.py:176-192 | succeeds exactly when a row of the district has a 행정동, returning the first one as text; otherwise "district <d> not found" with no code |
| McpTools.LoadAreaData | mcp/tools.py:195-206 | always succeeds, echoes the code and reports zero figures |
| McpTools.LoadRegionData | mcp/tools.py:209-219 | always succeeds, echoes the code and reports zero figures |
| McpTools.ToMerchants | mcp/tools.py:103-109 | one merchant per row, in order |
| McpTools.MerchantOrder | mcp/tools.py:103-109 | the search order (stars, then name length, then name) is total and transitive |
| McpTools.RowOrder | mcp/tools.py:103-109 | the same order on table rows is total and transitive |
| McpTools.Months | mcp/tools.py:135-136 | one month text per row, in order |
| AgentTools.NormalizeStoreName | my_agent/utils/tools.py:21-25 | every whitespace character removed, so the result has none; "" for empty input |
| AgentTools.SpacelessUnchanged | my_agent/utils/tools.py:25 | a name without whitespace is left as it is |
| AgentTools.NormalizeIdempotent | my_agent/utils/tools.py:21-25 | normalising twice is normalising once |
| AgentTools.CheckBaseRelevance | my_agent/utils/tools.py:72-90 | fails as too short under 50 stripped characters; then raises TypeError for a truthy non-text merchant name; passes exactly when the response is long enough, contains the merchant name whenever that name is text longer than 3 characters, names a data keyword and contains a digit |
| AgentTools.IntentRuleOf | my_agent/utils/tools.py:94-112 | a rule exists exactly for the four intents; GENERAL needs one keyword and the others two |
| AgentTools.Matched | my_agent/utils/tools.py:116 | the rule keywords found in the text, in rule order, each keyword that occurs included |
| AgentTools.CheckIntentSpecificRelevance | my_agent/utils/tools.py:92-119 | never raises; an unknown intent passes; a known one passes exactly when enough distinct keywords occur in the lower-cased response and otherwise fails with the message giving the needed and found counts |
| AgentTools.GeneralNeedsOneKeyword | my_agent/utils/tools.py:107-110 | a GENERAL response naming "전략" passes |
| AgentTools.WebCitationRule | my_agent/utils/tools.py:262-275 | passes exactly when there are no snippets or the two responses together show the sources heading, a URL scheme or a domain suffix; otherwise the fixed soft-failure message |
| AgentTools.CoKrImpliesKr | my_agent/utils/tools.py:272 | ".co.kr" in the hint list adds nothing, since any text containing it also contains ".kr" |
| AgentTools.RelevanceVerdict | my_agent/utils/tools.py:278-311 | disabled checks pass; an exception of the base rule escapes; a base or intent failure is hard; with both passing a missing citation is a soft failure and anything else a pass; a missing or empty intent is read as GENERAL |
| AgentTools.ApplyVerdict | my_agent/utils/tools.py:280-312 | a hard failure clears the pass flag, records "[Relevance] ..." and adds exactly one retry; a soft failure records "[Relevance][Soft] ..." and passes; a pass or disabled check only sets the flag; an escaping exception changes nothing |
| AgentTools.CheckRelevance | my_agent/utils/tools.py:278-312 | the state after the node is the verdict on its fields applied as above |
| AgentTools.SoftFailurePasses | my_agent/utils/tools.py:303-311 | once both hard rules pass, the node passes whether or not a citation is visible |
| AgentTools.LessThan | my_agent/utils/tools.py:177 | `v < c` is defined exactly for numbers and holds exactly when the number is below c (NaN compares false) |
| AgentTools.AtLeast | my_agent/utils/tools.py:179 | `v >= c` is defined exactly for numbers and holds exactly when the number is at least c |
| AgentTools.GreaterThan | my_agent/utils/tools.py:181 | `v > c` is defined exactly for numbers and holds exactly when the number exceeds c |
| AgentTools.SignalsOf | my_agent/utils/tools.py:176-183 | defined exactly when all three comparisons are; the signals follow the fixed order, RETENTION_ALERT iff repeat rate < 0.2, CHANNEL_MIX_ALERT iff delivery share >= 0.5, NEW_CUSTOMER_FOCUS iff new rate > 0.4 |
| AgentTools.PersonaOf | my_agent/utils/tools.py:186-189 | the persona names the two leading demographic groups, in order |
| AgentTools.SumOf | my_agent/utils/tools.py:192 | the sum of two card values is defined exactly when both are numbers |
| AgentTools.HintsOf | my_agent/utils/tools.py:191-197 | the Instagram and blog hints iff female 30s plus 40s exceeds 0.3, then the delivery-app hint iff the floating share exceeds 0.5 |
| AgentTools.CollectSignals | my_agent/utils/tools.py:176-182 | the signal loop computes exactly the signal list above |
| AgentTools.CollectHints | my_agent/utils/tools.py:191-196 | the hint loop computes exactly the hint list above |
| AgentTools.BuildFeatures | my_agent/utils/tools.py:169-199 | without card data only the error is set; otherwise signals, then persona, then hints are written, and a comparison that raises leaves the writes made before it |
| AgentTools.MissingRatiosSignalRetention | my_agent/utils/tools.py:177-182 | a card missing all three ratios reads them as 0, so only the retention alert fires |
| AgentTools.CandidateOrderIsTotal | my_agent/utils/tools.py:252-255 | the ranking key is a total, transitive order |
| AgentTools.RankCandidates | my_agent/utils/tools.py:239-257 | a permutation of the candidates, empty exactly for empty input |
| AgentTools.RankSorted | my_agent/utils/tools.py:247-255 | ordered by exact normalised match, then prefix match, then shorter raw name, then name |
| AgentTools.RankExactFirst | my_agent/utils/tools.py:248-255 | when some candidate's normalised name equals the normalised query, the top-ranked one does too |
| AgentTools.CandidateRecords | my_agent/utils/tools.py:224-225 | the candidates as stored in the state, one dict per merchant in order |
| AgentTools.ResolveFailures | my_agent/utils/tools.py:206-222 | a blank name, a search exception and a miss each ask for clarification with their own error and leave the store id unchanged |
| AgentTools.ResolveFound | my_agent/utils/tools.py:224-236 | on a hit the candidates are stored and the error kept; with CONFIRM_ON_MULTI and several candidates the fixed pick-one reply is set and no store chosen; otherwise the top-ranked id is chosen without clarification; a hit listing no merchant raises IndexError |
| AgentTools.ResolveChoosesListed | my_agent/utils/tools.py:204-236 | the store id changes only on a hit, and then to the id of a listed merchant |
| AgentTools.ResolveFields | my_agent/utils/tools.py:204-236 | the branches of the node compute exactly the resolution above |
| AgentTools.SetFields | my_agent/utils/tools.py:204-236 | writes the five resolved fields into the state |
| AgentTools.ResolveStore | my_agent/utils/tools.py:204-236 | the node's new fields, and whether it raised, are the resolution of the stripped store name with the search result |
| AgentTools.TableSearchNeverEmpty | my_agent/utils/tools.py:219-233 | against the merchant table a reported hit always lists a merchant, so the resolver never raises IndexError (also `mcp/tools.py:114-119`) |
| AgentTools.SignalsSubseq | my_agent/utils/tools.py:176-182 | the signals always come in the order retention, channel mix, new customers |
| MainMetrics.MainSafe | my_agent/metrics/main_metrics.py:22-31 | every value comes back unchanged: the `pd.isna` test raises NameError (pandas is not imported) and the bare `except` swallows it |
| MainMetrics.DropNaMetrics | my_agent/metrics/main_metrics.py:33-35 | exactly the entries whose value is neither None nor a float NaN, with their values |
| MainMetrics.DropNaIdempotent | my_agent/metrics/main_metrics.py:33-35 | dropping missing entries twice is dropping them once |
| MainMetrics.Project | my_agent/metrics/main_metrics.py:53-64 | each metric reads its store field, and a metric is present exactly when that field is not None or NaN |
| MainMetrics.BuildMainMetrics | my_agent/metrics/main_metrics.py:38-83 | ValueError for a falsy store record, then for a falsy trade-area record; otherwise the nine main metrics (the sales band read from "매출금액_구간") and the eight trade-area metrics, each present exactly when its field is not None or NaN and equal to it |
| SnsMetrics.BuildSnsMetrics | my_agent/metrics/sns_metrics.py:31-60 | the same two ValueErrors; otherwise the eight trade-area figures, each present exactly when its field is not None or NaN and equal to it |
| SnsMetrics.SnsDependsOnlyOnArea | my_agent/metrics/sns_metrics.py:44-58 | the store record is only checked for presence: two present stores in one trade area get the same figures |
| SnsMetrics.SnsNoMissing | my_agent/metrics/sns_metrics.py:60 | no reported figure is None or NaN |
| StrategyMetrics.BuildStrategyMetrics | my_agent/metrics/strategy_metrics.py:19-53 | the same two ValueErrors; otherwise all three strategy metrics, read from "취소율_구간", "이동성_적합도" and "연령대_적합도" through `_safe` with default 0.0 |
| StrategyMetrics.StrategyNeverNone | my_agent/metrics/strategy_metrics.py:19-27 | every strategy metric is present and none is None |
| StrategyMetrics.StrategyIgnoresBizarea | my_agent/metrics/strategy_metrics.py:37-48 | the trade-area record's contents never change the metrics |
| GeneralMetrics.GeneralSafe | my_agent/metrics/general_metrics.py:13-21 | None and "" give the default, a bool, int or float becomes its float, and anything else comes back unchanged |
| GeneralMetrics.GeneralSafeIdempotent | my_agent/metrics/general_metrics.py:13-21 | with a float or non-empty text default, converting twice is converting once |
| GeneralMetrics.SafeFloat | my_agent/metrics/general_metrics.py:24-31 | None and "" give the default; otherwise `float(x)`, or the default where `float` raises ValueError or TypeError |
| GeneralMetrics.SafeInt | my_agent/metrics/general_metrics.py:34-41 | None and "" give the default; otherwise `int(x)`, or the default where `int` raises |
| GeneralMetrics.SafeIntRoundTrip | my_agent/metrics/general_metrics.py:34-41 | an int, and its decimal text, both come back as that int |
| GeneralMetrics.SafeIntTruncates | my_agent/metrics/general_metrics.py:39 | a finite float is truncated toward zero |
| GeneralMetrics.BrandType | my_agent/metrics/general_metrics.py:73-80 | "F" is 프랜차이즈, "I" is 개인점, None or "" is 정보없음, and any other text is printed as it is |
| GeneralMetrics.BasicInfo | my_agent/metrics/general_metrics.py:82-88 | the five basic-info keys, the brand type as above, the operating months through `_safe_int` with default 0, and the trade-area type, sole-proprietor flag and closure flag each through `_safe` with default 정보없음 |
| GeneralMetrics.AreaKeysDisjoint | my_agent/metrics/general_metrics.py:95-114 | no trade-area key is both a count and a rate |
| GeneralMetrics.AreaInfo | my_agent/metrics/general_metrics.py:93-114 | empty without a trade-area record; otherwise the eight counts through `_safe_int` and the three rates through `_safe_float`, each read from its field |
| GeneralMetrics.CustomerMix | my_agent/metrics/general_metrics.py:119-130 | the ten demographic keys, each the float of the store field `<key>_고객_비중`, 0.0 when missing |
| GeneralMetrics.BuildGeneralMetrics | my_agent/metrics/general_metrics.py:44-142 | ValueError naming the store number exactly when the store record is falsy; otherwise the three blocks above and the month through `_safe` with default 정보없음, never None |
| GeneralMetrics.NumericMonthBecomesFloat | my_agent/metrics/general_metrics.py:68 | a numeric 기준년월 202501 is reported as the float 202501.0 |
| IssueMetrics.IssueSafe | my_agent/metrics/issue_metrics.py:38-42 | None and "" give 0.0; otherwise `float(x)`, or 0.0 where `float` raises |
| IssueMetrics.Metrics | my_agent/metrics/issue_metrics.py:59-72 | the twelve issue figures, each the float of its store field |
| IssueMetrics.TimeSeriesAbnormal | my_agent/metrics/issue_metrics.py:77-83 | loyal and new-customer changes of at most -5pp and a delivery change of at least 5pp are flagged, under their own keys and only those |
| IssueMetrics.PeerAbnormalFlags | my_agent/metrics/issue_metrics.py:85-88 | the peer rule flags exactly the listed features present in the store with absolute value at least 10, keeping the raw value |
| IssueMetrics.LogicAbnormal | my_agent/metrics/issue_metrics.py:90-94 | delivery share at least 0.65 and loyal share below 0.18 are flagged, and nothing else |
| IssueMetrics.FeaturesAreNotFlags | my_agent/metrics/issue_metrics.py:24-94 | the peer feature names are at least 7 characters long and the flag keys 4 or 5, so they never collide |
| IssueMetrics.AbnormalPartsDisjoint | my_agent/metrics/issue_metrics.py:75-94 | the three rule groups write disjoint keys, so none overwrites another |
| IssueMetrics.AbnormalRuleFlags | my_agent/metrics/issue_metrics.py:75-94 | in the whole anomaly map each fixed-threshold key is present exactly when its rule fires |
| IssueMetrics.AbnormalPeerFlags | my_agent/metrics/issue_metrics.py:85-88 | in the whole anomaly map each peer feature is present exactly when the store deviates on it, with its raw value |
| IssueMetrics.AbnormalKeysBounded | my_agent/metrics/issue_metrics.py:75-94 | no key outside the five flags and the ten peer features is raised |
| IssueMetrics.RiskScore | my_agent/metrics/issue_metrics.py:97 | 50 plus 5 per anomaly, capped at 100, so always between 50 and 100 |
| IssueMetrics.CollectPeerAnomalies | my_agent/metrics/issue_metrics.py:86-88 | the loop stops at a flagged feature whose raw value is text (formatting with "+.1f" raises), exactly when there is one, and otherwise returns the peer anomalies |
| IssueMetrics.BuildIssueMetrics | my_agent/metrics/issue_metrics.py:45-104 | ValueError exactly for a falsy store record; a format error exactly when a flagged peer value is text; otherwise the twelve figures, the anomalies of the three rules, the risk score of their count and the raw 기준년월 |
| IssueMetrics.MissingLoyalShareFlags | my_agent/metrics/issue_metrics.py:60-94 | a store without 단골손님_비중 always gets the 단골 부족 flag |
| IssueMetrics.ThresholdsInclusive | my_agent/metrics/issue_metrics.py:78-81 | the thresholds are inclusive: a change of exactly -5pp flags and 4.9pp does not |
| RevisitMetrics.AbnormalDict.constructor | my_agent/metrics/revisit_metrics.py:66 | the anomaly dict starts empty |
| RevisitMetrics.AbnormalDict.AddMetricIf | my_agent/metrics/revisit_metrics.py:36-45 | a None value is skipped; a number passing the test is written under the key; a value whose comparison raises is swallowed; nothing else changes |
| RevisitMetrics.RuleNamesDistinct | my_agent/metrics/revisit_metrics.py:68-126 | the six rules write six different keys |
| RevisitMetrics.RulesUpToFlags | my_agent/metrics/revisit_metrics.py:68-126 | after the first n rules a key is present exactly when one of them names it and fires, with that rule's value |
| RevisitMetrics.RevisitAbnormalFlags | my_agent/metrics/revisit_metrics.py:28-126 | each rule flags its key exactly when its strict test passes on its field (YoY below -3.68, 3-month below -5.25, absolute new-share gap above 8.0, delivery gap above 14.76, sales deviation above 12.0, count deviation above 10.0) |
| RevisitMetrics.RunRules | my_agent/metrics/revisit_metrics.py:66-126 | the six `add_metric_if` calls in order produce exactly the rule anomalies |
| RevisitMetrics.BuildRevisitMetrics | my_agent/metrics/revisit_metrics.py:48-136 | ValueError exactly for a falsy store record; otherwise the loyal-share gap, present exactly when it is not None or NaN, the rule anomalies and the raw 기준년월 |
| RevisitMetrics.StringValueNeverFlags | my_agent/metrics/revisit_metrics.py:40-45 | a text value in a rule's field is never flagged: the failed comparison is swallowed |
| CooperationMetrics.CoopKeysDisjoint | my_agent/metrics/cooperation_metrics.py:26-66 | the store keys, the trade-area keys and the score key are pairwise distinct |
| CooperationMetrics.CoopFigures | my_agent/metrics/cooperation_metrics.py:26-45 | the seven store and six trade-area figures, each present exactly when its field is not None or NaN and equal to it |
| CooperationMetrics.DisjointUnion | my_agent/metrics/cooperation_metrics.py:26-43 | merging two dicts with disjoint keys keeps every entry of both |
| CooperationMetrics.Variance3 | my_agent/metrics/cooperation_metrics.py:50-54 | the population variance `np.std` takes the root of is never negative |
| CooperationMetrics.RoundHalfEven | my_agent/metrics/cooperation_metrics.py:63-65 | `round` lands within one half of its argument |
| CooperationMetrics.Round2 | my_agent/metrics/cooperation_metrics.py:63-65 | `round(x, 2)` lands within 0.005 of x |
| CooperationMetrics.Round2UnitInterval | my_agent/metrics/cooperation_metrics.py:63-66 | rounding keeps a number of [0, 1] in [0, 1] |
| CooperationMetrics.Clamp01 | my_agent/metrics/cooperation_metrics.py:66 | `min(1.0, max(0.0, x))` lies in [0, 1] and leaves a number of [0, 1] unchanged |
| CooperationMetrics.CoopScore | my_agent/metrics/cooperation_metrics.py:48-68 | a score exists exactly when the three customer shares, the vitality index and the closure rate are numbers or missing (missing reads as 0, a falsy closure rate as 0) |
| CooperationMetrics.Score | my_agent/metrics/cooperation_metrics.py:50-66 | the score lies in [0, 1] |
| CooperationMetrics.EqualSharesBalance | my_agent/metrics/cooperation_metrics.py:50-55 | equal customer shares have no spread, so the balance term is 1 |
| CooperationMetrics.EqualSharesScore | my_agent/metrics/cooperation_metrics.py:50-66 | equal customer shares score at least 0.495 whatever the trade area |
| CooperationMetrics.WithScore | my_agent/metrics/cooperation_metrics.py:66-68 | the figures with the score key added: the score, or None exactly when an exception stopped it |
| CooperationMetrics.ScoreKeyNotFigure | my_agent/metrics/cooperation_metrics.py:26-66 | the score key never overwrites a figure |
| CooperationMetrics.BuildCooperationMetrics | my_agent/metrics/cooperation_metrics.py:16-70 | ValueError exactly when either record is falsy; otherwise the figures unchanged plus the score key, None exactly when the score raised |
| CooperationMetrics.EmptyCloseRateIsZero | my_agent/metrics/cooperation_metrics.py:59 | an empty-text closure rate counts as 0 through `or 0`, where any other text raises |
| SeasonMetrics.ToNumeric | my_agent/metrics/season_metrics.py:53 | `pd.to_numeric(errors="coerce")` keeps a number's value and turns None or an object into NaN |
| SeasonMetrics.Temps | my_agent/metrics/season_metrics.py:53 | one coerced temperature per forecast row, in order |
| SeasonMetrics.Mean | my_agent/metrics/season_metrics.py:55 | `Series.mean()` skips NaN cells and is NaN exactly when no cell is left |
| SeasonMetrics.TimesIsProduct | my_agent/metrics/season_metrics.py:55 | repeated addition is multiplication (used to bound the mean) |
| SeasonMetrics.FinSumWithin | my_agent/metrics/season_metrics.py:55 | the sum of the non-NaN cells lies between count times the lower and the upper bound |
| SeasonMetrics.MeanWithin | my_agent/metrics/season_metrics.py:55 | the mean of temperatures that all lie in [lo, hi] lies in [lo, hi] |
| SeasonMetrics.RainHours | my_agent/metrics/season_metrics.py:56 | the count of rows whose precipitation is not "없음", at most the row count, and 0 exactly when every row says "없음" |
| SeasonMetrics.SeasonOf | my_agent/metrics/season_metrics.py:59-67 | 겨울 for December to February, 봄 for March to May, 여름 for June to August, 가을 for September to November, each in both directions |
| SeasonMetrics.Trend | my_agent/metrics/season_metrics.py:69-73 | 맑음 유지 exactly for no rainy hour, 간헐적 비 for one to three, 비 많음 for four or more |
| SeasonMetrics.TrendMonotone | my_agent/metrics/season_metrics.py:69-73 | more rain never makes the trend sunnier |
| SeasonMetrics.TimeData | my_agent/metrics/season_metrics.py:76-85 | exactly the slots whose count is not None, each with its count |
| SeasonMetrics.MaxFrom | my_agent/metrics/season_metrics.py:88 | the scan's pick is a position at or after the current best |
| SeasonMetrics.ActivePeriod | my_agent/metrics/season_metrics.py:86-90 | "정보 없음" for no slot; otherwise one of the listed slots, or a TypeError for unorderable counts |
| SeasonMetrics.MaxFromFirstMax | my_agent/metrics/season_metrics.py:88 | with finite counts the scan ends at a largest count with no earlier slot equal to it |
| SeasonMetrics.ActivePeriodIsFirstMax | my_agent/metrics/season_metrics.py:88 | with finite counts the active slot has the largest count and is the first such slot, as `max` keeps the first maximum |
| SeasonMetrics.MixedCountsRaise | my_agent/metrics/season_metrics.py:88 | a numeric count beside a text count raises rather than picking a slot |
| SeasonMetrics.Industry | my_agent/metrics/season_metrics.py:94 | the industry when truthy, else "알 수 없음" |
| SeasonMetrics.AreaName | my_agent/metrics/season_metrics.py:95 | the first truthy of 상권 and 상권_지리, else "상권 정보 없음"; always truthy |
| SeasonMetrics.SeasonRecord | my_agent/metrics/season_metrics.py:97-109 | the eight-key dict with each value in its place |
| SeasonMetrics.BuildSeasonMetrics | my_agent/metrics/season_metrics.py:15-111 | store missing exactly for a falsy store; a weather failure exactly when `success` is falsy, with "날씨 조회 실패: " and the message; KeyError exactly when the forecast is empty or no hour carries one of the 기온(℃), fcstDateTime and 강수형태 columns; otherwise the season of the month, the rounded mean temperature, the rainy hours, the trend, the industry, the area name, the active slot and the message built from the unrounded mean |
| SeasonMetrics.NoSlotsNoInfo | my_agent/metrics/season_metrics.py:87-90 | a trade area with no slot count reports "정보 없음" |
| Dashboard.Digits | dashboard.py:19 | the digits of the text, in order; a digit string is its own digits |
| Dashboard.DigitsValueBound | dashboard.py:21 | a run of n digits is worth less than 10^n, so `int(digits[:4])` is a year of at most 9999 |
| Dashboard.ToMonthRobust | dashboard.py:14-26 | NaT for None or NaN; a month it builds has a month number in 1..12 and a year in 0..9999; it hands the text on to `pd.to_datetime` only when there are fewer than six digits or digits[4:6] is not a month |
| Dashboard.DigitPath | dashboard.py:18-23 | a digit string whose digits[4:6] is a month maps to day 1 of (digits[0:4], digits[4:6]) |
| Dashboard.MonthRoundTrip | dashboard.py:14-23 | parsing the YYYYMM text of any four-digit year and month gives that month back |
| Dashboard.DigitRun | dashboard.py:48 | a run of digits stays inside the text |
| Dashboard.SpaceRun | dashboard.py:48 | a run of whitespace stays inside the text |
| Dashboard.SearchRange | dashboard.py:48 | `re.search(r"(\d+)\s*-\s*(\d+)")` finds nothing only when the pattern matches at no position |
| Dashboard.ParseBinMid | dashboard.py:44-50 | NaN for None or NaN; a number comes back as its float; a text with no range match is NaN; otherwise the midpoint of the first match |
| Dashboard.RangeMatch | dashboard.py:48 | the pattern matches "a-b" at its start with groups a and b |
| Dashboard.BinLabelMid | dashboard.py:44-50 | a bin label "x-y" parses to (x + y) / 2 |
| Dashboard.GetNum | dashboard.py:52-59 | the float value of `col` when present, not NaN and convertible; otherwise the bin midpoint when a bin column is given, else NaN |
| Dashboard.DtSortOrder | dashboard.py:71-75 | the `sort_values("dt")` order (ascending months, NaT last) is total and transitive |
| Dashboard.LastByDt | dashboard.py:71-75 | `sort_values("dt").iloc[-1]` is a row of the input that no other row sorts after |
| Dashboard.Candidates | dashboard.py:62-66 | rows of the frame whose 업종 text equals the industry's and whose key column text equals the key's, each filter applied only when its column exists |
| Dashboard.PickLatestRow | dashboard.py:61-76 | "no_match_condition" and an empty row exactly when no row survives the filters; "match_same_dt" exactly when a row is at the target month, returning one such row; "fallback_past_dt" returns the latest row before the target; "fallback_latest_any" returns a row no survivor sorts after; the row always comes from the survivors |
| Dashboard.Tail | dashboard.py:84-85 | `tail(n)` is the last min(n, length) rows |
| Dashboard.TailOfSorted | dashboard.py:84-85 | the tail of a sorted sequence is sorted, and every dropped row sorts before every kept one |
| Dashboard.SortedTail | dashboard.py:84-85 | `sort_values("dt").tail(9999)`: rows of the input in dt order, all of them up to 9999 and otherwise 9999 of them, empty exactly for empty input |
| Dashboard.SortedTailKeepsLatest | dashboard.py:84-85 | the rows `tail(9999)` drops sort no later than any row it keeps |
| Dashboard.PeersOf | dashboard.py:79-85 | "peer_no_key_match" exactly for no matching row; "peer_same_dt" exactly when some row is at the target month, returning exactly those rows; "peer_past_dt" exactly when none is but some is earlier, returning the sorted tail of the earlier rows; otherwise "peer_latest_any" with the sorted tail of all rows |
| Dashboard.PickPeers | dashboard.py:78-85 | a KeyError exactly when the frame lacks 업종 or 상권_지리; otherwise the fallback chain over the rows matching both |
| Dashboard.MaxDt | dashboard.py:114 | `dt.dropna().max()` is NaT exactly when every row is NaT, and otherwise a month of some row that no row exceeds |
| Dashboard.RowNow | dashboard.py:114-118 | the current row is a store row at the greatest month among the dated rows |
| Dashboard.ComputeContext | dashboard.py:110-125 | ValueError naming the store exactly when it has no rows; otherwise its rows, and a current row at its greatest month |
| Dashboard.PeersKeepRow | dashboard.py:78-82 | a dated row is among the peers picked for its own industry, trade area and month |
| Dashboard.ContextKeepsStore | dashboard.py:110-122 | the store's dated current row is always among its peers: `pick_peers` never drops the store |
| Dashboard.Numbers | dashboard.py:186 | `pd.to_numeric(errors="coerce").dropna()` keeps at most the series' length |
| Dashboard.CountBelow | dashboard.py:188 | the count of values strictly below v is at most the length |
| Dashboard.PctRank | dashboard.py:185-188 | NaN exactly for an empty numeric series or a NaN value; otherwise 100 times the fraction strictly below, in [0, 100] |
| Dashboard.PercentBounds | dashboard.py:188 | a count of at most the whole gives a percentage in [0, 100] |
| Dashboard.CountBelowMonotone | dashboard.py:188 | a larger value has at least as many values below it |
| Dashboard.PctRankMonotone | dashboard.py:185-188 | a larger value never ranks lower among the same peers |
| Dashboard.CountBelowExtremes | dashboard.py:188 | a value above every peer ranks 100, one at or below every peer ranks 0 |
| Dashboard.StringBinMid | dashboard.py:44-50 | a stripped text whose first range is x-y parses to the midpoint (x + y) / 2 |
| Dashboard.TailKeepsLast | dashboard.py:84-85 | in a sorted sequence, every element the tail drops is ordered before every element it keeps |
| WebCommon.SingleSpacedSlice | mcp/tools_web.py:37-39 | a slice of single-spaced text is single-spaced, so cutting the clipped text keeps it so |
| WebCommon.CollapseSpaces | mcp/tools_web.py:38 | `re.sub(r"\s+", " ", s)` is no longer than s, and starts with a space exactly where s starts with whitespace |
| WebCommon.CollapseSpacesSingle | mcp/tools_web.py:38 | the collapsed text has whitespace only as single spaces |
| WebCommon.CollapseSpacesKeeps | mcp/tools_web.py:38-189 | every non-space character of the collapsed text is one of the input's non-whitespace characters' kind |
| WebCommon.CollapseSingleSpaced | mcp/tools_web.py:38 | collapsing already single-spaced text leaves it unchanged |
| WebCommon.StripSingleSpaced | mcp/tools_web.py:38 | stripping single-spaced text keeps it single-spaced |
| WebCommon.Clip | mcp/tools_web.py:37-39 | `_clip(s, n)` has at most n characters, only single spaces, and no leading whitespace |
| WebCommon.ClipPrefix | mcp/tools_web.py:37-39 | the clip is a prefix of the collapsed, stripped text, and all of it when that fits in n |
| WebCommon.ClipFixpoint | mcp/tools_web.py:37-39 | clipping leaves single-spaced, stripped text of at most n characters unchanged |
| WebCommon.TagEnd | mcp/tools_web.py:166 | the lazy `.*?>` ends at the first '>' after the '<', with no newline before it |
| WebCommon.StripTags | mcp/tools_web.py:166-167 | `re.sub(r"<.*?>", "", s)` never lengthens the text |
| WebCommon.StripTagsNoOpen | mcp/tools_web.py:166-167 | text without '<' is left unchanged |
| WebCommon.DedupFrom | mcp/tools_web.py:69-78 | the kept documents have non-empty URLs not seen before and pairwise distinct |
| WebCommon.DedupSubseq | mcp/tools_web.py:69-78 | the merge keeps documents in input order |
| WebCommon.DedupKeepsFirst | mcp/tools_web.py:72-77 | the first document with each new non-empty URL is kept |
| WebCommon.DedupAppend | mcp/tools_web.py:72 | merging A then B is A deduplicated followed by B deduplicated against A's URLs |
| WebCommon.DedupCovered | mcp/tools_web.py:74-75 | nothing survives when every URL is empty or already seen |
| WebCommon.MergeSelf | mcp/tools_web.py:69-78 | merging a list with itself is merging it with nothing |
| WebCommon.DedupStep | mcp/tools_web.py:73-77 | one step: the first document is kept exactly when its URL is non-empty and new |
| WebCommon.MergeLoopStep | mcp/tools_web.py:72-77 | the loop of `_merge_unique` keeps its invariant |
| WebCommon.MergeUnique | mcp/tools_web.py:69-78 | the loop returns exactly the URL-deduplicated concatenation (also `mcp/tools_web_serper.py:70-79`) |
| WebCommon.CleanText | mcp/tools_web.py:166-167 | a cleaned title or snippet has at most 300 characters |
| WebCommon.KeepFrom | mcp/tools_web.py:162-173 | every kept document passes the length tests with a URL not seen before, and their URLs are distinct |
| WebCommon.KeepSubseq | mcp/tools_web.py:162-173 | cleaning keeps documents in input order |
| WebCommon.KeepPassing | mcp/tools_web.py:162-173 | a passing document with a fresh URL has its URL among the survivors |
| WebCommon.CleanAll | mcp/tools_web.py:166-167 | one cleaned document per input document |
| WebCommon.CleanAllAt | mcp/tools_web.py:166-171 | the k-th cleaned document is the k-th input with its title and snippet cleaned |
| WebCommon.KeepCleanedSurvivors | mcp/tools_web.py:159-174 | with any cleaner of output at most 300 characters: survivors are cleaned, distinct by URL, in order, and every passing document's URL survives |
| WebCommon.CleanSpecSurvivors | mcp/tools_web.py:159-174 | what survives cleaning has a URL, a title of 3 to 300 characters and a snippet of 15 (Tavily) or 5 (Serper) to 300, distinct URLs and input order; every passing document's URL survives (also `mcp/tools_web_serper.py:165-180`) |
| WebCommon.CleanResultsWith | mcp/tools_web.py:159-174 | the loop, with the text cleaning as a parameter, computes exactly the specified survivors |
| WebCommon.CleanResults | mcp/tools_web.py:159-174 | `_clean_results` computes exactly the specified survivors (also `mcp/tools_web_serper.py:165-180`) |
| WebCommon.RecencyFilter | mcp/tools_web.py:58-67 | a window of 0 days or less keeps everything; otherwise exactly the undated documents and those at or after now minus days × 86400 |
| WebCommon.RecencyFilterSubseq | mcp/tools_web.py:62-67 | the filter keeps documents in input order |
| WebCommon.ApplyRecencyFilter | mcp/tools_web.py:58-67 | the loop computes exactly the filter (also `mcp/tools_web_serper.py:59-68`) |
| WebCommon.RecencyMonotone | mcp/tools_web.py:58-67 | a wider window keeps everything a narrower one keeps |
| WebCommon.Zip | mcp/tools_web.py:200 | `zip` pairs documents with scores up to the shorter length |
| WebCommon.Rescored | mcp/tools_web_serper.py:190-191 | each document gets its score written, where there is one |
| WebCommon.SortByScoresPermutes | mcp/tools_web.py:200-201 | sorting by score rearranges the documents and, apart from Serper's rewritten scores, keeps each one (also `mcp/tools_web_serper.py:190-192`) |
| WebCommon.SerperScoresDescending | mcp/tools_web_serper.py:190-192 | Serper's reranked documents come highest score first |
| WebCommon.TavilyScoresDescending | mcp/tools_web.py:200 | Tavily's (document, score) pairs come highest score first |
| WebCommon.RerankCosine | mcp/tools_web.py:193-203 | no documents, or a scorer that raises, leaves the list as it is; otherwise the documents sorted by the scores |
| WebCommon.RerankModel | mcp/tools_web.py:224-258 | no documents comes back as is; without sentence-transformers and a GPU, or when the model raises, the cosine rerank |
| WebCommon.ApplyRerank | mcp/tools_web.py:260-268 | without a GPU, or for any other name, the cosine rerank; "sbert" and "cross" on a GPU use their model |
| WebCommon.RerankCosinePermutes | mcp/tools_web.py:193-203 | the cosine rerank is a permutation, apart from rewritten scores |
| WebCommon.RerankModelPermutes | mcp/tools_web.py:224-258 | a model rerank is a permutation, apart from rewritten scores |
| WebCommon.ApplyRerankPermutes | mcp/tools_web.py:260-268 | whichever reranker runs, the result is a permutation, apart from rewritten scores |
| WebCommon.RecencyOrderIsTotal | mcp/tools_web.py:270-274 | the final sort key (rank descending, then date descending) is a total, transitive order |
| WebCommon.SortByRecency | mcp/tools_web.py:270-274 | the final sort is a permutation ordered by that key |
| WebCommon.TavilyNewestFirst | mcp/tools_web.py:271-274 | Tavily's documents have no `rank_score`, so the final sort is newest first |
| WebCommon.Finish | mcp/tools_web.py:315-320 | the shared tail returns at most `top_k` documents |
| WebCommon.AfterCleaning | mcp/tools_web.py:316-320 | the tail after cleaning returns at most `top_k` documents |
| WebCommon.FinishSteps | mcp/tools_web.py:315-320 | clean, filter by recency, rerank and cut, sort and cut, step by step, compute exactly the shared tail (also `mcp/tools_web_serper.py:299-302`) |
| WebCommon.SurvivorsByImage | mcp/tools_web.py:319 | a rearrangement of survivors, apart from rewritten scores, holds only survivors |
| WebCommon.RerankedSurvivors | mcp/tools_web.py:316-319 | what the rerank and cut keep passed cleaning and the recency window |
| WebCommon.SortedPrefix | mcp/tools_web.py:320 | the sorted cut holds only survivors, in the final order |
| WebCommon.FinishSurvivors | mcp/tools_web.py:315-320 | every returned document passed cleaning and the recency window, in the final order |
| WebCommon.BuildOutput | mcp/tools_web.py:325-338 | the output counts its documents and carries them and the success flag unchanged |
| WebCommon.RewritePrompt | mcp/tools_web.py:82-98 | the rewrite prompt contains the query |
| WebCommon.RewriteQuery | mcp/tools_web.py:81-108 | the stripped reply of the model, or the query unchanged when the call raises |
| ToolsWeb.FindChar | mcp/tools_web.py:180 | the first position at or after i holding c, or none when there is none |
| ToolsWeb.SchemeLength | mcp/tools_web.py:182 | a leading "http://" or "https://" is 7 or 8 characters, else 0 |
| ToolsWeb.NonSpaceEnd | mcp/tools_web.py:182 | `\S+` ends at the first whitespace or at the end |
| ToolsWeb.LinkEnd | mcp/tools_web.py:184-185 | a markdown link ends after where it opens |
| ToolsWeb.ReplaceOthers | mcp/tools_web.py:187 | each character outside `[0-9가-힣a-zA-Z.,!?()\s]` becomes a space, every other one is kept, the length unchanged |
| ToolsWeb.StripKeeps | mcp/tools_web.py:189 | stripping keeps a property every character has |
| ToolsWeb.CollapseStripShape | mcp/tools_web.py:189 | collapsing and stripping kept characters leaves single-spaced text without leading or trailing space |
| ToolsWeb.CleanRawContentShape | mcp/tools_web.py:176-190 | `clean_raw_content` is "" for empty input and otherwise has no leading or trailing space, no double space, no other whitespace, and only digits, Hangul syllables, ASCII letters, ".,!?()" and spaces |
| ToolsWeb.TavilySearchAsWritten | mcp/tools_web.py:111-113 | every call raises: `TABILI_API_KEY` is read before the `try` and is never defined |
| ToolsWeb.GatherDocs | mcp/tools_web.py:302-312 | the month search, and the year search merged after it when the month gave at most five, step by step, as specified |
| ToolsWeb.WebSearch | mcp/tools_web.py:277-322 | the method computes exactly the specified search |
| ToolsWeb.EmptyQueryFails | mcp/tools_web.py:292-293 | a blank query fails at once with no documents, count 0 and no retry |
| ToolsWeb.GatherFallbackIffShort | mcp/tools_web.py:306-312 | the year search runs exactly when the month search gave at most five documents |
| ToolsWeb.RetryIffShortMonth | mcp/tools_web.py:303-312 | on success the retry count is 1 and the fallback flag set exactly when the month gave at most five documents, and the count is 0 or 1 |
| ToolsWeb.CountBounded | mcp/tools_web.py:319-329 | the output counts its documents and there are at most `top_k` of them |
| ToolsWeb.ResultsNewestFirst | mcp/tools_web.py:315-322 | every returned document passed cleaning and the recency window, and they come newest first |
| ToolsWeb.AsWrittenAlwaysRaises | mcp/tools_web.py:111-303 | with the provider as written, every non-blank query ends in a NameError |
| ToolsWebSerper.AddDateFilter | mcp/tools_web_serper.py:81-89 | a query containing "after:" is kept; any other gets " after:" and the cutoff date appended |
| ToolsWebSerper.AddDateFilterMarks | mcp/tools_web_serper.py:81-89 | the filtered query always contains "after:" and starts with the query |
| ToolsWebSerper.AddDateFilterIdempotent | mcp/tools_web_serper.py:85-86 | filtering twice is filtering once, whatever the second window |
| ToolsWebSerper.GatherDocs | mcp/tools_web_serper.py:287-297 | the first search, and the fallback merged after it when deep search is on and it was short, step by step, as specified |
| ToolsWebSerper.WebSearch | mcp/tools_web_serper.py:262-304 | the method computes exactly the specified search |
| ToolsWebSerper.EmptyQueryFails | mcp/tools_web_serper.py:277-278 | success exactly for a non-blank query; a blank one has no documents, count 0, no retry and no fallback |
| ToolsWebSerper.FallbackIffShort | mcp/tools_web_serper.py:290-297 | the fallback runs exactly when deep search is on and the first search gave fewer than `top_k` documents; the retry count is 1 then and 0 otherwise |
| ToolsWebSerper.NoDeepSearchNoFallback | mcp/tools_web_serper.py:287-302 | with deep search off there is one search, whose documents feed the shared tail |
| ToolsWebSerper.CountBounded | mcp/tools_web_serper.py:301-311 | the output counts its documents and there are at most `top_k` of them |
| ToolsWebSerper.QueryUsedFiltered | mcp/tools_web_serper.py:272-314 | for a non-blank query the reported query is the stripped input and the query used carries a date filter |
| ToolsWebSerper.ResultsByScoreThenDate | mcp/tools_web_serper.py:299-304 | every returned document passed cleaning and the recency window, and they come by score, highest first, then newest first |
| ToolsWebSerper.ScoreThenDate | mcp/tools_web_serper.py:256-259 | the final order is score descending, then date descending |
| WebAugment.Norm | my_agent/nodes/web_augment.py:16-17 | a falsy value normalises to "", and the result never has leading or trailing whitespace |
| WebAugment.BuildQuery | my_agent/nodes/web_augment.py:20-36 | the search query is never empty |
| WebAugment.JoinEndsWith | my_agent/nodes/web_augment.py:33 | joining parts ends with the last part |
| WebAugment.StripKeepsSuffix | my_agent/nodes/web_augment.py:33 | stripping keeps a non-empty, stripped suffix |
| WebAugment.KeywordLineShape | my_agent/nodes/web_augment.py:9-30 | the keyword line is stripped, and non-empty exactly for GENERAL, SNS, ISSUE and REVISIT |
| WebAugment.JoinedEndsWithLast | my_agent/nodes/web_augment.py:26-33 | the joined truthy parts end with the last part when it is non-empty |
| WebAugment.JoinedNonEmpty | my_agent/nodes/web_augment.py:33 | one non-empty part makes the joined query non-empty |
| WebAugment.KnownIntentUsesKeywords | my_agent/nodes/web_augment.py:21-36 | for the four keyword intents the store-based query is used, and it ends with the intent's keywords |
| WebAugment.PartsTrimmed | my_agent/nodes/web_augment.py:26-31 | every query part is stripped |
| WebAugment.FallbackOnlyWithoutParts | my_agent/nodes/web_augment.py:33-36 | the user question, or the default query when it is blank, is used only when every store part is empty |
| WebAugment.SnippetOf | my_agent/nodes/web_augment.py:73-81 | a snippet entry holds exactly the normalised title and URL and the normalised snippet cut to 250 characters |
| WebAugment.SnippetEntry | my_agent/nodes/web_augment.py:77-81 | the entry holds exactly the three given fields |
| WebAugment.UsableShaped | my_agent/nodes/web_augment.py:76-81 | a document with title, URL and snippet gives an entry with three non-empty texts and a snippet of at most 250 characters |
| WebAugment.SnippetsShape | my_agent/nodes/web_augment.py:71-81 | there are no more entries than documents, every entry is well shaped, and every usable document's entry is there |
| WebAugment.Meta | my_agent/nodes/web_augment.py:84-88 | the meta record holds the normalised provider, the number of kept snippets and the query |
| WebAugment.ResponseEffect | my_agent/nodes/web_augment.py:66-88 | the response never raises, and the state is updated exactly when there is a response whose success is truthy |
| WebAugment.CleanSnippets | my_agent/nodes/web_augment.py:71-81 | the loop builds exactly the specified entries |
| WebAugment.Store | my_agent/nodes/web_augment.py:66-88 | on a successful response the snippets and meta are set, otherwise both are left as they were |
| WebAugment.Call | my_agent/nodes/web_augment.py:46-91 | the node raises exactly when the tool call raises; otherwise the state changes only as the specified effect says |
| WebAugment.SkippedLeavesState | my_agent/nodes/web_augment.py:47-52 | an intent not configured, without a fallback request, leaves the state unchanged |
| WebAugment.MetaCountsSnippets | my_agent/nodes/web_augment.py:83-88 | after an update the meta count is the number of snippets and its query is the non-empty built query |
| WebAugment.RunningNodeRaisesAsWired | my_agent/nodes/web_augment.py:57-63 | whenever the node runs, the dispatch's "not found" error is raised, since `web_search` is not among the tools the client dispatches |
| WebAugmentUtils.PhraseTrimmed | my_agent/utils/nodes/web_augment.py:22 | the review phrase is non-empty and stripped |
| WebAugmentUtils.Or | my_agent/utils/nodes/web_augment.py:21 | Python `a or b`: a when truthy, otherwise b |
| WebAugmentUtils.TextsSpec | my_agent/utils/nodes/web_augment.py:24 | `" ".join` fails exactly when a part is not a string; otherwise it joins the parts' texts in order |
| WebAugmentUtils.TextsOne | my_agent/utils/nodes/web_augment.py:24 | a single string part joins to itself |
| WebAugmentUtils.JoinedEndsWithLast | my_agent/utils/nodes/web_augment.py:20-24 | the joined query ends with its last, non-empty stripped part |
| WebAugmentUtils.QueryEndsWithPhrase | my_agent/utils/nodes/web_augment.py:19-24 | a built query is the joined card parts, non-empty, ending with the review phrase; the user question is never reached |
| WebAugmentUtils.NonTextPartRaises | my_agent/utils/nodes/web_augment.py:24 | a truthy card part that is not a string makes the join raise |
| WebAugmentUtils.BareCardQuery | my_agent/utils/nodes/web_augment.py:20-24 | a card without name, district and industry gives the review phrase alone |
| WebAugmentUtils.SnippetOf | my_agent/utils/nodes/web_augment.py:36-42 | a snippet entry copies the five fields, each "" when the document lacks it |
| WebAugmentUtils.Snippets | my_agent/utils/nodes/web_augment.py:35-42 | one entry per document, in order, each copying its document's five fields |
| WebAugmentUtils.Meta | my_agent/utils/nodes/web_augment.py:43-47 | the meta record copies provider and count from the response, defaulting to "" and 0, and holds the query |
| WebAugmentUtils.ResponseEffect | my_agent/utils/nodes/web_augment.py:32-47 | the response never raises, and the state is updated exactly when success is truthy |
| WebAugmentUtils.Store | my_agent/utils/nodes/web_augment.py:32-47 | on success the snippets and meta are set, otherwise both are left as they were |
| WebAugmentUtils.Search | my_agent/utils/nodes/web_augment.py:25-47 | the search step raises exactly when the tool call raises, and otherwise changes the state only as specified |
| WebAugmentUtils.Call | my_agent/utils/nodes/web_augment.py:13-48 | the node raises exactly when the specified effect raises; otherwise the state changes only as that effect says |
| WebAugmentUtils.DefaultRunsIff | my_agent/utils/nodes/web_augment.py:8-17 | with the defaults the node runs exactly for SNS, ISSUE or a fallback request |
| WebAugmentUtils.ResponseStoresCopies | my_agent/utils/nodes/web_augment.py:32-47 | a falsy success changes nothing; an update keeps one snippet per document and copies the reported count |
| WebAugmentUtils.CountNotRecomputed | my_agent/utils/nodes/web_augment.py:45 | the stored count is the response's, even when it disagrees with the documents |
| WebAugmentUtils.RunningNodeRaisesAsWired | my_agent/utils/nodes/web_augment.py:28-31 | whenever the node runs with a card, the dispatch's "not found" error is raised |
| PromptBuilder.SafeFloat | my_agent/utils/prompt_builder.py:13-18 | None gives the default; a value `float()` accepts gives that float; one it rejects gives the default |
| PromptBuilder.DemoValue | my_agent/utils/prompt_builder.py:37-38 | a missing or falsy share reads as 0.0; a truthy one goes through `safe_float` |
| PromptBuilder.DemoItems | my_agent/utils/prompt_builder.py:23-38 | ten (label, share) pairs in declaration order, one per demographic key |
| PromptBuilder.TopDemographics | my_agent/utils/prompt_builder.py:39-40 | exactly three demographics are returned |
| PromptBuilder.ExtractTopDemographics | my_agent/utils/prompt_builder.py:21-40 | the loop and sort compute exactly the specified top three |
| PromptBuilder.TopAreDemoItems | my_agent/utils/prompt_builder.py:39-40 | every returned pair is one of the card's ten pairs |
| PromptBuilder.InsertAgrees | my_agent/utils/prompt_builder.py:39 | with finite shares, inserting by Python's float comparison agrees with inserting by real order |
| PromptBuilder.SortAgrees | my_agent/utils/prompt_builder.py:39 | with finite shares, the sort by Python's comparison is the sort by real order, and stays finite |
| PromptBuilder.TopNonIncreasing | my_agent/utils/prompt_builder.py:39-40 | with finite shares the three come largest share first |
| PromptBuilder.RealDescOrder | my_agent/utils/prompt_builder.py:39 | descending order on finite shares is total and transitive |
| PromptBuilder.LabelsDistinct | my_agent/utils/prompt_builder.py:23-34 | the ten labels are distinct |
| PromptBuilder.LabelIndex | my_agent/utils/prompt_builder.py:23-34 | the position of a label among the keys, at or after k |
| PromptBuilder.LabelIndexFrom | my_agent/utils/prompt_builder.py:23-34 | each label is found at its own declaration position |
| PromptBuilder.DemoItemsInOrder | my_agent/utils/prompt_builder.py:35-38 | the dictionary's items come in declaration order |
| PromptBuilder.SortedDemos | my_agent/utils/prompt_builder.py:39-40 | with finite shares the sorted items are ordered by share, ties keep declaration order, and the top three are its first three |
| PromptBuilder.TopTiesInDeclarationOrder | my_agent/utils/prompt_builder.py:39 | the stable sort keeps tied shares in declaration order |
| PromptBuilder.TopAreLargest | my_agent/utils/prompt_builder.py:39-40 | with finite shares no left-out demographic has a larger share than the third, and a tie with it comes later in declaration order |
| PromptBuilder.SignalLine | my_agent/utils/prompt_builder.py:73-78 | a known signal gets its description, an unknown one is kept verbatim |
| PromptBuilder.SignalLines | my_agent/utils/prompt_builder.py:78 | one line per signal, in order |
| PromptBuilder.BuildSignalsContext | my_agent/utils/prompt_builder.py:69-79 | "" exactly when there are no signals; otherwise the header followed by the lines joined by newlines |
| PromptBuilder.Slots4Carry | my_agent/utils/prompt_builder.py:92-106 | a filled four-slot template contains every slot's text and starts with its head |
| PromptBuilder.PromptText | my_agent/utils/prompt_builder.py:92-106 | the prompt contains the base context, the signals, the question and the instruction, and starts with the greeting |
| PromptBuilder.BaseContextRaisesOn | my_agent/utils/prompt_builder.py:44-65 | `build_base_context` raises (TypeError or ValueError inside `format_percentage`) exactly when one of repeat_rate, delivery_share, new_rate, residential_share and floating_share is present and not a number; a missing field reads as 0 |
| PromptBuilder.BuildBaseContext | my_agent/utils/prompt_builder.py:44-65 | where it does not raise, the stripped base context keeps the month header and the repeat-rate, delivery-share and new-customer lines, each value through `format_percentage` |
| PromptBuilder.BuildFullPrompt | my_agent/utils/prompt_builder.py:82-106 | raises exactly when `build_base_context` does; otherwise the full prompt contains the question, the instruction, the signals context and the base context, and starts with the greeting |
| Postprocess.SafeStr | my_agent/utils/postprocess.py:12-14 | None gives "", a string is kept |
| Postprocess.FormatYyyymm | my_agent/utils/postprocess.py:17-22 | a label exactly when the text has at least six characters whose first four and next two are digits; then it is "YYYY년 MM월" from those digits |
| Postprocess.LStripControl | my_agent/utils/postprocess.py:32 | urlparse's leading strip keeps a suffix of the text starting after every control character or space |
| Postprocess.RemoveUnsafe | my_agent/utils/postprocess.py:32 | urlparse's removal of tabs and line breaks leaves none |
| Postprocess.AfterScheme | my_agent/utils/postprocess.py:32 | what follows the scheme is a suffix of the URL |
| Postprocess.NetlocEnd | my_agent/utils/postprocess.py:32 | the network location ends at the first '/', '?' or '#' |
| Postprocess.Netloc | my_agent/utils/postprocess.py:32-57 | the network location holds no '/', '?' or '#' |
| Postprocess.DedupAt | my_agent/utils/postprocess.py:29-39 | one step of the dedup: a seen key is skipped, the entry that reaches the limit ends it, any other is kept |
| Postprocess.DedupSkip | my_agent/utils/postprocess.py:34-35 | skipping a seen key keeps the loop invariant |
| Postprocess.DedupStop | my_agent/utils/postprocess.py:37-39 | reaching the limit completes the result |
| Postprocess.DedupKeep | my_agent/utils/postprocess.py:36-37 | keeping a new key keeps the loop invariant |
| Postprocess.DedupBy | my_agent/utils/postprocess.py:25-40 | the loop computes exactly the specified dedup |
| Postprocess.DedupSources | my_agent/utils/postprocess.py:25-40 | `_dedup_sources` keeps exactly the specified entries, keyed by lower-cased title and domain |
| Postprocess.DedupSubseq | my_agent/utils/postprocess.py:29-39 | the kept entries are in input order |
| Postprocess.DedupBounded | my_agent/utils/postprocess.py:38-39 | at most `limit` entries are kept, and one at most when the limit is already reached |
| Postprocess.DedupDistinct | my_agent/utils/postprocess.py:33-36 | kept keys are distinct and none was seen before |
| Postprocess.DedupComplete | my_agent/utils/postprocess.py:29-39 | when the limit is not reached, every input's key is among the kept keys |
| Postprocess.DedupNonEmpty | my_agent/utils/postprocess.py:29-37 | a non-empty input keeps its first entry |
| Postprocess.MetaLines | my_agent/utils/postprocess.py:49-53 | at most one search line, and none without a non-empty meta dict |
| Postprocess.StartsWithExtend | my_agent/utils/postprocess.py:59-63 | appending keeps a prefix |
| Postprocess.HeadLineStarts | my_agent/utils/postprocess.py:59-63 | each source head starts with "- " |
| Postprocess.SourceLinesShape | my_agent/utils/postprocess.py:55-68 | each source gives a head starting "- " and, with a snippet, a second line of the mark and at most 220 characters |
| Postprocess.SnippetLineShape | my_agent/utils/postprocess.py:65-68 | the snippet line starts with the mark and holds at most 220 more characters |
| Postprocess.BuildHead | my_agent/utils/postprocess.py:59-63 | the head is built as specified |
| Postprocess.SourceEntry | my_agent/utils/postprocess.py:55-68 | the lines of one source are built as specified |
| Postprocess.SourceListing | my_agent/utils/postprocess.py:48-68 | the listing is the header, the search line if any, then each kept source's lines in order |
| Postprocess.BuildSourcesBlock | my_agent/utils/postprocess.py:43-69 | `_build_sources_block` computes exactly the specified block |
| Postprocess.SourcesBlockShape | my_agent/utils/postprocess.py:43-69 | the block is "" exactly when there are no snippets; otherwise it starts with the header and lists one to three sources |
| Postprocess.CapRunsCapped | my_agent/utils/postprocess.py:74-76 | replacing long runs leaves no run of the character longer than the cap |
| Postprocess.CapRunsFixpoint | my_agent/utils/postprocess.py:74-76 | text whose runs are within the cap is left unchanged |
| Postprocess.RunsAtMostMono | my_agent/utils/postprocess.py:74-76 | a bound on runs after a shorter run still holds |
| Postprocess.RunsAtMostPrefix | my_agent/utils/postprocess.py:75 | a prefix keeps the bound on runs |
| Postprocess.RunsAtMostSuffix | my_agent/utils/postprocess.py:75 | a suffix keeps the bound on runs |
| Postprocess.RunsAtMostStrip | my_agent/utils/postprocess.py:75 | stripping keeps the bound on runs |
| Postprocess.CapRunsOther | my_agent/utils/postprocess.py:76 | capping '#' runs keeps the bound on newline runs |
| Postprocess.CapRunsEmpty | my_agent/utils/postprocess.py:74 | the capped text is empty only when the text was all that character |
| Postprocess.CapRunsLast | my_agent/utils/postprocess.py:76 | capping keeps the last character |
| Postprocess.CapRunsTrimmed | my_agent/utils/postprocess.py:75-76 | capping a non-space character keeps stripped text stripped |
| Postprocess.CleanResponseShape | my_agent/utils/postprocess.py:72-77 | the cleaned text has no more than two newlines and three '#' in a row, and no leading or trailing whitespace |
| Postprocess.CleanResponseIdempotent | my_agent/utils/postprocess.py:72-77 | cleaning twice is cleaning once |
| Postprocess.AddProxyBadge | my_agent/utils/postprocess.py:80-84 | a truthy flag puts the badge before the text, otherwise the text is unchanged |
| Postprocess.AddDataQualityBadge | my_agent/utils/postprocess.py:87-92 | without a date label the text is unchanged; with one the text is extended and ends with the label |
| Postprocess.AddDisclaimer | my_agent/utils/postprocess.py:95-104 | the text followed by exactly the disclaimer |
| Postprocess.Action | my_agent/utils/postprocess.py:123-131 | each action has exactly the seven keys, with its priority and category |
| Postprocess.GenerateActionSeed | my_agent/utils/postprocess.py:107-157 | the method computes exactly the specified actions |
| Postprocess.ActionSeedShape | my_agent/utils/postprocess.py:119-157 | one to five actions, numbered from 1 with all seven keys; the general action exactly when neither alert is present; retention first and channel last when present |
| Postprocess.PostprocessResponse | my_agent/utils/postprocess.py:160-196 | the text and actions are exactly the specified ones |
| Postprocess.ResponseTextShape | my_agent/utils/postprocess.py:182-191 | the text always ends with the disclaimer; the sources block sits before it exactly when there are snippets |
| SnsNode.SnipsOf | my_agent/utils/nodes/sns.py:12-22 | `state.get("web_snippets") or []`: no snippets when the key is missing or None, the list otherwise |
| SnsNode.BuildWebContext | my_agent/utils/nodes/sns.py:11-19 | the loop computes exactly the specified web context |
| SnsNode.WebLineStarts | my_agent/utils/nodes/sns.py:18 | each web-context row starts with "- " |
| SnsNode.WebContextShape | my_agent/utils/nodes/sns.py:11-19 | "N/A" exactly when no snippet is taken; otherwise one row per taken snippet joined by newlines; at most `limit` snippets, the first ones in order |
| SnsNode.NoWebContextIsNoRow | my_agent/utils/nodes/sns.py:19 | the "N/A" placeholder cannot be mistaken for a row |
| SnsNode.AppendSources | my_agent/utils/nodes/sns.py:21-34 | the loop computes exactly the specified text |
| SnsNode.AppendedSourcesShape | my_agent/utils/nodes/sns.py:21-34 | no snippets leaves the text unchanged; otherwise the text is a prefix and is followed by the header and one entry for each of at most `limit` snippets |
| SnsNode.EndsWithTail | my_agent/utils/nodes/sns.py:31 | a concatenation ends with its last two parts |
| SnsNode.SourceEntryUrl | my_agent/utils/nodes/sns.py:30-33 | an entry ends with " · " and the URL exactly when the URL is truthy; otherwise it is the title and source alone |
| SnsNode.ChannelHintsText | my_agent/utils/nodes/sns.py:87 | no hints gives "데이터 기반 추천" |
| SnsNode.JoinContainsPart | my_agent/utils/nodes/sns.py:87 | a join contains each of its parts |
| SnsNode.ChannelHintsListed | my_agent/utils/nodes/sns.py:87 | every hint appears in the channel slot |
| SnsNode.SlotsCarry | my_agent/utils/nodes/sns.py:36-88 | a filled template contains the web context, the hints, and the persona between its headings |
| SnsNode.SnsPromptCarries | my_agent/utils/nodes/sns.py:36-88 | the prompt contains the web context, the channel hints and the persona under its heading |
| SnsNode.PersonaText | my_agent/utils/nodes/sns.py:75-86 | a persona renders as itself, and None renders as "None" |
| SnsNode.NonePersonaRendered | my_agent/utils/nodes/sns.py:75-88 | a persona stored as None puts "None" under the persona heading |
| SnsNode.RawAnswerFallbacks | my_agent/utils/nodes/sns.py:90-97 | without a model the demo text; a raising call gives "LLM 호출 실패: " and the error; a reply gives its content |
| SnsNode.FinalTextShape | my_agent/utils/nodes/sns.py:101-105 | the final text is the post-processed text and, when there are snippets, the sources list appended again after the disclaimer |
| SnsNode.FinalTextNoSources | my_agent/utils/nodes/sns.py:101-105 | without snippets: the cleaned, badged text and the disclaimer |
| SnsNode.FinalTextWithSources | my_agent/utils/nodes/sns.py:101-105 | with snippets: the text, the sources block, the disclaimer, then the second sources list of at most three entries |
| SnsNode.BuildPrompt | my_agent/utils/nodes/sns.py:78-88 | the prompt is built as specified |
| SnsNode.Ask | my_agent/utils/nodes/sns.py:90-97 | the raw answer is the specified one |
| SnsNode.Finish | my_agent/utils/nodes/sns.py:101-105 | the final text and actions are the specified ones |
| SnsNode.Respond | my_agent/utils/nodes/sns.py:78-105 | the raw answer, final text and actions are the specified ones |
| SnsNode.Store | my_agent/utils/nodes/sns.py:99-107 | the raw answer, final text and actions are written |
| SnsNode.Call | my_agent/utils/nodes/sns.py:72-108 | the node raises exactly when the card is None or `build_base_context` raises on it (a percentage field that is not a number), then changing nothing; otherwise it always sets the raw answer, the final text and the actions to the specified values |

## Left out

- PartialHit (McpTools.PartialHit, McpTools.MatchTier): matches the cleaned query as a literal, ASCII-case-insensitive substring. mcp/tools.py:84 uses pandas `str.contains` with its default `regex=True` and `case=False`. So a query with regular-expression metacharacters matches differently there ("a.c" matches "abc"), an invalid pattern such as "카페(" raises `re.error` out of `search_merchant`, and case folding covers all of Unicode. The model covers queries without metacharacters.
- Float (Common.Float): has a finite real or NaN and no infinities. So `_safe_int(float("inf"))` in my_agent/metrics/general_metrics.py:34-41, which raises an uncaught OverflowError, is not represented, and neither is any other infinite value.
- ParseFloat (Common.ParseFloat): accepts surrounding whitespace, an optional sign, and a plain decimal or "nan". Python's `float()` also accepts exponent forms ("1e3"), "inf" and digit underscores, which the model rejects. So `safe_float("1e3")` gives the default in the model and 1000.0 in Python.
- LowerChar, UpperChar, IsDigit (Common): ASCII only. Python's `str.lower`, `str.upper` and `str.isdigit` are Unicode-aware. This affects the router's lowercasing, the source de-duplication keys in postprocess.py and `_format_yyyymm`'s digit test (full-width digits pass `isdigit` in Python).
- IsSpace (Common.IsSpace): ASCII whitespace plus a few Unicode spaces, not every character Python's `str.strip` and `\s` treat as whitespace.
- Str (Common.Str): renders None, booleans, integers, strings, NaN, integral floats and short decimals as Python's `str()` does. Any other float renders as a fixed placeholder instead of Python's shortest repr (for example "1e-05").
- ToMonthRobust (Dashboard.ToMonthRobust): accepts year 0 and any other 4-digit year on the digit path. `pd.Timestamp(0, m, 1)` raises there, and pandas bounds years to 1677-2262. Input without a digit-path month ends in a `ToDatetime` outcome. The pandas date parser that `to_month_robust` then calls is not modelled.
- SortedTail (Dashboard.SortedTail, Dashboard.LastByDt): `sort_values("dt")` uses pandas' default quicksort, which is not stable. The model sorts stably, so among rows with equal dt it keeps input order, which pandas does not promise.
- TopNonIncreasing (PromptBuilder.TopNonIncreasing): proved only when every share is finite. With a NaN share Python's `sorted` compares inconsistently, and the model, which uses the same comparison, makes no ordering claim.
- TopTiesInDeclarationOrder (PromptBuilder.TopTiesInDeclarationOrder): proved only when every share is finite, for the same reason.
- TopAreLargest (PromptBuilder.TopAreLargest): proved only when every share is finite, for the same reason.
- The metric builders in my_agent/metrics/ cannot be imported as written. main, sns, strategy, general, issue, revisit, cooperation and season import `load_store_and_area_data`, and season also imports `get_weather_forecast_data`. my_agent/utils/tools.py defines neither. The records and weather rows those loaders would return are parameters of each builder.
- The web search modules cannot be imported as written. mcp/tools_web.py:10-14 and mcp/tools_web_serper.py:11-17 import TAVILY_API_KEY, SERPER_API_KEY, SEARCH_TIMEOUT, DEFAULT_TOPK and DEFAULT_RECENCY_DAYS, which config.py does not define (Config.SearchSettingsUndefined states this). The settings are parameters.
- `_tavily_search` (mcp/tools_web.py:111-156): its HTTP request and response parsing are not modelled. The provider is a parameter that returns documents or raises. As written it reads the undefined `TABILI_API_KEY` first (ToolsWeb.TavilySearchAsWritten). It also returns a 2-tuple at line 113, where line 303 unpacks three values. That second mismatch is not modelled.
- `_serper_search` (mcp/tools_web_serper.py:122-162): its HTTP request and response parsing are not modelled. The provider is a parameter.
- Reranker scores: TF-IDF cosine, SBERT and cross-encoder scores, and GPU detection, are parameters. Only the fallback choice and the sort by score are modelled.
- `_to_ts`: the date-string parser (strptime and RFC 5322 section 3.3 dates) is a parameter giving a timestamp, with 0 for unknown. "now" and the cutoff are parameters.
- Clip (WebCommon.Clip): the clipped text can end with a space when the cut falls just after one. `_clip` behaves the same way, and the contract makes no claim about trailing spaces.
- Netloc (Postprocess.Netloc): covers the network-location split of `urlparse` (scheme, "//", and up to the first '/', '?' or '#'). It does not cover URL validation or the errors `urlparse` raises on malformed IPv6 brackets.
- Number rendering: `np.std`'s square root, the text `format_percentage` and `fmt_pct` produce for a number, and the `:.1f` formats are parameters or are left uninterpreted. When `format_percentage` raises is modelled (PromptBuilder.PercentFormats). The anomaly messages of the ISSUE and REVISIT builders keep the values they report rather than their formatted text.
- Round2 (CooperationMetrics.Round2, CooperationMetrics.RoundHalfEven): `round(x, 2)` is modelled as round-half-even on the exact real value. Python rounds the nearest binary double, so at a decimal tie that is not exactly representable the two can differ by 0.01 (Python's `round(2.675, 2)` is 2.67).
- Value (Common.Value): an object that is neither None, bool, int, float nor str is a single `VObj` without length or contents. So where the source tests `len(name)` before a keyword test, a truthy collection short enough to skip the name test is not represented. RelevanceCheck.CheckBaseRelevance and AgentTools.CheckBaseRelevance raise TypeError for every truthy non-text name, while Python lets a collection of length at most 1 (relevance_check.py:15) or at most 3 (my_agent/utils/tools.py:77) through to the keyword test.
- AbnormalPeerFlags (IssueMetrics.AbnormalPeerFlags, IssueMetrics.BuildIssueMetrics): the anomaly dict is a `map`, so the insertion order Python keeps in the returned dict (rule flags first, then peer flags in feature order) is not represented. Which keys are present and their values are.
- Debug `print` calls, timing and the `execution_time` fields are not modelled.
- `clean_response(None)`: the model takes a string. The `response or ""` guard only matters for None.
- Common.DigitsValue: reads ASCII digit strings only, as used by the month and bin parsers.
- The model-wrapping generator nodes: my_agent/nodes/general.py, season.py and cooperation.py, and my_agent/utils/nodes/general.py, issue.py and revisit.py. They are prompt templates around the language model, and their import and name defects are not modelled. The placeholder nodes of my_agent/nodes/issue.py, revisit.py and sns.py are constant outputs in Agent.PlaceholderResponse.
- `create_graph`'s construction of the LangGraph objects is not modelled. Only its edges (Agent.Next) and its two construction failures (Agent.CreateGraph) are.
- The user interface and I/O are not modelled: streamlit_app.py, time_series.py, the dashboard's plotly `build_*` figures, and `ensure_dt` and `load_all_data` CSV reading. Also scripts/build_duckdb.py, mcp/server.py, local_test.py and mcp/tools_weather.py.
- Chat history files: JSON reading and writing, `glob`, `list_chat_histories` and `export_all_histories` are not modelled. The store of thread files is a map in ChatHistory.HistoryStore.
- LangGraph's `add_messages` reducer is not modelled. Messages are kept as a plain sequence.
- `load_card_and_region_data` (my_agent/utils/tools.py:134-164) is not modelled. It calls the MCP tools whose logic McpTools models.
- The unused helpers of my_agent/utils/tools.py are not modelled: `safe_float`, `safe_int`, `validate_card_data`, `should_retry`, `check_forbidden_words`, `apply_rate_limit` and `check_forbidden_content`.
- `_load_franchise_df`'s global CSV cache is not modelled. The franchise table is an in-memory parameter, read as its `fillna("").astype(str)` leaves it.
- SeasonMetrics: `pd.to_datetime(df["fcstDateTime"])` is not modelled, since its result is never read afterwards. Its parse errors are not modelled either.
