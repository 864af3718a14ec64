/**
 * The Serper web search of mcp/tools_web_serper.py: the `after:` date filter
 * and the control flow of `web_search`. The shared steps (merge, cleaning,
 * recency, rerank, final order) are in WebCommon. As written the module does
 * not load: it imports SERPER_API_KEY, SEARCH_TIMEOUT, DEFAULT_TOPK and
 * DEFAULT_RECENCY_DAYS, which config.py does not define
 * (Config.SearchSettingsUndefined). What follows models the module's
 * functions themselves, with the settings, the provider and the clock as
 * parameters.
 */
module ToolsWebSerper {
  import opened Common
  import opened Seqs
  import opened WebCommon
  import Llm

  /** The middle dot of this file's rewrite prompt. */
  const Dot: string := "·"

  /** What the fallback search appends to the original query before rewriting it. */
  const FallbackSuffix: string := " 매출 회복 사례 고객 유입 전략 소상공인"

  /** `_serper_search(q, top_k)`: it catches every error itself and then gives no documents. */
  type Provider = (string, int) -> seq<Doc>

  /** `(datetime.now() - timedelta(days)).strftime("%Y-%m-%d")`, read from the clock. */
  type DateOf = int -> string

  // ---------------------------------------------------------------------
  // _add_date_filter

  /** `_add_date_filter`: a query that already has "after:" is kept, any other gets " after:<cutoff>". */
  function AddDateFilter(query: string, days: int, dateOf: DateOf): (r: string)
    ensures Contains(query, "after:") ==> r == query
    ensures !Contains(query, "after:") ==> r == query + " after:" + dateOf(days)
  {
    if Contains(query, "after:") then query else query + " after:" + dateOf(days)
  }

  /** The filtered query always carries "after:", and starts with the query it was given. */
  lemma AddDateFilterMarks(query: string, days: int, dateOf: DateOf)
    ensures Contains(AddDateFilter(query, days, dateOf), "after:")
    ensures StartsWith(AddDateFilter(query, days, dateOf), query)
  {
    if !Contains(query, "after:") {
      var cut := dateOf(days);
      assert query + " after:" + cut == query + " " + "after:" + cut;
      ContainsInfix(query + " ", "after:", cut);
      assert (query + " after:" + cut)[..|query|] == query;
    }
  }

  /** Filtering twice is filtering once, whatever the second window. */
  lemma AddDateFilterIdempotent(query: string, days: int, days2: int, dateOf: DateOf)
    ensures AddDateFilter(AddDateFilter(query, days, dateOf), days2, dateOf) == AddDateFilter(query, days, dateOf)
  {
    AddDateFilterMarks(query, days, dateOf);
  }

  // ---------------------------------------------------------------------
  // web_search

  /** The query the first search uses: the rewrite when asked for, else the stripped input, then filtered. */
  function UsedQuery(original: string, rewrite: bool, recencyDays: int, invoke: string -> Llm.LlmReply,
                     dateOf: DateOf): string
  {
    AddDateFilter(if rewrite then RewriteQuery(original, Dot, invoke) else original, recencyDays, dateOf)
  }

  /** The fallback query: the original with a fixed suffix, always rewritten, filtered to a window 180 days wider. */
  function FallbackQuery(original: string, recencyDays: int, invoke: string -> Llm.LlmReply, dateOf: DateOf): string
  {
    AddDateFilter(RewriteQuery(original + FallbackSuffix, Dot, invoke), recencyDays + 180, dateOf)
  }

  /** Whether the fallback search runs: deep search is on and the first search gave fewer than `top_k` documents. */
  predicate NeedsFallback(deepSearch: bool, first: seq<Doc>, topK: int)
  {
    deepSearch && |first| < topK
  }

  /** The provider calls of `web_search`: the documents and whether the fallback ran. */
  function Gather(original: string, used: string, topK: int, recencyDays: int, deepSearch: bool,
                  invoke: string -> Llm.LlmReply, dateOf: DateOf, serper: Provider): (seq<Doc>, bool)
  {
    var first := serper(used, topK);
    if NeedsFallback(deepSearch, first, topK) then
      (DedupFrom(first + serper(FallbackQuery(original, recencyDays, invoke, dateOf), topK), {}), true)
    else (first, false)
  }

  /** The provider calls of `web_search`, step by step. */
  method GatherDocs(original: string, used: string, topK: int, recencyDays: int, deepSearch: bool,
                    invoke: string -> Llm.LlmReply, dateOf: DateOf, serper: Provider)
    returns (docs: seq<Doc>, fallbackUsed: bool)
    ensures (docs, fallbackUsed) == Gather(original, used, topK, recencyDays, deepSearch, invoke, dateOf, serper)
  {
    docs := serper(used, topK);
    fallbackUsed := false;
    if deepSearch && |docs| < topK {
      fallbackUsed := true;
      var fallbackQuery := RewriteQuery(original + FallbackSuffix, Dot, invoke);
      fallbackQuery := AddDateFilter(fallbackQuery, recencyDays + 180, dateOf);
      var docs2 := serper(fallbackQuery, topK);
      docs := MergeUnique(docs, docs2);
    }
  }

  /** `web_search`, specified. It never raises: the rewrite and the provider catch their own errors. */
  function WebSearchSpec(query: string, topK: int, recencyDays: int, deepSearch: bool, rewrite: bool,
                         rerank: string, invoke: string -> Llm.LlmReply, dateOf: DateOf, serper: Provider,
                         clock: Clock, env: RerankEnv): SearchOutput
  {
    var original := Strip(query);
    if original == [] then BuildOutput(false, "serper", [], original, original, 0, false)
    else
      var used := UsedQuery(original, rewrite, recencyDays, invoke, dateOf);
      var gathered := Gather(original, used, topK, recencyDays, deepSearch, invoke, dateOf, serper);
      var docs := Finish(Serper, gathered.0, used, topK, recencyDays, rerank, clock, env);
      BuildOutput(true, "serper", docs, original, used, if gathered.1 then 1 else 0, gathered.1)
  }

  /** `web_search`: strip, rewrite, add the date filter, search, fall back when short, then the shared tail. */
  method WebSearch(query: string, topK: int, recencyDays: int, deepSearch: bool, rewrite: bool,
                   rerank: string, invoke: string -> Llm.LlmReply, dateOf: DateOf, serper: Provider,
                   clock: Clock, env: RerankEnv)
    returns (out: SearchOutput)
    ensures out == WebSearchSpec(query, topK, recencyDays, deepSearch, rewrite, rerank, invoke, dateOf, serper, clock, env)
  {
    var original := Strip(query);
    var used := original;
    if original == [] {
      return BuildOutput(false, "serper", [], original, used, 0, false);
    }
    if rewrite {
      used := RewriteQuery(original, Dot, invoke);
    }
    used := AddDateFilter(used, recencyDays, dateOf);
    assert used == UsedQuery(original, rewrite, recencyDays, invoke, dateOf);
    var docs, fallbackUsed := GatherDocs(original, used, topK, recencyDays, deepSearch, invoke, dateOf, serper);
    var retryCount := if fallbackUsed then 1 else 0;
    var results := FinishSteps(Serper, docs, used, topK, recencyDays, rerank, clock, env);
    out := BuildOutput(true, "serper", results, original, used, retryCount, fallbackUsed);
  }

  /** An empty or blank query fails at once, with no documents and no search. */
  lemma EmptyQueryFails(query: string, topK: int, recencyDays: int, deepSearch: bool, rewrite: bool,
                        rerank: string, invoke: string -> Llm.LlmReply, dateOf: DateOf, serper: Provider,
                        clock: Clock, env: RerankEnv)
    ensures var r := WebSearchSpec(query, topK, recencyDays, deepSearch, rewrite, rerank, invoke, dateOf, serper, clock, env);
      r.success <==> Strip(query) != []
    ensures var r := WebSearchSpec(query, topK, recencyDays, deepSearch, rewrite, rerank, invoke, dateOf, serper, clock, env);
      Strip(query) == [] ==> r.docs == [] && r.count == 0 && r.retryCount == 0 && !r.fallbackUsed
  {
  }

  /**
   * The fallback search runs exactly when deep search is on and the first
   * search gave fewer than `top_k` documents; the retry count is 1 then and 0 otherwise.
   */
  lemma FallbackIffShort(query: string, topK: int, recencyDays: int, deepSearch: bool, rewrite: bool,
                         rerank: string, invoke: string -> Llm.LlmReply, dateOf: DateOf, serper: Provider,
                         clock: Clock, env: RerankEnv)
    requires Strip(query) != []
    ensures var r := WebSearchSpec(query, topK, recencyDays, deepSearch, rewrite, rerank, invoke, dateOf, serper, clock, env);
      var first := serper(UsedQuery(Strip(query), rewrite, recencyDays, invoke, dateOf), topK);
      && (r.fallbackUsed <==> NeedsFallback(deepSearch, first, topK))
      && r.retryCount == (if r.fallbackUsed then 1 else 0)
  {
  }

  /** With deep search off there is exactly one search, and its documents feed the tail. */
  lemma NoDeepSearchNoFallback(query: string, topK: int, recencyDays: int, rewrite: bool,
                               rerank: string, invoke: string -> Llm.LlmReply, dateOf: DateOf, serper: Provider,
                               clock: Clock, env: RerankEnv)
    requires Strip(query) != []
    ensures var r := WebSearchSpec(query, topK, recencyDays, false, rewrite, rerank, invoke, dateOf, serper, clock, env);
      var used := UsedQuery(Strip(query), rewrite, recencyDays, invoke, dateOf);
      r.docs == Finish(Serper, serper(used, topK), used, topK, recencyDays, rerank, clock, env)
      && r.retryCount == 0 && !r.fallbackUsed
  {
  }

  /** The output counts its documents, and there are at most `top_k` of them. */
  lemma CountBounded(query: string, topK: int, recencyDays: int, deepSearch: bool, rewrite: bool,
                     rerank: string, invoke: string -> Llm.LlmReply, dateOf: DateOf, serper: Provider,
                     clock: Clock, env: RerankEnv)
    ensures var r := WebSearchSpec(query, topK, recencyDays, deepSearch, rewrite, rerank, invoke, dateOf, serper, clock, env);
      r.count == |r.docs| && (topK >= 0 ==> r.count <= topK)
  {
  }

  /** The query the search reports for a non-blank input always carries a date filter. */
  lemma QueryUsedFiltered(query: string, topK: int, recencyDays: int, deepSearch: bool, rewrite: bool,
                          rerank: string, invoke: string -> Llm.LlmReply, dateOf: DateOf, serper: Provider,
                          clock: Clock, env: RerankEnv)
    requires Strip(query) != []
    ensures var r := WebSearchSpec(query, topK, recencyDays, deepSearch, rewrite, rerank, invoke, dateOf, serper, clock, env);
      Contains(r.queryUsed, "after:") && r.query == Strip(query)
  {
    var original := Strip(query);
    AddDateFilterMarks(if rewrite then RewriteQuery(original, Dot, invoke) else original, recencyDays, dateOf);
  }

  /**
   * Every returned document passed cleaning and the recency window, and the
   * documents come by score, highest first, then newest first.
   */
  lemma ResultsByScoreThenDate(query: string, topK: int, recencyDays: int, deepSearch: bool, rewrite: bool,
                               rerank: string, invoke: string -> Llm.LlmReply, dateOf: DateOf, serper: Provider,
                               clock: Clock, env: RerankEnv)
    requires OneScorePerDoc(env.cosine) && OneScorePerDoc(env.sbert) && OneScorePerDoc(env.cross)
    ensures var r := WebSearchSpec(query, topK, recencyDays, deepSearch, rewrite, rerank, invoke, dateOf, serper, clock, env);
      && (forall x :: x in r.docs ==> Survivor(x, Serper, recencyDays, clock))
      && (forall i, j :: 0 <= i < j < |r.docs| ==>
            r.docs[j].score < r.docs[i].score
            || (r.docs[j].score == r.docs[i].score
                && clock.ts(r.docs[j].published) <= clock.ts(r.docs[i].published)))
  {
    var r := WebSearchSpec(query, topK, recencyDays, deepSearch, rewrite, rerank, invoke, dateOf, serper, clock, env);
    var original := Strip(query);
    if original != [] {
      var used := UsedQuery(original, rewrite, recencyDays, invoke, dateOf);
      var combined := Gather(original, used, topK, recencyDays, deepSearch, invoke, dateOf, serper).0;
      FinishSurvivors(Serper, combined, used, topK, recencyDays, rerank, clock, env);
      ScoreThenDate(r.docs, clock.ts);
    }
  }

  /** The final order of this variant: score, highest first, then newest first. */
  lemma ScoreThenDate(docs: seq<Doc>, ts: string -> real)
    requires Pairwise(docs, RecencyOrder(RankOf(Serper), ts))
    ensures forall i, j :: 0 <= i < j < |docs| ==>
      docs[j].score < docs[i].score || (docs[j].score == docs[i].score && ts(docs[j].published) <= ts(docs[i].published))
  {
    forall i, j | 0 <= i < j < |docs|
      ensures docs[j].score < docs[i].score || (docs[j].score == docs[i].score && ts(docs[j].published) <= ts(docs[i].published))
    {
      assert RecencyOrder(RankOf(Serper), ts)(docs[i], docs[j]);
    }
  }
}
