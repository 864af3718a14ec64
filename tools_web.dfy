/**
 * The Tavily web search of mcp/tools_web.py: `clean_raw_content` and the
 * control flow of `web_search`. The shared steps (merge, cleaning, recency,
 * rerank, final order) are in WebCommon. As written the module does not load:
 * it imports TAVILY_API_KEY, SEARCH_TIMEOUT, DEFAULT_TOPK and
 * DEFAULT_RECENCY_DAYS, which config.py does not define
 * (Config.SearchSettingsUndefined). What follows models the module's
 * functions themselves, with the settings, the provider and the clock as
 * parameters.
 */
module ToolsWeb {
  import opened Common
  import opened Seqs
  import opened WebCommon
  import Llm

  // ---------------------------------------------------------------------
  // clean_raw_content

  /** The first index at or after i holding c. */
  function FindChar(s: string, i: nat, c: char): (r: Option<nat>)
    requires i <= |s|
    ensures r.Some? ==> i <= r.value < |s| && s[r.value] == c
    ensures r.Some? ==> forall k :: i <= k < r.value ==> s[k] != c
    ensures r.None? ==> forall k :: i <= k < |s| ==> s[k] != c
    decreases |s| - i
  {
    if i == |s| then None
    else if s[i] == c then Some(i)
    else FindChar(s, i + 1, c)
  }

  /** `re.sub(r"<[^>]+>", " ", s)`: a '<', one or more characters other than '>', then '>'. */
  function ReplaceTags(s: string): (r: string)
    decreases |s|
  {
    if s == [] then []
    else if s[0] == '<' && |s| > 1 && s[1] != '>' && FindChar(s, 1, '>').Some? then
      " " + ReplaceTags(s[FindChar(s, 1, '>').value + 1..])
    else [s[0]] + ReplaceTags(s[1..])
  }

  /** The length of a leading "https://" or "http://", or 0. */
  function SchemeLength(s: string): (n: nat)
    ensures n == 0 || n == 7 || n == 8
    ensures n <= |s|
  {
    if |s| >= 8 && s[..8] == "https://" then 8
    else if |s| >= 7 && s[..7] == "http://" then 7
    else 0
  }

  /** The end of the run of non-whitespace characters starting at i. */
  function NonSpaceEnd(s: string, i: nat): (r: nat)
    requires i <= |s|
    ensures i <= r <= |s|
    ensures forall k :: i <= k < r ==> !IsSpace(s[k])
    ensures r == |s| || IsSpace(s[r])
    decreases |s| - i
  {
    if i == |s| || IsSpace(s[i]) then i else NonSpaceEnd(s, i + 1)
  }

  /** `re.sub(r"http[s]?://\S+", " ", s)`: the scheme and the whole following run of non-space characters. */
  function ReplaceUrls(s: string): (r: string)
    decreases |s|
  {
    if s == [] then []
    else
      var p := SchemeLength(s);
      if p > 0 && p < |s| && !IsSpace(s[p]) then " " + ReplaceUrls(s[NonSpaceEnd(s, p)..])
      else [s[0]] + ReplaceUrls(s[1..])
  }

  /**
   * Where a markdown link "[text](target)" that opens at `start` ends: the
   * first ']' after it must be followed by '(', and the link closes at the
   * first ')' after that.
   */
  function LinkEnd(s: string, start: nat): (r: Option<nat>)
    requires start < |s| && s[start] == '['
    ensures r.Some? ==> start < r.value <= |s|
  {
    match FindChar(s, start + 1, ']')
    case None => None
    case Some(j) =>
      if j + 1 < |s| && s[j + 1] == '(' then
        match FindChar(s, j + 2, ')')
        case None => None
        case Some(k) => Some(k + 1)
      else None
  }

  /** `re.sub(r"!\[[^\]]*\]\([^)]*\)", " ", s)`: image links. */
  function ReplaceImageLinks(s: string): (r: string)
    decreases |s|
  {
    if s == [] then []
    else if |s| > 1 && s[0] == '!' && s[1] == '[' && LinkEnd(s, 1).Some? then
      " " + ReplaceImageLinks(s[LinkEnd(s, 1).value..])
    else [s[0]] + ReplaceImageLinks(s[1..])
  }

  /** `re.sub(r"\[[^\]]*\]\([^)]*\)", " ", s)`: plain links. */
  function ReplaceLinks(s: string): (r: string)
    decreases |s|
  {
    if s == [] then []
    else if s[0] == '[' && LinkEnd(s, 0).Some? then " " + ReplaceLinks(s[LinkEnd(s, 0).value..])
    else [s[0]] + ReplaceLinks(s[1..])
  }

  /** The characters `[0-9가-힣a-zA-Z.,!?()\s]` keeps, whitespace aside. */
  predicate Kept(c: char)
  {
    ('0' <= c <= '9') || ('가' <= c <= '힣') || ('a' <= c <= 'z') || ('A' <= c <= 'Z')
    || c == '.' || c == ',' || c == '!' || c == '?' || c == '(' || c == ')'
  }

  /** `re.sub(r"[^0-9가-힣a-zA-Z.,!?()\s]", " ", s)`: every other character becomes a space. */
  function ReplaceOthers(s: string): (r: string)
    ensures |r| == |s|
    ensures forall i :: 0 <= i < |r| ==> (Kept(s[i]) || IsSpace(s[i]) ==> r[i] == s[i])
    ensures forall i :: 0 <= i < |r| ==> (!Kept(s[i]) && !IsSpace(s[i]) ==> r[i] == ' ')
  {
    seq(|s|, i requires 0 <= i < |s| => if Kept(s[i]) || IsSpace(s[i]) then s[i] else ' ')
  }

  /** `clean_raw_content`. */
  function CleanRawContent(text: string): string
  {
    if text == "" then ""
    else
      var t := ReplaceLinks(ReplaceImageLinks(ReplaceUrls(ReplaceTags(text))));
      Strip(CollapseSpaces(ReplaceOthers(t)))
  }

  /** Stripping keeps a property of every character. */
  lemma StripKeeps(s: string, p: char -> bool)
    requires forall i :: 0 <= i < |s| ==> p(s[i])
    ensures forall i :: 0 <= i < |Strip(s)| ==> p(Strip(s)[i])
  {
    var l := StripLeft(s);
    forall i | 0 <= i < |l|
      ensures p(l[i])
    {
      assert l[i] == s[|s| - |l| + i];
    }
    var r := StripRight(l);
    forall i | 0 <= i < |r|
      ensures p(r[i])
    {
      assert r[i] == l[i];
    }
    assert Strip(s) == r;
  }

  /** A character `clean_raw_content` may leave: a space or one the character class keeps. */
  predicate CleanChar(c: char)
  {
    c == ' ' || (!IsSpace(c) && Kept(c))
  }

  /** Collapsing and stripping text made of whitespace and kept characters. */
  lemma CollapseStripShape(o: string)
    requires forall i :: 0 <= i < |o| ==> IsSpace(o[i]) || Kept(o[i])
    ensures var r := Strip(CollapseSpaces(o));
      && (r == [] || (r[0] != ' ' && r[|r| - 1] != ' '))
      && SingleSpaced(r)
      && (forall i :: 0 <= i < |r| ==> CleanChar(r[i]))
  {
    var c := CollapseSpaces(o);
    CollapseSpacesKeeps(o, Kept);
    assert OnlySpacesAnd(c, Kept);
    assert forall i :: 0 <= i < |c| ==> CleanChar(c[i]);
    StripKeeps(c, CleanChar);
    CollapseSpacesSingle(o);
    StripSingleSpaced(c);
  }

  /**
   * The cleaned text is empty for empty input; otherwise it has no leading or
   * trailing space, no two spaces in a row, no other whitespace, and only
   * digits, Hangul syllables, ASCII letters, ".,!?()" and spaces.
   */
  lemma CleanRawContentShape(text: string)
    ensures var r := CleanRawContent(text);
      && (text == "" ==> r == "")
      && (r == [] || (r[0] != ' ' && r[|r| - 1] != ' '))
      && SingleSpaced(r)
      && (forall i :: 0 <= i < |r| ==> CleanChar(r[i]))
  {
    if text != "" {
      var t := ReplaceLinks(ReplaceImageLinks(ReplaceUrls(ReplaceTags(text))));
      CollapseStripShape(ReplaceOthers(t));
    }
  }

  // ---------------------------------------------------------------------
  // web_search

  /** The middle dot of this file's rewrite prompt. */
  const Dot: string := "・"

  /** What one `_tavily_search` call gives back: documents, or an exception that escapes. */
  datatype ProviderResult = Found(docs: seq<Doc>) | ProviderRaised(error: string)

  /** `_tavily_search(q, max_results, time_range)`. */
  type Provider = (string, int, string) -> ProviderResult

  /**
   * `_tavily_search` as written: its first statement reads `TABILI_API_KEY`,
   * a name the module never defines, before the `try`, so every call raises NameError.
   */
  function TavilySearchAsWritten(q: string, maxResults: int, timeRange: string): (r: ProviderResult)
    ensures r.ProviderRaised?
  {
    ProviderRaised("NameError")
  }

  /** What `web_search` returns, or the exception it lets through. */
  datatype SearchResult = Done(out: SearchOutput) | Raised(error: string)

  /** The query the searches use: the rewrite when asked for, else the stripped input. */
  function UsedQuery(original: string, rewrite: bool, invoke: string -> Llm.LlmReply): string
  {
    if rewrite then RewriteQuery(original, Dot, invoke) else original
  }

  /** What the provider calls of `web_search` gather: the documents and whether the year search ran. */
  datatype Gathered = Gathered(docs: seq<Doc>, fallback: bool) | GatherRaised(error: string)

  /** The `top_k` of the year search: at least ten. */
  function YearCount(topK: int): int
  {
    if topK >= 10 then topK else 10
  }

  /** The month search, and when it gave at most five documents the year search merged after it. */
  function Gather(used: string, topK: int, provider: Provider): Gathered
  {
    match provider(used, topK, "month")
    case ProviderRaised(e) => GatherRaised(e)
    case Found(month) =>
      if |month| <= 5 then
        match provider(used, YearCount(topK), "year")
        case ProviderRaised(e) => GatherRaised(e)
        case Found(year) => Gathered(DedupFrom(month + year, {}), true)
      else Gathered(month, false)
  }

  /** The provider calls of `web_search`, step by step. */
  method GatherDocs(used: string, topK: int, provider: Provider) returns (g: Gathered)
    ensures g == Gather(used, topK, provider)
  {
    var month := provider(used, topK, "month");
    if month.ProviderRaised? {
      return GatherRaised(month.error);
    }
    if |month.docs| <= 5 {
      var year := provider(used, YearCount(topK), "year");
      if year.ProviderRaised? {
        return GatherRaised(year.error);
      }
      var combined := MergeUnique(month.docs, year.docs);
      return Gathered(combined, true);
    }
    return Gathered(month.docs, false);
  }

  /** `web_search`, specified. */
  function WebSearchSpec(query: string, topK: int, recencyDays: int, rewrite: bool, rerank: string,
                         invoke: string -> Llm.LlmReply, provider: Provider, clock: Clock,
                         env: RerankEnv): SearchResult
  {
    var original := Strip(query);
    if original == [] then Done(BuildOutput(false, "tavily", [], original, original, 0, false))
    else
      var used := UsedQuery(original, rewrite, invoke);
      match Gather(used, topK, provider)
      case GatherRaised(e) => Raised(e)
      case Gathered(combined, fallback) =>
        var docs := Finish(Tavily, combined, used, topK, recencyDays, rerank, clock, env);
        Done(BuildOutput(true, "tavily", docs, original, used, if fallback then 1 else 0, fallback))
  }

  /** `web_search`: strip, rewrite, search the month, top up from the year when short, then the shared tail. */
  method WebSearch(query: string, topK: int, recencyDays: int, rewrite: bool, rerank: string,
                   invoke: string -> Llm.LlmReply, provider: Provider, clock: Clock, env: RerankEnv)
    returns (r: SearchResult)
    ensures r == WebSearchSpec(query, topK, recencyDays, rewrite, rerank, invoke, provider, clock, env)
  {
    var original := Strip(query);
    var used := original;
    if original == [] {
      return Done(BuildOutput(false, "tavily", [], original, used, 0, false));
    }
    if rewrite {
      used := RewriteQuery(original, Dot, invoke);
    }
    var g := GatherDocs(used, topK, provider);
    if g.GatherRaised? {
      return Raised(g.error);
    }
    var retryCount := if g.fallback then 1 else 0;
    var results := FinishSteps(Tavily, g.docs, used, topK, recencyDays, rerank, clock, env);
    r := Done(BuildOutput(true, "tavily", results, original, used, retryCount, g.fallback));
  }

  /** An empty or blank query fails at once, with no documents and no provider call. */
  lemma EmptyQueryFails(query: string, topK: int, recencyDays: int, rewrite: bool, rerank: string,
                        invoke: string -> Llm.LlmReply, provider: Provider, clock: Clock, env: RerankEnv)
    requires Strip(query) == []
    ensures var r := WebSearchSpec(query, topK, recencyDays, rewrite, rerank, invoke, provider, clock, env);
      r.Done? && !r.out.success && r.out.docs == [] && r.out.count == 0 && r.out.retryCount == 0
  {
  }

  /**
   * On success the year search ran exactly when the month search gave at most
   * five documents; then and only then the retry count is 1 and the fallback flag set.
   */
  lemma RetryIffShortMonth(query: string, topK: int, recencyDays: int, rewrite: bool, rerank: string,
                           invoke: string -> Llm.LlmReply, provider: Provider, clock: Clock, env: RerankEnv)
    requires Strip(query) != []
    requires provider(UsedQuery(Strip(query), rewrite, invoke), topK, "month").Found?
    ensures var r := WebSearchSpec(query, topK, recencyDays, rewrite, rerank, invoke, provider, clock, env);
      var month := provider(UsedQuery(Strip(query), rewrite, invoke), topK, "month").docs;
      r.Done? ==>
        && r.out.success
        && (r.out.retryCount == 1 <==> |month| <= 5)
        && (r.out.fallbackUsed <==> |month| <= 5)
        && (r.out.retryCount == 0 || r.out.retryCount == 1)
  {
    var used := UsedQuery(Strip(query), rewrite, invoke);
    GatherFallbackIffShort(used, topK, provider);
  }

  /** The year search runs exactly when the month search gave at most five documents. */
  lemma GatherFallbackIffShort(used: string, topK: int, provider: Provider)
    requires provider(used, topK, "month").Found?
    ensures var g := Gather(used, topK, provider);
      g.Gathered? ==> (g.fallback <==> |provider(used, topK, "month").docs| <= 5)
  {
  }

  /** The output counts its documents, and there are at most `top_k` of them. */
  lemma CountBounded(query: string, topK: int, recencyDays: int, rewrite: bool, rerank: string,
                     invoke: string -> Llm.LlmReply, provider: Provider, clock: Clock, env: RerankEnv)
    ensures var r := WebSearchSpec(query, topK, recencyDays, rewrite, rerank, invoke, provider, clock, env);
      r.Done? ==> r.out.count == |r.out.docs| && (topK >= 0 ==> r.out.count <= topK)
  {
  }

  /**
   * Every returned document passed cleaning and the recency window, and the
   * documents come newest first (Tavily's rank is the same for all).
   */
  lemma ResultsNewestFirst(query: string, topK: int, recencyDays: int, rewrite: bool, rerank: string,
                           invoke: string -> Llm.LlmReply, provider: Provider, clock: Clock, env: RerankEnv)
    requires OneScorePerDoc(env.cosine) && OneScorePerDoc(env.sbert) && OneScorePerDoc(env.cross)
    ensures var r := WebSearchSpec(query, topK, recencyDays, rewrite, rerank, invoke, provider, clock, env);
      r.Done? ==>
        && (forall x :: x in r.out.docs ==> Survivor(x, Tavily, recencyDays, clock))
        && (forall i, j :: 0 <= i < j < |r.out.docs| ==>
              clock.ts(r.out.docs[j].published) <= clock.ts(r.out.docs[i].published))
  {
    var r := WebSearchSpec(query, topK, recencyDays, rewrite, rerank, invoke, provider, clock, env);
    var original := Strip(query);
    if r.Done? && original != [] {
      var used := UsedQuery(original, rewrite, invoke);
      var combined := Gather(used, topK, provider).docs;
      FinishSurvivors(Tavily, combined, used, topK, recencyDays, rerank, clock, env);
      var docs := r.out.docs;
      assert docs == Finish(Tavily, combined, used, topK, recencyDays, rerank, clock, env);
      forall i, j | 0 <= i < j < |docs|
        ensures clock.ts(docs[j].published) <= clock.ts(docs[i].published)
      {
        assert RecencyOrder(RankOf(Tavily), clock.ts)(docs[i], docs[j]);
      }
    }
  }

  /**
   * Past its imports, which fail as written, every non-blank query would end
   * in the NameError of `_tavily_search`.
   */
  lemma AsWrittenAlwaysRaises(query: string, topK: int, recencyDays: int, rewrite: bool, rerank: string,
                              invoke: string -> Llm.LlmReply, clock: Clock, env: RerankEnv)
    requires Strip(query) != []
    ensures WebSearchSpec(query, topK, recencyDays, rewrite, rerank, invoke, TavilySearchAsWritten, clock, env)
      == Raised("NameError")
  {
  }
}
