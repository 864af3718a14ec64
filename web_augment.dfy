/**
 * The web-augment node of my_agent/nodes/web_augment.py: it builds a search
 * query from the store profile and the intent, calls the `web_search` tool,
 * and stores trimmed snippets and a summary in the graph state.
 */
module WebAugment {
  import opened Common
  import opened Seqs
  import opened State

  // ---------------------------------------------------------------------
  // Query

  /** `_INTENT_KEYWORDS`. */
  function Keywords(intent: string): seq<string>
  {
    if intent == "GENERAL" then ["사례", "성공", "전략", "트렌드", "노하우"]
    else if intent == "SNS" then ["SNS", "리뷰", "인스타그램", "홍보", "바이럴"]
    else if intent == "ISSUE" then ["원인", "하락", "문제", "진단", "분석"]
    else if intent == "REVISIT" then ["재방문", "단골", "리텐션", "충성도", "재구매"]
    else []
  }

  /** The intents `_INTENT_KEYWORDS` has keywords for. */
  const KeywordIntents: set<string> := {"GENERAL", "SNS", "ISSUE", "REVISIT"}

  /** The query used when neither the profile, the intent nor the user gives any text. */
  const DefaultQuery: string := "소상공인 마케팅 전략 사례"

  /** `_norm`: "" for a falsy value, otherwise `str(x).strip()`. */
  function Norm(x: Value): (r: string)
    ensures !Truthy(x) ==> r == ""
    ensures Trimmed(r)
  {
    if Truthy(x) then Strip(Str(x)) else ""
  }

  /** `(state.get("intent") or "GENERAL").upper()`. */
  function IntentOf(intent: Option<string>): string
  {
    Upper(if HasText(intent) then intent.value else "GENERAL")
  }

  predicate NonEmpty(s: string)
  {
    s != ""
  }

  /** The four query parts: store name, industry, area and the intent's keywords. */
  function QueryParts(intent: string, userInfo: Record): seq<string>
  {
    [Norm(Get(userInfo, "store_name")), Norm(Get(userInfo, "industry")),
     Norm(Get(userInfo, "marketing_area")), Join(Keywords(intent), " ")]
  }

  /** `" ".join([p for p in query_parts if p]).strip()`. */
  function JoinedParts(intent: string, userInfo: Record): string
  {
    Strip(Join(Filter(QueryParts(intent, userInfo), NonEmpty), " "))
  }

  /** `_build_query`: the joined parts, else the stripped user query, else the default query. */
  function BuildQuery(intent: Option<string>, userQuery: string, userInfo: Record): (r: string)
    ensures r != ""
  {
    var query := JoinedParts(IntentOf(intent), userInfo);
    if query != "" then query
    else if Strip(userQuery) != "" then Strip(userQuery)
    else DefaultQuery
  }

  /** A join ends with its last part. */
  lemma {:induction false} JoinEndsWith(parts: seq<string>, sep: string)
    requires parts != []
    ensures EndsWith(Join(parts, sep), parts[|parts| - 1])
    decreases |parts|
  {
    if |parts| > 1 {
      JoinEndsWith(parts[1..], sep);
      var rest := Join(parts[1..], sep);
      var last := parts[|parts| - 1];
      assert parts[1..][|parts[1..]| - 1] == last;
      assert Join(parts, sep) == parts[0] + sep + rest;
      assert (parts[0] + sep + rest)[|parts[0] + sep + rest| - |last|..] == rest[|rest| - |last|..];
    }
  }

  /** Stripping keeps a suffix that neither starts nor ends with whitespace. */
  lemma StripKeepsSuffix(s: string, k: string)
    requires EndsWith(s, k) && k != [] && Trimmed(k)
    ensures EndsWith(Strip(s), k)
  {
    var l := StripLeft(s);
    assert s[|s| - |k|] == k[0];
    assert |s| - |l| <= |s| - |k|;
    assert l == s[|s| - |l|..];
    assert l[|l| - 1] == s[|s| - 1] == k[|k| - 1];
    assert StripRight(l) == l;
    assert l[|l| - |k|..] == s[|s| - |k|..];
  }

  /** For the four keyword intents the keyword part is non-empty and trimmed; for any other intent it is empty. */
  lemma KeywordLineShape(intent: string)
    ensures var k := Join(Keywords(intent), " ");
      && Trimmed(k)
      && (intent in KeywordIntents <==> k != [])
  {
    var ks := Keywords(intent);
    if ks != [] {
      JoinStartsWith(ks, " ");
      JoinEndsWith(ks, " ");
      var k := Join(ks, " ");
      assert k[0] == ks[0][0];
      assert k[|k| - 1] == ks[|ks| - 1][|ks[|ks| - 1]| - 1];
    }
  }

  /** Joining the non-empty parts keeps a trimmed last part at the end, through the strip. */
  lemma JoinedEndsWithLast(parts: seq<string>)
    requires parts != [] && parts[|parts| - 1] != [] && Trimmed(parts[|parts| - 1])
    ensures EndsWith(Strip(Join(Filter(parts, NonEmpty), " ")), parts[|parts| - 1])
  {
    var n := |parts| - 1;
    var k := parts[n];
    SplitLast(parts);
    FilterSnoc(parts[..n], k, NonEmpty);
    var kept := Filter(parts, NonEmpty);
    assert kept[|kept| - 1] == k;
    JoinEndsWith(kept, " ");
    StripKeepsSuffix(Join(kept, " "), k);
  }

  /** When some part is non-empty and all are trimmed, the stripped join is not empty. */
  lemma JoinedNonEmpty(parts: seq<string>, i: nat)
    requires forall j :: 0 <= j < |parts| ==> Trimmed(parts[j])
    requires i < |parts| && parts[i] != ""
    ensures Strip(Join(Filter(parts, NonEmpty), " ")) != ""
  {
    var kept := Filter(parts, NonEmpty);
    assert parts[i] in parts;
    assert parts[i] in kept;
    var last := kept[|kept| - 1];
    assert last in kept;
    var j :| 0 <= j < |parts| && parts[j] == last;
    JoinEndsWith(kept, " ");
    StripKeepsSuffix(Join(kept, " "), last);
  }

  /**
   * For GENERAL, SNS, ISSUE and REVISIT the query is the joined parts and ends
   * with the intent's keywords: the user query and the default are never used.
   */
  lemma KnownIntentUsesKeywords(intent: Option<string>, userQuery: string, userInfo: Record)
    requires IntentOf(intent) in KeywordIntents
    ensures BuildQuery(intent, userQuery, userInfo) == JoinedParts(IntentOf(intent), userInfo)
    ensures EndsWith(BuildQuery(intent, userQuery, userInfo), Join(Keywords(IntentOf(intent)), " "))
  {
    var parts := QueryParts(IntentOf(intent), userInfo);
    KeywordLineShape(IntentOf(intent));
    JoinedEndsWithLast(parts);
  }

  /** Every query part is trimmed. */
  lemma PartsTrimmed(intent: string, userInfo: Record)
    ensures var parts := QueryParts(intent, userInfo);
      forall j :: 0 <= j < |parts| ==> Trimmed(parts[j])
  {
    KeywordLineShape(intent);
  }

  /** The user query, or else the default, is used only when every part is empty. */
  lemma FallbackOnlyWithoutParts(intent: Option<string>, userQuery: string, userInfo: Record)
    requires BuildQuery(intent, userQuery, userInfo) != JoinedParts(IntentOf(intent), userInfo)
    ensures var parts := QueryParts(IntentOf(intent), userInfo);
      forall i :: 0 <= i < |parts| ==> parts[i] == ""
    ensures BuildQuery(intent, userQuery, userInfo) == (if Strip(userQuery) != "" then Strip(userQuery) else DefaultQuery)
  {
    var parts := QueryParts(IntentOf(intent), userInfo);
    assert JoinedParts(IntentOf(intent), userInfo) == "";
    PartsTrimmed(IntentOf(intent), userInfo);
    forall i | 0 <= i < |parts|
      ensures parts[i] == ""
    {
      if parts[i] != "" {
        JoinedNonEmpty(parts, i);
      }
    }
  }

  // ---------------------------------------------------------------------
  // The node

  /** The dict `web_search` answers with: its top-level fields and its `docs` list. */
  datatype SearchResponse = SearchResponse(fields: Record, docs: seq<Record>)

  /** What `call_mcp_tool("web_search", ...)` does: answers (possibly with None) or raises. */
  datatype CallOutcome = Responded(resp: Option<SearchResponse>) | CallRaised(message: string)

  /** What the node does to the state. */
  datatype Effect = Unchanged | Raised(message: string) | Updated(snippets: seq<Record>, meta: Record)

  /** A doc the node keeps: title, URL and snippet are all non-empty once normalised. */
  predicate Usable(d: Record)
  {
    Norm(Get(d, "title")) != "" && Norm(Get(d, "url")) != "" && Norm(Get(d, "snippet")) != ""
  }

  /** The snippet entry for a doc: the three normalised fields, the snippet cut to 250 characters. */
  function SnippetOf(d: Record): (r: Record)
    ensures r.Keys == {"title", "url", "snippet"}
    ensures r["title"] == VStr(Norm(Get(d, "title"))) && r["url"] == VStr(Norm(Get(d, "url")))
    ensures r["snippet"] == VStr(Take(Norm(Get(d, "snippet")), 250))
  {
    SnippetEntry(VStr(Norm(Get(d, "title"))), VStr(Norm(Get(d, "url"))), VStr(Take(Norm(Get(d, "snippet")), 250)))
  }

  /** The three-key snippet dict. */
  function SnippetEntry(title: Value, url: Value, snippet: Value): (r: Record)
    ensures r.Keys == {"title", "url", "snippet"}
    ensures r["title"] == title && r["url"] == url && r["snippet"] == snippet
  {
    map["title" := title, "url" := url, "snippet" := snippet]
  }

  /** The snippets of a list of docs. */
  function Snippets(docs: seq<Record>): seq<Record>
  {
    Map(Filter(docs, Usable), SnippetOf)
  }

  /** A snippet entry as the node stores it: exactly three non-empty text fields, the snippet at most 250 characters. */
  predicate SnippetShaped(e: Record)
  {
    && e.Keys == {"title", "url", "snippet"}
    && e["title"].VStr? && e["title"].s != ""
    && e["url"].VStr? && e["url"].s != ""
    && e["snippet"].VStr? && e["snippet"].s != "" && |e["snippet"].s| <= 250
  }

  lemma UsableShaped(d: Record)
    requires Usable(d)
    ensures SnippetShaped(SnippetOf(d))
  {
  }

  /** Every snippet is shaped as above, there are no more snippets than docs, and every usable doc gives one. */
  lemma SnippetsShape(docs: seq<Record>)
    ensures |Snippets(docs)| <= |docs|
    ensures forall e :: e in Snippets(docs) ==> SnippetShaped(e)
    ensures forall d :: d in docs && Usable(d) ==> SnippetOf(d) in Snippets(docs)
  {
    forall d | Usable(d)
      ensures SnippetShaped(SnippetOf(d))
    {
      UsableShaped(d);
    }
    MapFilterAll(docs, Usable, SnippetOf, SnippetShaped);
    MapFilterImage(docs, Usable, SnippetOf);
  }

  /** The node's summary of the search. */
  function Meta(resp: SearchResponse, snippets: seq<Record>, query: string): (r: Record)
    ensures r.Keys == {"provider_used", "count", "query"}
    ensures r["count"] == VInt(|snippets|) && r["query"] == VStr(query)
    ensures r["provider_used"] == VStr(Norm(Get(resp.fields, "provider_used")))
  {
    map["provider_used" := VStr(Norm(Get(resp.fields, "provider_used"))),
        "count" := VInt(|snippets|), "query" := VStr(query)]
  }

  /** The node's configuration: `top_k` for the search and the intents it runs for. */
  datatype Config = Config(defaultTopk: int, intents: set<string>)

  /** `WebAugmentNode()`: five results, for GENERAL, SNS, ISSUE and REVISIT. */
  const DefaultConfig: Config := Config(5, {"GENERAL", "SNS", "ISSUE", "REVISIT"})

  /** Whether the node runs: the uppercased intent is configured, or a web fallback was asked for. */
  predicate Runs(cfg: Config, intent: Option<string>, needWebFallback: bool)
  {
    IntentOf(intent) in cfg.intents || needWebFallback
  }

  /** What the node does once the tool has answered: nothing without a successful response, else store snippets and summary. */
  function ResponseEffect(resp: Option<SearchResponse>, query: string): (e: Effect)
    ensures !e.Raised?
    ensures e.Updated? <==> resp.Some? && Truthy(Get(resp.value.fields, "success"))
  {
    if resp.None? || !Truthy(Get(resp.value.fields, "success")) then Unchanged
    else
      var snippets := Snippets(resp.value.docs);
      Updated(snippets, Meta(resp.value, snippets, query))
  }

  /** `WebAugmentNode.__call__`, specified. */
  function NodeEffect(cfg: Config, intent: Option<string>, needWebFallback: bool, userQuery: string,
                      userInfo: Record, call: (string, int) -> CallOutcome): Effect
  {
    if !Runs(cfg, intent, needWebFallback) then Unchanged
    else
      var query := BuildQuery(intent, userQuery, userInfo);
      match call(query, cfg.defaultTopk)
      case CallRaised(m) => Raised(m)
      case Responded(resp) => ResponseEffect(resp, query)
  }

  /** The snippet loop of `__call__`. */
  method CleanSnippets(docs: seq<Record>) returns (out: seq<Record>)
    ensures out == Snippets(docs)
  {
    out := [];
    var i := 0;
    while i < |docs|
      invariant 0 <= i <= |docs|
      invariant out == Map(Filter(docs[..i], Usable), SnippetOf)
    {
      var d := docs[i];
      FilterSnoc(docs[..i], d, Usable);
      assert docs[..i + 1] == docs[..i] + [d];
      if Usable(d) {
        MapSnoc(Filter(docs[..i], Usable), d, SnippetOf);
        out := out + [SnippetOf(d)];
      }
      i := i + 1;
    }
    assert docs[..|docs|] == docs;
  }

  /** The part of `__call__` after the tool answered: store snippets and summary on success. */
  method Store(st: GraphState, resp: Option<SearchResponse>, query: string)
    modifies st`webSnippets, st`webMeta
    ensures var e := ResponseEffect(resp, query);
      && (e.Updated? ==> st.webSnippets == Some(e.snippets) && st.webMeta == Some(e.meta))
      && (!e.Updated? ==> st.webSnippets == old(st.webSnippets) && st.webMeta == old(st.webMeta))
  {
    if resp.None? || !Truthy(Get(resp.value.fields, "success")) {
      return;
    }
    var snippets := CleanSnippets(resp.value.docs);
    st.webSnippets := Some(snippets);
    st.webMeta := Some(Meta(resp.value, snippets, query));
  }

  /** `WebAugmentNode.__call__`: it changes only `web_snippets` and `web_meta`, or raises what the tool raises. */
  method Call(cfg: Config, st: GraphState, userInfo: Record, call: (string, int) -> CallOutcome)
    returns (raised: Option<string>)
    modifies st`webSnippets, st`webMeta
    ensures var e := NodeEffect(cfg, old(st.intent), old(st.needWebFallback), old(st.userQuery), userInfo, call);
      && (raised.Some? <==> e.Raised?)
      && (e.Raised? ==> raised.value == e.message)
      && (e.Updated? ==> st.webSnippets == Some(e.snippets) && st.webMeta == Some(e.meta))
      && (!e.Updated? ==> st.webSnippets == old(st.webSnippets) && st.webMeta == old(st.webMeta))
  {
    raised := None;
    if !Runs(cfg, st.intent, st.needWebFallback) {
      return;
    }
    var query := BuildQuery(st.intent, st.userQuery, userInfo);
    var outcome := call(query, cfg.defaultTopk);
    if outcome.CallRaised? {
      return Some(outcome.message);
    }
    Store(st, outcome.resp, query);
  }

  /** Outside the configured intents and without a fallback request the state is left alone. */
  lemma SkippedLeavesState(cfg: Config, intent: Option<string>, userQuery: string, userInfo: Record,
                           call: (string, int) -> CallOutcome)
    requires IntentOf(intent) !in cfg.intents
    ensures NodeEffect(cfg, intent, false, userQuery, userInfo, call) == Unchanged
  {
  }

  /** The summary counts the snippets the node stored and records the query it built. */
  lemma MetaCountsSnippets(cfg: Config, intent: Option<string>, needWebFallback: bool, userQuery: string,
                           userInfo: Record, call: (string, int) -> CallOutcome)
    ensures var e := NodeEffect(cfg, intent, needWebFallback, userQuery, userInfo, call);
      e.Updated? ==>
        && e.meta["count"] == VInt(|e.snippets|)
        && e.meta["query"] == VStr(BuildQuery(intent, userQuery, userInfo))
        && e.meta["query"].s != ""
  {
  }

  /**
   * `call_mcp_tool` has no "web_search" entry and raises ValueError, which the
   * node does not catch: whenever it runs, it raises.
   */
  lemma RunningNodeRaisesAsWired(cfg: Config, intent: Option<string>, needWebFallback: bool, userQuery: string,
                                 userInfo: Record)
    requires Runs(cfg, intent, needWebFallback)
    ensures NodeEffect(cfg, intent, needWebFallback, userQuery, userInfo,
                       (q: string, k: int) => CallRaised("Tool web_search not found"))
      == Raised("Tool web_search not found")
  {
  }
}
