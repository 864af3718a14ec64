/**
 * The older web-augment node of my_agent/utils/nodes/web_augment.py: it runs
 * for the SNS and ISSUE intents (compared as written, case-sensitively) or on
 * a web-fallback request, builds a query from the store card and a fixed
 * review phrase, calls the `web_search` tool and copies every returned doc and
 * the tool's own summary into the graph state.
 */
module WebAugmentUtils {
  import opened Common
  import opened Seqs
  import opened State
  import WebAugment

  // ---------------------------------------------------------------------
  // Query

  /** The phrase every query ends with. */
  const ReviewPhrase: string := "후기 OR 리뷰 OR 블로그 OR 기사"

  lemma PhraseTrimmed()
    ensures ReviewPhrase != "" && Trimmed(ReviewPhrase)
  {
  }

  /** Python's `a or b`. */
  function Or(a: Value, b: Value): (r: Value)
    ensures Truthy(a) ==> r == a
    ensures !Truthy(a) ==> r == b
  {
    if Truthy(a) then a else b
  }

  /** The three parts the store card gives: name, industry (Korean name first) and district. */
  function CardParts(card: Record): seq<Value>
  {
    [Get(card, "mct_name"), Or(Get(card, "industry_kor"), Get(card, "industry")), Get(card, "district")]
  }

  /** `q_parts`: the card's parts followed by the review phrase. */
  function QueryParts(card: Record): seq<Value>
  {
    CardParts(card) + [VStr(ReviewPhrase)]
  }

  /** The texts of a list of values, or None when one is not a string (`str.join` raises TypeError). */
  function Texts(vs: seq<Value>): Option<seq<string>>
  {
    if vs == [] then Some([])
    else if !vs[0].VStr? then None
    else
      var rest := Texts(vs[1..]);
      if rest.None? then None else Some([vs[0].s] + rest.value)
  }

  /** The join raises exactly when some part is not a string, and otherwise joins the parts' texts in order. */
  lemma {:induction false} TextsSpec(vs: seq<Value>)
    ensures Texts(vs).None? <==> exists i :: 0 <= i < |vs| && !vs[i].VStr?
    ensures Texts(vs).Some? ==>
      |Texts(vs).value| == |vs| && forall i :: 0 <= i < |vs| ==> vs[i] == VStr(Texts(vs).value[i])
  {
    if vs != [] {
      TextsSpec(vs[1..]);
      if !vs[0].VStr? {
        assert !vs[0].VStr?;
      } else if Texts(vs[1..]).None? {
        var i :| 0 <= i < |vs[1..]| && !vs[1..][i].VStr?;
        assert !vs[i + 1].VStr?;
      } else {
        var t := Texts(vs).value;
        forall i | 0 <= i < |vs|
          ensures vs[i] == VStr(t[i])
        {
          if i > 0 {
            assert vs[i] == vs[1..][i - 1];
          }
        }
      }
    }
  }

  /** A single string part joins to itself. */
  lemma TextsOne(x: string)
    ensures Texts([VStr(x)]) == Some([x])
  {
    var vs := [VStr(x)];
    assert vs[1..] == [];
    assert Texts(vs[1..]) == Some([]);
    assert [vs[0].s] + [] == [x];
  }

  /** `" ".join([p for p in q_parts if p]).strip()`, or None when the join raises TypeError. */
  function JoinedQuery(card: Record): Option<string>
  {
    var texts := Texts(Filter(QueryParts(card), Truthy));
    if texts.None? then None else Some(Strip(Join(texts.value, " ")))
  }

  /** `... or state.get("user_query", "")`. */
  function QueryOf(card: Record, userQuery: string): Option<string>
  {
    var joined := JoinedQuery(card);
    if joined.None? then None
    else if joined.value != "" then joined
    else Some(userQuery)
  }

  /** Joining the truthy parts, the last of which is a non-empty trimmed text, and stripping keeps that text at the end. */
  lemma JoinedEndsWithLast(parts: seq<Value>, x: string)
    requires x != "" && Trimmed(x)
    requires Texts(Filter(parts + [VStr(x)], Truthy)).Some?
    ensures EndsWith(Strip(Join(Texts(Filter(parts + [VStr(x)], Truthy)).value, " ")), x)
  {
    var kept := Filter(parts + [VStr(x)], Truthy);
    assert kept != [] && kept[|kept| - 1] == VStr(x) by {
      FilterSnoc(parts, VStr(x), Truthy);
    }
    TextsSpec(kept);
    var texts := Texts(kept).value;
    assert texts != [] && texts[|texts| - 1] == x;
    WebAugment.JoinEndsWith(texts, " ");
    WebAugment.StripKeepsSuffix(Join(texts, " "), x);
  }

  /**
   * The review phrase is always a truthy string part, so the query always ends
   * with it: it is never empty, and the user query and the empty-query return
   * are never reached.
   */
  lemma QueryEndsWithPhrase(card: Record, userQuery: string)
    requires QueryOf(card, userQuery).Some?
    ensures QueryOf(card, userQuery) == JoinedQuery(card)
    ensures EndsWith(QueryOf(card, userQuery).value, ReviewPhrase)
    ensures QueryOf(card, userQuery).value != ""
  {
    PhraseTrimmed();
    JoinedEndsWithLast(CardParts(card), ReviewPhrase);
  }

  /** A truthy store name, industry or district that is not a string makes the join raise. */
  lemma NonTextPartRaises(card: Record, userQuery: string, i: nat)
    requires i < 3 && Truthy(CardParts(card)[i]) && !CardParts(card)[i].VStr?
    ensures QueryOf(card, userQuery).None?
  {
    var v := CardParts(card)[i];
    assert v in QueryParts(card);
    var kept := Filter(QueryParts(card), Truthy);
    assert v in kept;
    var j :| 0 <= j < |kept| && kept[j] == v;
    TextsSpec(kept);
  }

  /**
   * A card without a truthy name, industry or district (the empty card, which is
   * all the node ever sees, since no graph node stores a `store_card`) gives the
   * review phrase alone as the query.
   */
  lemma BareCardQuery(card: Record, userQuery: string)
    requires !Truthy(Get(card, "mct_name")) && !Truthy(Get(card, "district"))
    requires !Truthy(Get(card, "industry_kor")) && !Truthy(Get(card, "industry"))
    ensures QueryOf(card, userQuery) == Some(ReviewPhrase)
  {
    assert Filter(QueryParts(card), Truthy) == [VStr(ReviewPhrase)] by {
      var parts := CardParts(card);
      FilterNone(parts, Truthy);
      FilterSnoc(parts, VStr(ReviewPhrase), Truthy);
    }
    assert JoinedQuery(card) == Some(ReviewPhrase) by {
      TextsOne(ReviewPhrase);
      PhraseTrimmed();
      StripOfStripped(ReviewPhrase);
    }
  }

  // ---------------------------------------------------------------------
  // The node

  /** The dict `web_search` answers with, as in the web-augment node (`docs` is `[]` when absent). */
  type SearchResponse = WebAugment.SearchResponse

  /** What `call_mcp_tool("web_search", ...)` does: answers with a dict, or raises. */
  datatype CallOutcome = Answered(resp: SearchResponse) | CallRaised(message: string)

  /** The tool call, given query, provider, `top_k` and `recency_days`. */
  type SearchCall = (string, string, int, int) -> CallOutcome

  /** What the node does to the state. */
  type Effect = WebAugment.Effect

  /** The five fields each snippet copies from its doc. */
  const SnippetFields: set<string> := {"title", "source", "url", "snippet", "published_at"}

  /** The snippet entry for one doc: the five fields, each "" when the doc lacks it. */
  function SnippetOf(d: Record): (r: Record)
    ensures r.Keys == SnippetFields
    ensures forall k :: k in SnippetFields ==> r[k] == GetOr(d, k, VStr(""))
  {
    map["title" := GetOr(d, "title", VStr("")), "source" := GetOr(d, "source", VStr("")),
        "url" := GetOr(d, "url", VStr("")), "snippet" := GetOr(d, "snippet", VStr("")),
        "published_at" := GetOr(d, "published_at", VStr(""))]
  }

  /** `web_snippets`: one entry per doc, in the docs' order, nothing filtered or cut. */
  function Snippets(docs: seq<Record>): (r: seq<Record>)
    ensures |r| == |docs|
    ensures forall i :: 0 <= i < |docs| ==> r[i].Keys == SnippetFields
    ensures forall i, k :: 0 <= i < |docs| && k in SnippetFields ==> r[i][k] == GetOr(docs[i], k, VStr(""))
  {
    Map(docs, SnippetOf)
  }

  /** `web_meta`: the tool's provider and count, as the tool reported them, and the query. */
  function Meta(resp: SearchResponse, query: string): (r: Record)
    ensures r.Keys == {"provider_used", "count", "query"}
    ensures r["provider_used"] == GetOr(resp.fields, "provider_used", VStr(""))
    ensures r["count"] == GetOr(resp.fields, "count", VInt(0))
    ensures r["query"] == VStr(query)
  {
    map["provider_used" := GetOr(resp.fields, "provider_used", VStr("")),
        "count" := GetOr(resp.fields, "count", VInt(0)), "query" := VStr(query)]
  }

  /** The node's settings: `default_topk`, `recency_days` and the intents it runs for. */
  datatype Config = Config(defaultTopk: int, recencyDays: int, intents: set<string>)

  /** `WebAugmentNode()`. */
  const DefaultConfig: Config := Config(5, 60, {"SNS", "ISSUE"})

  /** Whether the node runs: the intent, as stored, is configured, or a web fallback was asked for. */
  predicate Runs(cfg: Config, intent: Option<string>, needWebFallback: bool)
  {
    (intent.Some? && intent.value in cfg.intents) || needWebFallback
  }

  /** What the node does once the tool has answered. */
  function ResponseEffect(resp: SearchResponse, query: string): (e: Effect)
    ensures !e.Raised?
    ensures e.Updated? <==> Truthy(Get(resp.fields, "success"))
  {
    if !Truthy(Get(resp.fields, "success")) then WebAugment.Unchanged
    else WebAugment.Updated(Snippets(resp.docs), Meta(resp, query))
  }

  /** What the node does with its query (None when building it raised TypeError). */
  function SearchEffect(cfg: Config, query: Option<string>, call: SearchCall): Effect
  {
    if query.None? then WebAugment.Raised("TypeError")
    else if query.value == "" then WebAugment.Unchanged
    else
      match call(query.value, "auto", cfg.defaultTopk, cfg.recencyDays)
      case CallRaised(m) => WebAugment.Raised(m)
      case Answered(resp) => ResponseEffect(resp, query.value)
  }

  /** `WebAugmentNode.__call__`, specified. */
  function NodeEffect(cfg: Config, intent: Option<string>, needWebFallback: bool, userQuery: string,
                      card: Record, call: SearchCall): Effect
  {
    if !Runs(cfg, intent, needWebFallback) then WebAugment.Unchanged
    else SearchEffect(cfg, QueryOf(card, userQuery), call)
  }

  /** The part of `__call__` after the tool answered: on success, store snippets and summary. */
  method Store(st: GraphState, resp: SearchResponse, query: string)
    modifies st`webSnippets, st`webMeta
    ensures var e := ResponseEffect(resp, query);
      && (e.Updated? ==> st.webSnippets == Some(e.snippets) && st.webMeta == Some(e.meta))
      && (!e.Updated? ==> st.webSnippets == old(st.webSnippets) && st.webMeta == old(st.webMeta))
  {
    if !Truthy(Get(resp.fields, "success")) {
      return;
    }
    st.webSnippets := Some(Snippets(resp.docs));
    st.webMeta := Some(Meta(resp, query));
  }

  /** The part of `__call__` from the built query on: the empty-query return, the tool call and storing. */
  method Search(cfg: Config, st: GraphState, query: Option<string>, call: SearchCall) returns (raised: Option<string>)
    modifies st`webSnippets, st`webMeta
    ensures var e := SearchEffect(cfg, query, call);
      && (raised.Some? <==> e.Raised?)
      && (e.Raised? ==> raised.value == e.message)
      && (e.Updated? ==> st.webSnippets == Some(e.snippets) && st.webMeta == Some(e.meta))
      && (!e.Updated? ==> st.webSnippets == old(st.webSnippets) && st.webMeta == old(st.webMeta))
  {
    raised := None;
    if query.None? {
      return Some("TypeError");
    }
    if query.value == "" {
      return;
    }
    var outcome := call(query.value, "auto", cfg.defaultTopk, cfg.recencyDays);
    if outcome.CallRaised? {
      return Some(outcome.message);
    }
    Store(st, outcome.resp, query.value);
  }

  /**
   * `WebAugmentNode.__call__` with the state's `store_card` given as `card`: it
   * changes only `web_snippets` and `web_meta`, or raises.
   */
  method Call(cfg: Config, st: GraphState, card: Record, call: SearchCall) returns (raised: Option<string>)
    modifies st`webSnippets, st`webMeta
    ensures var e := NodeEffect(cfg, old(st.intent), old(st.needWebFallback), old(st.userQuery), card, call);
      && (raised.Some? <==> e.Raised?)
      && (e.Raised? ==> raised.value == e.message)
      && (e.Updated? ==> st.webSnippets == Some(e.snippets) && st.webMeta == Some(e.meta))
      && (!e.Updated? ==> st.webSnippets == old(st.webSnippets) && st.webMeta == old(st.webMeta))
  {
    raised := None;
    if !Runs(cfg, st.intent, st.needWebFallback) {
      return;
    }
    var query := QueryOf(card, st.userQuery);
    raised := Search(cfg, st, query, call);
  }

  /** With the default settings the node runs for exactly "SNS" and "ISSUE" as stored, or on a fallback request. */
  lemma DefaultRunsIff(intent: Option<string>, needWebFallback: bool)
    ensures Runs(DefaultConfig, intent, needWebFallback)
      <==> needWebFallback || intent == Some("SNS") || intent == Some("ISSUE")
  {
  }

  /** An unsuccessful answer leaves the state alone; a successful one stores every doc and the tool's own count. */
  lemma ResponseStoresCopies(resp: SearchResponse, query: string)
    ensures !Truthy(Get(resp.fields, "success")) ==> ResponseEffect(resp, query) == WebAugment.Unchanged
    ensures var e := ResponseEffect(resp, query);
      e.Updated? ==>
        && |e.snippets| == |resp.docs|
        && e.meta["count"] == GetOr(resp.fields, "count", VInt(0))
        && e.meta["query"] == VStr(query)
  {
  }

  /** The stored count is the tool's, not the number of snippets: they can differ. */
  lemma CountNotRecomputed()
    ensures var e := ResponseEffect(WebAugment.SearchResponse(map["success" := VBool(true), "count" := VInt(3)], []), "q");
      e.Updated? && e.meta["count"] == VInt(3) && |e.snippets| == 0
  {
  }

  /**
   * `call_mcp_tool` has no "web_search" entry and raises ValueError, which the
   * node does not catch: whenever it runs, it raises.
   */
  lemma RunningNodeRaisesAsWired(cfg: Config, intent: Option<string>, needWebFallback: bool, userQuery: string,
                                 card: Record)
    requires Runs(cfg, intent, needWebFallback)
    ensures NodeEffect(cfg, intent, needWebFallback, userQuery, card,
                       (q: string, p: string, k: int, r: int) => CallRaised("Tool web_search not found")).Raised?
  {
    if QueryOf(card, userQuery).Some? {
      QueryEndsWithPhrase(card, userQuery);
    }
  }
}
