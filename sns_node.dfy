/**
 * The SNS recommendation node (my_agent/utils/nodes/sns.py): the web-snippet
 * context for the prompt, the appended source list, and the node call that
 * asks the model and post-processes its answer. The model is an oracle, and
 * the two percent formatters (`format_percentage` for the prompt, `fmt_pct`
 * for the action seed) are parameters.
 */
module SnsNode {
  import opened Common
  import opened Seqs
  import opened State
  import opened Llm
  import PromptBuilder
  import Postprocess

  /** `state.get("web_snippets") or []`. */
  function SnipsOf(webSnippets: Option<seq<Record>>): (r: seq<Record>)
    ensures webSnippets.None? ==> r == []
    ensures webSnippets.Some? ==> r == webSnippets.value
  {
    if webSnippets.Some? then webSnippets.value else []
  }

  // ---------------------------------------------------------------------
  // build_web_context

  /** One context row: title, source and snippet as `str` renders them. */
  function WebLine(s: Record): string
  {
    var title := Str(GetOr(s, "title", VStr("")));
    var src := Str(GetOr(s, "source", VStr("")));
    var sn := Str(GetOr(s, "snippet", VStr("")));
    "- " + title + " · " + src + ": " + sn
  }

  const NoWebContext: string := "N/A"

  /** `build_web_context`, specified: the rows of the first `limit` snippets, or "N/A" when there are none. */
  function WebContext(webSnippets: Option<seq<Record>>, limit: int): string
  {
    var rows := Map(PyTake(SnipsOf(webSnippets), limit), WebLine);
    if rows == [] then NoWebContext else Join(rows, "\n")
  }

  /** `build_web_context`. */
  method BuildWebContext(webSnippets: Option<seq<Record>>, limit: int) returns (r: string)
    ensures r == WebContext(webSnippets, limit)
  {
    var snips := SnipsOf(webSnippets);
    var taken := PyTake(snips, limit);
    var rows: seq<string> := [];
    for i := 0 to |taken|
      invariant rows == Map(taken[..i], WebLine)
    {
      var s := taken[i];
      var title := Str(GetOr(s, "title", VStr("")));
      var src := Str(GetOr(s, "source", VStr("")));
      var sn := Str(GetOr(s, "snippet", VStr("")));
      MapPrefix(taken, i, WebLine);
      rows := rows + ["- " + title + " · " + src + ": " + sn];
    }
    TakeAll(taken);
    r := if rows != [] then Join(rows, "\n") else NoWebContext;
  }

  lemma WebLineStarts(s: Record)
    ensures StartsWith(WebLine(s), "- ")
  {
    var title := Str(GetOr(s, "title", VStr("")));
    var src := Str(GetOr(s, "source", VStr("")));
    var sn := Str(GetOr(s, "snippet", VStr("")));
    var p := "- ";
    assert StartsWith(p, p);
    Postprocess.StartsWithExtend(p, p, title);
    Postprocess.StartsWithExtend(p + title, p, " · ");
    Postprocess.StartsWithExtend(p + title + " · ", p, src);
    Postprocess.StartsWithExtend(p + title + " · " + src, p, ": ");
    Postprocess.StartsWithExtend(p + title + " · " + src + ": ", p, sn);
  }

  /**
   * "N/A" exactly when no snippet is taken; otherwise one row per snippet
   * among the first `limit`, in order, joined by newlines.
   */
  lemma WebContextShape(webSnippets: Option<seq<Record>>, limit: int)
    ensures var taken := PyTake(SnipsOf(webSnippets), limit);
      && (WebContext(webSnippets, limit) == NoWebContext <==> taken == [])
      && (taken != [] ==> WebContext(webSnippets, limit) == Join(Map(taken, WebLine), "\n"))
      && (limit >= 0 ==> |taken| <= limit)
      && (forall i :: 0 <= i < |taken| ==> taken[i] == SnipsOf(webSnippets)[i])
  {
    var taken := PyTake(SnipsOf(webSnippets), limit);
    if taken != [] {
      var rows := Map(taken, WebLine);
      JoinStartsWith(rows, "\n");
      WebLineStarts(taken[0]);
      assert StartsWith(Join(rows, "\n"), "- ") by {
        assert Join(rows, "\n")[..2] == rows[0][..2];
      }
      NoWebContextIsNoRow();
    }
  }

  lemma NoWebContextIsNoRow()
    ensures !StartsWith(NoWebContext, "- ")
  {
    assert NoWebContext[0] == 'N';
  }

  // ---------------------------------------------------------------------
  // append_sources

  /** The start of a source entry: title and source. */
  function EntryHead(s: Record): string
  {
    "- " + Str(GetOr(s, "title", VStr("(제목 없음)"))) + " · " + Str(GetOr(s, "source", VStr("")))
  }

  /** One source entry: title and source, then the URL when it is truthy. */
  function SourceEntry(s: Record): string
  {
    var url := GetOr(s, "url", VStr(""));
    if Truthy(url) then EntryHead(s) + " · " + Str(url) else EntryHead(s)
  }

  /** `append_sources`, specified. */
  function AppendedSources(text: string, webSnippets: Option<seq<Record>>, limit: int): string
  {
    var snips := SnipsOf(webSnippets);
    if snips == [] then text
    else text + Join([Postprocess.SourcesHeader] + Map(PyTake(snips, limit), SourceEntry), "\n")
  }

  /** `append_sources`. */
  method AppendSources(text: string, webSnippets: Option<seq<Record>>, limit: int) returns (r: string)
    ensures r == AppendedSources(text, webSnippets, limit)
  {
    var snips := SnipsOf(webSnippets);
    if snips == [] {
      return text;
    }
    var taken := PyTake(snips, limit);
    var lines := [Postprocess.SourcesHeader];
    for i := 0 to |taken|
      invariant lines == [Postprocess.SourcesHeader] + Map(taken[..i], SourceEntry)
    {
      var s := taken[i];
      var head := EntryHead(s);
      var url := GetOr(s, "url", VStr(""));
      MapPrefix(taken, i, SourceEntry);
      if Truthy(url) {
        lines := lines + [head + " · " + Str(url)];
      } else {
        lines := lines + [head];
      }
    }
    TakeAll(taken);
    r := text + Join(lines, "\n");
  }

  /**
   * Without snippets the text is unchanged. With snippets the text is kept as
   * a prefix and followed by the header and one entry for each of the first
   * `limit` snippets, in order; an entry names a URL only when it is truthy.
   */
  lemma AppendedSourcesShape(text: string, webSnippets: Option<seq<Record>>, limit: int)
    ensures SnipsOf(webSnippets) == [] ==> AppendedSources(text, webSnippets, limit) == text
    ensures SnipsOf(webSnippets) != [] ==>
      var taken := PyTake(SnipsOf(webSnippets), limit);
      && StartsWith(AppendedSources(text, webSnippets, limit), text)
      && AppendedSources(text, webSnippets, limit)[|text|..]
           == Join([Postprocess.SourcesHeader] + Map(taken, SourceEntry), "\n")
      && (limit >= 0 ==> |taken| <= limit)
  {
    var snips := SnipsOf(webSnippets);
    if snips != [] {
      var r := AppendedSources(text, webSnippets, limit);
      assert r[..|text|] == text;
    }
  }

  lemma EndsWithTail(a: string, b: string, c: string)
    ensures EndsWith(a + b + c, b + c)
  {
    assert (a + b + c)[|a + b + c| - |b + c|..] == b + c;
  }

  /** An entry ends with the URL when the URL is truthy and is just title and source otherwise. */
  lemma SourceEntryUrl(s: Record)
    ensures var url := GetOr(s, "url", VStr(""));
      && (Truthy(url) ==> EndsWith(SourceEntry(s), " · " + Str(url)))
      && (!Truthy(url) ==> SourceEntry(s) == EntryHead(s))
  {
    EndsWithTail(EntryHead(s), " · ", Str(GetOr(s, "url", VStr(""))));
  }

  // ---------------------------------------------------------------------
  // The prompt

  const NoChannelHints: string := "데이터 기반 추천"

  /** The `channel_hints` slot: the hints joined by ", ", or the fixed phrase when there are none. */
  function ChannelHintsText(hints: seq<string>): (r: string)
    ensures hints == [] ==> r == NoChannelHints
  {
    if hints != [] then Join(hints, ", ") else NoChannelHints
  }

  /** Every part of a join appears in it. */
  lemma {:induction false} JoinContainsPart(parts: seq<string>, sep: string, i: nat)
    requires i < |parts|
    ensures Contains(Join(parts, sep), parts[i])
    decreases |parts|
  {
    if |parts| == 1 {
      assert parts[0][..|parts[0]|] == parts[0];
    } else if i == 0 {
      ContainsPrefix(parts[0], sep + Join(parts[1..], sep));
      assert parts[0] + (sep + Join(parts[1..], sep)) == Join(parts, sep);
    } else {
      JoinContainsPart(parts[1..], sep, i - 1);
      ContainsExtendLeft(parts[0] + sep, Join(parts[1..], sep), parts[i]);
    }
  }

  /** Every hint is named in the hints slot. */
  lemma ChannelHintsListed(hints: seq<string>, i: nat)
    requires i < |hints|
    ensures Contains(ChannelHintsText(hints), hints[i])
  {
    JoinContainsPart(hints, ", ", i);
  }

  const PromptIntro: string := "당신은 SNS 마케팅 전문가입니다.\n\n아래 가맹점 데이터를 기반으로 SNS 채널 추천 및 콘텐츠 전략을 작성하세요.\n\n[INTERNAL DATA]\n"
  const PromptExternal: string := "\n\n[EXTERNAL (최근 리뷰/기사/블로그 스니펫 요약)]\n"
  const PromptPersona: string := "\n\n[주요 고객층]\n"
  const PromptChannels: string := "\n\n[추천 채널]\n"
  const PromptFormat: string := "\n\n[출력 형식]\n1) 추천 SNS 채널 (2~3개, 각 채널별 이유)\n2) 타겟별 콘텐츠 아이디어 (3~5개)\n3) 홍보 메시지 예시 (3개)\n\n주의:\n- 내부 데이터와 외부 스니펫 중 어떤 근거를 썼는지 문장 끝에 (내부) / (외부)로 표기\n- 과장 없이 실행 가능한 수준으로만 작성\n"

  /** Five slots between six fixed pieces. */
  function Slots(p0: string, base: string, p1: string, sig: string, p2: string, web: string, p3: string,
                 persona: string, p4: string, hints: string, p5: string): string
  {
    p0 + base + p1 + sig + p2 + web + p3 + persona + p4 + hints + p5
  }

  lemma SlotsCarry(p0: string, base: string, p1: string, sig: string, p2: string, web: string, p3: string,
                   persona: string, p4: string, hints: string, p5: string)
    ensures Contains(Slots(p0, base, p1, sig, p2, web, p3, persona, p4, hints, p5), web)
    ensures Contains(Slots(p0, base, p1, sig, p2, web, p3, persona, p4, hints, p5), hints)
    ensures Contains(Slots(p0, base, p1, sig, p2, web, p3, persona, p4, hints, p5), p3 + persona + p4)
  {
    var a := p0 + base + p1 + sig + p2;
    var b := p3 + persona + p4;
    ContainsInfix(a + web, b, hints + p5);
    assert a + web + b + (hints + p5) == Slots(p0, base, p1, sig, p2, web, p3, persona, p4, hints, p5);
    ContainsInfix(a, web, b + hints + p5);
    assert a + web + (b + hints + p5) == Slots(p0, base, p1, sig, p2, web, p3, persona, p4, hints, p5);
    ContainsInfix(a + web + b, hints, p5);
    assert a + web + b + hints + p5 == Slots(p0, base, p1, sig, p2, web, p3, persona, p4, hints, p5);
  }

  /** `PROMPT.format(...)`: the template with its five slots filled. */
  function SnsPrompt(base: string, sig: string, web: string, persona: string, hints: string): string
  {
    Slots(PromptIntro, base, "\n", sig, PromptExternal, web, PromptPersona, persona, PromptChannels, hints, PromptFormat)
  }

  /** The filled template carries the web context, the persona under its heading, and the hints verbatim. */
  lemma SnsPromptCarries(base: string, sig: string, web: string, persona: string, hints: string)
    ensures Contains(SnsPrompt(base, sig, web, persona, hints), web)
    ensures Contains(SnsPrompt(base, sig, web, persona, hints), hints)
    ensures Contains(SnsPrompt(base, sig, web, persona, hints), PromptPersona + persona + PromptChannels)
  {
    SlotsCarry(PromptIntro, base, "\n", sig, PromptExternal, web, PromptPersona, persona, PromptChannels, hints, PromptFormat);
  }

  /**
   * The persona slot. `run_one_turn` stores the key with None, so
   * `state.get("persona", "")` gives None until a node writes a persona, and
   * the template renders it as `str(None)`.
   */
  function PersonaText(persona: Option<string>): (r: string)
    ensures persona.Some? ==> r == persona.value
    ensures persona.None? ==> r == Str(VNone)
  {
    if persona.Some? then persona.value else Str(VNone)
  }

  /** The prompt `SNSNode.__call__` sends, from the card and the rest of the state it reads. */
  function NodePrompt(card: Record, signals: seq<string>, webSnippets: Option<seq<Record>>,
                      persona: Option<string>, hints: seq<string>, pct: Value -> string): string
  {
    SnsPrompt(PromptBuilder.BuildBaseContext(card, pct), PromptBuilder.BuildSignalsContext(signals),
              WebContext(webSnippets, 3), PersonaText(persona), ChannelHintsText(hints))
  }

  /** A persona still None shows as the text "None" under the persona heading. */
  lemma NonePersonaRendered(card: Record, signals: seq<string>, webSnippets: Option<seq<Record>>,
                            hints: seq<string>, pct: Value -> string)
    ensures Contains(NodePrompt(card, signals, webSnippets, None, hints, pct), PromptPersona + "None" + PromptChannels)
  {
    SnsPromptCarries(PromptBuilder.BuildBaseContext(card, pct), PromptBuilder.BuildSignalsContext(signals),
                     WebContext(webSnippets, 3), PersonaText(None), ChannelHintsText(hints));
  }

  // ---------------------------------------------------------------------
  // The node

  const DemoRaw: string := "(데모) SNS 마케팅 전략 생성 중..."
  const FailurePrefix: string := "LLM 호출 실패: "

  /** The raw answer: the demo text without a model, the failure text when the call raises, else the reply's content. */
  function RawAnswer(llm: LlmClient, prompt: string): (r: Option<string>)
  {
    match llm
    case NoClient => Some(DemoRaw)
    case Client(invoke) =>
      match invoke(prompt)
      case LlmRaised(m) => Some(FailurePrefix + m)
      case Replied(c) => c
  }

  /** Without a model the answer is the demo text; a raising call gives text starting with the failure prefix. */
  lemma RawAnswerFallbacks(llm: LlmClient, prompt: string)
    ensures llm.NoClient? ==> RawAnswer(llm, prompt) == Some(DemoRaw)
    ensures llm.Client? && llm.invoke(prompt).LlmRaised? ==>
      RawAnswer(llm, prompt).Some? && StartsWith(RawAnswer(llm, prompt).value, FailurePrefix)
      && RawAnswer(llm, prompt).value[|FailurePrefix|..] == llm.invoke(prompt).message
    ensures llm.Client? && llm.invoke(prompt).Replied? ==> RawAnswer(llm, prompt) == llm.invoke(prompt).content
  {
    if llm.Client? && llm.invoke(prompt).LlmRaised? {
      var t := FailurePrefix + llm.invoke(prompt).message;
      assert t[..|FailurePrefix|] == FailurePrefix;
    }
  }

  /** The node's final text: the post-processed answer, then the source list appended once more. */
  function FinalText(raw: Option<string>, card: Record, webSnippets: Option<seq<Record>>,
                     webMeta: Option<Record>): string
  {
    AppendedSources(Postprocess.ResponseText(TextOr(raw), card, webSnippets, webMeta), webSnippets, 3)
  }

  /**
   * Without snippets the final text is the post-processed answer, ending with
   * the disclaimer. With snippets it is the base text, the sources block, the
   * disclaimer and then a second source list, both lists opening with the
   * same header: the disclaimer is then not last.
   */
  lemma FinalTextShape(raw: Option<string>, card: Record, webSnippets: Option<seq<Record>>,
                       webMeta: Option<Record>)
    ensures SnipsOf(webSnippets) == [] ==>
      && FinalText(raw, card, webSnippets, webMeta)
           == Postprocess.BaseText(TextOr(raw), card) + Postprocess.Disclaimer
    ensures SnipsOf(webSnippets) != [] ==>
      && FinalText(raw, card, webSnippets, webMeta)
           == Postprocess.BaseText(TextOr(raw), card) + Postprocess.SourcesBlock(webSnippets.value, webMeta)
              + Postprocess.Disclaimer
              + Join([Postprocess.SourcesHeader] + Map(PyTake(webSnippets.value, 3), SourceEntry), "\n")
      && StartsWith(Postprocess.SourcesBlock(webSnippets.value, webMeta), Postprocess.SourcesHeader)
  {
    if SnipsOf(webSnippets) == [] {
      FinalTextNoSources(raw, card, webSnippets, webMeta);
    } else {
      FinalTextWithSources(raw, card, webSnippets.value, webMeta);
    }
  }

  lemma FinalTextNoSources(raw: Option<string>, card: Record, webSnippets: Option<seq<Record>>,
                           webMeta: Option<Record>)
    requires SnipsOf(webSnippets) == []
    ensures FinalText(raw, card, webSnippets, webMeta)
              == Postprocess.BaseText(TextOr(raw), card) + Postprocess.Disclaimer
  {
    Postprocess.ResponseTextShape(TextOr(raw), card, webSnippets, webMeta);
  }

  lemma FinalTextWithSources(raw: Option<string>, card: Record, snips: seq<Record>, webMeta: Option<Record>)
    requires snips != []
    ensures FinalText(raw, card, Some(snips), webMeta)
              == Postprocess.BaseText(TextOr(raw), card) + Postprocess.SourcesBlock(snips, webMeta)
                 + Postprocess.Disclaimer
                 + Join([Postprocess.SourcesHeader] + Map(PyTake(snips, 3), SourceEntry), "\n")
    ensures StartsWith(Postprocess.SourcesBlock(snips, webMeta), Postprocess.SourcesHeader)
  {
    Postprocess.ResponseTextShape(TextOr(raw), card, Some(snips), webMeta);
  }

  /** The prompt `SNSNode.__call__` builds from the state. */
  method BuildPrompt(card: Record, signals: seq<string>, webSnippets: Option<seq<Record>>,
                     persona: Option<string>, hints: seq<string>, pct: Value -> string) returns (prompt: string)
    ensures prompt == NodePrompt(card, signals, webSnippets, persona, hints, pct)
  {
    var baseCtx := PromptBuilder.BuildBaseContext(card, pct);
    var sigCtx := PromptBuilder.BuildSignalsContext(signals);
    var webCtx := BuildWebContext(webSnippets, 3);
    prompt := SnsPrompt(baseCtx, sigCtx, webCtx, PersonaText(persona), ChannelHintsText(hints));
  }

  /** The model call and its fallbacks. */
  method Ask(llm: LlmClient, prompt: string) returns (raw: Option<string>)
    ensures raw == RawAnswer(llm, prompt)
  {
    match llm {
      case NoClient =>
        raw := Some(DemoRaw);
      case Client(invoke) =>
        match invoke(prompt) {
          case LlmRaised(m) => raw := Some(FailurePrefix + m);
          case Replied(c) => raw := c;
        }
    }
  }

  /** Post-processing the raw answer, then appending the source list. */
  method Finish(raw: Option<string>, card: Record, signals: seq<string>, intent: string,
                webSnippets: Option<seq<Record>>, webMeta: Option<Record>, fmtPct: Value -> string)
    returns (final: string, actions: seq<Record>)
    ensures final == FinalText(raw, card, webSnippets, webMeta)
    ensures actions == Postprocess.ActionSeed(card, signals, fmtPct)
  {
    final, actions := Postprocess.PostprocessResponse(TextOr(raw), card, signals, intent, webSnippets,
                                                      webMeta, fmtPct);
    final := AppendSources(final, webSnippets, 3);
  }

  /** The raw answer of the node for the state it reads. */
  function NodeAnswer(llm: LlmClient, card: Record, signals: seq<string>, webSnippets: Option<seq<Record>>,
                      persona: Option<string>, hints: seq<string>, pct: Value -> string): Option<string>
  {
    RawAnswer(llm, NodePrompt(card, signals, webSnippets, persona, hints, pct))
  }

  /** The answer, the final text and the actions the node computes from what it reads. */
  method Respond(llm: LlmClient, card: Record, signals: seq<string>, persona: Option<string>,
                 hints: seq<string>, intent: string, webSnippets: Option<seq<Record>>, webMeta: Option<Record>,
                 pct: Value -> string, fmtPct: Value -> string)
    returns (raw: Option<string>, final: string, actions: seq<Record>)
    ensures raw == NodeAnswer(llm, card, signals, webSnippets, persona, hints, pct)
    ensures final == FinalText(raw, card, webSnippets, webMeta)
    ensures actions == Postprocess.ActionSeed(card, signals, fmtPct)
  {
    var prompt := BuildPrompt(card, signals, webSnippets, persona, hints, pct);
    raw := Ask(llm, prompt);
    final, actions := Finish(raw, card, signals, intent, webSnippets, webMeta, fmtPct);
  }

  /** The node's three writes to the state. */
  method Store(st: GraphState, raw: Option<string>, final: string, actions: seq<Record>)
    modifies st`rawResponse, st`finalResponse, st`actions
    ensures st.rawResponse == raw && st.finalResponse == Some(final) && st.actions == actions
  {
    st.rawResponse := raw;
    st.finalResponse := Some(final);
    st.actions := actions;
  }

  /**
   * `SNSNode.__call__`: builds the prompt, asks the model (or falls back), and
   * writes the raw answer, the final text and the action seed, and nothing
   * else. `build_base_context` raises on a None card (`run_one_turn` stores
   * `card_data` as None, and `state.get` then gives None) and on a card whose
   * percentage fields are not all numbers: `raised` reports that exception
   * leaving the node before any write. `pct` is `format_percentage` on a
   * number, `fmtPct` the seed's formatter.
   */
  method Call(st: GraphState, llm: LlmClient, pct: Value -> string, fmtPct: Value -> string) returns (raised: bool)
    modifies st`rawResponse, st`finalResponse, st`actions
    ensures raised <==> old(st.cardData).None? || PromptBuilder.BaseContextRaises(old(st.cardData).value)
    ensures raised ==> st.rawResponse == old(st.rawResponse) && st.finalResponse == old(st.finalResponse)
                       && st.actions == old(st.actions)
    ensures !raised ==>
      st.rawResponse == NodeAnswer(llm, old(st.cardData).value, old(st.signals), old(st.webSnippets),
                                   old(st.persona), old(st.channelHints), pct)
    ensures !raised ==>
      st.finalResponse == Some(FinalText(st.rawResponse, old(st.cardData).value, old(st.webSnippets), old(st.webMeta)))
    ensures !raised ==> st.actions == Postprocess.ActionSeed(old(st.cardData).value, old(st.signals), fmtPct)
  {
    if st.cardData.None? || PromptBuilder.BaseContextRaises(st.cardData.value) {
      return true;
    }
    raised := false;
    var intent := if st.intent.Some? then st.intent.value else "GENERAL";
    var raw, final, actions := Respond(llm, st.cardData.value, st.signals, st.persona, st.channelHints, intent,
                                       st.webSnippets, st.webMeta, pct, fmtPct);
    Store(st, raw, final, actions);
  }
}
