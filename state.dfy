/** The shared graph state (my_agent/utils/state.py) and the chat message type. */
module State {
  import opened Common

  /** HumanMessage, AIMessage, or any other message class (system, tool, ...). */
  datatype Role = Human | Ai | OtherRole(name: string)

  datatype Message = Message(role: Role, content: string)

  /** `bool(s)` for an optional text: given and non-empty. */
  predicate HasText(s: Option<string>)
  {
    s.Some? && s.value != ""
  }

  /** `s or ""`. */
  function TextOr(s: Option<string>): (r: string)
    ensures HasText(s) ==> r == s.value
    ensures !HasText(s) ==> r == ""
  {
    if s.Some? then s.value else ""
  }

  /**
   * The `GraphState` dict that every node reads and updates in place, one field
   * per key. `run_one_turn` stores every key but `web_snippets`, `web_meta`
   * and `need_web_fallback`, so None stands for a key holding None, or for one
   * of those three keys missing. `state.get(key)` reads both as None; a read
   * with a default, `state.get(key, d)`, gives d only for a missing key.
   */
  class GraphState {
    var userQuery: string
    var storeNameInput: Option<string>
    var intent: Option<string>
    var storeId: Option<string>
    var storeCandidates: seq<Record>
    var needClarify: bool
    var cardData: Option<Record>
    var areaData: Option<Record>
    var regionData: Option<Record>
    var webSnippets: Option<seq<Record>>
    var webMeta: Option<Record>
    var signals: seq<string>
    var persona: Option<string>
    var channelHints: seq<string>
    var rawResponse: Option<string>
    var finalResponse: Option<string>
    var actions: seq<Record>
    var messages: seq<Message>
    var conversationSummary: Option<string>
    var relevancePassed: bool
    var retryCount: int
    var error: Option<string>
    var needWebFallback: bool

    /** The initial state `run_one_turn` hands to the graph. */
    constructor Initial(query: string, storeName: string)
      ensures userQuery == query && storeNameInput == Some(storeName)
      ensures intent == None && storeId == None && storeCandidates == [] && !needClarify
      ensures cardData == None && areaData == None && regionData == None
      ensures webSnippets == None && webMeta == None
      ensures signals == [] && persona == None && channelHints == []
      ensures rawResponse == None && finalResponse == None && actions == []
      ensures messages == [] && conversationSummary == None
      ensures !relevancePassed && retryCount == 0 && error == None && !needWebFallback
    {
      userQuery := query;
      storeNameInput := Some(storeName);
      intent := None;
      storeId := None;
      storeCandidates := [];
      needClarify := false;
      cardData := None;
      areaData := None;
      regionData := None;
      webSnippets := None;
      webMeta := None;
      signals := [];
      persona := None;
      channelHints := [];
      rawResponse := None;
      finalResponse := None;
      actions := [];
      messages := [];
      conversationSummary := None;
      relevancePassed := false;
      retryCount := 0;
      error := None;
      needWebFallback := false;
    }
  }
}
