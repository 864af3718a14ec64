/**
 * Chat history (my_agent/utils/chat_history.py): message conversion, the
 * save/load merge over a store of thread files, and the memory-updater node.
 */
module ChatHistory {
  import opened Common
  import opened State

  /** One message as written to the JSON file. */
  datatype StoredMessage = StoredMessage(role: string, content: string, timestamp: string)

  /** `_message_to_dict`; `now` is the clock's ISO timestamp. */
  function ToStored(m: Message, now: string): (d: StoredMessage)
    ensures d.role == "user" <==> m.role == Human
    ensures d.role == "user" || d.role == "assistant"
    ensures d.content == m.content && d.timestamp == now
  {
    StoredMessage(if m.role == Human then "user" else "assistant", m.content, now)
  }

  /** `_dict_to_message`: "user" becomes a human message, any other role an AI message. */
  function FromStored(d: StoredMessage): (m: Message)
    ensures m.content == d.content
    ensures m.role == Human <==> d.role == "user"
    ensures m.role == Human || m.role == Ai
  {
    Message(if d.role == "user" then Human else Ai, d.content)
  }

  /** What a message is after a round trip: the content survives, and only Human stays Human. */
  function Normalized(m: Message): Message
  {
    Message(if m.role == Human then Human else Ai, m.content)
  }

  lemma MessageRoundTrip(m: Message, now: string)
    ensures FromStored(ToStored(m, now)) == Normalized(m)
    ensures m.role == Human || m.role == Ai ==> FromStored(ToStored(m, now)) == m
  {
  }

  /** The JSON document of one thread. */
  datatype HistoryFile = HistoryFile(
    threadId: string, createdAt: string, updatedAt: Option<string>,
    messages: seq<StoredMessage>, metadata: Record)

  /** What `load_chat_history` returns. */
  datatype Loaded = Loaded(messages: seq<Message>, metadata: Record, createdAt: Option<string>, updatedAt: Option<string>)

  /** `metadata or {}`. */
  function MetadataOr(metadata: Option<Record>): Record
  {
    if metadata.Some? then metadata.value else map[]
  }

  /** The document `save_chat_history` writes over `existing`, the thread's file if it has one. */
  function SavedFile(existing: Option<HistoryFile>, threadId: string, msgs: seq<Message>,
                     metadata: Option<Record>, now: string): (f: HistoryFile)
    ensures |f.messages| == |msgs|
    ensures forall i :: 0 <= i < |msgs| ==> f.messages[i] == ToStored(msgs[i], now)
    ensures f.updatedAt == Some(now)
    ensures existing.Some? ==> f.createdAt == existing.value.createdAt && f.threadId == existing.value.threadId
    ensures existing.None? ==> f.createdAt == now && f.threadId == threadId
    ensures f.metadata ==
      (if existing.Some? then existing.value.metadata else MetadataOr(metadata))
      + (if metadata.Some? && |metadata.value| > 0 then metadata.value else map[])
  {
    var base := if existing.Some? then existing.value
                else HistoryFile(threadId, now, None, [], MetadataOr(metadata));
    var stored := seq(|msgs|, i requires 0 <= i < |msgs| => ToStored(msgs[i], now));
    var merged := if metadata.Some? && |metadata.value| > 0 then base.metadata + metadata.value else base.metadata;
    base.(messages := stored, updatedAt := Some(now), metadata := merged)
  }

  /** `load_chat_history` on the thread's file, if any. */
  function LoadFile(f: Option<HistoryFile>): (r: Loaded)
    ensures f.None? ==> r == Loaded([], map[], None, None)
    ensures f.Some? ==>
      && |r.messages| == |f.value.messages|
      && (forall i :: 0 <= i < |r.messages| ==> r.messages[i] == FromStored(f.value.messages[i]))
      && r.metadata == f.value.metadata
  {
    match f
    case None => Loaded([], map[], None, None)
    case Some(h) =>
      Loaded(seq(|h.messages|, i requires 0 <= i < |h.messages| => FromStored(h.messages[i])),
             h.metadata, Some(h.createdAt), h.updatedAt)
  }

  /** Saving replaces the message list: loading it back gives the saved messages, normalized. */
  lemma SaveLoadMessages(existing: Option<HistoryFile>, threadId: string, msgs: seq<Message>,
                         metadata: Option<Record>, now: string)
    ensures var loaded := LoadFile(Some(SavedFile(existing, threadId, msgs, metadata, now)));
      |loaded.messages| == |msgs| && forall i :: 0 <= i < |msgs| ==> loaded.messages[i] == Normalized(msgs[i])
  {
    var f := SavedFile(existing, threadId, msgs, metadata, now);
    forall i | 0 <= i < |msgs|
      ensures LoadFile(Some(f)).messages[i] == Normalized(msgs[i])
    {
      MessageRoundTrip(msgs[i], now);
    }
  }

  /** Metadata merges: a new key overwrites, an old key the new metadata lacks survives. */
  lemma SaveMergesMetadata(existing: HistoryFile, threadId: string, msgs: seq<Message>,
                           metadata: Record, now: string, k: string)
    requires |metadata| > 0
    ensures var m := SavedFile(Some(existing), threadId, msgs, Some(metadata), now).metadata;
      (k in metadata ==> k in m && m[k] == metadata[k])
      && (k !in metadata && k in existing.metadata ==> k in m && m[k] == existing.metadata[k])
  {
  }

  /** The thread files on disk, keyed by thread id. */
  class HistoryStore {
    var files: map<string, HistoryFile>

    constructor ()
      ensures files == map[]
    {
      files := map[];
    }

    /** `save_chat_history`; returns the file path. */
    method Save(threadId: string, msgs: seq<Message>, metadata: Option<Record>, now: string) returns (path: string)
      modifies this
      ensures files == old(files)[threadId :=
        SavedFile(if threadId in old(files) then Some(old(files)[threadId]) else None, threadId, msgs, metadata, now)]
      ensures path == "chat_history/" + threadId + ".json"
    {
      var existing := if threadId in files then Some(files[threadId]) else None;
      files := files[threadId := SavedFile(existing, threadId, msgs, metadata, now)];
      path := "chat_history/" + threadId + ".json";
    }

    /** `load_chat_history`. */
    function Load(threadId: string): Loaded
      reads this
    {
      LoadFile(if threadId in files then Some(files[threadId]) else None)
    }
  }

  /** A thread never saved loads as empty messages and empty metadata. */
  lemma LoadMissing(store: HistoryStore, threadId: string)
    requires threadId !in store.files
    ensures store.Load(threadId).messages == [] && store.Load(threadId).metadata == map[]
  {
  }

  // ---------------------------------------------------------------------
  // The memory-updater node

  /** The messages one turn adds: the query if non-empty, then the response if non-empty. */
  function TurnMessages(query: string, response: Option<string>): (added: seq<Message>)
    ensures |added| <= 2
    ensures |added| == (if query != "" then 1 else 0) + (if HasText(response) then 1 else 0)
    ensures query != "" ==> added[0] == Message(Human, query)
    ensures HasText(response) ==> added[|added| - 1] == Message(Ai, response.value)
  {
    (if query != "" then [Message(Human, query)] else [])
      + (if HasText(response) then [Message(Ai, response.value)] else [])
  }

  const SummaryThreshold: nat := 10
  const DummySummary: string := "최근 대화 요약..."

  /** `update_conversation_memory`: appends the turn, and sets the placeholder summary once there are 10 messages. */
  method UpdateConversationMemory(st: GraphState)
    modifies st`messages, st`conversationSummary
    ensures st.messages == old(st.messages) + TurnMessages(st.userQuery, st.finalResponse)
    ensures |st.messages| >= SummaryThreshold ==> st.conversationSummary == Some(DummySummary)
    ensures |st.messages| < SummaryThreshold ==> st.conversationSummary == old(st.conversationSummary)
  {
    if st.userQuery != "" {
      st.messages := st.messages + [Message(Human, st.userQuery)];
    }
    if HasText(st.finalResponse) {
      st.messages := st.messages + [Message(Ai, st.finalResponse.value)];
    }
    if |st.messages| >= SummaryThreshold {
      st.conversationSummary := Some(DummySummary);
    }
  }

  /** The prior messages stay a prefix, and at most two are added. */
  lemma MemoryOnlyAppends(prior: seq<Message>, query: string, response: Option<string>)
    ensures var now := prior + TurnMessages(query, response);
      now[..|prior|] == prior && |prior| <= |now| <= |prior| + 2
  {
  }
}
