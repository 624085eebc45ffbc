/**
 * The legacy two-step quoting flow: pick the prompt from the number of user
 * messages, call the completion service, parse its reply, record the
 * metadata and store the assistant message; the streaming variant relays
 * each delta before one final event. The completion service and JSON
 * decoding are parameters.
 */
module QuoteService {
  import opened Wrappers
  import opened Text
  import opened Json
  import opened Config
  import opened GateModels
  import opened GateRegistry
  import opened ConversationStore
  import Orchestrator

  /** How many history entries have the role `user`. */
  function UserMessageCount(history: seq<ChatMessage>): (n: nat)
    ensures n <= |history|
    ensures n == 0 <==> forall i :: 0 <= i < |history| ==> history[i].role != "user"
  {
    if history == [] then 0
    else UserMessageCount(history[1..]) + (if history[0].role == "user" then 1 else 0)
  }

  /** Appending one message adds one to the count exactly when it is a user message. */
  lemma {:induction false} UserMessageCountAppend(history: seq<ChatMessage>, m: ChatMessage)
    ensures UserMessageCount(history + [m]) == UserMessageCount(history) + (if m.role == "user" then 1 else 0)
  {
    if history != [] {
      assert (history + [m])[1..] == history[1..] + [m];
      UserMessageCountAppend(history[1..], m);
    }
  }

  /** The prompt identifier, the template variables and the prompt version of one completion call. */
  datatype PromptChoice = PromptChoice(promptId: string, variables: map<string, string>, version: Option<string>)

  /** The settings attribute `_pick_prompt` reads for the given user-message count. */
  function PromptIdAttribute(userMessages: nat): string {
    if userMessages <= 1 then "openai_prompt_id_step1" else "openai_prompt_id_step2"
  }

  /**
   * `_pick_prompt` as written: it reads `openai_prompt_id_step1` or
   * `openai_prompt_id_step2` from the settings, names that exist only as
   * environment aliases of the gate-1 and gate-2 fields.
   */
  function PickPromptAsWritten(settings: AppSettings, history: seq<ChatMessage>): (r: Result<PromptChoice>)
    ensures r.Err? <==> Attribute(settings, PromptIdAttribute(UserMessageCount(history))).None?
  {
    var name := PromptIdAttribute(UserMessageCount(history));
    match Attribute(settings, name)
    case None => Err(AttributeError(name))
    case Some(v) =>
      if UserMessageCount(history) <= 1
      then Ok(PromptChoice(Render(v), map["product_options" := settings.productOptions], Some(settings.openaiPromptVersion)))
      else Ok(PromptChoice(Render(v), map[], None))
  }

  /** Whatever the settings and the history, the as-written selection raises AttributeError. */
  lemma PickPromptAsWrittenFails(settings: AppSettings, history: seq<ChatMessage>)
    ensures PickPromptAsWritten(settings, history).Err?
    ensures PickPromptAsWritten(settings, history).error.AttributeError?
  {
    var name := PromptIdAttribute(UserMessageCount(history));
    assert name == "openai_prompt_id_step1" || name == "openai_prompt_id_step2";
  }

  /**
   * `_pick_prompt` reading the fields the aliases populate: with at most one
   * user message, the gate-1 prompt with the product list and the configured
   * version; afterwards the gate-2 prompt with no variables and no version.
   */
  function PickPrompt(settings: AppSettings, history: seq<ChatMessage>): (r: PromptChoice)
    ensures UserMessageCount(history) <= 1 ==>
      r.promptId == settings.openaiPromptIdGate1 && r.version == Some(settings.openaiPromptVersion)
    ensures UserMessageCount(history) > 1 ==>
      r.promptId == settings.openaiPromptIdGate2 && r.variables == map[] && r.version == None
  {
    if UserMessageCount(history) <= 1
    then PromptChoice(settings.openaiPromptIdGate1, map["product_options" := settings.productOptions],
                      Some(settings.openaiPromptVersion))
    else PromptChoice(settings.openaiPromptIdGate2, map[], None)
  }

  /** The prompt variables as the JSON strings the request carries. */
  function AsValues(vars: map<string, string>): (r: map<string, Value>)
    ensures r.Keys == vars.Keys
    ensures forall name :: name in vars ==> r[name] == Str(vars[name])
  {
    map name | name in vars :: Str(vars[name])
  }

  /**
   * The legacy steps are gates 1 and 2 of the shipped table: the prompt and
   * version are that gate's, and the variables are what the orchestrator
   * binds for its template.
   */
  lemma PickPromptMatchesRegistry(settings: AppSettings, history: seq<ChatMessage>, productConfig: map<string, Value>)
    ensures var n := if UserMessageCount(history) <= 1 then 1 else 2;
      var r := PickPrompt(settings, history);
      && GetGate(Shipped(settings), n).Ok?
      && Some(r.promptId) == GetGate(Shipped(settings), n).value.promptId
      && r.version == GetGate(Shipped(settings), n).value.promptVersion
      && AsValues(r.variables) ==
         Orchestrator.ResolvedVariables(settings, GetGate(Shipped(settings), n).value.variablesTemplate, productConfig)
  {
    ShippedFirstGates(settings);
    var r := PickPrompt(settings, history);
    if UserMessageCount(history) <= 1 {
      Orchestrator.Gate1Variables(settings, productConfig);
      assert AsValues(r.variables) == map["product_options" := Str(settings.productOptions)];
    } else {
      assert AsValues(r.variables).Keys == {};
      assert Orchestrator.ResolvedVariables(settings, map[], productConfig) == map[];
    }
  }

  /** `_parse_response_text(text)`: the decoded stripped text, or None when it does not decode. */
  function ParseResponseText(text: string, decode: string -> Option<Value>): (r: Value)
    ensures decode(Strip(text)).None? ==> r == Null
    ensures decode(Strip(text)).Some? ==> r == decode(Strip(text)).value
  {
    match decode(Strip(text))
    case Some(v) => v
    case None => Null
  }

  /** Surrounding whitespace never changes the parse. */
  lemma ParseIgnoresSurroundingSpace(text: string, decode: string -> Option<Value>)
    ensures ParseResponseText(Strip(text), decode) == ParseResponseText(text, decode)
  {
    StripProperties(text);
  }

  /** The assistant message's metadata: always the prompt, and the reply's status when it is a non-empty dict. */
  function BuildMetadata(promptId: string, parsed: Value): (m: map<string, Value>)
    ensures "prompt_id" in m && m["prompt_id"] == Str(promptId)
    ensures "parsed_status" in m <==> Truthy(parsed) && parsed.Obj?
    ensures "parsed_status" in m ==> m["parsed_status"] == Get(parsed.fields, "status", Null)
    ensures m.Keys <= {"prompt_id", "parsed_status"}
  {
    if Truthy(parsed) && parsed.Obj?
    then map["prompt_id" := Str(promptId), "parsed_status" := Get(parsed.fields, "status", Null)]
    else map["prompt_id" := Str(promptId)]
  }

  /** One streamed event: a relayed delta, or the final stored message. */
  datatype StreamEvent = Chunk(delta: string) | Done(message: MessageRecord)

  /** The completion call: the prompt choice and the history in, the reply text out. */
  type Completion = (PromptChoice, seq<ChatMessage>) -> string

  /** The streaming completion call: the reply as a sequence of deltas. */
  type StreamingCompletion = (PromptChoice, seq<ChatMessage>) -> seq<string>

  /** The assistant message for a reply text: the text, its parse, and the metadata of the prompt and parse. */
  function AssistantMessage(promptId: string, text: string, decode: string -> Option<Value>): (m: MessageRecord)
    ensures m.role == "assistant" && m.content == text
    ensures m.response == ParseResponseText(text, decode)
    ensures m.metadata == Obj(BuildMetadata(promptId, m.response))
  {
    var parsed := ParseResponseText(text, decode);
    MessageRecord("assistant", text, parsed, Obj(BuildMetadata(promptId, parsed)))
  }

  /** The user message row: no reply, metadata `{}`. */
  const UserRowMetadata: Value := Obj(map[])

  /** Parse the reply text, build the metadata and store the assistant message, as both handlers end. */
  method StoreReply(store: Store, id: string, promptId: string, text: string, decode: string -> Option<Value>)
    returns (msg: MessageRecord)
    modifies store
    ensures msg == AssistantMessage(promptId, text, decode)
    ensures store.Messages(id) == old(store.Messages(id)) + [StoredRow(msg)]
    ensures store.conversations == old(store.conversations) && store.configs == old(store.configs)
  {
    var parsed := ParseResponseText(text, decode);
    var metadata := BuildMetadata(promptId, parsed);
    assert Truthy(Obj(metadata)) by { assert "prompt_id" in metadata; }
    msg := store.AddMessage(id, "assistant", text, parsed, Obj(metadata));
  }

  /** Store the user message and return the history that now ends with it. */
  method StoreUserMessage(store: Store, id: string, userMessage: string) returns (history: seq<ChatMessage>)
    modifies store
    ensures history == old(store.History(id)) + [ChatMessage("user", userMessage)]
    ensures store.Messages(id) == old(store.Messages(id)) + [UserRow(userMessage)]
    ensures store.conversations == old(store.conversations) && store.configs == old(store.configs)
  {
    var _ := store.AddMessage(id, "user", userMessage, Null, Null);
    history := store.History(id);
  }

  lemma AppendTwo<T>(a: seq<T>, x: T, y: T)
    ensures a + [x] + [y] == a + [x, y]
  {
  }

  /** The row a user message is stored as. */
  function UserRow(userMessage: string): (m: MessageRecord)
    ensures m.role == "user" && m.content == userMessage && m.response == Null && !Truthy(m.response)
  {
    MessageRecord("user", userMessage, Null, UserRowMetadata)
  }

  /**
   * `handle_message`: stores the user message, picks the prompt from the
   * history, calls the completion service, and stores and returns the
   * assistant message holding the unstripped reply text.
   */
  method HandleMessage(store: Store, id: string, userMessage: string, settings: AppSettings,
                       complete: Completion, decode: string -> Option<Value>)
    returns (msg: MessageRecord)
    modifies store
    ensures var history := old(store.History(id)) + [ChatMessage("user", userMessage)];
      var choice := PickPrompt(settings, history);
      && msg == AssistantMessage(choice.promptId, complete(choice, history), decode)
      && store.Messages(id) == old(store.Messages(id)) + [UserRow(userMessage), StoredRow(msg)]
    ensures store.conversations == old(store.conversations) && store.configs == old(store.configs)
  {
    ghost var before := store.Messages(id);
    var history := StoreUserMessage(store, id, userMessage);
    var choice := PickPrompt(settings, history);
    msg := StoreReply(store, id, choice.promptId, complete(choice, history), decode);
    AppendTwo(before, UserRow(userMessage), StoredRow(msg));
  }

  /**
   * `handle_message` as written: the user message is stored first, then the
   * prompt selection of `_pick_prompt` as written runs; when it raises, the
   * handler ends with that error and the user message stays stored alone.
   */
  method HandleMessageAsWritten(store: Store, id: string, userMessage: string, settings: AppSettings,
                                complete: Completion, decode: string -> Option<Value>)
    returns (r: Result<MessageRecord>)
    modifies store
    ensures var history := old(store.History(id)) + [ChatMessage("user", userMessage)];
      var picked := PickPromptAsWritten(settings, history);
      && (picked.Err? ==>
            r == Err(picked.error) && store.Messages(id) == old(store.Messages(id)) + [UserRow(userMessage)])
      && (picked.Ok? ==>
            && r == Ok(AssistantMessage(picked.value.promptId, complete(picked.value, history), decode))
            && store.Messages(id) == old(store.Messages(id)) + [UserRow(userMessage), StoredRow(r.value)])
    ensures store.conversations == old(store.conversations) && store.configs == old(store.configs)
  {
    ghost var before := store.Messages(id);
    var history := StoreUserMessage(store, id, userMessage);
    var picked := PickPromptAsWritten(settings, history);
    if picked.Err? {
      return Err(picked.error);
    }
    var msg := StoreReply(store, id, picked.value.promptId, complete(picked.value, history), decode);
    AppendTwo(before, UserRow(userMessage), StoredRow(msg));
    return Ok(msg);
  }

  /** One chunk event per delta, in arrival order. */
  function ChunkEvents(deltas: seq<string>): (r: seq<StreamEvent>)
    ensures |r| == |deltas|
    ensures forall i :: 0 <= i < |deltas| ==> r[i] == Chunk(deltas[i])
  {
    seq(|deltas|, i requires 0 <= i < |deltas| => Chunk(deltas[i]))
  }

  /** The relay loop: each delta is appended to the chunk list and yielded as a chunk event. */
  method RelayDeltas(deltas: seq<string>) returns (chunks: seq<string>, events: seq<StreamEvent>)
    ensures chunks == deltas
    ensures events == ChunkEvents(deltas)
  {
    chunks := [];
    events := [];
    var i := 0;
    while i < |deltas|
      invariant 0 <= i <= |deltas|
      invariant chunks == deltas[..i]
      invariant events == ChunkEvents(deltas[..i])
    {
      assert deltas[..i + 1] == deltas[..i] + [deltas[i]];
      chunks := chunks + [deltas[i]];
      events := events + [Chunk(deltas[i])];
      i := i + 1;
    }
    assert deltas[..i] == deltas;
  }

  /** The done message of a stream: the stripped concatenation of the deltas, parsed. */
  function StreamedMessage(promptId: string, deltas: seq<string>, decode: string -> Option<Value>): MessageRecord {
    AssistantMessage(promptId, Strip(Join(deltas, "")), decode)
  }

  /** Relay the deltas, then store the streamed message and emit the done event. */
  method RelayAndStore(store: Store, id: string, promptId: string, deltas: seq<string>,
                       decode: string -> Option<Value>)
    returns (events: seq<StreamEvent>)
    modifies store
    ensures events == ChunkEvents(deltas) + [Done(StreamedMessage(promptId, deltas, decode))]
    ensures store.Messages(id) == old(store.Messages(id)) + [StoredRow(StreamedMessage(promptId, deltas, decode))]
    ensures store.conversations == old(store.conversations) && store.configs == old(store.configs)
  {
    var chunks, relayed := RelayDeltas(deltas);
    var msg := StoreReply(store, id, promptId, Strip(Join(chunks, "")), decode);
    events := relayed + [Done(msg)];
  }

  /**
   * `handle_message_stream`: after storing the user message and picking the
   * prompt, relays every delta as a chunk in arrival order, then stores the
   * stripped concatenation and ends with exactly one done event.
   */
  method HandleMessageStream(store: Store, id: string, userMessage: string, settings: AppSettings,
                             stream: StreamingCompletion, decode: string -> Option<Value>)
    returns (events: seq<StreamEvent>)
    modifies store
    ensures var history := old(store.History(id)) + [ChatMessage("user", userMessage)];
      var choice := PickPrompt(settings, history);
      var done := StreamedMessage(choice.promptId, stream(choice, history), decode);
      && events == ChunkEvents(stream(choice, history)) + [Done(done)]
      && store.Messages(id) == old(store.Messages(id)) + [UserRow(userMessage), StoredRow(done)]
    ensures store.conversations == old(store.conversations) && store.configs == old(store.configs)
  {
    ghost var before := store.Messages(id);
    var history := StoreUserMessage(store, id, userMessage);
    var choice := PickPrompt(settings, history);
    events := RelayAndStore(store, id, choice.promptId, stream(choice, history), decode);
    ghost var done := StreamedMessage(choice.promptId, stream(choice, history), decode);
    AppendTwo(before, UserRow(userMessage), StoredRow(done));
  }

  /**
   * `handle_message_stream` as written: after the user message is stored, the
   * prompt selection of `_pick_prompt` as written raises before any event is
   * produced; otherwise the stream is relayed as `HandleMessageStream` does.
   */
  method HandleMessageStreamAsWritten(store: Store, id: string, userMessage: string, settings: AppSettings,
                                      stream: StreamingCompletion, decode: string -> Option<Value>)
    returns (events: seq<StreamEvent>, failure: Option<Error>)
    modifies store
    ensures var history := old(store.History(id)) + [ChatMessage("user", userMessage)];
      var picked := PickPromptAsWritten(settings, history);
      && (picked.Err? ==>
            && events == [] && failure == Some(picked.error)
            && store.Messages(id) == old(store.Messages(id)) + [UserRow(userMessage)])
      && (picked.Ok? ==>
            var done := StreamedMessage(picked.value.promptId, stream(picked.value, history), decode);
            && failure == None
            && events == ChunkEvents(stream(picked.value, history)) + [Done(done)]
            && store.Messages(id) == old(store.Messages(id)) + [UserRow(userMessage), StoredRow(done)])
    ensures store.conversations == old(store.conversations) && store.configs == old(store.configs)
  {
    ghost var before := store.Messages(id);
    var history := StoreUserMessage(store, id, userMessage);
    var picked := PickPromptAsWritten(settings, history);
    if picked.Err? {
      return [], Some(picked.error);
    }
    events := RelayAndStore(store, id, picked.value.promptId, stream(picked.value, history), decode);
    failure := None;
    ghost var done := StreamedMessage(picked.value.promptId, stream(picked.value, history), decode);
    AppendTwo(before, UserRow(userMessage), StoredRow(done));
  }

  /** The streamed content has no surrounding whitespace, and parsing it is parsing the joined deltas. */
  lemma StreamedContent(deltas: seq<string>, decode: string -> Option<Value>)
    ensures IsStripped(Strip(Join(deltas, "")))
    ensures ParseResponseText(Strip(Join(deltas, "")), decode) == ParseResponseText(Join(deltas, ""), decode)
  {
    StripProperties(Join(deltas, ""));
  }
}
