/**
 * The persistence the core reads and writes: each conversation's session
 * blob (the `config_json` column) and its message rows. Identifiers,
 * timestamps and SQL are not modelled; rows are kept in insertion order.
 */
module ConversationStore {
  import opened Json

  /** One `{role, content}` entry of the chat history handed to the completion service. */
  datatype ChatMessage = ChatMessage(role: string, content: string)

  /** A message row: role, content, the decoded reply (`response`) and the metadata. */
  datatype MessageRecord = MessageRecord(role: string, content: string, response: Value, metadata: Value)

  /** The row as read back: a falsy reply is written as NULL. */
  function StoredRow(msg: MessageRecord): (row: MessageRecord)
    ensures row.role == msg.role && row.content == msg.content && row.metadata == msg.metadata
    ensures Truthy(msg.response) ==> row.response == msg.response
    ensures !Truthy(msg.response) ==> row.response == Null
  {
    msg.(response := if Truthy(msg.response) then msg.response else Null)
  }

  class Store {
    /** The conversations that have a row. */
    var conversations: set<string>
    /** The decoded `config_json` of the conversations whose column is set. */
    var configs: map<string, Value>
    /** The message rows of each conversation, oldest first, as read back. */
    var messages: map<string, seq<MessageRecord>>

    constructor (conversations: set<string>)
      ensures this.conversations == conversations && configs == map[] && messages == map[]
    {
      this.conversations := conversations;
      configs := map[];
      messages := map[];
    }

    /** `get_session_state(id)`: the stored blob, or `{}` when there is no row or no blob. */
    function SessionBlob(id: string): (v: Value)
      reads this
      ensures id !in conversations || id !in configs ==> v == Obj(map[])
      ensures id in conversations && id in configs ==> v == configs[id]
    {
      if id in conversations && id in configs then configs[id] else Obj(map[])
    }

    /** The rows of one conversation, oldest first. */
    function Messages(id: string): seq<MessageRecord>
      reads this
    {
      if id in messages then messages[id] else []
    }

    /** `get_conversation_history(id)`: the rows' roles and contents, oldest first. */
    function History(id: string): (h: seq<ChatMessage>)
      reads this
      ensures |h| == |Messages(id)|
      ensures forall i :: 0 <= i < |h| ==>
        h[i].role == Messages(id)[i].role && h[i].content == Messages(id)[i].content
    {
      var rows := Messages(id);
      seq(|rows|, i requires 0 <= i < |rows| => ChatMessage(rows[i].role, rows[i].content))
    }

    /**
     * `update_session_state(id, blob)`: an UPDATE by id, so a conversation
     * without a row is left as it was; nothing else changes.
     */
    method UpdateSessionState(id: string, blob: Value)
      modifies this
      ensures id in conversations ==> configs == old(configs)[id := blob]
      ensures id !in conversations ==> configs == old(configs)
      ensures conversations == old(conversations) && messages == old(messages)
      ensures id in conversations ==> SessionBlob(id) == blob
      ensures forall other :: other != id ==> SessionBlob(other) == old(SessionBlob(other))
    {
      if id in conversations {
        configs := configs[id := blob];
      }
    }

    /**
     * `add_message`: appends a row whose reply is kept only when truthy and
     * whose metadata defaults to `{}`; the returned message carries the reply
     * as given.
     */
    method AddMessage(id: string, role: string, content: string, response: Value, metadata: Value)
      returns (msg: MessageRecord)
      modifies this
      ensures msg == MessageRecord(role, content, response, if Truthy(metadata) then metadata else Obj(map[]))
      ensures Messages(id) == old(Messages(id)) + [StoredRow(msg)]
      ensures History(id) == old(History(id)) + [ChatMessage(role, content)]
      ensures forall other :: other != id ==> Messages(other) == old(Messages(other))
      ensures conversations == old(conversations) && configs == old(configs)
    {
      msg := MessageRecord(role, content, response, if Truthy(metadata) then metadata else Obj(map[]));
      messages := messages[id := Messages(id) + [StoredRow(msg)]];
    }
  }
}
