/**
 * The chat message entities and the message store's state and actions
 * (src/types/message.ts and src/context/message-context/types.ts).
 */
module MessageTypes {
  import opened Wrappers

  /** A message as the server and the transport deliver it. */
  datatype ChatMessage = ChatMessage(id: string, username: string, content: string, timestamp: int)

  /** A structured error; `code` is optional. */
  datatype MessageError = MessageError(message: string, code: Option<string>)

  /** Delivery status of a locally sent message. */
  datatype MessageStatus = Sending | Sent | Error

  /** A message in the store: a ChatMessage with an optional status and an optional error. */
  datatype MessageWithStatus = MessageWithStatus(
    id: string,
    username: string,
    content: string,
    timestamp: int,
    status: Option<MessageStatus>,
    error: Option<MessageError>)

  /** `{ ...message }` for a ChatMessage: a store entry with neither status nor error. */
  function FromChat(m: ChatMessage): (r: MessageWithStatus)
    ensures Core(r) == m && r.status == None && r.error == None
  {
    MessageWithStatus(m.id, m.username, m.content, m.timestamp, None, None)
  }

  /** The ChatMessage part of a store entry. */
  function Core(m: MessageWithStatus): ChatMessage {
    ChatMessage(m.id, m.username, m.content, m.timestamp)
  }

  /** `payload.map((msg) => ({ ...msg }))` for a list of ChatMessages. */
  function FromChatAll(ms: seq<ChatMessage>): (r: seq<MessageWithStatus>)
    ensures |r| == |ms|
    ensures forall i :: 0 <= i < |ms| ==> r[i] == FromChat(ms[i])
  {
    if ms == [] then [] else [FromChat(ms[0])] + FromChatAll(ms[1..])
  }

  /** The state of the message store. */
  datatype MessageState = MessageState(
    messages: seq<MessageWithStatus>,
    isLoading: bool,
    error: Option<MessageError>)

  /**
   * The tagged actions the message reducer accepts, one constructor per
   * MessageReducerAction tag; `Unknown` stands for any other tag, which the
   * reducer's `default` branch handles.
   */
  datatype MessageAction =
    | LoadStart
    | LoadSuccess(messages: seq<ChatMessage>)
    | LoadError(loadError: MessageError)
    | AddMessage(message: ChatMessage)
    | UpdateMessage(message: ChatMessage)
    | SendMessage(message: ChatMessage)
    | MessageSent(sentId: string)
    | MessageFailed(failedId: string, failure: MessageError)  // MESSAGE_ERROR
    | ClearError
    | Unknown(kind: string)
}
