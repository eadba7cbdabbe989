/**
 * The action builders of the message store (src/context/message-context/actions.ts).
 * Each wraps its arguments, unchanged, under its tag.
 */
module MessageActions {
  import opened Wrappers
  import T = MessageTypes

  function LoadStart(): (a: T.MessageAction)
    ensures a.LoadStart?
  {
    T.LoadStart
  }

  function LoadSuccess(messages: seq<T.ChatMessage>): (a: T.MessageAction)
    ensures a.LoadSuccess? && a.messages == messages
  {
    T.LoadSuccess(messages)
  }

  function LoadError(error: T.MessageError): (a: T.MessageAction)
    ensures a.LoadError? && a.loadError == error
  {
    T.LoadError(error)
  }

  function AddMessage(message: T.ChatMessage): (a: T.MessageAction)
    ensures a.AddMessage? && a.message == message
  {
    T.AddMessage(message)
  }

  function UpdateMessage(message: T.ChatMessage): (a: T.MessageAction)
    ensures a.UpdateMessage? && a.message == message
  {
    T.UpdateMessage(message)
  }

  /** The payload is exactly the four given fields. */
  function SendMessage(id: string, username: string, content: string, timestamp: int): (a: T.MessageAction)
    ensures a.SendMessage?
    ensures a.message.id == id && a.message.username == username
    ensures a.message.content == content && a.message.timestamp == timestamp
  {
    T.SendMessage(T.ChatMessage(id, username, content, timestamp))
  }

  function MessageSent(id: string): (a: T.MessageAction)
    ensures a.MessageSent? && a.sentId == id
  {
    T.MessageSent(id)
  }

  function MessageError(id: string, error: T.MessageError): (a: T.MessageAction)
    ensures a.MessageFailed? && a.failedId == id && a.failure == error
  {
    T.MessageFailed(id, error)
  }

  function ClearError(): (a: T.MessageAction)
    ensures a.ClearError?
  {
    T.ClearError
  }

  /** The builders lose nothing: equal actions come from equal arguments. */
  lemma SendMessageInjective(id: string, username: string, content: string, timestamp: int,
                             id': string, username': string, content': string, timestamp': int)
    requires SendMessage(id, username, content, timestamp) == SendMessage(id', username', content', timestamp')
    ensures id == id' && username == username' && content == content' && timestamp == timestamp'
  {
  }
}
