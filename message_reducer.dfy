/**
 * The message store's transition function (src/context/message-context/reducer.ts):
 * one new state per tagged action, built from the list helpers.
 */
module MessageContextReducer {
  import opened Wrappers
  import opened MessageTypes
  import opened MessageHelpers

  const InitialMessageState: MessageState := MessageState([], false, None)

  function MessageReducer(state: MessageState, action: MessageAction): (r: MessageState)
    // busy flag: set by LOAD_START, cleared by LOAD_SUCCESS and LOAD_ERROR, otherwise kept
    ensures r.isLoading == (if action.LoadStart? then true
                            else if action.LoadSuccess? || action.LoadError? then false
                            else state.isLoading)
    // global error: cleared by LOAD_START, LOAD_SUCCESS and CLEAR_ERROR, set by LOAD_ERROR, otherwise kept
    ensures r.error == (if action.LoadStart? || action.LoadSuccess? || action.ClearError? then None
                        else if action.LoadError? then Some(action.loadError)
                        else state.error)
    // only LOAD_SUCCESS may shrink the list; every other action keeps each entry's
    // position and id and grows the list by at most one
    ensures !action.LoadSuccess? ==>
              && |state.messages| <= |r.messages| <= |state.messages| + 1
              && (forall i :: 0 <= i < |state.messages| ==> r.messages[i].id == state.messages[i].id)
    ensures action.LoadStart? || action.LoadError? || action.ClearError? || action.Unknown? ==>
              r.messages == state.messages
  {
    match action
    case LoadStart => state.(isLoading := true, error := None)
    case LoadSuccess(payload) => state.(messages := FromChatAll(payload), isLoading := false, error := None)
    case LoadError(e) => state.(isLoading := false, error := Some(e))
    case AddMessage(m) => state.(messages := AddUniqueMessage(state.messages, FromChat(m)))
    case UpdateMessage(m) =>
      UpdateOrInsertKeepsPositions(state.messages, m);
      state.(messages := UpdateOrInsert(state.messages, m))
    case SendMessage(m) => state.(messages := state.messages + [FromChat(m).(status := Some(Sending))])
    case MessageSent(id) => state.(messages := UpdateMessageStatus(state.messages, id, Sent))
    case MessageFailed(id, e) => state.(messages := UpdateMessageStatus(state.messages, id, Error, Some(e)))
    case ClearError => state.(error := None)
    case Unknown(_) => state
  }

  /** LOAD_SUCCESS replaces the list with the payload, in order, each entry without status or error. */
  lemma LoadSuccessReplaces(state: MessageState, payload: seq<ChatMessage>)
    ensures var r := MessageReducer(state, LoadSuccess(payload));
            && |r.messages| == |payload|
            && (forall i :: 0 <= i < |payload| ==>
                  Core(r.messages[i]) == payload[i] && r.messages[i].status == None && r.messages[i].error == None)
            && !r.isLoading && r.error == None
  {
  }

  /** ADD_MESSAGE drops a duplicate and appends anything else. */
  lemma AddMessageDeduplicates(state: MessageState, m: ChatMessage)
    ensures var r := MessageReducer(state, AddMessage(m));
            && ((exists i :: 0 <= i < |state.messages| && IsDuplicateMessage(state.messages[i], FromChat(m)))
                  ==> r == state)
            && ((forall i :: 0 <= i < |state.messages| ==> !IsDuplicateMessage(state.messages[i], FromChat(m)))
                  ==> r.messages == state.messages + [FromChat(m)])
  {
  }

  /**
   * SEND_MESSAGE appends exactly one entry carrying the payload with status SENDING,
   * leaves every earlier entry, the busy flag and the error alone, and does not deduplicate.
   */
  lemma SendMessageAppends(state: MessageState, m: ChatMessage)
    ensures var r := MessageReducer(state, SendMessage(m));
            && |r.messages| == |state.messages| + 1
            && r.messages[..|state.messages|] == state.messages
            && Core(r.messages[|state.messages|]) == m
            && r.messages[|state.messages|].status == Some(Sending)
            && r.messages[|state.messages|].error == None
            && r.isLoading == state.isLoading && r.error == state.error
  {
  }

  /**
   * MESSAGE_SENT and MESSAGE_ERROR change only the status (and, for MESSAGE_ERROR,
   * the error) of the entries with the matching id.
   */
  lemma StatusActionsTouchOnlyMatchingId(state: MessageState, id: string, e: MessageError)
    ensures var sent := MessageReducer(state, MessageSent(id));
            && |sent.messages| == |state.messages|
            && (forall i :: 0 <= i < |state.messages| ==>
                  if state.messages[i].id == id
                  then sent.messages[i] == state.messages[i].(status := Some(Sent))
                  else sent.messages[i] == state.messages[i])
            && sent.isLoading == state.isLoading && sent.error == state.error
    ensures var failed := MessageReducer(state, MessageFailed(id, e));
            && |failed.messages| == |state.messages|
            && (forall i :: 0 <= i < |state.messages| ==>
                  if state.messages[i].id == id
                  then failed.messages[i] == state.messages[i].(status := Some(Error), error := Some(e))
                  else failed.messages[i] == state.messages[i])
            && failed.isLoading == state.isLoading && failed.error == state.error
  {
    var sent := MessageReducer(state, MessageSent(id)).messages;
    var failed := MessageReducer(state, MessageFailed(id, e)).messages;
    forall i | 0 <= i < |state.messages| && state.messages[i].id == id
      ensures sent[i] == state.messages[i].(status := Some(Sent))
      ensures failed[i] == state.messages[i].(status := Some(Error), error := Some(e))
    {
      var m := state.messages[i];
      assert Core(sent[i]) == Core(m);
      assert sent[i].id == m.id && sent[i].username == m.username && sent[i].content == m.content && sent[i].timestamp == m.timestamp;
      assert Core(failed[i]) == Core(m);
      assert failed[i].id == m.id && failed[i].username == m.username && failed[i].content == m.content && failed[i].timestamp == m.timestamp;
    }
  }

  /** CLEAR_ERROR clears only the error; an unknown tag returns the state itself. */
  lemma ClearErrorAndDefault(state: MessageState, kind: string)
    ensures MessageReducer(state, ClearError) == state.(error := None)
    ensures MessageReducer(state, Unknown(kind)) == state
  {
  }

  /** Every action except SEND_MESSAGE, UPDATE_MESSAGE and LOAD_SUCCESS keeps a duplicate-free list duplicate-free. */
  lemma ReducerPreservesNoDuplicates(state: MessageState, action: MessageAction)
    requires NoDuplicates(state.messages)
    requires !action.SendMessage? && !action.UpdateMessage? && !action.LoadSuccess?
    ensures NoDuplicates(MessageReducer(state, action).messages)
  {
    match action
    case AddMessage(m) => AddUniquePreservesNoDuplicates(state.messages, FromChat(m));
    case MessageSent(id) => UpdateMessageStatusPreservesNoDuplicates(state.messages, id, Sent, None);
    case MessageFailed(id, e) => UpdateMessageStatusPreservesNoDuplicates(state.messages, id, Error, Some(e));
    case _ =>
  }

  /** SEND_MESSAGE does not deduplicate: sending the same text twice within 5000 ms yields two duplicates. */
  lemma SendMessageMayDuplicate(id1: string, id2: string, username: string, content: string, t: int)
    ensures var s1 := MessageReducer(InitialMessageState, SendMessage(ChatMessage(id1, username, content, t)));
            var s2 := MessageReducer(s1, SendMessage(ChatMessage(id2, username, content, t)));
            |s2.messages| == 2 && !NoDuplicates(s2.messages)
  {
    var s1 := MessageReducer(InitialMessageState, SendMessage(ChatMessage(id1, username, content, t)));
    var s2 := MessageReducer(s1, SendMessage(ChatMessage(id2, username, content, t)));
    assert IsDuplicateMessage(s2.messages[0], s2.messages[1]);
  }
}
