/**
 * MessageProvider (src/context/message-context/context.tsx): the store that
 * sequences reducer actions for the history load, the optimistic send and the
 * live-message listener. The history fetch and the socket send are outcomes
 * given as parameters; `Date.now()` readings are parameters too.
 */
module MessageProvider {
  import opened Wrappers
  import opened Text
  import opened MessageTypes
  import opened MessageHelpers
  import opened MessageContextReducer
  import A = MessageActions

  /** The state after dispatching the actions in order. */
  function Run(state: MessageState, actions: seq<MessageAction>): MessageState
    decreases |actions|
  {
    if actions == [] then state else Run(MessageReducer(state, actions[0]), actions[1..])
  }

  lemma {:induction false} RunAppend(state: MessageState, actions: seq<MessageAction>, action: MessageAction)
    ensures Run(state, actions + [action]) == MessageReducer(Run(state, actions), action)
    decreases |actions|
  {
    if actions == [] {
      assert [action][1..] == [];
    } else {
      assert (actions + [action])[1..] == actions[1..] + [action];
      RunAppend(MessageReducer(state, actions[0]), actions[1..], action);
    }
  }

  /** The per-message error recorded when the transport's send throws. */
  const SendFailure: MessageError := MessageError("Error sending message", Some("ERR_SEND_MESSAGE"))

  /** The temporary id `temp-<Date.now()>` of an optimistic entry. */
  function TempId(now: nat): (id: string)
    ensures |id| > 5 && id[..5] == "temp-" && id[5..] == NatToString(now)
  {
    "temp-" + NatToString(now)
  }

  /** What loadMessages dispatches for a fetch outcome when nothing runs during the fetch. */
  function LoadMessagesActions(fetched: Result<seq<ChatMessage>, MessageError>): seq<MessageAction> {
    match fetched
    case Success(ms) => [A.LoadStart(), A.LoadSuccess(ms)]
    case Failure(e) => [A.LoadStart(), A.LoadError(e)]
  }

  /** What handleSendMessage dispatches, given the two `Date.now()` readings and whether the send throws. */
  function SendMessageActions(username: string, content: string, idTime: nat, timestamp: int,
                              sendThrows: bool): seq<MessageAction>
  {
    var tempId := TempId(idTime);
    [A.SendMessage(tempId, username, content, timestamp),
     if sendThrows then A.MessageError(tempId, SendFailure) else A.MessageSent(tempId)]
  }

  /** A successful load ends with exactly the fetched list, not busy and without error. */
  lemma LoadMessagesOnSuccess(state: MessageState, fetched: seq<ChatMessage>)
    ensures var r := Run(state, LoadMessagesActions(Success(fetched)));
            && r.messages == FromChatAll(fetched)
            && !r.isLoading && r.error == None
  {
    RunAppend(state, [A.LoadStart()], A.LoadSuccess(fetched));
    assert [A.LoadStart()] + [A.LoadSuccess(fetched)] == LoadMessagesActions(Success(fetched));
  }

  /** A failed load keeps the list, ends not busy and records the caught error. */
  lemma LoadMessagesOnFailure(state: MessageState, e: MessageError)
    ensures var r := Run(state, LoadMessagesActions(Failure(e)));
            && r.messages == state.messages
            && !r.isLoading && r.error == Some(e)
  {
    RunAppend(state, [A.LoadStart()], A.LoadError(e));
    assert [A.LoadStart()] + [A.LoadError(e)] == LoadMessagesActions(Failure(e));
  }

  /**
   * handleSendMessage appends exactly one entry (temporary id, the given username,
   * content and timestamp); it ends SENT when the transport does not throw and ERROR
   * with the send failure when it does. Entries with other ids, the busy flag and the
   * global error are untouched.
   */
  lemma HandleSendMessageOutcome(state: MessageState, username: string, content: string,
                                 idTime: nat, timestamp: int, sendThrows: bool)
    ensures var r := Run(state, SendMessageActions(username, content, idTime, timestamp, sendThrows));
            var n := |state.messages|;
            && |r.messages| == n + 1
            && Core(r.messages[n]) == ChatMessage(TempId(idTime), username, content, timestamp)
            && r.messages[n].status == Some(if sendThrows then Error else Sent)
            && r.messages[n].error == (if sendThrows then Some(SendFailure) else None)
            && (forall i :: 0 <= i < n && state.messages[i].id != TempId(idTime) ==> r.messages[i] == state.messages[i])
            && r.isLoading == state.isLoading && r.error == state.error
  {
    var tempId := TempId(idTime);
    var second := if sendThrows then A.MessageError(tempId, SendFailure) else A.MessageSent(tempId);
    RunAppend(state, [A.SendMessage(tempId, username, content, timestamp)], second);
    assert [A.SendMessage(tempId, username, content, timestamp)] + [second]
        == SendMessageActions(username, content, idTime, timestamp, sendThrows);
    var s1 := MessageReducer(state, A.SendMessage(tempId, username, content, timestamp));
    SendMessageAppends(state, ChatMessage(tempId, username, content, timestamp));
    assert s1.messages[|state.messages|].id == tempId;
  }

  /**
   * A server echo of an optimistic send (same username and content, less than 5000 ms
   * apart, any id) is dropped by the live listener's ADD_MESSAGE: the state, and so
   * the temporary entry, stay as they are.
   */
  lemma LiveEchoDropped(state: MessageState, username: string, content: string, idTime: nat,
                        timestamp: int, sendThrows: bool, echo: ChatMessage)
    requires echo.username == username && echo.content == content
    requires Abs(echo.timestamp - timestamp) < DuplicateWindow
    ensures var sent := Run(state, SendMessageActions(username, content, idTime, timestamp, sendThrows));
            MessageReducer(sent, A.AddMessage(echo)) == sent
  {
    HandleSendMessageOutcome(state, username, content, idTime, timestamp, sendThrows);
    var sent := Run(state, SendMessageActions(username, content, idTime, timestamp, sendThrows));
    var n := |state.messages|;
    assert sent.messages[n].username == username && sent.messages[n].content == content;
    assert sent.messages[n].timestamp == timestamp;
    assert IsDuplicateMessage(sent.messages[n], FromChat(echo));
  }

  /**
   * loadMessages awaits the fetch between its two dispatches, so other actions (a live
   * message, a send) can run in between. A successful load then replaces whatever they
   * did: the list is exactly the fetched one.
   */
  lemma LoadSuccessDiscardsInterleaved(state: MessageState, between: seq<MessageAction>, fetched: seq<ChatMessage>)
    ensures var r := Run(state, [A.LoadStart()] + between + [A.LoadSuccess(fetched)]);
            r.messages == FromChatAll(fetched) && !r.isLoading && r.error == None
  {
    RunAppend(state, [A.LoadStart()] + between, A.LoadSuccess(fetched));
  }

  /** A failed load keeps the list as the interleaved actions left it, not as it was at the start. */
  lemma LoadFailureKeepsInterleaved(state: MessageState, between: seq<MessageAction>, e: MessageError)
    ensures var mid := Run(state, [A.LoadStart()] + between);
            var r := Run(state, [A.LoadStart()] + between + [A.LoadError(e)]);
            r.messages == mid.messages && !r.isLoading && r.error == Some(e)
  {
    RunAppend(state, [A.LoadStart()] + between, A.LoadError(e));
  }

  /**
   * A live message that arrives while the history is being fetched is shown, and is gone
   * once the fetch succeeds without it.
   */
  lemma LiveMessageDuringLoadLost(state: MessageState, m: ChatMessage, fetched: seq<ChatMessage>)
    requires forall i :: 0 <= i < |state.messages| ==> !IsDuplicateMessage(state.messages[i], FromChat(m))
    requires m !in fetched
    ensures FromChat(m) in Run(state, [A.LoadStart(), A.AddMessage(m)]).messages
    ensures FromChat(m) !in Run(state, [A.LoadStart(), A.AddMessage(m), A.LoadSuccess(fetched)]).messages
  {
    RunAppend(state, [A.LoadStart()], A.AddMessage(m));
    assert [A.LoadStart()] + [A.AddMessage(m)] == [A.LoadStart(), A.AddMessage(m)];
    var mid := Run(state, [A.LoadStart(), A.AddMessage(m)]);
    assert mid.messages == state.messages + [FromChat(m)];
    assert mid.messages[|state.messages|] == FromChat(m);
    LoadSuccessDiscardsInterleaved(state, [A.AddMessage(m)], fetched);
    assert [A.LoadStart()] + [A.AddMessage(m)] + [A.LoadSuccess(fetched)]
        == [A.LoadStart(), A.AddMessage(m), A.LoadSuccess(fetched)];
  }

  /** The store object: the reducer state, plus the log of dispatched actions. */
  class MessageProvider {
    var state: MessageState
    ghost var dispatched: seq<MessageAction>
    /** Whether the live-message listener is subscribed (the mount effect ran and did not throw). */
    var listening: bool
    /** History fetches started and not yet settled. */
    var pendingLoads: nat

    /** The actions dispatched so far explain the state. */
    ghost predicate Valid()
      reads this
    {
      state == Run(InitialMessageState, dispatched)
    }

    constructor ()
      ensures Valid() && state == InitialMessageState && dispatched == [] && !listening && pendingLoads == 0
    {
      state := InitialMessageState;
      dispatched := [];
      listening := false;
      pendingLoads := 0;
    }

    method Dispatch(action: MessageAction)
      requires Valid()
      modifies this
      ensures Valid()
      ensures state == MessageReducer(old(state), action)
      ensures dispatched == old(dispatched) + [action]
      ensures listening == old(listening) && pendingLoads == old(pendingLoads)
    {
      RunAppend(InitialMessageState, dispatched, action);
      state := MessageReducer(state, action);
      dispatched := dispatched + [action];
    }

    /** loadMessages up to its await: LOAD_START, and the fetch is now pending. */
    method LoadMessagesStart()
      requires Valid()
      modifies this
      ensures Valid()
      ensures state == MessageReducer(old(state), A.LoadStart())
      ensures dispatched == old(dispatched) + [A.LoadStart()]
      ensures listening == old(listening) && pendingLoads == old(pendingLoads) + 1
    {
      Dispatch(A.LoadStart());
      pendingLoads := pendingLoads + 1;
    }

    /**
     * loadMessages after its await: LOAD_SUCCESS with the fetched list or LOAD_ERROR
     * with the caught error, applied to the state as it is now.
     */
    method LoadMessagesSettled(fetched: Result<seq<ChatMessage>, MessageError>)
      requires Valid() && pendingLoads > 0
      modifies this
      ensures Valid()
      ensures fetched.Success? ==> state == MessageReducer(old(state), A.LoadSuccess(fetched.value))
                                   && dispatched == old(dispatched) + [A.LoadSuccess(fetched.value)]
      ensures fetched.Failure? ==> state == MessageReducer(old(state), A.LoadError(fetched.error))
                                   && dispatched == old(dispatched) + [A.LoadError(fetched.error)]
      ensures listening == old(listening) && pendingLoads == old(pendingLoads) - 1
    {
      match fetched {
        case Success(ms) => Dispatch(A.LoadSuccess(ms));
        case Failure(e) => Dispatch(A.LoadError(e));
      }
      pendingLoads := pendingLoads - 1;
    }

    /**
     * handleSendMessage: the optimistic SEND_MESSAGE with a temporary id, then
     * MESSAGE_SENT, or MESSAGE_ERROR when the transport's send throws.
     */
    method HandleSendMessage(username: string, content: string, idTime: nat, timestamp: int, sendThrows: bool)
      requires Valid()
      modifies this
      ensures Valid()
      ensures dispatched == old(dispatched) + SendMessageActions(username, content, idTime, timestamp, sendThrows)
      ensures state == Run(old(state), SendMessageActions(username, content, idTime, timestamp, sendThrows))
      ensures listening == old(listening) && pendingLoads == old(pendingLoads)
    {
      ghost var before := state;
      var tempId := TempId(idTime);
      Dispatch(A.SendMessage(tempId, username, content, timestamp));
      if sendThrows {
        Dispatch(A.MessageError(tempId, SendFailure));
      } else {
        Dispatch(A.MessageSent(tempId));
      }
      var acts := SendMessageActions(username, content, idTime, timestamp, sendThrows);
      assert acts == [acts[0]] + [acts[1]];
      RunAppend(before, [acts[0]], acts[1]);
    }

    method ClearError()
      requires Valid()
      modifies this
      ensures Valid()
      ensures state == old(state).(error := None)
      ensures dispatched == old(dispatched) + [A.ClearError()]
      ensures listening == old(listening) && pendingLoads == old(pendingLoads)
    {
      Dispatch(A.ClearError());
    }

    /** The mount effect: subscribe the live listener; a throwing subscription is only logged. */
    method Subscribe(subscribeThrows: bool)
      requires Valid()
      modifies this`listening
      ensures Valid()
      ensures listening == !subscribeThrows
    {
      listening := !subscribeThrows;
    }

    /** The effect's cleanup: unsubscribe the listener. */
    method Unsubscribe()
      requires Valid()
      modifies this`listening
      ensures Valid() && !listening
    {
      listening := false;
    }

    /** A live message reaches the subscribed listener, which dispatches ADD_MESSAGE. */
    method ReceiveLiveMessage(message: ChatMessage)
      requires Valid()
      modifies this
      ensures Valid()
      ensures listening ==> state == MessageReducer(old(state), A.AddMessage(message))
                            && dispatched == old(dispatched) + [A.AddMessage(message)]
      ensures !listening ==> state == old(state) && dispatched == old(dispatched)
      ensures listening == old(listening) && pendingLoads == old(pendingLoads)
    {
      if listening {
        Dispatch(A.AddMessage(message));
      }
    }
  }
}
