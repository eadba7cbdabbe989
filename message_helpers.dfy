/**
 * The list operations the message reducer is built from
 * (src/context/message-context/helpers.ts): the duplicate predicate,
 * append-if-unique, update-or-insert and the per-id status update.
 */
module MessageHelpers {
  import opened Wrappers
  import opened MessageTypes

  /** Two messages closer in time than this (strictly) may be the same message. */
  const DuplicateWindow: int := 5000

  function Abs(x: int): (r: nat)
    ensures r == x || r == -x
  {
    if x < 0 then -x else x
  }

  /** Same id, or same content and username with timestamps less than 5000 ms apart. */
  predicate IsDuplicateMessage(existing: MessageWithStatus, incoming: MessageWithStatus) {
    || existing.id == incoming.id
    || (&& existing.content == incoming.content
        && existing.username == incoming.username
        && Abs(existing.timestamp - incoming.timestamp) < DuplicateWindow)
  }

  lemma DuplicateSymmetric(a: MessageWithStatus, b: MessageWithStatus)
    ensures IsDuplicateMessage(a, b) <==> IsDuplicateMessage(b, a)
  {
  }

  /** Equal ids always make a duplicate; the time window is strict. */
  lemma DuplicateWindowStrict(a: MessageWithStatus, b: MessageWithStatus)
    ensures a.id == b.id ==> IsDuplicateMessage(a, b)
    ensures a.id != b.id && Abs(a.timestamp - b.timestamp) >= 5000 ==> !IsDuplicateMessage(a, b)
    ensures a.id != b.id && a.content == b.content && a.username == b.username
            ==> (IsDuplicateMessage(a, b) <==> -5000 < a.timestamp - b.timestamp < 5000)
  {
  }

  /** The duplicate test looks at the ChatMessage part only, never at status or error. */
  lemma DuplicateIgnoresStatus(a: MessageWithStatus, b: MessageWithStatus, a': MessageWithStatus, b': MessageWithStatus)
    requires Core(a) == Core(a') && Core(b) == Core(b')
    ensures IsDuplicateMessage(a, b) <==> IsDuplicateMessage(a', b')
  {
    assert a.id == a'.id && a.content == a'.content && a.username == a'.username && a.timestamp == a'.timestamp;
    assert b.id == b'.id && b.content == b'.content && b.username == b'.username && b.timestamp == b'.timestamp;
  }

  /** `messages.some((msg) => isDuplicateMessage(msg, m))`. */
  function HasDuplicate(messages: seq<MessageWithStatus>, m: MessageWithStatus): (b: bool)
    ensures b <==> exists i :: 0 <= i < |messages| && IsDuplicateMessage(messages[i], m)
  {
    if messages == [] then false
    else if IsDuplicateMessage(messages[0], m) then true
    else
      var b := HasDuplicate(messages[1..], m);
      assert forall i :: 1 <= i < |messages| ==> messages[i] == messages[1..][i - 1];
      b
  }

  /** No two entries of the list are duplicates of each other. */
  predicate NoDuplicates(messages: seq<MessageWithStatus>) {
    forall i, j :: 0 <= i < j < |messages| ==> !IsDuplicateMessage(messages[i], messages[j])
  }

  /**
   * addUniqueMessage: the list unchanged if some entry is a duplicate of the
   * new message, otherwise the list with one copy of it appended at the end.
   */
  function AddUniqueMessage(messages: seq<MessageWithStatus>, newMessage: MessageWithStatus): (r: seq<MessageWithStatus>)
    ensures (exists i :: 0 <= i < |messages| && IsDuplicateMessage(messages[i], newMessage)) ==> r == messages
    ensures (forall i :: 0 <= i < |messages| ==> !IsDuplicateMessage(messages[i], newMessage))
            ==> r == messages + [newMessage]
    ensures |messages| <= |r| <= |messages| + 1 && r[..|messages|] == messages
  {
    if HasDuplicate(messages, newMessage) then messages else messages + [newMessage]
  }

  /** Appending only what is not a duplicate keeps a duplicate-free list duplicate-free. */
  lemma AddUniquePreservesNoDuplicates(messages: seq<MessageWithStatus>, newMessage: MessageWithStatus)
    requires NoDuplicates(messages)
    ensures NoDuplicates(AddUniqueMessage(messages, newMessage))
  {
    var r := AddUniqueMessage(messages, newMessage);
    if r != messages {
      forall i, j | 0 <= i < j < |r|
        ensures !IsDuplicateMessage(r[i], r[j])
      {
        if j == |messages| {
          assert r[j] == newMessage && r[i] == messages[i];
        } else {
          assert r[i] == messages[i] && r[j] == messages[j];
        }
      }
    }
  }

  /** Adding the same message twice adds it at most once. */
  lemma AddUniqueIdempotent(messages: seq<MessageWithStatus>, newMessage: MessageWithStatus)
    ensures AddUniqueMessage(AddUniqueMessage(messages, newMessage), newMessage)
            == AddUniqueMessage(messages, newMessage)
  {
    var r := AddUniqueMessage(messages, newMessage);
    if r != messages {
      assert r[|messages|] == newMessage;
      assert IsDuplicateMessage(r[|messages|], newMessage);
    }
  }

  predicate HasId(messages: seq<MessageWithStatus>, id: string) {
    exists i :: 0 <= i < |messages| && messages[i].id == id
  }

  /**
   * `{ ...msg, ...updatedMessage, status: SENT }`: the incoming ChatMessage's fields
   * override the entry's, the status becomes SENT and the entry's error stays.
   */
  function Merged(msg: MessageWithStatus, updatedMessage: ChatMessage): (r: MessageWithStatus)
    ensures Core(r) == updatedMessage && r.status == Some(Sent) && r.error == msg.error
  {
    MessageWithStatus(updatedMessage.id, updatedMessage.username, updatedMessage.content,
                      updatedMessage.timestamp, Some(Sent), msg.error)
  }

  /** What updateMessage computes: merge into every entry with the id, or append when there is none. */
  function UpdateOrInsert(messages: seq<MessageWithStatus>, updatedMessage: ChatMessage): seq<MessageWithStatus> {
    if HasId(messages, updatedMessage.id) then
      seq(|messages|, i requires 0 <= i < |messages| =>
        if messages[i].id == updatedMessage.id then Merged(messages[i], updatedMessage) else messages[i])
    else
      messages + [FromChat(updatedMessage)]
  }

  /**
   * updateMessage: one pass over the list that merges the incoming message into
   * every entry with its id, with a `found` flag deciding whether to append instead.
   */
  method UpdateMessage(messages: seq<MessageWithStatus>, updatedMessage: ChatMessage) returns (r: seq<MessageWithStatus>)
    ensures r == UpdateOrInsert(messages, updatedMessage)
    ensures HasId(messages, updatedMessage.id) ==>
              && |r| == |messages|
              && (forall i :: 0 <= i < |messages| && messages[i].id == updatedMessage.id ==>
                    Core(r[i]) == updatedMessage && r[i].status == Some(Sent) && r[i].error == messages[i].error)
              && (forall i :: 0 <= i < |messages| && messages[i].id != updatedMessage.id ==> r[i] == messages[i])
    ensures !HasId(messages, updatedMessage.id) ==>
              r == messages + [FromChat(updatedMessage)] && r[|messages|].status == None
  {
    var found := false;
    var updated: seq<MessageWithStatus> := [];
    var i := 0;
    while i < |messages|
      invariant 0 <= i <= |messages| && |updated| == i
      invariant forall k :: 0 <= k < i ==>
                  updated[k] == if messages[k].id == updatedMessage.id then Merged(messages[k], updatedMessage) else messages[k]
      invariant found <==> exists k :: 0 <= k < i && messages[k].id == updatedMessage.id
    {
      var msg := messages[i];
      if msg.id != updatedMessage.id {
        updated := updated + [msg];
      } else {
        found := true;
        updated := updated + [Merged(msg, updatedMessage)];
      }
      i := i + 1;
    }
    if found {
      r := updated;
    } else {
      r := messages + [FromChat(updatedMessage)];
    }
  }

  /** Update-or-insert keeps every existing entry's id at its position and adds at most one entry. */
  lemma UpdateOrInsertKeepsPositions(messages: seq<MessageWithStatus>, m: ChatMessage)
    ensures var r := UpdateOrInsert(messages, m);
            && |messages| <= |r| <= |messages| + 1
            && forall i :: 0 <= i < |messages| ==> r[i].id == messages[i].id
  {
  }

  /**
   * Applying update-or-insert twice leaves the id present, and every entry with it
   * carries the incoming fields with status SENT; starting from a list without the
   * id, that is exactly one entry, at the end.
   */
  lemma UpdateOrInsertTwice(messages: seq<MessageWithStatus>, m: ChatMessage)
    ensures var r := UpdateOrInsert(UpdateOrInsert(messages, m), m);
            && HasId(r, m.id)
            && (forall i :: 0 <= i < |r| && r[i].id == m.id ==> Core(r[i]) == m && r[i].status == Some(Sent))
    ensures !HasId(messages, m.id) ==>
              UpdateOrInsert(UpdateOrInsert(messages, m), m) == messages + [MessageWithStatus(m.id, m.username, m.content, m.timestamp, Some(Sent), None)]
  {
    var once := UpdateOrInsert(messages, m);
    assert HasId(once, m.id) by {
      if HasId(messages, m.id) {
        var k :| 0 <= k < |messages| && messages[k].id == m.id;
        assert once[k].id == m.id;
      } else {
        assert once[|messages|].id == m.id;
      }
    }
    var twice := UpdateOrInsert(once, m);
    var k :| 0 <= k < |once| && once[k].id == m.id;
    assert twice[k].id == m.id;
    if !HasId(messages, m.id) {
      assert |twice| == |messages| + 1;
      forall i | 0 <= i < |twice|
        ensures twice[i] == (messages + [MessageWithStatus(m.id, m.username, m.content, m.timestamp, Some(Sent), None)])[i]
      {
        if i < |messages| {
          assert once[i] == messages[i] && messages[i].id != m.id;
        }
      }
    }
  }

  /** From the second application on, update-or-insert changes nothing more. */
  lemma UpdateOrInsertSettles(messages: seq<MessageWithStatus>, m: ChatMessage)
    ensures var twice := UpdateOrInsert(UpdateOrInsert(messages, m), m);
            UpdateOrInsert(twice, m) == twice
  {
    UpdateOrInsertTwice(messages, m);
    var twice := UpdateOrInsert(UpdateOrInsert(messages, m), m);
    var thrice := UpdateOrInsert(twice, m);
    assert |thrice| == |twice|;
    forall i | 0 <= i < |twice|
      ensures thrice[i] == twice[i]
    {
      if twice[i].id == m.id {
        assert Core(twice[i]) == m && twice[i].status == Some(Sent);
        assert twice[i] == MessageWithStatus(m.id, m.username, m.content, m.timestamp, Some(Sent), twice[i].error);
      }
    }
  }

  /**
   * The entry with a new status: `{ ...msg, status, ...(error && { error }) }`,
   * so an absent error keeps the entry's existing one.
   */
  function WithStatus(msg: MessageWithStatus, status: MessageStatus, error: Option<MessageError>): MessageWithStatus {
    msg.(status := Some(status), error := if error.Some? then error else msg.error)
  }

  /**
   * updateMessageStatus: every entry with the given id gets the status (and the
   * error, when one is given); all other entries, the length and the order stay.
   */
  function UpdateMessageStatus(messages: seq<MessageWithStatus>, id: string, status: MessageStatus,
                               error: Option<MessageError> := None): (r: seq<MessageWithStatus>)
    ensures |r| == |messages|
    ensures forall i :: 0 <= i < |messages| ==> Core(r[i]) == Core(messages[i])
    ensures forall i :: 0 <= i < |messages| && messages[i].id == id ==>
              r[i].status == Some(status) && r[i].error == (if error.Some? then error else messages[i].error)
    ensures forall i :: 0 <= i < |messages| && messages[i].id != id ==> r[i] == messages[i]
  {
    if messages == [] then []
    else
      var head := if messages[0].id == id then WithStatus(messages[0], status, error) else messages[0];
      var tail := UpdateMessageStatus(messages[1..], id, status, error);
      assert forall i :: 1 <= i < |messages| ==> messages[i] == messages[1..][i - 1];
      [head] + tail
  }

  /** An id that is not in the list leaves it equal. */
  lemma UpdateMessageStatusAbsent(messages: seq<MessageWithStatus>, id: string, status: MessageStatus, error: Option<MessageError>)
    requires !HasId(messages, id)
    ensures UpdateMessageStatus(messages, id, status, error) == messages
  {
    var r := UpdateMessageStatus(messages, id, status, error);
    assert forall i :: 0 <= i < |messages| ==> r[i] == messages[i];
  }

  /** Status updates keep a duplicate-free list duplicate-free. */
  lemma UpdateMessageStatusPreservesNoDuplicates(messages: seq<MessageWithStatus>, id: string, status: MessageStatus, error: Option<MessageError>)
    requires NoDuplicates(messages)
    ensures NoDuplicates(UpdateMessageStatus(messages, id, status, error))
  {
    var r := UpdateMessageStatus(messages, id, status, error);
    forall i, j | 0 <= i < j < |r|
      ensures !IsDuplicateMessage(r[i], r[j])
    {
      DuplicateIgnoresStatus(messages[i], messages[j], r[i], r[j]);
    }
  }

  /** Status changes are not monotone: a SENT entry can be set back to SENDING. */
  lemma UpdateMessageStatusOverwrites(m: MessageWithStatus)
    requires m.status == Some(Sent)
    ensures UpdateMessageStatus([m], m.id, Sending)[0].status == Some(Sending)
  {
  }
}
