/**
 * The message composer (src/components/message-input/hooks.ts): the text being
 * typed and a local busy flag that blocks a second send until a reset timer fires.
 * `onSend` and the timer are outside the model: whether `onSend` throws is a
 * parameter, the scheduled 300 ms reset is a counter, and its expiry is an event.
 */
module MessageInput {
  import opened Wrappers
  import opened Text

  /** What handleSubmit passes to `onSend`, or None when it does nothing. */
  function SubmitTarget(message: string, isSubmittingMessage: bool): (r: Option<string>)
    // nothing is sent while busy or when the text is blank
    ensures r.Some? <==> !isSubmittingMessage && !AllWhitespace(message)
    // what is sent is non-blank and carries no surrounding whitespace
    ensures r.Some? ==> r.value != [] && !IsWhitespace(r.value[0]) && !IsWhitespace(r.value[|r.value| - 1])
    ensures r.Some? ==> |r.value| <= |message|
  {
    var trimmed := Trim(message);
    if trimmed == "" || isSubmittingMessage then None else Some(trimmed)
  }

  /** The text sent is the typed text with its surrounding whitespace cut off; `a` is where it starts. */
  lemma SubmitTargetIsTrimmedInfix(message: string, isSubmittingMessage: bool) returns (a: nat)
    requires SubmitTarget(message, isSubmittingMessage).Some?
    ensures var v := SubmitTarget(message, isSubmittingMessage).value;
            && a + |v| <= |message| && v == message[a..a + |v|]
            && AllWhitespace(message[..a]) && AllWhitespace(message[a + |v|..])
  {
    a := TrimIsInfix(message);
  }

  /** Only Enter without Shift submits the form. */
  predicate IsSubmitKey(key: string, shiftKey: bool) {
    key == "Enter" && !shiftKey
  }

  class MessageInput {
    var message: string
    var isSubmittingMessage: bool
    /** Reset timers scheduled and not yet fired. */
    var pendingResets: nat
    /** The texts handed to `onSend`, in order (including calls that threw). */
    var sent: seq<string>

    /** At most one reset is pending, and only while the busy flag is up. */
    predicate Valid()
      reads this
    {
      pendingResets <= 1 && (pendingResets == 1 ==> isSubmittingMessage)
    }

    /** The busy flag starts from the `isSubmitting` prop (false by default). */
    constructor (isSubmitting: bool)
      ensures Valid()
      ensures message == "" && isSubmittingMessage == isSubmitting && pendingResets == 0 && sent == []
    {
      message := "";
      isSubmittingMessage := isSubmitting;
      pendingResets := 0;
      sent := [];
    }

    method SetMessage(value: string)
      requires Valid()
      modifies this`message
      ensures Valid() && message == value
    {
      message := value;
    }

    /**
     * Send the trimmed text once, raise the busy flag and schedule its reset; the
     * text is cleared only when `onSend` returns normally. A blank text or a busy
     * flag makes it a no-op.
     */
    method HandleSubmit(onSendThrows: bool)
      requires Valid()
      modifies this
      ensures Valid()
      ensures SubmitTarget(old(message), old(isSubmittingMessage)).None? ==>
                && message == old(message) && isSubmittingMessage == old(isSubmittingMessage)
                && pendingResets == old(pendingResets) && sent == old(sent)
      ensures SubmitTarget(old(message), old(isSubmittingMessage)).Some? ==>
                && sent == old(sent) + [Trim(old(message))]
                && isSubmittingMessage && pendingResets == old(pendingResets) + 1
                && message == (if onSendThrows then old(message) else "")
    {
      var trimmed := Trim(message);
      if trimmed == "" || isSubmittingMessage {
        return;
      }
      isSubmittingMessage := true;
      sent := sent + [trimmed];
      if !onSendThrows {
        message := "";
      }
      pendingResets := pendingResets + 1;
    }

    /** The scheduled reset fires and lowers the busy flag. */
    method TimerFires()
      requires Valid() && pendingResets > 0
      modifies this`isSubmittingMessage, this`pendingResets
      ensures Valid()
      ensures !isSubmittingMessage && pendingResets == old(pendingResets) - 1
    {
      isSubmittingMessage := false;
      pendingResets := pendingResets - 1;
    }

    /**
     * Enter without Shift prevents the default action and submits the enclosing
     * form, when there is one; any other key does nothing.
     */
    method HandleKeyDown(key: string, shiftKey: bool, hasForm: bool, onSendThrows: bool)
      returns (prevented: bool)
      requires Valid()
      modifies this
      ensures Valid()
      ensures prevented <==> IsSubmitKey(key, shiftKey)
      ensures !(IsSubmitKey(key, shiftKey) && hasForm) ==>
                && message == old(message) && isSubmittingMessage == old(isSubmittingMessage)
                && pendingResets == old(pendingResets) && sent == old(sent)
      // the form's submit event runs handleSubmit: one send, or nothing for blank text or a busy flag
      ensures IsSubmitKey(key, shiftKey) && hasForm && SubmitTarget(old(message), old(isSubmittingMessage)).Some? ==>
                && sent == old(sent) + [Trim(old(message))]
                && isSubmittingMessage && pendingResets == old(pendingResets) + 1
                && message == (if onSendThrows then old(message) else "")
      ensures IsSubmitKey(key, shiftKey) && hasForm && SubmitTarget(old(message), old(isSubmittingMessage)).None? ==>
                && message == old(message) && isSubmittingMessage == old(isSubmittingMessage)
                && pendingResets == old(pendingResets) && sent == old(sent)
    {
      prevented := IsSubmitKey(key, shiftKey);
      if prevented && hasForm {
        HandleSubmit(onSendThrows);
      }
    }
  }

  /**
   * While the busy flag is up nothing is sent, so a second submit before the reset
   * fires cannot send the text twice.
   */
  method SecondSubmitBeforeResetSendsNothing(text: string, onSendThrows: bool) returns (input: MessageInput)
    ensures fresh(input) && input.Valid()
    ensures !AllWhitespace(text) ==> input.sent == [Trim(text)] && input.isSubmittingMessage
    ensures AllWhitespace(text) ==> input.sent == []
  {
    input := new MessageInput(false);
    input.SetMessage(text);
    input.HandleSubmit(onSendThrows);
    input.HandleSubmit(onSendThrows);
  }
}
