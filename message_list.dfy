/**
 * Scroll bookkeeping of the message list (src/components/message-list/hooks.ts):
 * scroll to the end when the list grows, record the content height when older
 * messages start loading and restore the reading position when they arrive, and
 * the guard that asks for older messages near the top. The DOM facts (whether the
 * container and the end marker exist, `scrollHeight`, `scrollTop`) are fields set
 * by layout events; `scrollIntoView` calls are logged.
 */
module MessageList {
  import opened Wrappers
  import opened MessageTypes

  /** CHAT_CONSTANTS.SCROLL_THRESHOLD (src/constants/chat.ts), in pixels. */
  const ScrollThreshold: int := 50

  datatype ScrollBehavior = Auto | Smooth

  /** The scroll the messages effect asks for, given the length it saw last time. */
  function ScrollOnChange(prevLength: nat, messages: seq<MessageWithStatus>): (r: Option<ScrollBehavior>)
    // only growth scrolls
    ensures r.Some? <==> |messages| > prevLength
    // the first non-empty list, or a last entry still SENDING, jumps; other growth glides
    ensures r == Some(Auto) <==>
              |messages| > prevLength && (prevLength == 0 || messages[|messages| - 1].status == Some(Sending))
    ensures r == Some(Smooth) <==>
              |messages| > prevLength && prevLength != 0 && messages[|messages| - 1].status != Some(Sending)
  {
    if |messages| > 0 && prevLength == 0 then Some(Auto)
    else if |messages| > prevLength then
      Some(if messages[|messages| - 1].status == Some(Sending) then Auto else Smooth)
    else None
  }

  /** handleScroll's guard: ask for older messages only near the top, and never while loading or when there is no more. */
  predicate ShouldLoadPrevious(hasContainer: bool, isLoadingPrevious: bool, hasMore: bool, hasCallback: bool, scrollTop: int) {
    hasContainer && !isLoadingPrevious && hasMore && hasCallback && scrollTop < ScrollThreshold
  }

  /** While older messages load, or when there are none, nothing more is requested. */
  lemma NoRequestWhileLoadingOrExhausted(hasContainer: bool, isLoadingPrevious: bool, hasMore: bool,
                                         hasCallback: bool, scrollTop: int)
    requires isLoadingPrevious || !hasMore
    ensures !ShouldLoadPrevious(hasContainer, isLoadingPrevious, hasMore, hasCallback, scrollTop)
  {
  }

  /** The threshold is strict, and being closer to the top never cancels a request. */
  lemma ScrollThresholdStrict(hasContainer: bool, hasCallback: bool, top: int, top': int)
    requires top' <= top
    ensures !ShouldLoadPrevious(hasContainer, false, true, hasCallback, ScrollThreshold)
    ensures ShouldLoadPrevious(true, false, true, true, ScrollThreshold - 1)
    ensures ShouldLoadPrevious(hasContainer, false, true, hasCallback, top) ==>
              ShouldLoadPrevious(hasContainer, false, true, hasCallback, top')
  {
  }

  class ScrollManager {
    /** prevMessagesLengthRef */
    var prevMessagesLength: nat
    /** prevScrollHeightRef */
    var prevScrollHeight: nat
    var hasContainer: bool
    var hasEnd: bool
    var scrollTop: nat
    var scrollHeight: nat
    /** The `scrollIntoView` calls made on the end marker, in order. */
    var scrolls: seq<ScrollBehavior>

    /** Both refs start at 0; nothing is mounted yet. */
    constructor ()
      ensures prevMessagesLength == 0 && prevScrollHeight == 0 && scrolls == []
      ensures !hasContainer && !hasEnd && scrollTop == 0 && scrollHeight == 0
    {
      prevMessagesLength := 0;
      prevScrollHeight := 0;
      hasContainer := false;
      hasEnd := false;
      scrollTop := 0;
      scrollHeight := 0;
      scrolls := [];
    }

    /** A layout event: the rendered DOM (container, end marker and content height). */
    method Layout(container: bool, end: bool, height: nat)
      modifies this`hasContainer, this`hasEnd, this`scrollHeight
      ensures hasContainer == container && hasEnd == end && scrollHeight == height
    {
      hasContainer := container;
      hasEnd := end;
      scrollHeight := height;
    }

    /** The user scrolls the container. */
    method UserScroll(top: nat)
      modifies this`scrollTop
      ensures scrollTop == top
    {
      scrollTop := top;
    }

    /**
     * The messages effect: scroll to the end as ScrollOnChange says (when the end
     * marker exists), then remember the current length.
     */
    method OnMessagesChange(messages: seq<MessageWithStatus>)
      modifies this`prevMessagesLength, this`scrolls
      ensures prevMessagesLength == |messages|
      ensures var r := ScrollOnChange(old(prevMessagesLength), messages);
              scrolls == old(scrolls) + (if hasEnd && r.Some? then [r.value] else [])
    {
      var behavior := ScrollOnChange(prevMessagesLength, messages);
      if hasEnd && behavior.Some? {
        scrolls := scrolls + [behavior.value];
      }
      prevMessagesLength := |messages|;
    }

    /** The loading effect: when loading older messages starts, record the content height. */
    method OnLoadingPreviousChange(isLoadingPrevious: bool)
      modifies this`prevScrollHeight
      ensures prevScrollHeight == (if hasContainer && isLoadingPrevious then scrollHeight else old(prevScrollHeight))
    {
      if hasContainer && isLoadingPrevious {
        prevScrollHeight := scrollHeight;
      }
    }

    /**
     * The restore effect: once loading is over and a height is recorded, a grown
     * content sets the scroll offset to the growth and clears the record;
     * otherwise nothing changes.
     */
    method RestoreScrollPosition(isLoadingPrevious: bool)
      modifies this`scrollTop, this`prevScrollHeight
      ensures var restores := hasContainer && !isLoadingPrevious && old(prevScrollHeight) > 0
                              && scrollHeight > old(prevScrollHeight);
              && (restores ==> scrollTop == scrollHeight - old(prevScrollHeight) && prevScrollHeight == 0)
              && (!restores ==> scrollTop == old(scrollTop) && prevScrollHeight == old(prevScrollHeight))
    {
      if hasContainer && !isLoadingPrevious && prevScrollHeight > 0 {
        var scrollDiff := scrollHeight - prevScrollHeight;
        if scrollDiff > 0 {
          scrollTop := scrollDiff;
          prevScrollHeight := 0;
        }
      }
    }
  }

  /**
   * A whole load of older messages with the view at the top: start loading (height
   * recorded), the content grows by `added` pixels, loading ends; the view then
   * sits at `added`, which is where the previously first message now is.
   */
  method LoadPreviousKeepsPosition(height: nat, added: nat) returns (m: ScrollManager)
    requires height > 0 && added > 0
    ensures fresh(m)
    ensures m.scrollTop == added && m.prevScrollHeight == 0 && m.scrollHeight == height + added
  {
    m := new ScrollManager();
    m.Layout(true, true, height);
    m.OnLoadingPreviousChange(true);
    m.Layout(true, true, height + added);
    m.RestoreScrollPosition(false);
  }
}
