# chat-frontend core in Dafny

This project models the logic of the chat client `chat-frontend` in Dafny and proves properties of that model. It covers the following parts of the client:

- **The message store.** A reducer's state holds the typed messages, a loading flag and a global error. The model covers the action builders and the list helpers:
  - a duplicate check: the same id, or the same user and text with timestamps less than 5000 ms apart;
  - an append that skips duplicates;
  - update-or-insert by id;
  - a per-id status change.
- **The provider.** It sequences the actions for a history load, an optimistic send with a temporary `temp-<time>` id, and the live-message listener.
- **The auth reducer.**
- **The shared field validators** for username, message and email.
- **The username form.** It has its own validator, which also accepts Cyrillic letters, and its own error texts. The model covers the change, blur and submit handlers and the calls a submit makes: storage, login, tracked user, log, navigation.
- **The message composer.** It sends the trimmed text. A local busy flag blocks a second send until a 300 ms reset fires.
- **The message list's scroll bookkeeping:**
  - scroll to the end when the list grows;
  - keep the reading position when older messages arrive;
  - the 50-pixel threshold near the top.
- **Relative time labels:** "just now", "N minutes ago", "N hours ago", or a locale date.
- **The HTTP wrapper.** It maps every client error to a `MessageError` with a code.
- **The socket wrapper.** There is at most one socket, created on demand. A set of new-message listeners is notified in insertion order. A listener that throws does not stop the others.
- **The error tracker:**
  - a console line per entry;
  - a server queue of at most 100 entries before a flush;
  - a FATAL entry flushes at once;
  - a failed batch is returned to the front of the queue;
  - window error and unhandled-rejection listeners.

Pure code is written as datatypes, functions and lemmas. That covers the reducers, helpers, action builders, validators, date labels and error formatting. Code that updates state is written as classes whose methods have `modifies` clauses. That covers the provider, the form and composer hooks, the scroll refs, the socket service and the error tracker. `updateMessage` is a method whose loop carries the `found` flag. It is proved against the function `UpdateOrInsert`, which the pure reducer uses.

Some things are outside the model, and each enters it as a parameter, a log or an event:

- **Parameters:** the clock (`Date.now()`), the page URL, the HTTP client, and the outcome of each call that may throw.
- **Logs** (a sequence field that grows by one entry per call):
  - console calls;
  - storage, login and navigation calls;
  - socket emits;
  - `scrollIntoView` calls;
  - batches POSTed by the error tracker.
- **Events** (methods the environment calls):
  - the 300 ms reset timer firing;
  - a POST settling;
  - a layout change;
  - a user scroll;
  - an incoming socket message.

Modules:

- `Wrappers`: `Option` and `Result`.
- `Text`: the ECMAScript whitespace set, `trim`, decimal printing and ASCII upper-casing.
- `MessageTypes`: `src/types/message.ts` and the message state and action types.
- `MessageHelpers`
- `MessageActions`
- `MessageContextReducer`
- `MessageProvider`
- `AuthContextReducer`
- `Validation`
- `UsernameForm`
- `MessageInput`
- `MessageList`
- `RelativeTime`
- `ApiService`
- `SocketService`
- `ErrorTracking`

## Model

| member | source | states |
|---|---|---|
| Text.Trim | src/components/message-input/hooks.ts:18 | `trim` never lengthens the text, leaves no whitespace at either end, and is empty exactly when the text is all whitespace |
| Text.TrimIsInfix | src/components/message-input/hooks.ts:18 | the trimmed text is a contiguous piece of the input, with only whitespace cut from before and after it |
| Text.TrimIdempotent | src/components/message-input/hooks.ts:18 | trimming an already trimmed text changes nothing |
| Text.ToUpperAscii | src/services/error-tracking/service.ts:123 | upper-casing keeps the length, maps each of a-z to A-Z and keeps every other character |
| MessageTypes.FromChat | src/types/message.ts:1-22 | a copied ChatMessage keeps its four fields and has no status and no error |
| MessageTypes.FromChatAll | src/context/message-context/reducer.ts:24-30 | the loaded list has the payload's length and order, and each entry is its payload copied without status |
| MessageHelpers.DuplicateSymmetric | src/context/message-context/helpers.ts:7-17 | the duplicate check is symmetric in its two messages |
| MessageHelpers.DuplicateWindowStrict | src/context/message-context/helpers.ts:7-17 | equal ids always make a duplicate; with different ids, timestamps 5000 ms or more apart never do, and the same user and text do exactly when less than 5000 ms apart |
| MessageHelpers.DuplicateIgnoresStatus | src/context/message-context/helpers.ts:7-17 | status and error play no part in the duplicate check; only the four message fields count |
| MessageHelpers.HasDuplicate | src/context/message-context/helpers.ts:30-32 | the `some` scan is true exactly when some entry duplicates the new message |
| MessageHelpers.AddUniqueMessage | src/context/message-context/helpers.ts:26-33 | a duplicate leaves the list unchanged; otherwise the message is appended after the unchanged list |
| MessageHelpers.AddUniquePreservesNoDuplicates | src/context/message-context/helpers.ts:26-33 | adding through the duplicate check keeps a duplicate-free list duplicate-free |
| MessageHelpers.AddUniqueIdempotent | src/context/message-context/helpers.ts:26-33 | adding the same message twice has the effect of adding it once |
| MessageHelpers.Merged | src/context/message-context/helpers.ts:50 | a merged entry takes the update's four fields, becomes SENT and keeps its own error |
| MessageHelpers.UpdateMessage | src/context/message-context/helpers.ts:42-54 | the loop computes `UpdateOrInsert`: every entry with the update's id is merged and SENT, the others are unchanged, and the update is appended only when no id matched |
| MessageHelpers.UpdateOrInsertKeepsPositions | src/context/message-context/helpers.ts:42-54 | update-or-insert keeps every existing entry's position and id and grows the list by at most one |
| MessageHelpers.UpdateOrInsertTwice | src/context/message-context/helpers.ts:42-54 | after two updates with the same id, the id is present and every entry with it carries the update's fields as SENT; from a list without the id that is exactly one entry, at the end |
| MessageHelpers.UpdateOrInsertSettles | src/context/message-context/helpers.ts:42-54 | from the second application on, the same update changes nothing more |
| MessageHelpers.UpdateMessageStatus | src/context/message-context/helpers.ts:64-79 | the list keeps its length and every entry's four message fields; entries with the id get the new status (and the error when given); every other entry is unchanged |
| MessageHelpers.UpdateMessageStatusAbsent | src/context/message-context/helpers.ts:64-79 | an id that is not in the list leaves it unchanged |
| MessageHelpers.UpdateMessageStatusPreservesNoDuplicates | src/context/message-context/helpers.ts:64-79 | a status change keeps a duplicate-free list duplicate-free |
| MessageHelpers.UpdateMessageStatusOverwrites | src/context/message-context/helpers.ts:64-79 | a SENT entry can be set back to SENDING: the latest change decides, so status is not monotone |
| MessageActions.LoadStart | src/context/message-context/actions.ts:5-7 | the builder yields the LOAD_START action |
| MessageActions.LoadSuccess | src/context/message-context/actions.ts:9-12 | LOAD_SUCCESS carries the given list |
| MessageActions.LoadError | src/context/message-context/actions.ts:14-17 | LOAD_ERROR carries the given error |
| MessageActions.AddMessage | src/context/message-context/actions.ts:19-22 | ADD_MESSAGE carries the given message |
| MessageActions.UpdateMessage | src/context/message-context/actions.ts:24-27 | UPDATE_MESSAGE carries the given message |
| MessageActions.SendMessage | src/context/message-context/actions.ts:29-37 | SEND_MESSAGE carries a message built from the four arguments |
| MessageActions.MessageSent | src/context/message-context/actions.ts:39-42 | MESSAGE_SENT carries the id |
| MessageActions.MessageError | src/context/message-context/actions.ts:44-47 | MESSAGE_ERROR carries the id and the error |
| MessageActions.ClearError | src/context/message-context/actions.ts:49-51 | the builder yields the CLEAR_ERROR action |
| MessageActions.SendMessageInjective | src/context/message-context/actions.ts:29-37 | different arguments give different SEND_MESSAGE actions |
| MessageContextReducer.MessageReducer | src/context/message-context/reducer.ts:16-83 | the loading flag and global error after each action type; only LOAD_SUCCESS can shrink the list; every other action keeps each entry's position and id and adds at most one; LOAD_START, LOAD_ERROR, CLEAR_ERROR and unknown types keep the list |
| MessageContextReducer.LoadSuccessReplaces | src/context/message-context/reducer.ts:24-30 | LOAD_SUCCESS replaces the list with the payload, without status, and clears the loading flag and the error |
| MessageContextReducer.AddMessageDeduplicates | src/context/message-context/reducer.ts:35-39 | ADD_MESSAGE leaves the state unchanged when the message duplicates an entry, and otherwise appends it |
| MessageContextReducer.SendMessageAppends | src/context/message-context/reducer.ts:47-54 | SEND_MESSAGE appends the message as SENDING, without a duplicate check, and touches nothing else |
| MessageContextReducer.StatusActionsTouchOnlyMatchingId | src/context/message-context/reducer.ts:56-75 | MESSAGE_SENT and MESSAGE_ERROR keep the length; they set SENT, or ERROR with the error, on the matching ids only |
| MessageContextReducer.ClearErrorAndDefault | src/context/message-context/reducer.ts:77-81 | CLEAR_ERROR differs from the old state only in the cleared error; an unknown type returns the state itself |
| MessageContextReducer.ReducerPreservesNoDuplicates | src/context/message-context/reducer.ts:16-83 | every action except SEND_MESSAGE, UPDATE_MESSAGE and LOAD_SUCCESS keeps a duplicate-free list duplicate-free |
| MessageContextReducer.SendMessageMayDuplicate | src/context/message-context/reducer.ts:47-54 | a concrete case where SEND_MESSAGE makes a duplicate-free list contain duplicates |
| MessageProvider.RunAppend | src/context/message-context/context.tsx:28-31 | dispatching one more action applies the reducer once more to the state so far |
| MessageProvider.TempId | src/context/message-context/context.tsx:46 | the temporary id is `temp-` followed by the decimal clock reading |
| MessageProvider.LoadMessagesOnSuccess | src/context/message-context/context.tsx:33-43 | with nothing dispatched during the fetch, a successful history load ends with exactly the fetched list, not loading and without error, from any state |
| MessageProvider.LoadMessagesOnFailure | src/context/message-context/context.tsx:33-43 | with nothing dispatched during the fetch, a failed load keeps the list, ends not loading and records the caught error |
| MessageProvider.LoadSuccessDiscardsInterleaved | src/context/message-context/context.tsx:33-38 | whatever is dispatched while the fetch is awaited, a successful load ends with exactly the fetched list, not loading and without error |
| MessageProvider.LoadFailureKeepsInterleaved | src/context/message-context/context.tsx:33-42 | after a failed load the list is the one the actions dispatched during the fetch left; loading ends and the caught error is recorded |
| MessageProvider.LiveMessageDuringLoadLost | src/context/message-context/context.tsx:33-38 | a new live message that arrives while the history is fetched is shown, and is gone after a successful fetch that does not contain it |
| MessageProvider.HandleSendMessageOutcome | src/context/message-context/context.tsx:45-62 | a send appends one entry with the temporary id and the given fields; it ends SENT, or ERROR with "Error sending message"/ERR_SEND_MESSAGE when the transport throws; other entries, the loading flag and the error stay |
| MessageProvider.LiveEchoDropped | src/context/message-context/context.tsx:68-91 | the server's echo of an optimistic send (same user and text, within 5000 ms, any id) leaves the state unchanged when it arrives |
| MessageProvider.MessageProvider.constructor | src/context/message-context/context.tsx:28-31 | the store starts from the initial state, with no actions and no listener |
| MessageProvider.MessageProvider.Dispatch | src/context/message-context/context.tsx:28-31 | dispatch applies the reducer, and the state is always the initial state run through every dispatched action |
| MessageProvider.MessageProvider.LoadMessagesStart | src/context/message-context/context.tsx:33-34 | loadMessages up to its await: LOAD_START is dispatched and one more fetch is pending |
| MessageProvider.MessageProvider.LoadMessagesSettled | src/context/message-context/context.tsx:36-42 | loadMessages after its await, on the state as it is by then: LOAD_SUCCESS with the fetched list or LOAD_ERROR with the caught error; one fetch fewer is pending |
| MessageProvider.MessageProvider.HandleSendMessage | src/context/message-context/context.tsx:45-62 | SEND_MESSAGE with the temporary id, then MESSAGE_SENT, or MESSAGE_ERROR when the send throws |
| MessageProvider.MessageProvider.ClearError | src/context/message-context/context.tsx:64-66 | only the global error changes, to none |
| MessageProvider.MessageProvider.Subscribe | src/context/message-context/context.tsx:68-91 | the listener is active exactly when subscribing did not throw; the state is untouched |
| MessageProvider.MessageProvider.Unsubscribe | src/context/message-context/context.tsx:76-79 | the cleanup deactivates the listener |
| MessageProvider.MessageProvider.ReceiveLiveMessage | src/context/message-context/context.tsx:71-74 | an active listener dispatches ADD_MESSAGE with the message; an inactive one changes nothing |
| AuthContextReducer.AuthReducer | src/context/auth-context/reducer.ts:10-46 | the user and the authenticated flag are set by LOGIN_SUCCESS, cleared by LOGOUT and otherwise kept; loading is set by LOGIN_START and cleared by success and failure; the error is cleared by start, success and CLEAR_ERROR and set by failure; an unknown type keeps the state |
| AuthContextReducer.AuthReducerPreservesConsistency | src/context/auth-context/reducer.ts:10-46 | every action keeps "authenticated exactly when a username is set" |
| AuthContextReducer.ReachableAuthStatesConsistent | src/context/auth-context/reducer.ts:3-46 | any action sequence from a consistent state, in particular the initial one, ends consistent |
| AuthContextReducer.InitialAuthStateConsistent | src/context/auth-context/reducer.ts:3-8 | the initial state is consistent and not authenticated |
| Validation.MatchesUsernamePattern | src/utils/validation.ts:27-28 | the username regex matches exactly the non-empty strings of letters, digits, `_` and `-` |
| Validation.ValidateUsername | src/utils/validation.ts:4-37 | valid exactly when non-empty, within the bounds and matching the pattern; otherwise the first failing check's message, with the bounds printed in decimal |
| Validation.UsernameDefaultBounds | src/utils/validation.ts:4-25 | with the default bounds, a name of allowed characters is valid exactly when 3 to 20 long; lengths 2 and 21 get "at least 3" and "exceed 20" in their messages |
| Validation.ValidateMessage | src/utils/validation.ts:42-58 | valid exactly when non-empty and at most the limit long; otherwise the emptiness or length message |
| Validation.ValidateEmail | src/utils/validation.ts:63-76 | valid exactly when non-empty and matching the pattern; otherwise the emptiness or format message |
| Validation.EmailPatternSound | src/utils/validation.ts:70 | a matching address has no whitespace and exactly one `@` |
| Validation.EmailPatternComplete | src/utils/validation.ts:70 | one `@` after a non-empty local part, a later `.` that is neither first nor last in the domain, and no whitespace make the pattern match |
| Validation.EmailPatternMeaning | src/utils/validation.ts:70 | the email regex in plain terms, both directions |
| UsernameForm.AllUsernameChars | src/components/username-form/hooks.ts:17 | true exactly when every character is a Latin or Cyrillic letter, a digit, `_` or `-` |
| UsernameForm.ValidateUsername | src/components/username-form/hooks.ts:26-32 | EMPTY, TOO_SHORT, TOO_LONG, INVALID_CHARS and no error, each with its exact condition (both directions), checked in that order |
| UsernameForm.GetErrorMessage | src/components/username-form/hooks.ts:34-47 | the message is empty exactly when there is no error |
| UsernameForm.ErrorMessagesDistinct | src/components/username-form/hooks.ts:34-47 | the bounds read 3 and 20 in the texts, and two errors have the same text exactly when they are the same error |
| UsernameForm.AgreesWithSharedValidatorWithoutCyrillic | src/components/username-form/hooks.ts:26-32 | on names without Cyrillic letters, the form's validator and the shared one with default bounds accept the same names and agree on emptiness |
| UsernameForm.CyrillicNameOnlyHere | src/components/username-form/hooks.ts:17 | the name "Иван" passes the form's validator and fails the shared one |
| UsernameForm.WarnEffect | src/components/username-form/hooks.ts:97-106 | an invalid name is logged as a warning with the trimmed name and the error |
| UsernameForm.FailureEffects | src/components/username-form/hooks.ts:122-130 | a throw is logged as an error with the trimmed name, then written to the console |
| UsernameForm.InvalidSubmitStoresNothing | src/components/username-form/hooks.ts:91-107 | an invalid name yields only the warning: nothing is stored and nobody logs in |
| UsernameForm.ValidSubmitUsesTrimmedName | src/components/username-form/hooks.ts:109-133 | a valid trimmed name is stored and then logged in; without a throw the run ends by navigating home; after a throw it ends with the error log and never navigates |
| UsernameForm.UsernameForm.constructor | src/components/username-form/hooks.ts:50-63 | empty and untouched, with a non-empty saved name put in the input |
| UsernameForm.UsernameForm.HandleChange | src/components/username-form/hooks.ts:70-80 | the raw value is kept, and the error is recomputed from its trimmed form only once touched |
| UsernameForm.UsernameForm.HandleBlur | src/components/username-form/hooks.ts:82-85 | touched, with the trimmed input's error |
| UsernameForm.UsernameForm.HandleSubmit | src/components/username-form/hooks.ts:87-136 | touched with the trimmed input's error; the effects are exactly those of a submit of the trimmed input; not submitting afterwards |
| MessageInput.SubmitTarget | src/components/message-input/hooks.ts:18-20 | something is sent exactly when not busy and the text is not blank, and what is sent has no surrounding whitespace |
| MessageInput.SubmitTargetIsTrimmedInfix | src/components/message-input/hooks.ts:18-25 | what is sent is the typed text with only surrounding whitespace cut off |
| MessageInput.MessageInput.constructor | src/components/message-input/hooks.ts:12-13 | an empty text, and the busy flag taken from the prop |
| MessageInput.MessageInput.SetMessage | src/components/message-input/hooks.ts:12 | the text is replaced |
| MessageInput.MessageInput.HandleSubmit | src/components/message-input/hooks.ts:15-38 | a blank text or a busy flag does nothing; otherwise the trimmed text is sent once, the flag is raised, one reset is scheduled, and the text is cleared unless the send throws |
| MessageInput.MessageInput.TimerFires | src/components/message-input/hooks.ts:32-34 | the reset lowers the busy flag |
| MessageInput.MessageInput.HandleKeyDown | src/components/message-input/hooks.ts:40-48 | the default is prevented exactly for Enter without Shift, which submits the enclosing form when there is one: with sendable text and the flag down, one trimmed send, the flag raised, one more pending reset and the text cleared unless `onSend` throws; with blank text or a busy flag, nothing changes. Other keys, or no form, change nothing |
| MessageInput.SecondSubmitBeforeResetSendsNothing | src/components/message-input/hooks.ts:15-38 | two submits before the reset fires send the text at most once |
| MessageList.ScrollOnChange | src/components/message-list/hooks.ts:21-33 | a scroll happens exactly when the list grew; it is instant for the first non-empty list or a last entry still SENDING, and smooth otherwise |
| MessageList.NoRequestWhileLoadingOrExhausted | src/components/message-list/hooks.ts:72-79 | older messages are never requested while loading or when there are no more |
| MessageList.ScrollThresholdStrict | src/components/message-list/hooks.ts:72-79 | a request needs a scroll offset strictly below 50, and scrolling closer to the top never cancels it |
| MessageList.ScrollManager.constructor | src/components/message-list/hooks.ts:16-19 | both refs start at 0 |
| MessageList.ScrollManager.Layout | src/components/message-list/hooks.ts:16-19 | a layout event records the rendered container, end marker and height |
| MessageList.ScrollManager.UserScroll | src/components/message-list/hooks.ts:72-79 | the scroll offset is the user's |
| MessageList.ScrollManager.OnMessagesChange | src/components/message-list/hooks.ts:21-33 | the end marker is scrolled as ScrollOnChange says (when it exists), and the length is remembered |
| MessageList.ScrollManager.OnLoadingPreviousChange | src/components/message-list/hooks.ts:35-40 | when loading of older messages starts, the content height is recorded |
| MessageList.ScrollManager.RestoreScrollPosition | src/components/message-list/hooks.ts:42-52 | after loading, a grown content sets the scroll offset to the growth, whatever it was, and the record is cleared; otherwise nothing changes |
| MessageList.LoadPreviousKeepsPosition | src/components/message-list/hooks.ts:35-52 | loading older messages from the top leaves the view at the added height, where the former first message now is |
| RelativeTime.Classify | src/utils/date.ts:21-40 | the label's kind by range (under a minute, including the future; under an hour; under a day; later); minutes and hours rounded down, 1 to 59 and 1 to 23 |
| RelativeTime.Render | src/utils/date.ts:25-39 | "just now" for the first range and the locale date for the last; in between, the text starts with digits that read back as the count, followed by " minute ago"/" hour ago" exactly when the count is 1 and " minutes ago"/" hours ago" otherwise |
| RelativeTime.CountedReadsBack | src/utils/date.ts:29-37 | the number in "N minutes ago"/"N hours ago" reads back as the count; the rest is a space, the unit (plural unless N is 1) and " ago" |
| RelativeTime.WorkedExamples | src/utils/date.ts:21-40 | 30 s, 1 and 5 minutes, 1 and 2 hours, and 2 days back give their labels, singular for 1 |
| RelativeTime.FutureIsJustNow | src/utils/date.ts:25-27 | a timestamp in the future is "just now" |
| RelativeTime.OnlyDifferenceMatters | src/utils/date.ts:21-37 | within a day, shifting timestamp and clock together does not change the label |
| RelativeTime.ClassifyMonotone | src/utils/date.ts:21-40 | an older timestamp never gets a smaller count or a more recent kind: minutes never become "just now", hours stay hours or become a date, a date stays a date |
| ApiService.FormatError | src/services/api/service.ts:118-135 | a response gives "Server error: N" and ERR_N; otherwise a sent request gives the no-response error; otherwise the request error with the message |
| ApiService.CodeIdentifiesKind | src/services/api/service.ts:118-135 | two errors get the same code exactly when they fall in the same case with the same status |
| ApiService.ResponseTakesPrecedence | src/services/api/service.ts:118-135 | a response is reported by its status even when a request is recorded too |
| ApiService.Get | src/services/api/service.ts:86-93 | success exactly when the client succeeds, with its body; failure carries the formatted client error |
| ApiService.Post | src/services/api/service.ts:98-113 | as get, with the request body passed to the client |
| ApiService.FetchMessages | src/services/api/service.ts:140-145 | a GET of the messages endpoint with the offset and limit as parameters; the result is the body or the formatted error |
| ApiService.FetchMessagesDefaults | src/services/api/service.ts:140-145 | without arguments, offset 0 and limit 6 are asked for, and a failure always has a code |
| SocketService.Without | src/services/socket/service.ts:84-86 | removal deletes exactly the given listener, keeps the others distinct, and is a no-op when the listener is absent |
| SocketService.Throwing | src/services/socket/service.ts:44-50 | the listeners logged as failing are exactly those that throw |
| SocketService.SetSemantics | src/services/socket/service.ts:75-87 | subscribing twice adds once, and one unsubscribe removes the callback |
| SocketService.SocketService.constructor | src/services/socket/service.ts:11-12 | no socket and no listeners |
| SocketService.SocketService.Connect | src/services/socket/service.ts:27-54 | a new socket is created only when there is none, and the current one is returned |
| SocketService.SocketService.SendMessage | src/services/socket/service.ts:59-70 | a missing socket is created with the next number and a present one is kept; emits "send-message" with the user and text, or reports the rethrown failure |
| SocketService.SocketService.OnNewMessage | src/services/socket/service.ts:75-87 | a missing socket is created with the next number and a present one is kept; the callback is added once, and its handle is returned |
| SocketService.SocketService.Unsubscribe | src/services/socket/service.ts:84-86 | the handle removes exactly its callback |
| SocketService.SocketService.OffAllMessageListeners | src/services/socket/service.ts:92-94 | no listeners are left |
| SocketService.SocketService.Disconnect | src/services/socket/service.ts:99-105 | a present socket is closed and dropped, and the listeners are forgotten; without a socket nothing changes |
| SocketService.SocketService.GetSocket | src/services/socket/service.ts:110-112 | the current socket or none |
| SocketService.SocketService.DispatchNewMessage | src/services/socket/service.ts:43-51 | every listener is called once, in insertion order, and those that throw are logged without stopping the rest |
| ErrorTracking.LevelName | src/services/error-tracking/types.ts:4-10 | each level's string value is non-empty lowercase |
| ErrorTracking.CreateErrorInfo | src/services/error-tracking/service.ts:86-101 | an Error gives message and stack, a string only the message; an unset or empty user id is left out; level, metadata, time and page are copied |
| ErrorTracking.GetConsoleMethod | src/services/error-tracking/service.ts:137-147 | ERROR and FATAL go to console.error; each other level goes to its own method |
| ErrorTracking.LogMessageShape | src/services/error-tracking/service.ts:123 | the console text is the upper-cased level in brackets, a space and the message, e.g. "[FATAL] " |
| ErrorTracking.ConsoleLineFor | src/services/error-tracking/service.ts:121-130 | the level's console method, the text `[LEVEL] message`, the metadata when present and the stack |
| ErrorTracking.OrElse | src/services/error-tracking/service.ts:43-49 | a window event's Error or non-empty string is logged, and anything falsy is replaced by the fallback |
| ErrorTracking.ErrorTrackingService.constructor | src/services/error-tracking/service.ts:17-24 | not initialised, no user, an empty queue, and the configured server flag and URL |
| ErrorTracking.ErrorTrackingService.Init | src/services/error-tracking/service.ts:40-53 | registers the two window listeners and logs once; later calls do nothing |
| ErrorTracking.ErrorTrackingService.SetUser | src/services/error-tracking/service.ts:59-61 | the user id is set and the service stays well-formed |
| ErrorTracking.ErrorTrackingService.FlushQueue | src/services/error-tracking/service.ts:169-186 | a non-empty queue with a URL is sent as one batch and emptied; otherwise nothing happens |
| ErrorTracking.ErrorTrackingService.AddToQueue | src/services/error-tracking/service.ts:154-163 | the entry is appended; the queue is flushed when it reaches 100 entries or the entry is FATAL |
| ErrorTracking.ErrorTrackingService.Log | src/services/error-tracking/service.ts:70-115 | every entry gets its console line; with server reporting off nothing else changes; with it on the entry is queued, and when the queue reaches its maximum size or the level is FATAL, and a URL is set, the whole queue is posted, left in flight and emptied |
| ErrorTracking.ErrorTrackingService.FetchFailed | src/services/error-tracking/service.ts:181-185 | a failed batch goes back to the front of the queue, ahead of newer entries, with a console error |
| ErrorTracking.ErrorTrackingService.FetchSucceeded | src/services/error-tracking/service.ts:175-180 | a delivered batch is no longer pending |
| ErrorTracking.ErrorTrackingService.WindowError | src/services/error-tracking/service.ts:43-45 | after init, an uncaught error is logged at ERROR with `error` or else `message`, with the same console, queue and post effects as Log; before init nothing changes |
| ErrorTracking.ErrorTrackingService.UnhandledRejection | src/services/error-tracking/service.ts:47-49 | after init, a rejection is logged at ERROR with its reason or else "Unhandled Promise Rejection", with the same effects as Log; before init nothing changes |
| ErrorTracking.QueueCanExceedLimit | src/services/error-tracking/service.ts:154-170 | with no server URL nothing is sent, and 101 non-fatal entries stay queued |

## Left out

- String lengths count Unicode scalar values, where JavaScript counts UTF-16 code units. Length limits therefore differ for characters outside the Basic Multilingual Plane.
- `undefined` and `null` inputs to the validators are not modelled. Only strings are: `!value` is emptiness.
- The HTTP client is a function parameter:
  - axios creation, base URL, timeout and interceptors are left out;
  - the `getInstance` singletons of the API, socket and error-tracking services are left out;
  - `handleApiError` only writes to the console, so it is left out.
- `fetchMessages` resolves to a `{messages, total}` body, but `loadMessages` passes that result on as a message list. The two types do not agree. The provider is modelled with a fetch outcome that is already a list.
- Pagination ("load previous", `hasMore`) is not implemented in the message store. Only the list's scroll guard and position restore are modelled.
- MessageHelpers.Merged, MessageHelpers.UpdateMessage: the update is a ChatMessage, which is what UPDATE_MESSAGE carries (src/context/message-context/actions.ts:24). An update object that carries its own status or error, which the spread `{...updatedMessage}` would copy, is not modelled.
- The locale date formatting `formatDateTime` is a parameter. The storage service, React's render timing, stale closures and effect ordering are not modelled. Each handler runs on the state the model gives it.
- The 300 ms reset timer is an event (`TimerFires`), not a clock.
- Console output is logged only for the error tracker. Other console output is not modelled:
  - the socket's connect, disconnect and connect_error handlers;
  - the composer's catch block;
  - the provider's listener logs;
  - the tracking call in the provider's subscription catch block. That call is modelled only as the subscription's outcome.
- `socket.io` options (reconnection attempts and delay, auto-connect) are not modelled. What the server does with an emit is not modelled either.
- SocketService.SocketService.DispatchNewMessage: the listener set is fixed while a message is dispatched. A listener that subscribes or unsubscribes during the iteration is not modelled.
- SocketService.SocketService.SendMessage: an emit that throws is not logged in `emitted`, and its console line is left out.
- ErrorTracking.OrElse: only an Error and a string are modelled as a rejection's `reason`. Other values (numbers, objects) are not.
- ErrorTracking.CreateErrorInfo: metadata is a map from strings to strings. The POST body's JSON encoding and the fetch's headers are not modelled.
- MessageContextReducer.ReducerPreservesNoDuplicates: it does not cover SEND_MESSAGE, UPDATE_MESSAGE or LOAD_SUCCESS. Those three do not check for duplicates (see SendMessageMayDuplicate), so "no duplicates" is not an invariant of the store.
- Message status is not monotone. MESSAGE_SENT can follow MESSAGE_ERROR and the other way round, and the model proves only that the last change decides.
- MessageInput.MessageInput.constructor: the `isSubmitting` prop only seeds the local flag. A composer mounted busy sends nothing until a reset fires. No reset is ever scheduled in that case, and the model keeps that behaviour.
- The date tests expect a future timestamp to print as a formatted date. The code prints "just now", and the model follows the code (FutureIsJustNow).
