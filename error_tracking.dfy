/**
 * The error tracker (src/services/error-tracking/service.ts and types.ts): every
 * log entry goes to the console, and, when server reporting is enabled, into a
 * queue that is sent in batches. The clock reading, the page URL, the console,
 * the window's event listeners and the outcome of each batch POST are outside
 * the model: the first two are parameters, the console is a log of lines, the
 * listeners are a log of registrations, and a POST's outcome is a later event.
 */
module ErrorTracking {
  import opened Wrappers
  import opened Text

  datatype LogLevel = Debug | Info | Warn | Error | Fatal

  /** The enum's string values. */
  function LevelName(level: LogLevel): (r: string)
    ensures r != [] && forall i :: 0 <= i < |r| ==> 'a' <= r[i] <= 'z'
  {
    match level
    case Debug => "debug"
    case Info => "info"
    case Warn => "warn"
    case Error => "error"
    case Fatal => "fatal"
  }

  type Metadata = map<string, string>

  /** What `log` accepts: an Error (message and optional stack) or a plain string. */
  datatype Logged = ErrorObject(message: string, stack: Option<string>) | Text(text: string)

  datatype ErrorInfo = ErrorInfo(
    message: string,
    stack: Option<string>,
    timestamp: int,
    level: LogLevel,
    metadata: Option<Metadata>,
    userId: Option<string>,
    context: string)

  /** An entry built from the current user, the clock reading `now` and the page URL `href`. */
  function CreateErrorInfo(level: LogLevel, error: Logged, metadata: Option<Metadata>,
                           userId: Option<string>, now: int, href: string): (r: ErrorInfo)
    // an Error gives message and stack, a string only the message
    ensures error.ErrorObject? ==> r.message == error.message && r.stack == error.stack
    ensures error.Text? ==> r.message == error.text && r.stack == None
    // an unset or empty user id is left out
    ensures r.userId.Some? <==> userId.Some? && userId.value != ""
    ensures r.userId.Some? ==> r.userId == userId
    ensures r.level == level && r.metadata == metadata && r.timestamp == now && r.context == href
  {
    ErrorInfo(
      if error.ErrorObject? then error.message else error.text,
      if error.ErrorObject? then error.stack else None,
      now, level, metadata,
      if userId.Some? && userId.value != "" then userId else None,
      href)
  }

  datatype ConsoleMethod = ConsoleDebug | ConsoleInfo | ConsoleWarn | ConsoleError

  function GetConsoleMethod(level: LogLevel): (m: ConsoleMethod)
    // ERROR and FATAL both go to console.error; each other level has its own method
    ensures m == ConsoleError <==> level == Error || level == Fatal
    ensures m == ConsoleDebug <==> level == Debug
    ensures m == ConsoleInfo <==> level == Info
    ensures m == ConsoleWarn <==> level == Warn
  {
    match level
    case Debug => ConsoleDebug
    case Info => ConsoleInfo
    case Warn => ConsoleWarn
    case Error => ConsoleError
    case Fatal => ConsoleError
  }

  /** `[LEVEL] message`. */
  function LogMessage(info: ErrorInfo): string {
    "[" + ToUpperAscii(LevelName(info.level)) + "] " + info.message
  }

  /** The line starts with the upper-cased level in brackets and ends with the message. */
  lemma LogMessageShape(info: ErrorInfo)
    ensures var upper := ToUpperAscii(LevelName(info.level));
            var line := LogMessage(info);
            && |line| == |upper| + 3 + |info.message|
            && line[0] == '[' && line[1..|upper| + 1] == upper && line[|upper| + 1..|upper| + 3] == "] "
            && line[|upper| + 3..] == info.message
    ensures info.level == Debug ==> LogMessage(info) == "[DEBUG] " + info.message
    ensures info.level == Info ==> LogMessage(info) == "[INFO] " + info.message
    ensures info.level == Warn ==> LogMessage(info) == "[WARN] " + info.message
    ensures info.level == Error ==> LogMessage(info) == "[ERROR] " + info.message
    ensures info.level == Fatal ==> LogMessage(info) == "[FATAL] " + info.message
  {
    var upper := ToUpperAscii(LevelName(info.level));
    var line := LogMessage(info);
    assert line == "[" + upper + "] " + info.message;
    assert line[1..|upper| + 1] == upper;
    assert line[|upper| + 3..] == info.message;
    UpperLevelName(info.level);
  }

  /** The five level names upper-cased. */
  lemma UpperLevelName(level: LogLevel)
    ensures level == Debug ==> ToUpperAscii(LevelName(level)) == "DEBUG"
    ensures level == Info ==> ToUpperAscii(LevelName(level)) == "INFO"
    ensures level == Warn ==> ToUpperAscii(LevelName(level)) == "WARN"
    ensures level == Error ==> ToUpperAscii(LevelName(level)) == "ERROR"
    ensures level == Fatal ==> ToUpperAscii(LevelName(level)) == "FATAL"
  {
    var name, upper := LevelName(level), ToUpperAscii(LevelName(level));
    var expected := match level
      case Debug => "DEBUG" case Info => "INFO" case Warn => "WARN" case Error => "ERROR" case Fatal => "FATAL";
    assert |upper| == |expected|;
    forall i | 0 <= i < |upper|
      ensures upper[i] == expected[i]
    {
      assert upper[i] == (name[i] as int - 32) as char;
    }
    assert upper == expected;
  }

  /** A console call: the method, the text, and the metadata and stack passed beside it. */
  datatype ConsoleLine = ConsoleLine(via: ConsoleMethod, text: string, metadata: Option<Metadata>, stack: Option<string>)

  /** logToConsole: the level's method with `[LEVEL] message`, the metadata (when given) and the stack. */
  function ConsoleLineFor(info: ErrorInfo): (r: ConsoleLine)
    ensures r.via == GetConsoleMethod(info.level)
    ensures r.metadata == info.metadata && r.stack == info.stack
    // the text is `[LEVEL] message`, shaped as LogMessageShape states
    ensures r.text == LogMessage(info)
  {
    ConsoleLine(GetConsoleMethod(info.level), LogMessage(info), info.metadata, info.stack)
  }

  const MaxQueueSize: nat := 100

  /** Whether adding an entry that left the queue at `length` asks for a flush. */
  predicate FlushRequested(length: nat, level: LogLevel) {
    length >= MaxQueueSize || level == Fatal
  }

  /** A window "error" event's `event.error || event.message`; a rejection's `event.reason || "Unhandled Promise Rejection"`. */
  function OrElse(value: Option<Logged>, fallback: string): (r: Logged)
    // Error objects are truthy, strings are truthy unless empty
    ensures value.Some? && (value.value.ErrorObject? || value.value.text != "") ==> r == value.value
    ensures value.None? || value.value == Text("") ==> r == Text(fallback)
  {
    if value.Some? && (value.value.ErrorObject? || value.value.text != "") then value.value else Text(fallback)
  }

  datatype WindowListener = OnError | OnUnhandledRejection

  class ErrorTrackingService {
    var isInitialized: bool
    var userId: Option<string>
    var errorQueue: seq<ErrorInfo>
    /** Fixed at construction: VITE_ERROR_TRACKING_ENABLED and VITE_ERROR_TRACKING_URL (or ""). */
    var serverEnabled: bool
    var serverUrl: string
    var windowListeners: seq<WindowListener>
    var console: seq<ConsoleLine>
    /** Every batch POSTed, in order; batch k is `posts[k]`. */
    var posts: seq<seq<ErrorInfo>>
    /** The batches whose POST has not settled yet, by number. */
    var inFlight: map<nat, seq<ErrorInfo>>

    predicate Valid()
      reads this
    {
      && (forall k :: k in inFlight ==> k < |posts| && inFlight[k] == posts[k])
      && (isInitialized <==> windowListeners != [])
    }

    constructor (enabled: bool, url: string)
      ensures Valid()
      ensures !isInitialized && userId == None && errorQueue == [] && serverEnabled == enabled && serverUrl == url
      ensures windowListeners == [] && console == [] && posts == [] && inFlight == map[]
    {
      isInitialized := false;
      userId := None;
      errorQueue := [];
      serverEnabled := enabled;
      serverUrl := url;
      windowListeners := [];
      console := [];
      posts := [];
      inFlight := map[];
    }

    /** Register the two window listeners once; later calls do nothing. */
    method Init()
      requires Valid()
      modifies this`isInitialized, this`windowListeners, this`console
      ensures Valid() && isInitialized
      ensures old(isInitialized) ==> windowListeners == old(windowListeners) && console == old(console)
      ensures !old(isInitialized) ==>
                && windowListeners == [OnError, OnUnhandledRejection]
                && console == old(console) + [ConsoleLine(ConsoleInfo, "ErrorTrackingService initialized", None, None)]
    {
      if isInitialized {
        return;
      }
      windowListeners := windowListeners + [OnError, OnUnhandledRejection];
      isInitialized := true;
      console := console + [ConsoleLine(ConsoleInfo, "ErrorTrackingService initialized", None, None)];
    }

    method SetUser(id: string)
      requires Valid()
      modifies this`userId
      ensures Valid() && userId == Some(id)
    {
      userId := Some(id);
    }

    /**
     * Send the whole queue as one batch and empty it; with an empty queue or no
     * server URL nothing happens.
     */
    method FlushQueue()
      requires Valid()
      modifies this`errorQueue, this`posts, this`inFlight
      ensures Valid()
      ensures old(errorQueue) == [] || serverUrl == "" ==>
                errorQueue == old(errorQueue) && posts == old(posts) && inFlight == old(inFlight)
      ensures old(errorQueue) != [] && serverUrl != "" ==>
                && errorQueue == []
                && posts == old(posts) + [old(errorQueue)]
                && inFlight == old(inFlight)[|old(posts)| := old(errorQueue)]
    {
      if errorQueue == [] || serverUrl == "" {
        return;
      }
      var errorsToSend := errorQueue;
      errorQueue := [];
      inFlight := inFlight[|posts| := errorsToSend];
      posts := posts + [errorsToSend];
    }

    /** Append the entry; flush when the queue reached 100 entries or the entry is FATAL. */
    method AddToQueue(info: ErrorInfo)
      requires Valid()
      modifies this`errorQueue, this`posts, this`inFlight
      ensures Valid()
      ensures var q := old(errorQueue) + [info];
              var flushed := FlushRequested(|q|, info.level) && serverUrl != "";
              && (flushed ==> errorQueue == [] && posts == old(posts) + [q]
                              && inFlight == old(inFlight)[|old(posts)| := q])
              && (!flushed ==> errorQueue == q && posts == old(posts) && inFlight == old(inFlight))
    {
      errorQueue := errorQueue + [info];
      if |errorQueue| >= MaxQueueSize || info.level == Fatal {
        FlushQueue();
      }
    }

    /**
     * log: build the entry, write its console line, and queue it when server
     * reporting is on. `now` and `href` stand for `Date.now()` and the page URL.
     */
    method Log(level: LogLevel, error: Logged, metadata: Option<Metadata>, now: int, href: string)
      requires Valid()
      modifies this`console, this`errorQueue, this`posts, this`inFlight
      ensures Valid()
      ensures LoggedOnce(CreateErrorInfo(level, error, metadata, userId, now, href))
    {
      var info := CreateErrorInfo(level, error, metadata, userId, now, href);
      console := console + [ConsoleLineFor(info)];
      if serverEnabled {
        AddToQueue(info);
      }
    }

    /** Batch k's POST failed: it goes back to the front of the queue, ahead of anything queued since. */
    method FetchFailed(k: nat)
      requires Valid() && k in inFlight
      modifies this`errorQueue, this`inFlight, this`console
      ensures Valid()
      ensures errorQueue == old(inFlight)[k] + old(errorQueue)
      ensures inFlight == old(inFlight) - {k}
      ensures console == old(console) + [ConsoleLine(ConsoleError, "Failed to send errors to server:", None, None)]
    {
      console := console + [ConsoleLine(ConsoleError, "Failed to send errors to server:", None, None)];
      errorQueue := inFlight[k] + errorQueue;
      inFlight := inFlight - {k};
    }

    /** Batch k's POST succeeded: it is gone. */
    method FetchSucceeded(k: nat)
      requires Valid() && k in inFlight
      modifies this`inFlight
      ensures Valid() && inFlight == old(inFlight) - {k}
    {
      inFlight := inFlight - {k};
    }

    /** Whether `info` was logged: its console line, and queued (and maybe flushed) when server reporting is on. */
    twostate predicate LoggedOnce(info: ErrorInfo)
      reads this
    {
      && console == old(console) + [ConsoleLineFor(info)]
      && (!serverEnabled ==> errorQueue == old(errorQueue) && posts == old(posts) && inFlight == old(inFlight))
      && (serverEnabled ==>
            var q := old(errorQueue) + [info];
            var flushed := FlushRequested(|q|, info.level) && serverUrl != "";
            && (flushed ==> errorQueue == [] && posts == old(posts) + [q]
                            && inFlight == old(inFlight)[|old(posts)| := q])
            && (!flushed ==> errorQueue == q && posts == old(posts) && inFlight == old(inFlight)))
    }

    /** A window "error" event, seen only once the listeners are registered; then logged at ERROR. */
    method WindowError(error: Option<Logged>, message: string, now: int, href: string)
      requires Valid()
      modifies this`console, this`errorQueue, this`posts, this`inFlight
      ensures Valid()
      ensures !isInitialized ==>
                console == old(console) && errorQueue == old(errorQueue) && posts == old(posts) && inFlight == old(inFlight)
      ensures isInitialized ==>
                LoggedOnce(CreateErrorInfo(Error, OrElse(error, message), None, userId, now, href))
    {
      if isInitialized {
        Log(Error, OrElse(error, message), None, now, href);
      }
    }

    /** A window "unhandledrejection" event, seen only once the listeners are registered; then logged at ERROR. */
    method UnhandledRejection(reason: Option<Logged>, now: int, href: string)
      requires Valid()
      modifies this`console, this`errorQueue, this`posts, this`inFlight
      ensures Valid()
      ensures !isInitialized ==>
                console == old(console) && errorQueue == old(errorQueue) && posts == old(posts) && inFlight == old(inFlight)
      ensures isInitialized ==>
                LoggedOnce(CreateErrorInfo(Error, OrElse(reason, "Unhandled Promise Rejection"), None, userId, now, href))
    {
      if isInitialized {
        Log(Error, OrElse(reason, "Unhandled Promise Rejection"), None, now, href);
      }
    }
  }

  /**
   * With no server URL nothing is ever sent, so the queue keeps growing past 100.
   */
  method QueueCanExceedLimit(info: ErrorInfo) returns (t: ErrorTrackingService)
    requires info.level != Fatal
    ensures fresh(t) && |t.errorQueue| == MaxQueueSize + 1 && t.posts == []
  {
    t := new ErrorTrackingService(true, "");
    var i := 0;
    while i < MaxQueueSize + 1
      invariant 0 <= i <= MaxQueueSize + 1
      invariant t.Valid() && t.serverUrl == "" && t.serverEnabled
      invariant |t.errorQueue| == i && t.posts == []
    {
      t.AddToQueue(info);
      i := i + 1;
    }
  }
}
